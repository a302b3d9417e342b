/** `api/entrepreneurs/register.js`: `POST /register` and `GET /`. */
module EntrepreneurRoutes {
  import opened Js
  import opened Text
  import opened Schema
  import opened Store
  import opened Listing
  import opened Replies
  import opened EntrepreneurModel
  import Validation

  const RegisteredMessage := "Entrepreneur registered successfully"
  const DuplicateMessage := "An entrepreneur with this email already exists"

  /** `data` of the 201 reply: the saved document's id, name and email. */
  datatype Registration = Registration(id: nat, name: string, email: string)

  /** The body passes `validateEntrepreneur`. */
  predicate PassesValidation(rt: Runtime, b: Body)
  {
    !Validation.EntrepreneurThrows(b) && Validation.EntrepreneurErrors(rt, b) == []
  }

  /** `findOne({ email })` matches a document: the filter value goes through the
      path's lowercase setter, like the stored email did. */
  predicate HasEmail(e: Entrepreneur, email: string)
  {
    e.email == Some(Lower(email))
  }

  /** Some stored entrepreneur has the email. */
  predicate IsRegistered(docs: seq<Entrepreneur>, email: string)
  {
    exists i :: 0 <= i < |docs| && HasEmail(docs[i], email)
  }

  /** No two stored entrepreneurs share an email (what the unique index promises). */
  predicate EmailsUnique(docs: seq<Entrepreneur>)
  {
    forall i, j :: 0 <= i < j < |docs| ==> docs[i].email != docs[j].email
  }

  /** Every stored entrepreneur satisfies the schema. */
  predicate AllValid(docs: seq<Entrepreneur>)
  {
    forall i :: 0 <= i < |docs| ==> Valid(docs[i])
  }

  /** `POST /register`: `validateEntrepreneur`, then the duplicate-email gate,
      then `save()`. */
  method Register(rt: Runtime, store: Collection<Entrepreneur>, b: Body) returns (reply: PostReply<Registration>)
    modifies store
    ensures Validation.EntrepreneurThrows(b) ==> reply == ServerError
    ensures !Validation.EntrepreneurThrows(b) && Validation.EntrepreneurErrors(rt, b) != []
            ==> reply == ValidationFailed(Validation.EntrepreneurErrors(rt, b))
    ensures PassesValidation(rt, b)
            ==> "phone" in b && Admitted(rt, old(store.docs), store.docs, Validation.CleanEntrepreneur(rt, b), reply)
    ensures !reply.Created? ==> store.docs == old(store.docs)
    ensures Status(reply) == 201 <==> |store.docs| == |old(store.docs)| + 1
    ensures AllValid(old(store.docs)) ==> AllValid(store.docs)
    ensures EmailsUnique(old(store.docs)) ==> EmailsUnique(store.docs)
  {
    var verdict := Validation.ValidateEntrepreneur(rt, b);
    if verdict.Crashed? {
      return ServerError;
    }
    if verdict.Rejected? {
      return ValidationFailed(verdict.details);
    }
    reply := Admit(rt, store, verdict.body);
  }

  /** What the handler does with the body `validateEntrepreneur` handed on:
      refuse a registered email, otherwise try to save. */
  ghost predicate Admitted(rt: Runtime, before: seq<Entrepreneur>, after: seq<Entrepreneur>, body: Body,
                           reply: PostReply<Registration>)
    requires "email" in body && body["email"].Str?
  {
    if IsRegistered(before, body["email"].text) then
      reply == AlreadyRegistered(DuplicateMessage) && after == before
    else
      Saved(rt, before, after, body, reply)
  }

  /** What `save()` does with the document built from the body: report the
      schema's errors, or append the document and echo it. */
  ghost predicate Saved(rt: Runtime, before: seq<Entrepreneur>, after: seq<Entrepreneur>, body: Body,
                        reply: PostReply<Registration>)
  {
    var d := WithDefaults(FromBody(rt, body));
    if Errors(d) != [] then
      reply == ValidationFailed(Messages(Errors(d))) && after == before
    else
      && Valid(d)
      && after == before + [d]
      && reply == Created(RegisteredMessage, Registration(|before|, d.name.value, d.email.value))
  }

  /** The route handler proper, run on the body `validateEntrepreneur` handed on. */
  method Admit(rt: Runtime, store: Collection<Entrepreneur>, body: Body) returns (reply: PostReply<Registration>)
    requires "email" in body && body["email"].Str?
    modifies store
    ensures Admitted(rt, old(store.docs), store.docs, body, reply)
    ensures !reply.Created? ==> store.docs == old(store.docs)
    ensures AllValid(old(store.docs)) ==> AllValid(store.docs)
    ensures EmailsUnique(old(store.docs)) ==> EmailsUnique(store.docs)
  {
    var email := body["email"].text;
    var existing := FindFirst(store.docs, d => HasEmail(d, email));
    if existing.Some? {
      assert IsRegistered(store.docs, email);
      return AlreadyRegistered(DuplicateMessage);
    }
    assert !IsRegistered(store.docs, email) by {
      assert forall j :: 0 <= j < |store.docs| ==> !HasEmail(store.docs[j], email);
    }
    reply := Save(rt, store, body);
  }

  /** `new Entrepreneur(req.body).save()` once the email is known to be new. */
  method Save(rt: Runtime, store: Collection<Entrepreneur>, body: Body) returns (reply: PostReply<Registration>)
    requires "email" in body && body["email"].Str? && !IsRegistered(store.docs, body["email"].text)
    modifies store
    ensures Saved(rt, old(store.docs), store.docs, body, reply)
    ensures !reply.Created? ==> store.docs == old(store.docs)
    ensures AllValid(old(store.docs)) ==> AllValid(store.docs)
    ensures EmailsUnique(old(store.docs)) ==> EmailsUnique(store.docs)
  {
    var doc := WithDefaults(FromBody(rt, body));
    var errors := Errors(doc);
    if errors != [] {
      return ValidationFailed(Messages(errors));
    }
    ErrorsIffValid(doc);
    NewEmailKeepsUnique(store.docs, doc, body["email"].text);
    AppendKeepsValid(store.docs, doc);
    var id := store.Insert(doc);
    reply := Created(RegisteredMessage, Registration(id, doc.name.value, doc.email.value));
  }

  /** Appending an entrepreneur whose email no stored one has keeps emails unique. */
  lemma NewEmailKeepsUnique(docs: seq<Entrepreneur>, d: Entrepreneur, email: string)
    requires d.email == Some(Lower(email)) && !IsRegistered(docs, email)
    ensures EmailsUnique(docs) ==> EmailsUnique(docs + [d])
  {
    var all := docs + [d];
    forall i, j | EmailsUnique(docs) && 0 <= i < j < |all| ensures all[i].email != all[j].email {
      if j == |docs| {
        assert all[i] == docs[i] && !HasEmail(docs[i], email);
      } else {
        assert all[i] == docs[i] && all[j] == docs[j];
      }
    }
  }

  /** Appending a valid entrepreneur keeps every stored one valid. */
  lemma AppendKeepsValid(docs: seq<Entrepreneur>, d: Entrepreneur)
    requires Valid(d)
    ensures AllValid(docs) ==> AllValid(docs + [d])
  {
    assert forall i :: 0 <= i < |docs| ==> (docs + [d])[i] == docs[i];
  }

  /** Once an entrepreneur is registered, the same email again, in any mix of
      upper and lower case, is refused by the duplicate gate. */
  lemma SecondRegistrationRefused(rt: Runtime, docs: seq<Entrepreneur>, b: Body, email: string)
    requires PassesValidation(rt, b) && Lower(email) == Lower(b["email"].text)
    ensures IsRegistered(docs + [AcceptedDocument(rt, b)], email)
  {
    AcceptedPaths(rt, b);
    assert HasEmail((docs + [AcceptedDocument(rt, b)])[|docs|], email);
  }

  // ---------------------------------------------------------------------------
  // GET /

  /** The query string of `GET /`; `limit` and `page` as `parseInt` reads them. */
  datatype Params = Params(sector: Option<string>, stage: Option<string>, limit: Option<int>, page: Option<int>)

  /** The filter passed to `find` and `countDocuments`. */
  datatype Query = Query(sector: Option<Pattern>, startupStage: Option<string>)

  /** The filter: a case-insensitive `sector` pattern when `sector` is given, an
      exact `startupStage` when `stage` is given, nothing else. `None` when the
      `sector` text is not a valid pattern, so that `new RegExp` throws. */
  function QueryFor(rt: Runtime, p: Params): (q: Option<Query>)
    ensures q.None? <==> !PatternOk(rt, p.sector)
    ensures q.Some? ==> (q.value.sector.Some? <==> Given(p.sector))
    ensures q.Some? && Given(p.sector) ==> q.value.sector == Some(CaseInsensitive(p.sector.value))
    ensures q.Some? ==> (q.value.startupStage.Some? <==> Given(p.stage))
    ensures q.Some? && Given(p.stage) ==> q.value.startupStage == p.stage
  {
    if Given(p.sector) && !rt.validPattern(p.sector.value) then None
    else Some(Query(if Given(p.sector) then Some(CaseInsensitive(p.sector.value)) else None,
                    if Given(p.stage) then p.stage else None))
  }

  /** Entrepreneurs are always listed newest first. */
  const Order: SortSpec := SortSpec("createdAt", -1)

  /** `GET /`: `find(q, order)` stands for the documents the database matches
      with the filter `q`, in the order `order`. The reply is a 500 when the
      `sector` pattern is invalid or the page is below 1; otherwise it is the
      requested page of the newest-first matches. */
  function ListEntrepreneurs(rt: Runtime, p: Params, find: (Query, SortSpec) -> seq<Entrepreneur>)
    : (r: ListReply<Entrepreneur>)
    requires LimitOf(p.limit) >= 1
    ensures r.Listed? <==> PatternOk(rt, p.sector) && PageNumberOf(p.page) >= 1
    ensures r.Listed? ==> r == List(find(QueryFor(rt, p).value, Order), p.limit, p.page)
  {
    var q := QueryFor(rt, p);
    if q.None? then ListFailed else List(find(q.value, Order), p.limit, p.page)
  }
}
