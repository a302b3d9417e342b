/** `api/investors/proposals.js`: `POST /proposals` and `GET /`. */
module InvestorRoutes {
  import opened Js
  import opened Text
  import opened Schema
  import opened Store
  import opened Listing
  import opened Replies
  import opened InvestorModel
  import Validation

  const SubmittedMessage := "Investor profile submitted successfully"
  const DuplicateMessage := "An investor with this email already exists"

  /** `data` of the 201 reply: the saved document's id, name, email and capacity. */
  datatype Proposal = Proposal(id: nat, name: string, email: string, investmentCapacity: Number)

  /** The body passes `validateInvestor`. */
  predicate PassesValidation(rt: Runtime, b: Body)
  {
    !Validation.InvestorThrows(b) && Validation.InvestorErrors(rt, b) == []
  }

  /** `findOne({ email })` matches a document: the filter value goes through the
      path's lowercase setter, like the stored email did. */
  predicate HasEmail(d: Investor, email: string)
  {
    d.email == Some(Lower(email))
  }

  /** Some stored investor has the email. */
  predicate IsRegistered(docs: seq<Investor>, email: string)
  {
    exists i :: 0 <= i < |docs| && HasEmail(docs[i], email)
  }

  /** No two stored investors share an email (what the unique index promises). */
  predicate EmailsUnique(docs: seq<Investor>)
  {
    forall i, j :: 0 <= i < j < |docs| ==> docs[i].email != docs[j].email
  }

  /** Every stored investor satisfies the schema. */
  predicate AllValid(docs: seq<Investor>)
  {
    forall i :: 0 <= i < |docs| ==> Valid(docs[i])
  }

  /** `POST /proposals`: `validateInvestor`, then the duplicate-email gate, then `save()`. */
  method Propose(rt: Runtime, store: Collection<Investor>, b: Body) returns (reply: PostReply<Proposal>)
    modifies store
    ensures Validation.InvestorThrows(b) ==> reply == ServerError
    ensures !Validation.InvestorThrows(b) && Validation.InvestorErrors(rt, b) != []
            ==> reply == ValidationFailed(Validation.InvestorErrors(rt, b))
    ensures PassesValidation(rt, b)
            ==> "phone" in b && "investmentCapacity" in b
                && Admitted(rt, old(store.docs), store.docs, Validation.CleanInvestor(rt, b), reply)
    ensures !reply.Created? ==> store.docs == old(store.docs)
    ensures Status(reply) == 201 <==> |store.docs| == |old(store.docs)| + 1
    ensures AllValid(old(store.docs)) ==> AllValid(store.docs)
    ensures EmailsUnique(old(store.docs)) ==> EmailsUnique(store.docs)
  {
    var verdict := Validation.ValidateInvestor(rt, b);
    if verdict.Crashed? {
      return ServerError;
    }
    if verdict.Rejected? {
      return ValidationFailed(verdict.details);
    }
    reply := Admit(rt, store, verdict.body);
  }

  /** What the handler does with the body `validateInvestor` handed on: refuse a
      registered email, otherwise try to save. */
  ghost predicate Admitted(rt: Runtime, before: seq<Investor>, after: seq<Investor>, body: Body,
                           reply: PostReply<Proposal>)
    requires "email" in body && body["email"].Str?
  {
    if IsRegistered(before, body["email"].text) then
      reply == AlreadyRegistered(DuplicateMessage) && after == before
    else
      Saved(rt, before, after, body, reply)
  }

  /** What `save()` does with the document built from the body: report the
      schema's errors, or append the document and echo it. */
  ghost predicate Saved(rt: Runtime, before: seq<Investor>, after: seq<Investor>, body: Body,
                        reply: PostReply<Proposal>)
  {
    var d := WithDefaults(FromBody(rt, body));
    if Errors(rt, d) != [] then
      reply == ValidationFailed(Messages(Errors(rt, d))) && after == before
    else
      && Valid(d)
      && after == before + [d]
      && reply == Created(SubmittedMessage,
                          Proposal(|before|, d.name.value, d.email.value, d.investmentCapacity.n))
  }

  /** The route handler proper, run on the body `validateInvestor` handed on. */
  method Admit(rt: Runtime, store: Collection<Investor>, body: Body) returns (reply: PostReply<Proposal>)
    requires "email" in body && body["email"].Str?
    modifies store
    ensures Admitted(rt, old(store.docs), store.docs, body, reply)
    ensures !reply.Created? ==> store.docs == old(store.docs)
    ensures AllValid(old(store.docs)) ==> AllValid(store.docs)
    ensures EmailsUnique(old(store.docs)) ==> EmailsUnique(store.docs)
  {
    var email := body["email"].text;
    var existing := FindFirst(store.docs, d => HasEmail(d, email));
    if existing.Some? {
      assert IsRegistered(store.docs, email);
      return AlreadyRegistered(DuplicateMessage);
    }
    assert !IsRegistered(store.docs, email) by {
      assert forall j :: 0 <= j < |store.docs| ==> !HasEmail(store.docs[j], email);
    }
    reply := Save(rt, store, body);
  }

  /** `new Investor(req.body).save()` once the email is known to be new. */
  method Save(rt: Runtime, store: Collection<Investor>, body: Body) returns (reply: PostReply<Proposal>)
    requires "email" in body && body["email"].Str? && !IsRegistered(store.docs, body["email"].text)
    modifies store
    ensures Saved(rt, old(store.docs), store.docs, body, reply)
    ensures !reply.Created? ==> store.docs == old(store.docs)
    ensures AllValid(old(store.docs)) ==> AllValid(store.docs)
    ensures EmailsUnique(old(store.docs)) ==> EmailsUnique(store.docs)
  {
    var doc := WithDefaults(FromBody(rt, body));
    var errors := Errors(rt, doc);
    if errors != [] {
      return ValidationFailed(Messages(errors));
    }
    ErrorsIffValid(rt, doc);
    NewEmailKeepsUnique(store.docs, doc, body["email"].text);
    AppendKeepsValid(store.docs, doc);
    var id := store.Insert(doc);
    reply := Created(SubmittedMessage, Proposal(id, doc.name.value, doc.email.value, doc.investmentCapacity.n));
  }

  /** Appending an investor whose email no stored one has keeps emails unique. */
  lemma NewEmailKeepsUnique(docs: seq<Investor>, d: Investor, email: string)
    requires d.email == Some(Lower(email)) && !IsRegistered(docs, email)
    ensures EmailsUnique(docs) ==> EmailsUnique(docs + [d])
  {
    var all := docs + [d];
    forall i, j | EmailsUnique(docs) && 0 <= i < j < |all| ensures all[i].email != all[j].email {
      if j == |docs| {
        assert all[i] == docs[i] && !HasEmail(docs[i], email);
      } else {
        assert all[i] == docs[i] && all[j] == docs[j];
      }
    }
  }

  /** Appending a valid investor keeps every stored one valid. */
  lemma AppendKeepsValid(docs: seq<Investor>, d: Investor)
    requires Valid(d)
    ensures AllValid(docs) ==> AllValid(docs + [d])
  {
    assert forall i :: 0 <= i < |docs| ==> (docs + [d])[i] == docs[i];
  }

  /** Once an investor is stored, the same email again, in any mix of upper and
      lower case, is refused by the duplicate gate. */
  lemma SecondProposalRefused(rt: Runtime, docs: seq<Investor>, b: Body, email: string)
    requires PassesValidation(rt, b) && Lower(email) == Lower(b["email"].text)
    ensures IsRegistered(docs + [AcceptedDocument(rt, b)], email)
  {
    AcceptedPaths(rt, b);
    assert HasEmail((docs + [AcceptedDocument(rt, b)])[|docs|], email);
  }

  // ---------------------------------------------------------------------------
  // GET /

  /** The query string of `GET /`; `limit` and `page` as `parseInt` reads them. */
  datatype Params = Params(
    minCapacity: Option<string>, maxCapacity: Option<string>, sector: Option<string>,
    investmentType: Option<string>, riskTolerance: Option<string>,
    limit: Option<int>, page: Option<int>, sort: Option<string>)

  /** The filter passed to `find` and `countDocuments`. */
  datatype Query = Query(
    investmentCapacity: Option<Range>, sectorInterest: Option<Pattern>,
    investmentType: Option<string>, riskTolerance: Option<string>)

  /** `q` is the filter the query string asks for: a capacity range when
      either bound is given, with each given bound parsed; a case-insensitive
      `sectorInterest` pattern when `sector` is given; exact `investmentType`
      and `riskTolerance` matches when given; nothing else. */
  predicate IsFilterFor(rt: Runtime, p: Params, q: Query)
  {
    && (q.investmentCapacity.Some? <==> Given(p.minCapacity) || Given(p.maxCapacity))
    && (q.investmentCapacity.Some?
        ==> (q.investmentCapacity.value.gte.Some? <==> Given(p.minCapacity))
            && (q.investmentCapacity.value.lte.Some? <==> Given(p.maxCapacity)))
    && (Given(p.minCapacity) ==> q.investmentCapacity.value.gte == Some(rt.parseFloat(p.minCapacity.value)))
    && (Given(p.maxCapacity) ==> q.investmentCapacity.value.lte == Some(rt.parseFloat(p.maxCapacity.value)))
    && (q.sectorInterest.Some? <==> Given(p.sector))
    && (Given(p.sector) ==> q.sectorInterest == Some(CaseInsensitive(p.sector.value)))
    && (q.investmentType.Some? <==> Given(p.investmentType))
    && (Given(p.investmentType) ==> q.investmentType == p.investmentType)
    && (q.riskTolerance.Some? <==> Given(p.riskTolerance))
    && (Given(p.riskTolerance) ==> q.riskTolerance == p.riskTolerance)
  }

  /** The query string determines the filter: there is only one. */
  lemma FilterIsUnique(rt: Runtime, p: Params, q1: Query, q2: Query)
    requires IsFilterFor(rt, p, q1) && IsFilterFor(rt, p, q2)
    ensures q1 == q2
  {
    if q1.investmentCapacity.Some? {
      assert q1.investmentCapacity.value == q2.investmentCapacity.value;
    }
  }

  /** The filter, built field by field; `None` when `new RegExp` throws on the
      `sector` text. */
  method BuildQuery(rt: Runtime, p: Params) returns (q: Option<Query>)
    ensures q.None? <==> !PatternOk(rt, p.sector)
    ensures q.Some? ==> IsFilterFor(rt, p, q.value)
  {
    var query := Query(None, None, None, None);
    var capacity := BuildRange(rt, p.minCapacity, p.maxCapacity);
    query := query.(investmentCapacity := capacity);
    if Given(p.sector) {
      if !rt.validPattern(p.sector.value) {
        return None;
      }
      query := query.(sectorInterest := Some(CaseInsensitive(p.sector.value)));
    }
    if Given(p.investmentType) {
      query := query.(investmentType := p.investmentType);
    }
    if Given(p.riskTolerance) {
      query := query.(riskTolerance := p.riskTolerance);
    }
    q := Some(query);
  }

  /** `GET /`: `find(q, order)` stands for the documents the database matches
      with the filter `q`, in the order `order`. The reply is a 500 when the
      `sector` pattern is invalid or the page is below 1; otherwise it is the
      requested page of the matches of the query string's filter, in the order
      its `sort` parameter asks for. */
  method ListInvestors(rt: Runtime, p: Params, find: (Query, SortSpec) -> seq<Investor>)
    returns (r: ListReply<Investor>)
    requires LimitOf(p.limit) >= 1
    ensures r.Listed? <==> PatternOk(rt, p.sector) && PageNumberOf(p.page) >= 1
    ensures r.Listed? ==> exists q :: IsFilterFor(rt, p, q)
    ensures r.Listed? ==> forall q :: IsFilterFor(rt, p, q) ==> r == List(find(q, ParseSort(p.sort)), p.limit, p.page)
  {
    var query := BuildQuery(rt, p);
    if query.None? {
      return ListFailed;
    }
    var order := ParseSort(p.sort);
    r := List(find(query.value, order), p.limit, p.page);
    forall q | IsFilterFor(rt, p, q) ensures q == query.value {
      FilterIsUnique(rt, p, q, query.value);
    }
  }
}
