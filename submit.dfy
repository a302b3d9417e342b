/** `api/ideas/submit.js`: `POST /submit` and `GET /`. */
module IdeaRoutes {
  import opened Js
  import opened Schema
  import opened Store
  import opened Listing
  import opened Replies
  import opened IdeaModel
  import Validation

  const SubmittedMessage := "Idea submitted successfully"

  /** `data` of the 201 reply: the saved idea's id, its title as `title` and its
      entrepreneur's name as `entrepreneur`. */
  datatype Submission = Submission(id: nat, title: string, entrepreneur: string)

  /** The body passes `validateIdea`. */
  predicate PassesValidation(rt: Runtime, b: Body)
  {
    !Validation.IdeaThrows(b) && Validation.IdeaErrors(rt, b) == []
  }

  /** Every stored idea satisfies the schema. */
  predicate AllValid(docs: seq<Idea>)
  {
    forall i :: 0 <= i < |docs| ==> Valid(docs[i])
  }

  /** What `save()` does with the document built from the body: report the
      schema's errors, or append the document and echo it. */
  ghost predicate Saved(rt: Runtime, before: seq<Idea>, after: seq<Idea>, body: Body,
                        reply: PostReply<Submission>)
  {
    var d := WithDefaults(FromBody(rt, body));
    if Errors(rt, d) != [] then
      reply == ValidationFailed(Messages(Errors(rt, d))) && after == before
    else
      && Valid(d)
      && after == before + [d]
      && reply == Created(SubmittedMessage, Submission(|before|, d.ideaTitle.value, d.entrepreneurName.value))
  }

  /** `POST /submit`: `validateIdea`, then `save()`. There is no duplicate check:
      every idea that passes both is stored, whatever is already there. */
  method Submit(rt: Runtime, store: Collection<Idea>, b: Body) returns (reply: PostReply<Submission>)
    modifies store
    ensures Validation.IdeaThrows(b) ==> reply == ServerError
    ensures !Validation.IdeaThrows(b) && Validation.IdeaErrors(rt, b) != []
            ==> reply == ValidationFailed(Validation.IdeaErrors(rt, b))
    ensures PassesValidation(rt, b)
            ==> "fundingNeeded" in b && Saved(rt, old(store.docs), store.docs, Validation.CleanIdea(rt, b), reply)
    ensures !reply.Created? ==> store.docs == old(store.docs)
    ensures Status(reply) == 201 <==> |store.docs| == |old(store.docs)| + 1
    ensures AllValid(old(store.docs)) ==> AllValid(store.docs)
  {
    var verdict := Validation.ValidateIdea(rt, b);
    if verdict.Crashed? {
      return ServerError;
    }
    if verdict.Rejected? {
      return ValidationFailed(verdict.details);
    }
    reply := Save(rt, store, verdict.body);
  }

  /** `new Idea(req.body).save()`. */
  method Save(rt: Runtime, store: Collection<Idea>, body: Body) returns (reply: PostReply<Submission>)
    modifies store
    ensures Saved(rt, old(store.docs), store.docs, body, reply)
    ensures !reply.Created? ==> store.docs == old(store.docs)
    ensures AllValid(old(store.docs)) ==> AllValid(store.docs)
  {
    var doc := WithDefaults(FromBody(rt, body));
    var errors := Errors(rt, doc);
    if errors != [] {
      return ValidationFailed(Messages(errors));
    }
    ErrorsIffValid(rt, doc);
    AppendKeepsValid(store.docs, doc);
    var id := store.Insert(doc);
    reply := Created(SubmittedMessage, Submission(id, doc.ideaTitle.value, doc.entrepreneurName.value));
  }

  /** Appending a valid idea keeps every stored one valid. */
  lemma AppendKeepsValid(docs: seq<Idea>, d: Idea)
    requires Valid(d)
    ensures AllValid(docs) ==> AllValid(docs + [d])
  {
    assert forall i :: 0 <= i < |docs| ==> (docs + [d])[i] == docs[i];
  }

  /** An idea the validator passes is stored exactly when its name, title and
      description fit their lengths and its status is one of the four; the
      funding and email never stop it. */
  lemma AcceptedIdeaStored(rt: Runtime, b: Body)
    requires PassesValidation(rt, b)
    ensures var d := AcceptedDocument(rt, b);
            Errors(rt, d) == [] <==> (|d.entrepreneurName.value| <= 100 && |d.ideaTitle.value| <= 200
                                      && |d.description.value| <= 2000 && d.status.value in Statuses)
  {
    var d := AcceptedDocument(rt, b);
    AcceptedPaths(rt, b);
    ErrorsIffValid(rt, d);
  }

  // ---------------------------------------------------------------------------
  // GET /

  /** The query string of `GET /`; `limit` and `page` as `parseInt` reads them. */
  datatype Params = Params(
    minFunding: Option<string>, maxFunding: Option<string>, entrepreneur: Option<string>,
    status: Option<string>, limit: Option<int>, page: Option<int>, sort: Option<string>)

  /** The filter passed to `find` and `countDocuments`. */
  datatype Query = Query(fundingNeeded: Option<Range>, entrepreneurName: Option<Pattern>, status: Option<string>)

  /** `q` is the filter the query string asks for: a funding range when either
      bound is given, with each given bound parsed; a case-insensitive
      `entrepreneurName` pattern when `entrepreneur` is given; and a status
      that is "Submitted" unless another is asked for, where an empty `status`
      removes the status filter. */
  predicate IsFilterFor(rt: Runtime, p: Params, q: Query)
  {
    && (q.fundingNeeded.Some? <==> Given(p.minFunding) || Given(p.maxFunding))
    && (q.fundingNeeded.Some?
        ==> (q.fundingNeeded.value.gte.Some? <==> Given(p.minFunding))
            && (q.fundingNeeded.value.lte.Some? <==> Given(p.maxFunding)))
    && (Given(p.minFunding) ==> q.fundingNeeded.value.gte == Some(rt.parseFloat(p.minFunding.value)))
    && (Given(p.maxFunding) ==> q.fundingNeeded.value.lte == Some(rt.parseFloat(p.maxFunding.value)))
    && (q.entrepreneurName.Some? <==> Given(p.entrepreneur))
    && (Given(p.entrepreneur) ==> q.entrepreneurName == Some(CaseInsensitive(p.entrepreneur.value)))
    && (p.status.None? ==> q.status == Some("Submitted"))
    && (p.status.Some? ==> (q.status.Some? <==> Given(p.status)))
    && (Given(p.status) ==> q.status == p.status)
  }

  /** The query string determines the filter: there is only one. */
  lemma FilterIsUnique(rt: Runtime, p: Params, q1: Query, q2: Query)
    requires IsFilterFor(rt, p, q1) && IsFilterFor(rt, p, q2)
    ensures q1 == q2
  {
    if q1.fundingNeeded.Some? {
      assert q1.fundingNeeded.value == q2.fundingNeeded.value;
    }
  }

  /** The filter, built field by field; `None` when `new RegExp` throws on the
      `entrepreneur` text. */
  method BuildQuery(rt: Runtime, p: Params) returns (q: Option<Query>)
    ensures q.None? <==> !PatternOk(rt, p.entrepreneur)
    ensures q.Some? ==> IsFilterFor(rt, p, q.value)
  {
    var status := if p.status.Some? then p.status.value else "Submitted";
    var query := Query(None, None, None);
    var funding := BuildRange(rt, p.minFunding, p.maxFunding);
    query := query.(fundingNeeded := funding);
    if Given(p.entrepreneur) {
      if !rt.validPattern(p.entrepreneur.value) {
        return None;
      }
      query := query.(entrepreneurName := Some(CaseInsensitive(p.entrepreneur.value)));
    }
    if status != "" {
      query := query.(status := Some(status));
    }
    q := Some(query);
  }

  /** `GET /`: `find(q, order)` stands for the documents the database matches
      with the filter `q`, in the order `order`. The reply is a 500 when the
      `entrepreneur` pattern is invalid or the page is below 1; otherwise it is
      the requested page of the matches of the query string's filter, in the
      order its `sort` parameter asks for. */
  method ListIdeas(rt: Runtime, p: Params, find: (Query, SortSpec) -> seq<Idea>) returns (r: ListReply<Idea>)
    requires LimitOf(p.limit) >= 1
    ensures r.Listed? <==> PatternOk(rt, p.entrepreneur) && PageNumberOf(p.page) >= 1
    ensures r.Listed? ==> exists q :: IsFilterFor(rt, p, q)
    ensures r.Listed? ==> forall q :: IsFilterFor(rt, p, q) ==> r == List(find(q, ParseSort(p.sort)), p.limit, p.page)
  {
    var query := BuildQuery(rt, p);
    if query.None? {
      return ListFailed;
    }
    var order := ParseSort(p.sort);
    r := List(find(query.value, order), p.limit, p.page);
    forall q | IsFilterFor(rt, p, q) ensures q == query.value {
      FilterIsUnique(rt, p, q, query.value);
    }
  }
}
