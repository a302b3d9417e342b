/** A MongoDB collection as the route handlers use it: `findOne` and `save`.
    Documents are kept in insertion order and a document's `_id` is its position. */
module Store {
  import opened Js

  class Collection<T> {
    var docs: seq<T>

    /** An empty collection. */
    constructor ()
      ensures docs == []
    {
      docs := [];
    }

    /** `save()` of a new document: it is appended and its `_id` returned. */
    method Insert(d: T) returns (id: nat)
      modifies this
      ensures docs == old(docs) + [d]
      ensures id == |old(docs)| && id < |docs| && docs[id] == d
    {
      id := |docs|;
      docs := docs + [d];
    }
  }

  /** `findOne(filter)`: the position of the first document the filter matches. */
  function FindFirst<T>(docs: seq<T>, matches: T -> bool): (r: Option<nat>)
    ensures r.Some? ==> r.value < |docs| && matches(docs[r.value])
                        && forall j :: 0 <= j < r.value ==> !matches(docs[j])
    ensures r.None? <==> forall j :: 0 <= j < |docs| ==> !matches(docs[j])
  {
    if docs == [] then None
    else if matches(docs[0]) then Some(0)
    else
      var rest := FindFirst(docs[1..], matches);
      assert forall j :: 1 <= j < |docs| ==> docs[j] == docs[1..][j - 1];
      if rest.Some? then Some(rest.value + 1) else None
  }
}
