/** What the three `GET /` handlers share: query-string parameters, range and
    pattern filters, the `sort` parameter, and pagination by `skip`/`limit`. */
module Listing {
  import opened Js

  /** A query-string parameter counts as given when it is truthy: present and non-empty. */
  predicate Given(p: Option<string>)
  {
    p.Some? && p.value != ""
  }

  /** `new RegExp(text, 'i')` as a filter value. How it matches is not modelled:
      the text is a regular expression, not a substring. */
  datatype Pattern = CaseInsensitive(source: string)

  /** `new RegExp(text, 'i')` on the parameter does not throw: the parameter is
      not given, so no pattern is built, or its text is a valid pattern. */
  predicate PatternOk(rt: Runtime, text: Option<string>)
  {
    !Given(text) || rt.validPattern(text.value)
  }

  /** A range filter `{ $gte, $lte }`; each bound is present or not. */
  datatype Range = Range(gte: Option<Number>, lte: Option<Number>)

  /** The range filter built from a minimum and a maximum parameter: the filter
      exists when either is given, and each bound is the parsed parameter. */
  method BuildRange(rt: Runtime, min: Option<string>, max: Option<string>) returns (r: Option<Range>)
    ensures r.Some? <==> Given(min) || Given(max)
    ensures r.Some? ==> (r.value.gte.Some? <==> Given(min)) && (r.value.lte.Some? <==> Given(max))
    ensures Given(min) ==> r.value.gte == Some(rt.parseFloat(min.value))
    ensures Given(max) ==> r.value.lte == Some(rt.parseFloat(max.value))
  {
    r := None;
    if Given(min) || Given(max) {
      var range := Range(None, None);
      if Given(min) {
        range := range.(gte := Some(rt.parseFloat(min.value)));
      }
      if Given(max) {
        range := range.(lte := Some(rt.parseFloat(max.value)));
      }
      r := Some(range);
    }
  }

  // ---------------------------------------------------------------------------
  // Sorting.

  /** `{ [field]: order }` with order 1 (ascending) or -1 (descending). */
  datatype SortSpec = SortSpec(field: string, order: int)

  /** The `sort` parameter, `'createdAt'` when absent: a leading `-` means
      descending and is removed from the field name. */
  function ParseSort(sort: Option<string>): (s: SortSpec)
    ensures s.order == 1 || s.order == -1
    ensures sort.None? ==> s == SortSpec("createdAt", 1)
    ensures sort.Some? ==> (s.order == -1 <==> |sort.value| > 0 && sort.value[0] == '-')
  {
    var text := if sort.Some? then sort.value else "createdAt";
    if |text| > 0 && text[0] == '-' then SortSpec(text[1..], -1) else SortSpec(text, 1)
  }

  /** The `sort` parameter that asks for `spec`. */
  function SortText(spec: SortSpec): string
  {
    (if spec.order == -1 then "-" else "") + spec.field
  }

  /** Parsing loses nothing: the field and order give back the parameter. */
  lemma SortRoundTrip(sort: string)
    ensures SortText(ParseSort(Some(sort))) == sort
  {
    if |sort| > 0 && sort[0] == '-' {
      assert "-" + sort[1..] == sort;
    }
  }

  /** Every ascending sort on a field not starting with `-`, and every
      descending sort, is asked for by exactly the text `SortText` gives. */
  lemma SortTextParses(spec: SortSpec)
    requires spec.order == -1 || (spec.order == 1 && (spec.field == [] || spec.field[0] != '-'))
    ensures ParseSort(Some(SortText(spec))) == spec
  {
    if spec.order == -1 {
      assert SortText(spec)[1..] == spec.field;
    } else {
      assert SortText(spec) == spec.field;
    }
  }

  // ---------------------------------------------------------------------------
  // Pagination.

  const DefaultLimit: int := 50
  const DefaultPage: int := 1

  /** `parseInt(limit)` with the default 50. */
  function LimitOf(limit: Option<int>): (n: int)
    ensures limit.None? ==> n == DefaultLimit
    ensures limit.Some? ==> n == limit.value
  {
    if limit.Some? then limit.value else DefaultLimit
  }

  /** `parseInt(page)` with the default 1. */
  function PageNumberOf(page: Option<int>): (n: int)
    ensures page.None? ==> n == DefaultPage
    ensures page.Some? ==> n == page.value
  {
    if page.Some? then page.value else DefaultPage
  }

  /** `Math.ceil(total / limit)`: the fewest pages of `limit` documents that hold `total`. */
  function PageCount(total: nat, limit: int): (pages: nat)
    requires limit >= 1
    ensures pages * limit >= total
    ensures pages > 0 ==> (pages - 1) * limit < total
    ensures pages == 0 <==> total == 0
  {
    (total + limit - 1) / limit
  }

  /** `.skip(skip).limit(limit)` on the matching documents in sort order:
      MongoDB skips first, whatever the order of the calls. */
  function PageOf<T>(found: seq<T>, skip: nat, limit: nat): (r: seq<T>)
    ensures |r| <= limit
    ensures skip <= |found| ==> |r| == if skip + limit <= |found| then limit else |found| - skip
    ensures forall i :: 0 <= i < |r| ==> skip + i < |found| && r[i] == found[skip + i]
  {
    if skip >= |found| then []
    else if skip + limit <= |found| then found[skip..skip + limit]
    else found[skip..]
  }

  /** Pages 1 to n, one after the other. */
  function FirstPages<T>(found: seq<T>, limit: nat, n: nat): seq<T>
  {
    if n == 0 then [] else FirstPages(found, limit, n - 1) + PageOf(found, (n - 1) * limit, limit)
  }

  /** The smaller of a position and the length of what is found. */
  function Clamp<T>(found: seq<T>, x: nat): (r: nat)
    ensures r <= |found| && r <= x
    ensures r == x || r == |found|
  {
    if x <= |found| then x else |found|
  }

  /** A page is the stretch of documents between its clamped ends. */
  lemma PageIsSlice<T>(found: seq<T>, skip: nat, limit: nat)
    ensures PageOf(found, skip, limit) == found[Clamp(found, skip)..Clamp(found, skip + limit)]
  {
  }

  /** Pages 1 to n hold the first n * limit documents, in order. */
  lemma {:induction false} FirstPagesPrefix<T>(found: seq<T>, limit: nat, n: nat)
    ensures FirstPages(found, limit, n) == found[..Clamp(found, n * limit)]
  {
    if n > 0 {
      var start := (n - 1) * limit;
      MulStep(n, limit);
      FirstPagesPrefix(found, limit, n - 1);
      PageIsSlice(found, start, limit);
      SliceJoin(found, Clamp(found, start), Clamp(found, start + limit));
    }
  }

  lemma MulStep(n: nat, limit: nat)
    requires n >= 1
    ensures n * limit == (n - 1) * limit + limit
  {
  }

  lemma SliceJoin<T>(s: seq<T>, i: nat, j: nat)
    requires i <= j <= |s|
    ensures s[..i] + s[i..j] == s[..j]
  {
  }

  /** Multiplying by a non-negative number keeps the order. */
  lemma MulMonotone(a: int, b: int, c: int)
    requires a <= b && c >= 0
    ensures a * c <= b * c
  {
  }

  /** The pages 1 to `pages` partition the matching documents: read one after
      the other they give every document once, in order, and any later page is empty. */
  lemma PagesPartition<T>(found: seq<T>, limit: int, page: int)
    requires limit >= 1
    ensures FirstPages(found, limit, PageCount(|found|, limit)) == found
    ensures page > PageCount(|found|, limit) ==> PageOf(found, (page - 1) * limit, limit) == []
  {
    var pages := PageCount(|found|, limit);
    FirstPagesPrefix(found, limit, pages);
    assert found[..|found|] == found;
    if page > pages {
      MulMonotone(pages, page - 1, limit);
    }
  }

  /** The `pagination` object of a listing. */
  datatype Pagination = Pagination(total: nat, page: int, pages: nat)

  /** The reply of a `GET /` handler: 200 with a page of documents, or 500 when
      the query fails. */
  datatype ListReply<T> = Listed(data: seq<T>, pagination: Pagination) | ListFailed

  /** `(parseInt(page) - 1) * parseInt(limit)`, the number of documents skipped. */
  function SkipOf(limit: Option<int>, page: Option<int>): (skip: int)
    requires LimitOf(limit) >= 1
    ensures skip < 0 <==> PageNumberOf(page) < 1
  {
    SkipSign(PageNumberOf(page), LimitOf(limit));
    (PageNumberOf(page) - 1) * LimitOf(limit)
  }

  /** With a positive limit, `skip` is negative exactly for a page below 1. */
  lemma SkipSign(p: int, n: int)
    requires n >= 1
    ensures (p - 1) * n < 0 <==> p < 1
  {
    if p >= 1 {
      MulMonotone(0, p - 1, n);
    } else {
      MulMonotone(p - 1, -1, n);
    }
  }

  /** A listing of `found`, the documents the query matches in sort order. Page 0
      or below asks for a negative `skip`, which the database refuses. Otherwise
      the reply holds exactly the documents from `skip` on, up to `limit` of them. */
  function List<T>(found: seq<T>, limit: Option<int>, page: Option<int>): (r: ListReply<T>)
    requires LimitOf(limit) >= 1
    ensures PageNumberOf(page) < 1 <==> r.ListFailed?
    ensures r.Listed? ==> r.pagination.total == |found| && r.pagination.page == PageNumberOf(page)
                          && r.pagination.pages == PageCount(|found|, LimitOf(limit))
    ensures r.Listed? ==> SkipOf(limit, page) >= 0
                          && r.data == PageOf(found, SkipOf(limit, page), LimitOf(limit))
    ensures r.Listed? ==> |r.data| <= LimitOf(limit)
                          && forall i :: 0 <= i < |r.data| ==>
                               0 <= SkipOf(limit, page) + i < |found| && r.data[i] == found[SkipOf(limit, page) + i]
  {
    var n, p := LimitOf(limit), PageNumberOf(page);
    var skip := SkipOf(limit, page);
    if skip < 0 then ListFailed
    else Listed(PageOf(found, skip, n), Pagination(|found|, p, PageCount(|found|, n)))
  }

  /** With no `limit` and no `page` a listing is the first page of 50. */
  lemma FirstFifty<T>(found: seq<T>)
    ensures List(found, None, None)
            == Listed(found[..if |found| <= 50 then |found| else 50], Pagination(|found|, 1, PageCount(|found|, 50)))
  {
  }
}
