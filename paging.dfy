/** Query parameters, list responses and the page range shared by the list pages. */
module Paging {
  import opened Common

  /** A value in a filter or query object. */
  datatype QueryValue = Flag(flag: bool) | Number(number: int) | Word(word: string)

  type Query = map<string, QueryValue>

  /** The `pagination` object of a list response. */
  datatype Pagination = Pagination(page: int, pages: int, total: int)

  /** A list response: `response.data` and `response.pagination`. */
  datatype ListResponse<T> = ListResponse(data: seq<T>, pagination: Option<Pagination>)

  /** `{ ...filters, ...params }`: every key of either, with `params` winning. */
  function Merge(filters: Query, params: Query): (r: Query)
    ensures r.Keys == filters.Keys + params.Keys
    ensures forall k :: k in params ==> r[k] == params[k]
    ensures forall k :: k in filters && k !in params ==> r[k] == filters[k]
  {
    filters + params
  }

  /** Spreading no extra parameters is sending the filters themselves. */
  lemma MergeNothing(filters: Query)
    ensures Merge(filters, map[]) == filters
  {
  }

  /** Spreading the same parameters twice is spreading them once. */
  lemma MergeTwice(filters: Query, params: Query)
    ensures Merge(Merge(filters, params), params) == Merge(filters, params)
  {
  }

  /** An effect keyed on `JSON.stringify(value)` runs on the first render and then
      exactly when the value differs from the one it last ran with (the serialisation
      is taken to be injective). */
  predicate EffectRuns(previous: Option<Query>, current: Query)
  {
    previous.None? || previous.value != current
  }

  /** `Array.from({ length: pages }, (_, i) => i + 1)`; a length below 1 gives no pages. */
  function PageNumbers(pages: int): (r: seq<int>)
    ensures |r| == if pages > 0 then pages else 0
    ensures forall k :: 0 <= k < |r| ==> r[k] == k + 1
  {
    if pages <= 0 then [] else seq(pages, k requires 0 <= k < pages => k + 1)
  }

  /** The page buttons are exactly 1..pages, each once, in ascending order. */
  lemma PageNumbersAscending(pages: int)
    ensures forall i, j :: 0 <= i < j < |PageNumbers(pages)| ==> PageNumbers(pages)[i] < PageNumbers(pages)[j]
    ensures forall p :: p in PageNumbers(pages) <==> 1 <= p <= pages
  {
    var r := PageNumbers(pages);
    forall p | 1 <= p <= pages ensures p in r {
      assert r[p - 1] == p;
    }
  }

  /** `pagination && pagination.pages > 1`. */
  predicate ShowsPagination(pagination: Option<Pagination>)
  {
    pagination.Some? && pagination.value.pages > 1
  }
}
