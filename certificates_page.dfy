/** The certificates page: its filter state, what it renders, and the pagination
    controls. */
module CertificatesPage {
  import opened Common
  import opened Paging

  const InitialFilters: Query := map[
    "featured" := Flag(false),
    "limit" := Number(12),
    "page" := Number(1),
    "sortBy" := Word("order"),
    "sortOrder" := Word("asc")]

  /** `handleFilterChange(key, value)`: sets the key, then goes back to page 1. */
  function FilterChange(filters: Query, key: string, value: QueryValue): (r: Query)
    ensures r.Keys == filters.Keys + {key, "page"}
    ensures r["page"] == Number(1)
    ensures key != "page" ==> r[key] == value
    ensures forall k :: k in filters && k != key && k != "page" ==> r[k] == filters[k]
  {
    filters[key := value]["page" := Number(1)]
  }

  /** `handlePageChange(page)`: only the page changes. */
  function PageChange(filters: Query, page: int): (r: Query)
    ensures r.Keys == filters.Keys + {"page"}
    ensures r["page"] == Number(page)
    ensures forall k :: k in filters && k != "page" ==> r[k] == filters[k]
  {
    filters["page" := Number(page)]
  }

  /** Changing the same filter twice keeps only the second value. */
  lemma FilterChangeOverrides(filters: Query, key: string, v1: QueryValue, v2: QueryValue)
    ensures FilterChange(FilterChange(filters, key, v1), key, v2) == FilterChange(filters, key, v2)
  {
  }

  /** What the page renders. */
  datatype View<T> = Spinner | ErrorView(message: string) | NoneFound | Grid(certificates: seq<T>)

  /** The loading spinner comes first, then the error (with a retry), then the empty
      notice, then the grid. */
  function ViewFor<T>(loading: bool, error: Option<string>, certificates: seq<T>): (v: View<T>)
    ensures loading <==> v == Spinner
    ensures !loading && error.Some? && error.value != "" <==> v.ErrorView?
    ensures v.ErrorView? ==> v.message == error.value
    ensures v == NoneFound <==> !loading && (error.None? || error.value == "") && certificates == []
    ensures v.Grid? ==> v.certificates == certificates && certificates != []
  {
    if loading then Spinner
    else if error.Some? && error.value != "" then ErrorView(error.value)
    else if certificates == [] then NoneFound
    else Grid(certificates)
  }

  /** The numbered buttons of the pagination bar, drawn below the grid or the empty
      notice (so never with the spinner or the error) when there is more than one page. */
  function PageButtons<T>(loading: bool, error: Option<string>, certificates: seq<T>, pagination: Option<Pagination>): (r: seq<int>)
    ensures (ViewFor(loading, error, certificates).Spinner? || ViewFor(loading, error, certificates).ErrorView?) ==> r == []
    ensures !ShowsPagination(pagination) ==> r == []
    ensures
      && (ViewFor(loading, error, certificates).NoneFound? || ViewFor(loading, error, certificates).Grid?)
      && ShowsPagination(pagination)
      ==> r == PageNumbers(pagination.value.pages) && |r| > 1
  {
    var v := ViewFor(loading, error, certificates);
    if (v.NoneFound? || v.Grid?) && ShowsPagination(pagination) then PageNumbers(pagination.value.pages) else []
  }

  /** A previous or next button: whether it is disabled and the page it asks for. */
  datatype StepButton = StepButton(disabled: bool, target: int)

  function PreviousButton(p: Pagination): (b: StepButton)
    ensures b.disabled <==> p.page == 1
    ensures b.target == p.page - 1
  {
    StepButton(p.page == 1, p.page - 1)
  }

  function NextButton(p: Pagination): (b: StepButton)
    ensures b.disabled <==> p.page == p.pages
    ensures b.target == p.page + 1
  {
    StepButton(p.page == p.pages, p.page + 1)
  }

  /** On a page within range, an enabled step button never asks for a page outside
      1..pages, and each of the two is enabled unless the page is at its end. */
  lemma StepButtonsStayInRange(p: Pagination)
    requires 1 <= p.page <= p.pages
    ensures !PreviousButton(p).disabled ==> PreviousButton(p).target in PageNumbers(p.pages)
    ensures !NextButton(p).disabled ==> NextButton(p).target in PageNumbers(p.pages)
  {
    PageNumbersAscending(p.pages);
  }

  class Page {
    var filters: Query

    constructor ()
      ensures filters == InitialFilters
    {
      filters := InitialFilters;
    }

    method HandleFilterChange(key: string, value: QueryValue)
      modifies this
      ensures filters == FilterChange(old(filters), key, value)
    {
      filters := filters[key := value]["page" := Number(1)];
    }

    method HandlePageChange(page: int)
      modifies this
      ensures filters == PageChange(old(filters), page)
    {
      filters := filters["page" := Number(page)];
    }
  }
}
