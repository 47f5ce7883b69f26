/** The projects page: its filter state and what it renders. */
module ProjectsPage {
  import opened Common
  import opened Paging

  const InitialFilters: Query := map[
    "featured" := Flag(false),
    "sortBy" := Word("createdAt"),
    "sortOrder" := Word("desc")]

  /** `handleFilterChange(key, value)`: sets that key alone; the page is kept. */
  function FilterChange(filters: Query, key: string, value: QueryValue): (r: Query)
    ensures r.Keys == filters.Keys + {key}
    ensures r[key] == value
    ensures forall k :: k in filters && k != key ==> r[k] == filters[k]
  {
    filters[key := value]
  }

  /** A page button goes through the same handler with the key "page". */
  function PageButtonClick(filters: Query, page: int): (r: Query)
    ensures r.Keys == filters.Keys + {"page"} && r["page"] == Number(page)
    ensures forall k :: k in filters && k != "page" ==> r[k] == filters[k]
  {
    FilterChange(filters, "page", Number(page))
  }

  /** Unlike the certificates page, a filter change keeps the current page. */
  lemma FilterChangeKeepsPage(filters: Query, key: string, value: QueryValue)
    requires key != "page" && "page" in filters
    ensures "page" in FilterChange(filters, key, value)
    ensures FilterChange(filters, key, value)["page"] == filters["page"]
  {
  }

  /** The area below the filters. */
  datatype Listing<T> = Spinner | NoneFound | Cards(projects: seq<T>)

  /** What the page renders: the error replaces everything, before loading is looked at;
      otherwise the listing, and the page buttons whenever there is more than one page,
      even while loading. */
  datatype View<T> = ErrorView(message: string) | Main(listing: Listing<T>, pageButtons: seq<int>)

  function ViewFor<T>(loading: bool, error: Option<string>, projects: seq<T>, pagination: Option<Pagination>): (v: View<T>)
    ensures v.ErrorView? <==> error.Some? && error.value != ""
    ensures v.ErrorView? ==> v.message == error.value
    ensures v.Main? ==> (v.listing == Spinner <==> loading)
    ensures v.Main? ==> (v.listing == NoneFound <==> !loading && projects == [])
    ensures v.Main? && v.listing.Cards? ==> v.listing.projects == projects && projects != []
    ensures v.Main? && ShowsPagination(pagination) ==> v.pageButtons == PageNumbers(pagination.value.pages)
    ensures v.Main? && !ShowsPagination(pagination) ==> v.pageButtons == []
  {
    if error.Some? && error.value != "" then ErrorView(error.value)
    else
      var listing := if loading then Spinner else if projects == [] then NoneFound else Cards(projects);
      Main(listing, if ShowsPagination(pagination) then PageNumbers(pagination.value.pages) else [])
  }

  class Page {
    var filters: Query

    constructor ()
      ensures filters == InitialFilters
    {
      filters := InitialFilters;
    }

    method HandleFilterChange(key: string, value: QueryValue)
      modifies this
      ensures filters == FilterChange(old(filters), key, value)
    {
      filters := filters[key := value];
    }
  }
}
