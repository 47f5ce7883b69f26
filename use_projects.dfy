/** The projects list hook: fetches with the page's filters merged with the call's
    parameters, and fetches again whenever the filters change. */
module UseProjects {
  import opened Common
  import opened Paging

  const FetchFailed := "Failed to fetch projects"

  class ProjectsHook<T> {
    var projects: seq<T>
    var loading: bool
    var error: Option<string>
    var pagination: Option<Pagination>
    /** The `filters` argument of the latest render. */
    var filters: Query
    /** The filters the fetch effect last ran with; `None` before the first render. */
    var lastRun: Option<Query>

    constructor (filters: Query)
      ensures projects == [] && loading && error.None? && pagination.None?
      ensures this.filters == filters && lastRun.None?
    {
      projects := [];
      loading := true;
      error := None;
      pagination := None;
      this.filters := filters;
      lastRun := None;
    }

    /** `fetchProjects(params)` up to its `await`: returns the query sent. */
    method BeginFetch(params: Query) returns (request: Query)
      modifies this
      ensures request == Merge(filters, params)
      ensures loading && error.None?
      ensures projects == old(projects) && pagination == old(pagination)
      ensures filters == old(filters) && lastRun == old(lastRun)
    {
      loading := true;
      error := None;
      request := filters + params;
    }

    /** `fetchProjects` once `getProjects` settled. */
    method FetchSettled(response: Outcome<ListResponse<T>>)
      modifies this
      ensures !loading
      ensures response.Ok? ==>
        projects == response.value.data && pagination == response.value.pagination && error == old(error)
      ensures response.Err? ==>
        && error == Some(OrElse(response.failure.serverMessage, FetchFailed))
        && projects == old(projects) && pagination == old(pagination)
      ensures filters == old(filters) && lastRun == old(lastRun)
    {
      match response {
        case Ok(r) =>
          projects := r.data;
          pagination := r.pagination;
        case Err(f) =>
          error := Some(OrElse(f.serverMessage, FetchFailed));
      }
      loading := false;
    }

    /** A render with the given filters: the effect fetches, with no extra parameters,
        exactly when the filters differ from those it last ran with. */
    method Render(filters: Query) returns (request: Option<Query>)
      modifies this
      ensures request.Some? <==> EffectRuns(old(lastRun), filters)
      ensures request.Some? ==> request.value == filters && loading && error.None? && lastRun == Some(filters)
      ensures request.None? ==> loading == old(loading) && error == old(error) && lastRun == old(lastRun)
      ensures this.filters == filters && projects == old(projects) && pagination == old(pagination)
    {
      this.filters := filters;
      if !EffectRuns(lastRun, filters) {
        return None;
      }
      lastRun := Some(filters);
      var q := BeginFetch(map[]);
      MergeNothing(filters);
      request := Some(q);
    }

    /** `refetch`: the current filters and nothing else. */
    method Refetch() returns (request: Query)
      modifies this
      ensures request == filters
      ensures loading && error.None?
      ensures projects == old(projects) && pagination == old(pagination)
      ensures filters == old(filters) && lastRun == old(lastRun)
    {
      request := BeginFetch(map[]);
      MergeNothing(filters);
    }
  }
}
