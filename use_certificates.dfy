/** The certificates list hook: fetches with its parameters as given, and again
    whenever they change. */
module UseCertificates {
  import opened Common
  import opened Paging

  const FetchFailed := "Failed to fetch certificates"

  class CertificatesHook<T> {
    var certificates: seq<T>
    var loading: bool
    var error: Option<string>
    var pagination: Option<Pagination>
    /** The `params` argument of the latest render. */
    var params: Query
    /** The parameters the fetch effect last ran with; `None` before the first render. */
    var lastRun: Option<Query>

    constructor (params: Query)
      ensures certificates == [] && loading && error.None? && pagination.None?
      ensures this.params == params && lastRun.None?
    {
      certificates := [];
      loading := true;
      error := None;
      pagination := None;
      this.params := params;
      lastRun := None;
    }

    /** `fetchCertificates` up to its `await`, which is also what `refetch` runs:
        returns the query sent. */
    method BeginFetch() returns (request: Query)
      modifies this
      ensures request == params
      ensures loading && error.None?
      ensures certificates == old(certificates) && pagination == old(pagination)
      ensures params == old(params) && lastRun == old(lastRun)
    {
      loading := true;
      error := None;
      request := params;
    }

    /** `fetchCertificates` once `getCertificates` settled. */
    method FetchSettled(response: Outcome<ListResponse<T>>)
      modifies this
      ensures !loading
      ensures response.Ok? ==>
        certificates == response.value.data && pagination == response.value.pagination && error == old(error)
      ensures response.Err? ==>
        && error == Some(OrElse(response.failure.serverMessage, FetchFailed))
        && certificates == old(certificates) && pagination == old(pagination)
      ensures params == old(params) && lastRun == old(lastRun)
    {
      match response {
        case Ok(r) =>
          certificates := r.data;
          pagination := r.pagination;
        case Err(f) =>
          error := Some(OrElse(f.serverMessage, FetchFailed));
      }
      loading := false;
    }

    /** A render with the given parameters: the effect fetches exactly when they
        differ from those it last ran with. */
    method Render(params: Query) returns (request: Option<Query>)
      modifies this
      ensures request.Some? <==> EffectRuns(old(lastRun), params)
      ensures request.Some? ==> request.value == params && loading && error.None? && lastRun == Some(params)
      ensures request.None? ==> loading == old(loading) && error == old(error) && lastRun == old(lastRun)
      ensures this.params == params && certificates == old(certificates) && pagination == old(pagination)
    {
      this.params := params;
      if !EffectRuns(lastRun, params) {
        return None;
      }
      lastRun := Some(params);
      var q := BeginFetch();
      request := Some(q);
    }
  }
}
