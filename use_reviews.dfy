/** The reviews hook of one project: fetching, submitting and deleting reviews. */
module UseReviews {
  import opened Common
  import opened Paging

  datatype Review = Review(id: string, name: string, rating: nat, comment: string)

  const FetchFailed := "Failed to fetch reviews"

  /** `reviews.filter(review => review._id !== id)`. */
  function WithoutReview(reviews: seq<Review>, id: string): (r: seq<Review>)
    ensures |r| <= |reviews|
    ensures forall k :: 0 <= k < |r| ==> r[k].id != id
  {
    if reviews == [] then []
    else if reviews[0].id == id then WithoutReview(reviews[1..], id)
    else [reviews[0]] + WithoutReview(reviews[1..], id)
  }

  /** The filter removes exactly the reviews with that id, every other review keeping
      its multiplicity, and the survivors stay in their order. */
  lemma {:induction false} WithoutReviewExact(reviews: seq<Review>, id: string)
    ensures forall x :: multiset(WithoutReview(reviews, id))[x] == if x.id == id then 0 else multiset(reviews)[x]
    ensures IsSubsequence(WithoutReview(reviews, id), reviews)
  {
    if reviews != [] {
      WithoutReviewExact(reviews[1..], id);
      assert reviews == [reviews[0]] + reviews[1..];
      var rest := WithoutReview(reviews[1..], id);
      if reviews[0].id != id {
        var r := [reviews[0]] + rest;
        assert r[0] == reviews[0] && r[1..] == rest;
      }
    }
  }

  /** Deleting the same id twice leaves what deleting it once left. */
  lemma {:induction false} WithoutReviewIdempotent(reviews: seq<Review>, id: string)
    ensures WithoutReview(WithoutReview(reviews, id), id) == WithoutReview(reviews, id)
  {
    if reviews != [] {
      WithoutReviewIdempotent(reviews[1..], id);
      if reviews[0].id != id {
        var r := [reviews[0]] + WithoutReview(reviews[1..], id);
        assert r[0] == reviews[0] && r[1..] == WithoutReview(reviews[1..], id);
      }
    }
  }

  /** A list without that id is left as it is. */
  lemma {:induction false} WithoutAbsentReview(reviews: seq<Review>, id: string)
    requires forall k :: 0 <= k < |reviews| ==> reviews[k].id != id
    ensures WithoutReview(reviews, id) == reviews
  {
    if reviews != [] {
      WithoutAbsentReview(reviews[1..], id);
      assert reviews == [reviews[0]] + reviews[1..];
    }
  }

  class ReviewsHook {
    var reviews: seq<Review>
    var loading: bool
    var error: Option<string>
    var pagination: Option<Pagination>
    /** The hook's `projectId` argument; "" for a missing one. */
    const projectId: string

    constructor (projectId: string)
      ensures reviews == [] && loading && error.None? && pagination.None?
      ensures this.projectId == projectId
    {
      reviews := [];
      loading := true;
      error := None;
      pagination := None;
      this.projectId := projectId;
    }

    /** `fetchReviews` up to its `await`: returns whether a request was made, which
        needs a project id. */
    method BeginFetch() returns (requested: bool)
      modifies this
      ensures requested <==> projectId != ""
      ensures requested ==> loading && error.None?
      ensures !requested ==> loading == old(loading) && error == old(error)
      ensures reviews == old(reviews) && pagination == old(pagination)
    {
      if projectId == "" {
        return false;
      }
      loading := true;
      error := None;
      requested := true;
    }

    /** `fetchReviews` once `getReviewsByProject` settled. */
    method FetchSettled(response: Outcome<ListResponse<Review>>)
      modifies this
      ensures !loading
      ensures response.Ok? ==>
        reviews == response.value.data && pagination == response.value.pagination && error == old(error)
      ensures response.Err? ==>
        && error == Some(OrElse(response.failure.message, FetchFailed))
        && reviews == old(reviews) && pagination == old(pagination)
    {
      match response {
        case Ok(r) =>
          reviews := r.data;
          pagination := r.pagination;
        case Err(f) =>
          error := Some(OrElse(f.message, FetchFailed));
      }
      loading := false;
    }

    /** `submitReview` once `createReview` settled: a success starts the refetch (whose
        settling is `FetchSettled`) and is answered with the create response; a failure
        is rethrown and changes nothing. */
    method SubmitReview<R>(created: Outcome<R>) returns (result: Outcome<R>, refetchRequested: bool)
      modifies this
      ensures result == created
      ensures refetchRequested <==> created.Ok? && projectId != ""
      ensures refetchRequested ==> loading && error.None?
      ensures !refetchRequested ==> loading == old(loading) && error == old(error)
      ensures reviews == old(reviews) && pagination == old(pagination)
    {
      result := created;
      refetchRequested := false;
      if created.Ok? {
        refetchRequested := BeginFetch();
      }
    }

    /** `deleteReview(id)` once the delete request settled. */
    method DeleteReview(id: string, deleted: Outcome<()>) returns (result: Outcome<bool>)
      modifies this
      ensures deleted.Ok? ==> result == Ok(true) && reviews == WithoutReview(old(reviews), id)
      ensures deleted.Err? ==> result == Err(deleted.failure) && reviews == old(reviews)
      ensures loading == old(loading) && error == old(error) && pagination == old(pagination)
    {
      match deleted {
        case Ok(_) =>
          reviews := WithoutReview(reviews, id);
          result := Ok(true);
        case Err(f) =>
          result := Err(f);
      }
    }
  }
}
