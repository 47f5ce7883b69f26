/** The project detail page: the image list derived from the server's project record,
    the displayed image, and the upload, removal and drag-to-reorder handlers. */
module ProjectDetail {
  import opened Common
  import opened Splice
  import opened ImageUrls

  /** The fields of a fetched project that the image logic reads. An absent or
      JavaScript-falsy list is `None`. */
  datatype ProjectData = ProjectData(
    title: string,
    imageUrl: string,
    additionalImages: Option<seq<string>>,
    allImages: Option<seq<string>>)

  /** `response.data`, which the page treats as possibly missing. */
  type Response = Option<ProjectData>

  predicate HasItems(list: Option<seq<string>>)
  {
    list.Some? && |list.value| > 0
  }

  /** `list.map(img => fixImageUrl(img))`. */
  function FixAll(list: seq<string>): (r: seq<string>)
    ensures |r| == |list|
    ensures forall k :: 0 <= k < |list| ==> r[k] == FixImageUrl(list[k])
  {
    seq(|list|, k requires 0 <= k < |list| => FixImageUrl(list[k]))
  }

  /** The additional-image list after a fetch: the fixed `additionalImages` when that
      list is non-empty, else the fixed `allImages` without its first (main) entry when
      that one is non-empty, else the current list unchanged. */
  function DerivedImages(data: Response, current: seq<string>): (r: seq<string>)
    ensures data.Some? && HasItems(data.value.additionalImages) ==>
      var src := data.value.additionalImages.value;
      |r| == |src| && forall k :: 0 <= k < |src| ==> r[k] == FixImageUrl(src[k])
    ensures data.Some? && !HasItems(data.value.additionalImages) && HasItems(data.value.allImages) ==>
      var src := data.value.allImages.value;
      |r| == |src| - 1 && forall k :: 0 <= k < |r| ==> r[k] == FixImageUrl(src[k + 1])
    ensures (data.None? || (!HasItems(data.value.additionalImages) && !HasItems(data.value.allImages))) ==>
      r == current
  {
    if data.Some? && HasItems(data.value.additionalImages) then FixAll(data.value.additionalImages.value)
    else if data.Some? && HasItems(data.value.allImages) then FixAll(data.value.allImages.value)[1..]
    else current
  }

  /** The main image after a fetch: replaced only when the record has a non-empty URL. */
  function DerivedMainImage(data: Response, current: string): (r: string)
    ensures data.Some? && data.value.imageUrl != "" ==> r == FixImageUrl(data.value.imageUrl)
    ensures (data.None? || data.value.imageUrl == "") ==> r == current
  {
    if data.Some? && data.value.imageUrl != "" then FixImageUrl(data.value.imageUrl) else current
  }

  /** `currentImageUrl`: display position 0 is the main image, position `i > 0` is
      additional image `i - 1`; `None` is JavaScript's `undefined` past the end. */
  function CurrentImageUrl(selected: nat, main: string, additional: seq<string>): (r: Option<string>)
    ensures selected == 0 ==> r == Some(main)
    ensures 0 < selected <= |additional| ==> r == Some(additional[selected - 1])
    ensures r.None? <==> selected > |additional|
  {
    if selected == 0 then Some(main)
    else if selected - 1 < |additional| then Some(additional[selected - 1])
    else None
  }

  /** The `src` of the large image: the current URL, or the project placeholder when
      that is missing or empty. */
  function DisplayedImage(selected: nat, main: string, additional: seq<string>): (r: string)
    ensures r == ProjectPlaceholder || Some(r) == CurrentImageUrl(selected, main, additional)
    ensures r != ProjectPlaceholder ==> r != ""
    ensures CurrentImageUrl(selected, main, additional).Some? && CurrentImageUrl(selected, main, additional).value != "" ==>
      r == CurrentImageUrl(selected, main, additional).value
    ensures CurrentImageUrl(selected, main, additional).None? || CurrentImageUrl(selected, main, additional).value == "" ==>
      r == ProjectPlaceholder
  {
    match CurrentImageUrl(selected, main, additional)
    case Some(url) => if url == "" then ProjectPlaceholder else url
    case None => ProjectPlaceholder
  }

  /** What the page renders before the image gallery. */
  datatype PageView = Spinner | ErrorView(message: string) | DetailView

  function View(loading: bool, error: Option<string>, project: Response): (v: PageView)
    ensures loading <==> v == Spinner
    ensures !loading && error.Some? && error.value != "" ==> v == ErrorView(error.value)
    ensures !loading && (error.None? || error.value == "") && project.None? ==> v == ErrorView("Project not found")
    ensures v == DetailView <==> !loading && (error.None? || error.value == "") && project.Some?
  {
    if loading then Spinner
    else if error.Some? && error.value != "" then ErrorView(error.value)
    else if project.None? then ErrorView("Project not found")
    else DetailView
  }

  // ---------------------------------------------------------------------------
  // Reordering

  /** `Array.from({ length: n }, (_, i) => i + 1)`. */
  function OneTo(n: nat): (r: seq<nat>)
    ensures |r| == n
    ensures forall k :: 0 <= k < n ==> r[k] == k + 1
  {
    seq(n, k requires 0 <= k < n => k + 1)
  }

  /** The backend order sent after dragging display position `s` to `d`, both among
      the additional images (display positions 1..n). */
  function NewOrder(n: nat, s: nat, d: nat): (r: seq<nat>)
    requires 1 <= s <= n && 1 <= d <= n
    ensures |r| == n && r[d - 1] == s
  {
    Move(OneTo(n), s - 1, d - 1)
  }

  /** The drags the handler ignores. */
  predicate IgnoredDrag(source: nat, destination: Option<nat>)
  {
    destination.None? || source == 0 || destination.value == 0 || source == destination.value
  }

  /** `newOrder` is a permutation of 1..n: it has length n, every entry is in 1..n, and
      every value in 1..n appears in it exactly once. */
  lemma NewOrderPermutes(n: nat, s: nat, d: nat)
    requires 1 <= s <= n && 1 <= d <= n
    ensures |NewOrder(n, s, d)| == n
    ensures multiset(NewOrder(n, s, d)) == multiset(OneTo(n))
    ensures forall k :: 0 <= k < n ==> 1 <= NewOrder(n, s, d)[k] <= n
    ensures forall v :: 1 <= v <= n ==> multiset(NewOrder(n, s, d))[v] == 1
  {
    var base := OneTo(n);
    var r := NewOrder(n, s, d);
    MovePermutes(base, s - 1, d - 1);
    forall k | 0 <= k < n ensures 1 <= r[k] <= n {
      assert r[k] == base[MoveSource(s - 1, d - 1, k)];
    }
    forall v | 1 <= v <= n ensures multiset(r)[v] == 1 {
      OneToCount(n, v);
    }
  }

  lemma {:induction false} OneToCount(n: nat, v: nat)
    requires 1 <= v <= n
    ensures multiset(OneTo(n))[v] == 1
  {
    if n == v {
      assert OneTo(n) == OneTo(n - 1) + [n];
      OneToAbsent(n - 1, v);
    } else {
      assert OneTo(n) == OneTo(n - 1) + [n];
      OneToCount(n - 1, v);
    }
  }

  lemma {:induction false} OneToAbsent(n: nat, v: nat)
    requires v > n
    ensures multiset(OneTo(n))[v] == 0
  {
    if n > 0 {
      assert OneTo(n) == OneTo(n - 1) + [n];
      OneToAbsent(n - 1, v);
    }
  }

  /** The optimistic list and the order sent to the backend describe the same
      rearrangement: position k of the new list holds old image `newOrder[k]`. */
  lemma ReorderMatchesNewOrder(images: seq<string>, s: nat, d: nat)
    requires 1 <= s <= |images| && 1 <= d <= |images|
    ensures |Move(images, s - 1, d - 1)| == |images|
    ensures forall k :: 0 <= k < |images| ==>
      1 <= NewOrder(|images|, s, d)[k] <= |images| &&
      Move(images, s - 1, d - 1)[k] == images[NewOrder(|images|, s, d)[k] - 1]
  {
    var n := |images|;
    forall k | 0 <= k < n
      ensures 1 <= NewOrder(n, s, d)[k] <= n
      ensures Move(images, s - 1, d - 1)[k] == images[NewOrder(n, s, d)[k] - 1]
    {
      var j := MoveSource(s - 1, d - 1, k);
      assert NewOrder(n, s, d)[k] == OneTo(n)[j] == j + 1;
    }
  }

  // ---------------------------------------------------------------------------
  // Thumbnails

  /** `[mainImageUrl, ...additionalImages].filter(Boolean)`, as the page builds it:
      every non-empty URL of the list survives as often as it occurs and in its order,
      and no empty one does; with an empty main URL, what is left is the filtered
      additional images. */
  function FilteredImages(main: string, additional: seq<string>): (r: seq<string>)
    ensures multiset(r)[""] == 0
    ensures forall x :: x != "" ==> multiset(r)[x] == multiset([main] + additional)[x]
    ensures IsSubsequence(r, [main] + additional)
    ensures main != "" ==> r != [] && r[0] == main
    ensures main == "" ==> r == DropEmpty(additional)
  {
    var all := [main] + additional;
    assert all[1..] == additional;
    DropEmptyCounts(all);
    DropEmptyKeepsOrder(all);
    DropEmpty(all)
  }

  /** Thumbnail `k > 0` shows the additional image that its remove button (which
      passes `k - 1`, backend index `k`) deletes and that clicking it (which selects
      display position `k`) shows large. */
  predicate ThumbnailsAgree(thumbnails: seq<string>, main: string, additional: seq<string>)
  {
    forall k :: 0 < k < |thumbnails| ==>
      k - 1 < |additional| && thumbnails[k] == additional[k - 1] &&
      CurrentImageUrl(k, main, additional) == Some(thumbnails[k])
  }

  /** The filtered list breaks that agreement as soon as the main URL is empty: the
      second thumbnail shows "b" while removing and selecting "a". */
  lemma FilteredThumbnailsDisagree()
    ensures FilteredImages("", ["a", "b"]) == ["a", "b"]
    ensures CurrentImageUrl(1, "", ["a", "b"]) == Some("a")
    ensures !ThumbnailsAgree(FilteredImages("", ["a", "b"]), "", ["a", "b"])
  {
    assert DropEmpty(["a", "b"]) == ["a"] + DropEmpty(["b"]);
    assert DropEmpty(["b"]) == ["b"] + DropEmpty([]);
  }

  /** The thumbnail list without the filter, so that display position k is always
      `[main, ...additional][k]`. */
  function ThumbnailImages(main: string, additional: seq<string>): (r: seq<string>)
    ensures |r| == |additional| + 1 && r[0] == main
    ensures ThumbnailsAgree(r, main, additional)
  {
    [main] + additional
  }

  /** The non-reorder view's remove button: offered at display position `k > 0` and
      passing `k - 1`, so the backend index (local index + 1) is `k`. */
  function RemovalIndexForThumbnail(k: nat): (local: nat)
    requires k > 0
    ensures BackendIndex(local) == k
  {
    k - 1
  }

  /** `removeProjectImage(id, index + 1)`: the main image is backend index 0. */
  function BackendIndex(local: nat): (r: nat)
    ensures r >= 1 && r - 1 == local
  {
    local + 1
  }

  /** `if (selectedImageIndex > length) setSelectedImageIndex(0)`: against the length
      of the list shown, the selection always stays a valid display position, and a
      selection that is still valid is kept. */
  function SelectionAfterRemoval(selected: nat, length: nat): (r: nat)
    ensures r <= length
    ensures selected <= length ==> r == selected
  {
    if selected > length then 0 else selected
  }

  /** As written, the reset compares with the length captured before the removal: a
      valid selection of the last image is kept after that image is removed, and then
      points past the end of the list; the refreshed length would have reset it. */
  lemma StaleSelectionSurvives()
    ensures var before := ["a", "b"];
      var after := ["a"];
      var selected := SelectionAfterRemoval(2, |before|);
      selected == 2 && CurrentImageUrl(selected, "m", after).None? &&
      SelectionAfterRemoval(2, |after|) == 0
  {
  }

  // ---------------------------------------------------------------------------
  // The page state

  class Page {
    var project: Response
    var loading: bool
    var error: Option<string>
    var mainImageUrl: string
    var additionalImages: seq<string>
    var selectedImageIndex: nat
    var uploadStatus: Status
    var reorderStatus: Status

    constructor ()
      ensures project.None? && loading && error.None?
      ensures mainImageUrl == "" && additionalImages == [] && selectedImageIndex == 0
      ensures uploadStatus == Idle && reorderStatus == Idle
    {
      project := None;
      loading := true;
      error := None;
      mainImageUrl := "";
      additionalImages := [];
      selectedImageIndex := 0;
      uploadStatus := Idle;
      reorderStatus := Idle;
    }

    /** The fetch effect up to its `await`. */
    method BeginLoad()
      modifies this
      ensures loading && error.None?
      ensures project == old(project) && mainImageUrl == old(mainImageUrl) && additionalImages == old(additionalImages)
      ensures selectedImageIndex == old(selectedImageIndex)
      ensures uploadStatus == old(uploadStatus) && reorderStatus == old(reorderStatus)
    {
      loading := true;
      error := None;
    }

    /** The fetch effect once `getProjectById` settled. */
    method LoadSettled(response: Outcome<Response>)
      modifies this
      ensures !loading
      ensures response.Ok? ==>
        && project == response.value && error == old(error)
        && mainImageUrl == DerivedMainImage(response.value, old(mainImageUrl))
        && additionalImages == DerivedImages(response.value, old(additionalImages))
      ensures response.Err? ==>
        && error == Some(OrElse(response.failure.message, "Failed to fetch project"))
        && project == old(project) && mainImageUrl == old(mainImageUrl) && additionalImages == old(additionalImages)
      ensures selectedImageIndex == old(selectedImageIndex)
      ensures uploadStatus == old(uploadStatus) && reorderStatus == old(reorderStatus)
    {
      match response {
        case Ok(data) =>
          project := data;
          mainImageUrl := DerivedMainImage(data, mainImageUrl);
          additionalImages := DerivedImages(data, additionalImages);
        case Err(f) =>
          error := Some(OrElse(f.message, "Failed to fetch project"));
      }
      loading := false;
    }

    /** `handleThumbnailClick`, from a rendered thumbnail. */
    method ThumbnailClick(index: nat)
      requires index <= |additionalImages|
      modifies this
      ensures selectedImageIndex == index
      ensures CurrentImageUrl(selectedImageIndex, mainImageUrl, additionalImages).Some?
      ensures project == old(project) && loading == old(loading) && error == old(error)
      ensures mainImageUrl == old(mainImageUrl) && additionalImages == old(additionalImages)
      ensures uploadStatus == old(uploadStatus) && reorderStatus == old(reorderStatus)
    {
      selectedImageIndex := index;
    }

    /** `handleImageUpload` up to its first `await`. */
    method BeginUpload()
      modifies this
      ensures uploadStatus == InFlight
      ensures project == old(project) && loading == old(loading) && error == old(error)
      ensures mainImageUrl == old(mainImageUrl) && additionalImages == old(additionalImages)
      ensures selectedImageIndex == old(selectedImageIndex) && reorderStatus == old(reorderStatus)
    {
      uploadStatus := InFlight;
    }

    /** `handleImageUpload` once `addProjectImages` settled and, after a success, the
        refresh by `getProjectById` settled. A failure in either leaves the images as
        they were. */
    method UploadSettled(added: Outcome<()>, refresh: Outcome<Response>)
      modifies this
      ensures !uploadStatus.loading
      ensures added.Ok? && refresh.Ok? ==>
        && uploadStatus == Status(false, None, true)
        && project == refresh.value
        && additionalImages == DerivedImages(refresh.value, old(additionalImages))
      ensures added.Err? ==>
        && uploadStatus == Status(false, Some(OrElse(added.failure.message, "Failed to upload images")), false)
        && project == old(project) && additionalImages == old(additionalImages)
      ensures added.Ok? && refresh.Err? ==>
        && uploadStatus == Status(false, Some(OrElse(refresh.failure.message, "Failed to upload images")), false)
        && project == old(project) && additionalImages == old(additionalImages)
      ensures loading == old(loading) && error == old(error) && mainImageUrl == old(mainImageUrl)
      ensures selectedImageIndex == old(selectedImageIndex) && reorderStatus == old(reorderStatus)
    {
      if added.Err? {
        uploadStatus := Status(false, Some(OrElse(added.failure.message, "Failed to upload images")), false);
      } else if refresh.Err? {
        uploadStatus := Status(false, Some(OrElse(refresh.failure.message, "Failed to upload images")), false);
      } else {
        project := refresh.value;
        additionalImages := DerivedImages(refresh.value, additionalImages);
        uploadStatus := Status(false, None, true);
      }
    }

    /** `handleRemoveImage(index)` for additional image `index`, given how the removal
        and the refresh settled; returns the backend index it asked to remove. The
        selection is reset against the refreshed list. */
    method RemoveImage(index: nat, removed: Outcome<()>, refresh: Outcome<Response>) returns (backendIndex: nat)
      requires index < |additionalImages|
      modifies this
      ensures backendIndex == BackendIndex(index)
      ensures removed.Ok? && refresh.Ok? ==>
        && project == refresh.value
        && additionalImages == DerivedImages(refresh.value, old(additionalImages))
        && selectedImageIndex == SelectionAfterRemoval(old(selectedImageIndex), |additionalImages|)
        && CurrentImageUrl(selectedImageIndex, mainImageUrl, additionalImages).Some?
      ensures (removed.Err? || refresh.Err?) ==>
        project == old(project) && additionalImages == old(additionalImages) && selectedImageIndex == old(selectedImageIndex)
      ensures loading == old(loading) && error == old(error) && mainImageUrl == old(mainImageUrl)
      ensures uploadStatus == old(uploadStatus) && reorderStatus == old(reorderStatus)
    {
      backendIndex := BackendIndex(index);
      if removed.Ok? && refresh.Ok? {
        project := refresh.value;
        additionalImages := DerivedImages(refresh.value, additionalImages);
        selectedImageIndex := SelectionAfterRemoval(selectedImageIndex, |additionalImages|);
      }
    }

    /** `handleDragEnd` up to its `await`: an ignored drag changes nothing and sends
        nothing; otherwise the status goes in flight, the list is rearranged at once
        and the order for the backend is returned. Display positions 1..n are the
        additional images. */
    method BeginReorder(source: nat, destination: Option<nat>) returns (newOrder: Option<seq<nat>>)
      requires source <= |additionalImages|
      requires destination.Some? ==> destination.value <= |additionalImages|
      modifies this
      ensures newOrder.None? <==> IgnoredDrag(source, destination)
      ensures IgnoredDrag(source, destination) ==>
        reorderStatus == old(reorderStatus) && additionalImages == old(additionalImages)
      ensures !IgnoredDrag(source, destination) ==>
        && reorderStatus == InFlight
        && newOrder == Some(NewOrder(|old(additionalImages)|, source, destination.value))
        && additionalImages == Move(old(additionalImages), source - 1, destination.value - 1)
      ensures project == old(project) && loading == old(loading) && error == old(error)
      ensures mainImageUrl == old(mainImageUrl) && selectedImageIndex == old(selectedImageIndex)
      ensures uploadStatus == old(uploadStatus)
    {
      if IgnoredDrag(source, destination) {
        return None;
      }
      var d := destination.value;
      reorderStatus := InFlight;
      newOrder := Some(NewOrder(|additionalImages|, source, d));
      additionalImages := Move(additionalImages, source - 1, d - 1);
    }

    /** `handleDragEnd` once `reorderProjectImages` settled and, after a failure, the
        reload by `getProjectById` settled. The reload resets the list but not the
        stored project. */
    method ReorderSettled(persisted: Outcome<()>, reload: Outcome<Response>)
      modifies this
      ensures !reorderStatus.loading
      ensures persisted.Ok? ==>
        reorderStatus == Status(false, None, true) && additionalImages == old(additionalImages)
      ensures persisted.Err? ==>
        && reorderStatus == Status(false, Some(OrElse(persisted.failure.message, "Failed to reorder images")), false)
        && additionalImages == (if reload.Ok? then DerivedImages(reload.value, old(additionalImages)) else old(additionalImages))
      ensures project == old(project) && loading == old(loading) && error == old(error)
      ensures mainImageUrl == old(mainImageUrl) && selectedImageIndex == old(selectedImageIndex)
      ensures uploadStatus == old(uploadStatus)
    {
      if persisted.Ok? {
        reorderStatus := Status(false, None, true);
      } else {
        reorderStatus := Status(false, Some(OrElse(persisted.failure.message, "Failed to reorder images")), false);
        if reload.Ok? {
          additionalImages := DerivedImages(reload.value, additionalImages);
        }
      }
    }
  }
}
