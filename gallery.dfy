/** The project gallery: wrap-around navigation over an image list, drag-over
    reordering, and the keyboard shortcuts available in fullscreen. */
module Gallery {
  import opened Common
  import opened Splice

  /** `goToPrev`'s update, on JavaScript numbers (an empty list gives -1). */
  function Prev(current: int, length: int): (r: int)
    ensures 0 <= current < length ==> 0 <= r < length && (r + 1) % length == current
  {
    if current == 0 then length - 1 else current - 1
  }

  /** `goToNext`'s update. */
  function Next(current: int, length: int): (r: int)
    ensures 0 <= current < length ==> 0 <= r < length && r == (current + 1) % length
  {
    if current == length - 1 then 0 else current + 1
  }

  /** Both moves keep a valid index valid. */
  lemma NavigationInRange(current: int, length: int)
    requires 0 <= current < length
    ensures 0 <= Prev(current, length) < length
    ensures 0 <= Next(current, length) < length
    ensures current == 0 ==> Prev(current, length) == length - 1
    ensures current == length - 1 ==> Next(current, length) == 0
  {
  }

  /** Going back undoes going forward and the other way round. */
  lemma NavigationInverse(current: int, length: int)
    requires 0 <= current < length
    ensures Prev(Next(current, length), length) == current
    ensures Next(Prev(current, length), length) == current
  {
  }

  /** Stepping forward `k` times from `current`. */
  function NextTimes(current: int, length: int, k: nat): int
  {
    if k == 0 then current else Next(NextTimes(current, length, k - 1), length)
  }

  /** Stepping forward `k <= length` times moves `k` places round the cycle, so
      `length` steps come back to the start. */
  lemma {:induction false} NextCycles(current: int, length: int, k: nat)
    requires 0 <= current < length && k <= length
    ensures NextTimes(current, length, k) == if current + k < length then current + k else current + k - length
  {
    if k > 0 {
      NextCycles(current, length, k - 1);
    }
  }

  /** What a key press does. */
  datatype KeyAction = NoAction | GoPrev | GoNext | ToggleFullscreen

  /** The keydown listener: keys act only in fullscreen, Escape is left to the
      browser. */
  function KeyActionFor(isFullscreen: bool, key: string): (a: KeyAction)
    ensures !isFullscreen ==> a == NoAction
    ensures isFullscreen && key == "ArrowLeft" ==> a == GoPrev
    ensures isFullscreen && key == "ArrowRight" ==> a == GoNext
    ensures isFullscreen && (key == "f" || key == "F") ==> a == ToggleFullscreen
    ensures a != NoAction ==> isFullscreen && key in {"ArrowLeft", "ArrowRight", "f", "F"}
  {
    if !isFullscreen || key == "Escape" then NoAction
    else if key == "ArrowLeft" then GoPrev
    else if key == "ArrowRight" then GoNext
    else if key == "f" || key == "F" then ToggleFullscreen
    else NoAction
  }

  class ProjectGallery {
    var currentIndex: int
    var isFullscreen: bool
    var draggedIndex: Option<nat>

    constructor ()
      ensures currentIndex == 0 && !isFullscreen && draggedIndex.None?
    {
      currentIndex := 0;
      isFullscreen := false;
      draggedIndex := None;
    }

    /** `goToPrev` over the current `images` prop. */
    method GoToPrev(images: seq<string>)
      modifies this
      ensures currentIndex == Prev(old(currentIndex), |images|)
      ensures isFullscreen == old(isFullscreen) && draggedIndex == old(draggedIndex)
    {
      currentIndex := if currentIndex == 0 then |images| - 1 else currentIndex - 1;
    }

    /** `goToNext` over the current `images` prop. */
    method GoToNext(images: seq<string>)
      modifies this
      ensures currentIndex == Next(old(currentIndex), |images|)
      ensures isFullscreen == old(isFullscreen) && draggedIndex == old(draggedIndex)
    {
      currentIndex := if currentIndex == |images| - 1 then 0 else currentIndex + 1;
    }

    method DragStart(index: nat)
      modifies this
      ensures draggedIndex == Some(index)
      ensures currentIndex == old(currentIndex) && isFullscreen == old(isFullscreen)
    {
      draggedIndex := Some(index);
    }

    /** `handleDragOver` on thumbnail `index`: returns the list handed to `onReorder`,
        or `None` when nothing is being dragged or it is over its own place. */
    method DragOver(images: seq<string>, index: nat) returns (reordered: Option<seq<string>>)
      requires index < |images|
      requires draggedIndex.Some? ==> draggedIndex.value < |images|
      modifies this
      ensures old(draggedIndex).None? || old(draggedIndex) == Some(index) ==>
        reordered.None? && draggedIndex == old(draggedIndex)
      ensures old(draggedIndex).Some? && old(draggedIndex) != Some(index) ==>
        && reordered == Some(Move(images, old(draggedIndex).value, index))
        && reordered.value[index] == images[old(draggedIndex).value]
        && multiset(reordered.value) == multiset(images)
        && draggedIndex == Some(index)
      ensures currentIndex == old(currentIndex) && isFullscreen == old(isFullscreen)
    {
      if draggedIndex.None? || draggedIndex.value == index {
        return None;
      }
      var from := draggedIndex.value;
      MovePermutes(images, from, index);
      reordered := Some(Move(images, from, index));
      draggedIndex := Some(index);
    }

    method DragEnd()
      modifies this
      ensures draggedIndex.None?
      ensures currentIndex == old(currentIndex) && isFullscreen == old(isFullscreen)
    {
      draggedIndex := None;
    }

    /** The `fullscreenchange` listener, given whether the document is now fullscreen. */
    method FullscreenChanged(active: bool)
      modifies this
      ensures isFullscreen == active
      ensures currentIndex == old(currentIndex) && draggedIndex == old(draggedIndex)
    {
      isFullscreen := active;
    }

    /** The keydown listener; returns whether a fullscreen toggle was requested. */
    method KeyDown(images: seq<string>, key: string) returns (toggle: bool)
      modifies this
      ensures toggle <==> KeyActionFor(old(isFullscreen), key) == ToggleFullscreen
      ensures KeyActionFor(old(isFullscreen), key) == GoPrev ==> currentIndex == Prev(old(currentIndex), |images|)
      ensures KeyActionFor(old(isFullscreen), key) == GoNext ==> currentIndex == Next(old(currentIndex), |images|)
      ensures KeyActionFor(old(isFullscreen), key) in {NoAction, ToggleFullscreen} ==> currentIndex == old(currentIndex)
      ensures isFullscreen == old(isFullscreen) && draggedIndex == old(draggedIndex)
    {
      toggle := false;
      match KeyActionFor(isFullscreen, key) {
        case GoPrev => GoToPrev(images);
        case GoNext => GoToNext(images);
        case ToggleFullscreen => toggle := true;
        case NoAction =>
      }
    }
  }
}
