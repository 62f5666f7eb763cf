/** The gallery screen's view model: the catalogue and the grid's scroll position, written
    through to the saved-state store under "scroll_index" and "scroll_offset". */
module Gallery {
  import opened Wrappers
  import opened KotlinInt
  import opened Images
  import ImageRepository
  import opened SavedState

  const ScrollIndexKey: string := "scroll_index"
  const ScrollOffsetKey: string := "scroll_offset"

  /** The grid position: index of the first visible item and its scroll offset. */
  datatype ScrollPosition = ScrollPosition(index: Int32, offset: Int32)

  /** The position a gallery view model starts at: each half read from its own key,
      each defaulting to 0 on its own. */
  function RestoredPosition(h: Snapshot): (pos: ScrollPosition)
    ensures h.Some? && ScrollIndexKey in h.value ==> pos.index == h.value[ScrollIndexKey]
    ensures !(h.Some? && ScrollIndexKey in h.value) ==> pos.index == 0
    ensures h.Some? && ScrollOffsetKey in h.value ==> pos.offset == h.value[ScrollOffsetKey]
    ensures !(h.Some? && ScrollOffsetKey in h.value) ==> pos.offset == 0
  {
    ScrollPosition(Get(h, ScrollIndexKey).GetOr(0), Get(h, ScrollOffsetKey).GetOr(0))
  }

  /** The store after a scroll position has been written through: index first, then offset. */
  function SavePosition(h: Snapshot, pos: ScrollPosition): Snapshot {
    Put(Put(h, ScrollIndexKey, pos.index), ScrollOffsetKey, pos.offset)
  }

  /** A position written through is the one a later view model on the same store starts at;
      with no store, a later view model starts at (0, 0). */
  lemma PositionRoundTrip(h: Snapshot, pos: ScrollPosition)
    ensures RestoredPosition(SavePosition(h, pos)) == if h.Some? then pos else ScrollPosition(0, 0)
  {
  }

  /** Of two successive writes the second wins: the store is as if only it had happened. */
  lemma LastWriteWins(h: Snapshot, first: ScrollPosition, second: ScrollPosition)
    ensures SavePosition(SavePosition(h, first), second) == SavePosition(h, second)
  {
    if h.Some? {
      var m: map<string, Int32> := h.value;
      var twice := m[ScrollIndexKey := first.index][ScrollOffsetKey := first.offset]
                    [ScrollIndexKey := second.index][ScrollOffsetKey := second.offset];
      var once := m[ScrollIndexKey := second.index][ScrollOffsetKey := second.offset];
      assert SavePosition(h, first) == Some(m[ScrollIndexKey := first.index][ScrollOffsetKey := first.offset]);
      assert twice.Keys == once.Keys;
      assert forall k :: k in once ==> twice[k] == once[k];
      assert twice == once;
    }
  }

  /** Saving a scroll position touches no key but its own two. */
  lemma SavePositionKeepsOtherKeys(h: Snapshot, pos: ScrollPosition, key: string)
    requires key != ScrollIndexKey && key != ScrollOffsetKey
    ensures Get(SavePosition(h, pos), key) == Get(h, key)
  {
  }

  class GalleryViewModel {
    const store: Store?
    var images: seq<ImageItem>
    var scrollIndex: Int32
    var scrollOffset: Int32

    /** The list is the catalogue: it is loaded once and never replaced. */
    ghost predicate Valid()
      reads this
    {
      images == ImageRepository.GetImages()
    }

    /** The current grid position. */
    function Position(): ScrollPosition
      reads this
    {
      ScrollPosition(scrollIndex, scrollOffset)
    }

    /** Builds the view model on an optional store: the position is restored, the images are loaded. */
    constructor (store: Store?)
      ensures this.store == store
      ensures images == ImageRepository.GetImages() && Valid()
      ensures Position() == RestoredPosition(SnapshotOf(store))
    {
      this.store := store;
      scrollIndex := Get(SnapshotOf(store), ScrollIndexKey).GetOr(0);
      scrollOffset := Get(SnapshotOf(store), ScrollOffsetKey).GetOr(0);
      images := ImageRepository.GetImages();
    }

    /** Records the grid position exactly as given (the offset defaults to 0), with no check
        against the image count, and writes both halves through when there is a store. */
    method UpdateScrollPosition(firstVisibleItemIndex: Int32, firstVisibleItemScrollOffset: Int32 := 0)
      requires Valid()
      modifies this`scrollIndex, this`scrollOffset, store
      ensures Valid()
      ensures scrollIndex == firstVisibleItemIndex && scrollOffset == firstVisibleItemScrollOffset
      ensures images == old(images)
      ensures SnapshotOf(store) == SavePosition(old(SnapshotOf(store)), Position())
    {
      scrollIndex := firstVisibleItemIndex;
      scrollOffset := firstVisibleItemScrollOffset;
      if store != null {
        store.Set(ScrollIndexKey, firstVisibleItemIndex);
        store.Set(ScrollOffsetKey, firstVisibleItemScrollOffset);
      }
    }

    function GetImageCount(): (count: nat)
      reads this
      ensures count == |images|
    {
      |images|
    }
  }
}
