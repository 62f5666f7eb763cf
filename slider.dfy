/** The slider screen's view model: the catalogue and the current page, written
    through to the saved-state store under "current_page". */
module Slider {
  import opened Wrappers
  import opened KotlinInt
  import opened Images
  import ImageRepository
  import opened SavedState

  const CurrentPageKey: string := "current_page"

  /** What happens on a swipe past the first or last image. Only Block is ever returned. */
  datatype EdgeBehavior = Block | WrapAround

  /** The page a slider view model starts on: the saved page, else 0. */
  function RestoredPage(h: Snapshot): (page: Int32)
    ensures h.Some? && CurrentPageKey in h.value ==> page == h.value[CurrentPageKey]
    ensures !(h.Some? && CurrentPageKey in h.value) ==> page == 0
  {
    Get(h, CurrentPageKey).GetOr(0)
  }

  /** The store after a page change has been written through. */
  function SavePage(h: Snapshot, page: Int32): Snapshot {
    Put(h, CurrentPageKey, page)
  }

  /** A page written through is the page a later view model on the same store starts on;
      with no store, a later view model starts on page 0. */
  lemma PageRoundTrip(h: Snapshot, page: Int32)
    ensures RestoredPage(SavePage(h, page)) == if h.Some? then page else 0
  {
  }

  /** The clamp `setInitialPage` applies: `initialPage.coerceIn(0, count - 1)`, which has
      no value for an empty list. */
  function InitialPageClamp(initialPage: Int32, count: nat): (page: Int32)
    requires count > 0
    ensures 0 <= page < count
    ensures 0 <= initialPage < count ==> page == initialPage
    ensures initialPage < 0 ==> page == 0
    ensures count <= initialPage ==> page == count - 1
  {
    CoerceIn(initialPage, 0, count - 1)
  }

  /** The pager's own start page on the slider screen,
      `initialIndex.coerceIn(0, count.coerceAtLeast(1) - 1)`, which is defined for every count. */
  function PagerInitialPage(initialIndex: Int32, count: nat): (page: Int32)
    ensures count == 0 ==> page == 0
    ensures count > 0 ==> page == InitialPageClamp(initialIndex, count)
  {
    CoerceIn(initialIndex, 0, CoerceAtLeast(count, 1) - 1)
  }

  class SliderViewModel {
    const store: Store?
    var images: seq<ImageItem>
    var currentPage: Int32

    /** The list is the catalogue: it is loaded once and never replaced, so it is never empty. */
    ghost predicate Valid()
      reads this
    {
      images == ImageRepository.GetImages()
    }

    /** Builds the view model on an optional store: the page is restored, the images are loaded. */
    constructor (store: Store?)
      ensures this.store == store
      ensures images == ImageRepository.GetImages() && Valid()
      ensures currentPage == RestoredPage(SnapshotOf(store))
    {
      this.store := store;
      currentPage := Get(SnapshotOf(store), CurrentPageKey).GetOr(0);
      images := ImageRepository.GetImages();
    }

    /** Records a page change, verbatim, and writes it through when there is a store. */
    method UpdateCurrentPage(page: Int32)
      requires Valid()
      modifies this`currentPage, store
      ensures Valid()
      ensures currentPage == page
      ensures images == old(images)
      ensures SnapshotOf(store) == SavePage(old(SnapshotOf(store)), page)
    {
      currentPage := page;
      if store != null {
        store.Set(CurrentPageKey, page);
      }
    }

    /** Enters the slider at `initialPage`, clamped into the list. The clamp needs a non-empty
        list, which Valid() provides. */
    method SetInitialPage(initialPage: Int32)
      requires Valid()
      modifies this`currentPage, store
      ensures Valid()
      ensures 0 <= currentPage < |images|
      ensures 0 <= initialPage < |images| ==> currentPage == initialPage
      ensures initialPage < 0 ==> currentPage == 0
      ensures |images| <= initialPage ==> currentPage == |images| - 1
      ensures images == old(images)
      ensures SnapshotOf(store) == SavePage(old(SnapshotOf(store)), currentPage)
    {
      var safeIndex := InitialPageClamp(initialPage, |images|);
      UpdateCurrentPage(safeIndex);
    }

    function GetImageCount(): (count: nat)
      reads this
      ensures count == |images|
    {
      |images|
    }

    /** The image at `index`, or None when `index` is outside the list. */
    function GetImageAt(index: Int32): (r: Option<ImageItem>)
      reads this
      ensures r.Some? <==> 0 <= index < |images|
      ensures r.Some? ==> r.value == images[index]
    {
      if 0 <= index < |images| then Some(images[index]) else None
    }

    function GetEdgeBehavior(): (b: EdgeBehavior)
      ensures b == Block
    {
      Block
    }
  }
}
