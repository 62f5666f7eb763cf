/** How the navigation graph connects the two screens: a gallery click navigates to the
    created slider route, whose argument becomes the slider's initial page. */
module AppFlow {
  import opened Wrappers
  import opened KotlinInt
  import opened Images
  import ImageRepository
  import opened SavedState
  import opened Navigation
  import opened Slider
  import opened Gallery

  /** Clicking catalogue item i hands the slider exactly i, the clamp keeps it, and the
      image shown there has id i + 1. */
  lemma GalleryClickOpensClickedImage(i: Int32)
    requires 0 <= i < |ImageRepository.GetImages()|
    ensures SliderIndexArgument(CreateRoute(i)) == i
    ensures InitialPageClamp(SliderIndexArgument(CreateRoute(i)), |ImageRepository.GetImages()|) == i
    ensures ImageRepository.GetImages()[i].id == i + 1
  {
    CreateRouteRoundTrip(i);
    ImageRepository.IdsArePositions();
  }

  /** The slider destination for a click on item i: a new view model on the slider's store,
      entered at the index carried by the route. */
  method OpenSlider(i: Int32, store: Store?) returns (slider: SliderViewModel)
    requires 0 <= i < |ImageRepository.GetImages()|
    modifies store
    ensures fresh(slider) && slider.store == store
    ensures slider.currentPage == i
    ensures slider.GetImageAt(i).Some? && slider.GetImageAt(i).value.id == i + 1
    ensures SnapshotOf(store) == SavePage(old(SnapshotOf(store)), i)
  {
    var index := SliderIndexArgument(CreateRoute(i));
    GalleryClickOpensClickedImage(i);
    slider := new SliderViewModel(store);
    slider.SetInitialPage(index);
  }

  /** A page change survives the slider's view model being recreated on the same store. */
  method RecreateSlider(store: Store, page: Int32) returns (restored: SliderViewModel)
    modifies store
    ensures restored.currentPage == page
  {
    var slider := new SliderViewModel(store);
    ghost var before := SnapshotOf(store);
    slider.UpdateCurrentPage(page);
    PageRoundTrip(before, page);
    restored := new SliderViewModel(store);
  }

  /** A scroll position survives the gallery's view model being recreated on the same store. */
  method RecreateGallery(store: Store, index: Int32, offset: Int32) returns (restored: GalleryViewModel)
    modifies store
    ensures restored.Position() == ScrollPosition(index, offset)
  {
    var gallery := new GalleryViewModel(store);
    ghost var before := SnapshotOf(store);
    gallery.UpdateScrollPosition(index, offset);
    PositionRoundTrip(before, ScrollPosition(index, offset));
    restored := new GalleryViewModel(store);
  }

  /** Opening the slider from the gallery writes only the slider's own store, so the gallery's
      position and its saved state are as they were before the visit. Going back pops the
      navigation back stack, which is library behaviour and touches no view model, so the
      gallery resumes from that same position. */
  method VisitSliderAndReturn(gallery: GalleryViewModel, sliderStore: Store?, i: Int32)
    requires 0 <= i < |ImageRepository.GetImages()|
    requires sliderStore == null || gallery.store != sliderStore
    modifies sliderStore
    ensures gallery.Position() == old(gallery.Position())
    ensures SnapshotOf(gallery.store) == old(SnapshotOf(gallery.store))
  {
    var slider := OpenSlider(i, sliderStore);
  }
}
