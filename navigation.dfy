/** Navigation destinations and their route strings. */
module Navigation {
  import opened Wrappers
  import opened KotlinInt
  import Decimal

  const GalleryRoute: string := "gallery"
  const SliderPrefix: string := "slider/"
  /** The name of the slider's integer argument. */
  const ArgImageIndex: string := "imageIndex"
  /** The slider's route template, as registered with the navigation graph. */
  const SliderRoute: string := "slider/{imageIndex}"

  /** The two destinations; a slider destination opens at `imageIndex`, 0 unless given. */
  datatype Screen = Gallery | Slider(imageIndex: Int32 := 0) {
    /** The route every destination is declared with: a slider's is the template. */
    function Route(): string {
      match this
      case Gallery => GalleryRoute
      case Slider(_) => SliderRoute
    }
  }

  /** The concrete route that opens the slider at `imageIndex`. */
  function CreateRoute(imageIndex: Int32): (route: string)
    ensures |SliderPrefix| < |route| && route[..|SliderPrefix|] == SliderPrefix
  {
    SliderPrefix + Decimal.IntToText(imageIndex)
  }

  /** The integer text after the slider prefix of a route, read as the navigation library's
      integer argument type would: None when the prefix or the number is missing. */
  function ImageIndexArg(route: string): Option<int> {
    if |SliderPrefix| <= |route| && route[..|SliderPrefix|] == SliderPrefix
    then Decimal.ParseInt(route[|SliderPrefix|..])
    else None
  }

  /** The index a slider destination receives: its argument, or the declared default 0 when
      the argument is missing or is not an `Int`. */
  function SliderIndexArgument(route: string): (index: Int32)
    ensures ImageIndexArg(route).Some? && -0x8000_0000 <= ImageIndexArg(route).value < 0x8000_0000
      ==> index == ImageIndexArg(route).value
    ensures !(ImageIndexArg(route).Some? && -0x8000_0000 <= ImageIndexArg(route).value < 0x8000_0000)
      ==> index == 0
  {
    match ImageIndexArg(route)
    case Some(v) => if -0x8000_0000 <= v < 0x8000_0000 then v else 0
    case None => 0
  }

  /** The argument read back from a created route is the index it was created with. */
  lemma CreateRouteRoundTrip(imageIndex: Int32)
    ensures ImageIndexArg(CreateRoute(imageIndex)) == Some(imageIndex as int)
    ensures SliderIndexArgument(CreateRoute(imageIndex)) == imageIndex
  {
    var route := CreateRoute(imageIndex);
    assert route[|SliderPrefix|..] == Decimal.IntToText(imageIndex);
    Decimal.ParseIntToText(imageIndex);
  }

  /** Different indices give different routes. */
  lemma CreateRouteInjective(i: Int32, j: Int32)
    ensures CreateRoute(i) == CreateRoute(j) ==> i == j
  {
    CreateRouteRoundTrip(i);
    CreateRouteRoundTrip(j);
  }

  /** No slider route is the gallery route. */
  lemma CreateRouteIsNotGallery(imageIndex: Int32)
    ensures CreateRoute(imageIndex) != GalleryRoute
    ensures ImageIndexArg(GalleryRoute).None?
  {
    var route := CreateRoute(imageIndex);
    assert route[0] == 's' != GalleryRoute[0];
  }

  /** The template shares the prefix of every created route and its placeholder names the
      argument; a slider destination given no index opens at 0. */
  lemma SliderTemplateShape()
    ensures SliderRoute == SliderPrefix + "{" + ArgImageIndex + "}"
    ensures Slider().Route() == SliderRoute && Gallery.Route() == GalleryRoute
    ensures Slider().imageIndex == 0
  {
  }
}
