# Image slider: view-state model

A Dafny model of the logic of an Android image-gallery app. The app shows a grid gallery of
fifteen images and opens a fullscreen, swipeable slider when one is tapped. It remembers
the gallery's scroll position and the slider's page across rotation and process death.

What is modelled:

- `Images` and `ImageRepository`: the immutable `ImageItem` record and the fixed catalogue
  of fifteen images with ids 1..15.
- `SavedState`: the optional per-screen saved-state handle. It is a `Store` object holding a
  `map<string, Int32>`, plus a pure `Snapshot` view of it, which is `None` when there is no handle.
- `Slider`: `SliderViewModel` as a class. It has the image list, `currentPage` and its
  write-through to the store under `"current_page"`. It also covers the clamping
  `SetInitialPage`, the bounds-checked `GetImageAt` and the `EdgeBehavior` enum.
- `Gallery`: `GalleryViewModel` as a class. It has the image list and the
  `(scrollIndex, scrollOffset)` pair, written through under `"scroll_index"` and `"scroll_offset"`.
- `Navigation`: the `Screen` destinations, their route strings and `createRoute`. It also has
  a decimal reader that stands in for the navigation library's integer argument type.
- `AppFlow`: the navigation graph's wiring. A gallery click leads to the created route, then to
  the slider's argument, then to `setInitialPage`. This module also holds the persistence round
  trips stated over the classes.
- `KotlinInt` and `Decimal`: Kotlin's 32-bit `Int`, `coerceIn` and `coerceAtLeast`, and the
  decimal text that string templates produce for an `Int`.

What the code does, and the model with it:

- `updateCurrentPage` stores its page verbatim; only `setInitialPage` clamps.
- `updateScrollPosition` does not check the index against the image count.
- On an empty image list, `setInitialPage` would throw, because Kotlin's `coerceIn(0, -1)` has an
  empty range. Each view model class has a `Valid()` invariant: its list is the fifteen-item
  catalogue. The constructor establishes it, every update keeps it, and `SetInitialPage` requires
  it, which gives the clamp its non-empty list.
- The slider screen's own pager clamp is `Slider.PagerInitialPage`. It guards with
  `coerceAtLeast(1)`, so it gives 0 on an empty list.

## Model

| member | source | states |
|---|---|---|
| ImageRepository.GetImages | app/src/main/java/dev/panthu/imagesliderapplication/data/repository/ImageRepository.kt:17-33 | the catalogue has exactly 15 items, so it is never empty |
| ImageRepository.IdsArePositions | app/src/main/java/dev/panthu/imagesliderapplication/data/repository/ImageRepository.kt:18-32 | the item at position k has id k + 1 |
| ImageRepository.IdsStrictlyIncreasing | app/src/main/java/dev/panthu/imagesliderapplication/data/repository/ImageRepository.kt:18-32 | ids strictly increase along the list and are pairwise distinct |
| ImageRepository.DescriptionsNameIds | app/src/main/java/dev/panthu/imagesliderapplication/data/repository/ImageRepository.kt:18-32 | every description ends with "photo N", where N is the decimal text of the item's own id |
| SavedState.Get | app/src/main/java/dev/panthu/imagesliderapplication/ui/screens/slider/SliderViewModel.kt:33 | a read gives a value exactly when there is a store that holds the key, and that value is the stored one |
| SavedState.Put | app/src/main/java/dev/panthu/imagesliderapplication/ui/screens/gallery/GalleryViewModel.kt:69-72 | a write through an optional store makes the key read back the value when there is a store, changes no other key, and never creates a store |
| SavedState.Store.Set | app/src/main/java/dev/panthu/imagesliderapplication/ui/screens/gallery/GalleryViewModel.kt:70-71 | setting a key on the store is the pure write applied to its snapshot |
| SavedState.SnapshotOf | app/src/main/java/dev/panthu/imagesliderapplication/ui/screens/slider/SliderViewModel.kt:19 | a view model sees a snapshot exactly when it was given a store, and that snapshot is the store's own entries |
| Slider.RestoredPage | app/src/main/java/dev/panthu/imagesliderapplication/ui/screens/slider/SliderViewModel.kt:32-34 | the start page is the saved "current_page" value when the store has one, and 0 otherwise, including when there is no store |
| Slider.PageRoundTrip | app/src/main/java/dev/panthu/imagesliderapplication/ui/screens/slider/SliderViewModel.kt:32-57 | after a page is written through, a view model restored from the same store starts on that page; with no store it starts on 0 |
| Slider.SliderViewModel.constructor | app/src/main/java/dev/panthu/imagesliderapplication/ui/screens/slider/SliderViewModel.kt:18-46 | a new view model keeps its store, starts on the restored page, and holds the catalogue in order, so Valid() holds |
| Slider.SliderViewModel.UpdateCurrentPage | app/src/main/java/dev/panthu/imagesliderapplication/ui/screens/slider/SliderViewModel.kt:54-57 | the page becomes the argument verbatim, the store gets it under "current_page" when present, and the images are unchanged, so Valid() is kept |
| Slider.InitialPageClamp | app/src/main/java/dev/panthu/imagesliderapplication/ui/screens/slider/SliderViewModel.kt:65 | on a non-empty list the clamp lies in [0, count-1]: the request itself when in range, 0 below, count-1 above; an empty list is excluded because coerceIn throws on it |
| Slider.SliderViewModel.SetInitialPage | app/src/main/java/dev/panthu/imagesliderapplication/ui/screens/slider/SliderViewModel.kt:64-67 | on the catalogue (Valid(), so a non-empty list) the page ends in range and equals the clamped request: the request itself in range, 0 below, the last index above; that value is written through and the images are unchanged |
| Slider.PagerInitialPage | app/src/main/java/dev/panthu/imagesliderapplication/ui/screens/slider/SliderScreen.kt:74 | the pager's clamp is 0 on an empty list and agrees with the view model's clamp on any non-empty one |
| Slider.SliderViewModel.GetImageCount | app/src/main/java/dev/panthu/imagesliderapplication/ui/screens/slider/SliderViewModel.kt:72 | the count is the length of the image list |
| Slider.SliderViewModel.GetImageAt | app/src/main/java/dev/panthu/imagesliderapplication/ui/screens/slider/SliderViewModel.kt:77 | the lookup is present exactly for indices inside the list and then is the image at that index; it never fails and reads only |
| Slider.SliderViewModel.GetEdgeBehavior | app/src/main/java/dev/panthu/imagesliderapplication/ui/screens/slider/SliderViewModel.kt:84 | the edge behaviour is always Block |
| Gallery.RestoredPosition | app/src/main/java/dev/panthu/imagesliderapplication/ui/screens/gallery/GalleryViewModel.kt:32-41 | index and offset are read from "scroll_index" and "scroll_offset" independently, each 0 when its key or the store is missing |
| Gallery.PositionRoundTrip | app/src/main/java/dev/panthu/imagesliderapplication/ui/screens/gallery/GalleryViewModel.kt:32-73 | after a position is written through, a view model restored from the same store starts at it; with no store it starts at (0, 0) |
| Gallery.LastWriteWins | app/src/main/java/dev/panthu/imagesliderapplication/ui/screens/gallery/GalleryViewModel.kt:61-73 | two successive writes leave the store as the second write alone would |
| Gallery.SavePositionKeepsOtherKeys | app/src/main/java/dev/panthu/imagesliderapplication/ui/screens/gallery/GalleryViewModel.kt:68-72 | writing a position changes no key other than the two scroll keys |
| Gallery.GalleryViewModel.constructor | app/src/main/java/dev/panthu/imagesliderapplication/ui/screens/gallery/GalleryViewModel.kt:18-52 | a new view model keeps its store, starts at the restored position, and holds the catalogue in order, so Valid() holds |
| Gallery.GalleryViewModel.UpdateScrollPosition | app/src/main/java/dev/panthu/imagesliderapplication/ui/screens/gallery/GalleryViewModel.kt:61-73 | index and offset become the arguments exactly, the offset defaulting to 0, with no check against the image count; both keys get those values when there is a store; the images are unchanged, so Valid() is kept |
| Gallery.GalleryViewModel.GetImageCount | app/src/main/java/dev/panthu/imagesliderapplication/ui/screens/gallery/GalleryViewModel.kt:78 | the count is the length of the image list |
| Decimal.NatToText | app/src/main/java/dev/panthu/imagesliderapplication/ui/navigation/Screen.kt:25 | the text of a natural number is one or more digits, with a leading zero only for 0 itself |
| Decimal.IntToText | app/src/main/java/dev/panthu/imagesliderapplication/ui/navigation/Screen.kt:25 | the text of an integer starts with '-' exactly when it is negative and is digits otherwise |
| Decimal.ParseIntToText | app/src/main/java/dev/panthu/imagesliderapplication/ui/navigation/Screen.kt:25 | reading back the text of any integer gives that integer |
| Decimal.IntToTextInjective | app/src/main/java/dev/panthu/imagesliderapplication/ui/navigation/Screen.kt:25 | distinct integers have distinct texts |
| Navigation.CreateRoute | app/src/main/java/dev/panthu/imagesliderapplication/ui/navigation/Screen.kt:25 | every created route starts with "slider/" and has text after it |
| Navigation.SliderIndexArgument | app/src/main/java/dev/panthu/imagesliderapplication/ui/navigation/NavGraph.kt:59-72 | the slider's index is the route's integer argument when it is a readable Int, and the declared default 0 otherwise |
| Navigation.CreateRouteRoundTrip | app/src/main/java/dev/panthu/imagesliderapplication/ui/navigation/Screen.kt:25 | reading the integer after "slider/" in createRoute(i) gives back i |
| Navigation.CreateRouteInjective | app/src/main/java/dev/panthu/imagesliderapplication/ui/navigation/Screen.kt:25 | different indices give different routes |
| Navigation.CreateRouteIsNotGallery | app/src/main/java/dev/panthu/imagesliderapplication/ui/navigation/Screen.kt:11-25 | no slider route equals the gallery route "gallery", which carries no index argument |
| Navigation.SliderTemplateShape | app/src/main/java/dev/panthu/imagesliderapplication/ui/navigation/Screen.kt:11-20 | the template is "slider/" + "{" + "imageIndex" + "}", sharing the created routes' prefix with the argument name as placeholder; a slider destination's default index is 0 |
| AppFlow.GalleryClickOpensClickedImage | app/src/main/java/dev/panthu/imagesliderapplication/ui/navigation/NavGraph.kt:49-72 | for 0 <= i <= 14, a click on i hands the slider i, the clamp keeps i, and the image there has id i + 1 |
| AppFlow.OpenSlider | app/src/main/java/dev/panthu/imagesliderapplication/ui/navigation/NavGraph.kt:49-81 | a slider opened from a click on i is on page i, shows the image with id i + 1, and has saved page i |
| AppFlow.RecreateSlider | app/src/main/java/dev/panthu/imagesliderapplication/ui/screens/slider/SliderViewModel.kt:32-57 | after updateCurrentPage(p), a fresh view model on the same store starts on page p |
| AppFlow.RecreateGallery | app/src/main/java/dev/panthu/imagesliderapplication/ui/screens/gallery/GalleryViewModel.kt:32-73 | after updateScrollPosition(i, o), a fresh view model on the same store starts at (i, o) |
| AppFlow.VisitSliderAndReturn | app/src/main/java/dev/panthu/imagesliderapplication/ui/navigation/NavGraph.kt:47-81 | opening the slider writes only the slider's store, so the gallery's position and saved state are as before the visit; the back-stack pop is library behaviour and touches no view model |

## Left out

- The composables are not modelled: the gallery grid, the pager, the cards, the empty states and
  the activity. They are declarative UI, layout, theming and accessibility text. Only the pager's
  clamp expression is lifted, as `Slider.PagerInitialPage`.
- Image loading and drawable resources are outside the model. The image library is a foreign
  library, and a drawable's numeric id is assigned by the Android build. A resource is kept as
  its `R.drawable` name.
- Observable state flows and their notifications are not modelled. The flows are plain fields,
  and the app's own code has no subscriber logic.
- The debounce of scroll events and the coroutine scheduling are left out. They concern timing.
  So is the relative order of `setInitialPage` and the pager-driven `updateCurrentPage` calls,
  which depends on that scheduling.
- The navigation back stack and route matching are library behaviour and are not modelled.
  `Decimal.ParseInt` stands in for the integer argument type. It accepts an optional '-' and
  then one or more digits.
- Navigation.SliderIndexArgument: treats a number outside the Int range like a missing argument
  (0). This follows the declared default. The library's actual handling of such input is not
  modelled.
- The WRAP_AROUND transition logic is absent. Nothing in the app consults that variant, so only
  the enum is modelled.
- The saved-state handle is modelled only for the `Int` entries the view models read and write.
  A value of another type stored under one of their keys is not modelled.
- The swipe-hint flag and the press-scale animation are left out. They are UI-only state.
