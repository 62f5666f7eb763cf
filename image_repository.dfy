/** The static catalogue of gallery images. */
module ImageRepository {
  import opened Images
  import Decimal

  /** The fifteen catalogue images, in gallery order. Being a function, every call
      yields the same list in the same order, so positions identify images. */
  function GetImages(): (images: seq<ImageItem>)
    ensures |images| == 15
  {
    [ ImageItem(1, Drawable("gallery_image_01"), "Landscape photo 1"),
      ImageItem(2, Drawable("gallery_image_02"), "Portrait photo 2"),
      ImageItem(3, Drawable("gallery_image_03"), "Square photo 3"),
      ImageItem(4, Drawable("gallery_image_04"), "Landscape photo 4"),
      ImageItem(5, Drawable("gallery_image_05"), "Portrait photo 5"),
      ImageItem(6, Drawable("gallery_image_06"), "Square photo 6"),
      ImageItem(7, Drawable("gallery_image_07"), "Landscape photo 7"),
      ImageItem(8, Drawable("gallery_image_08"), "Portrait photo 8"),
      ImageItem(9, Drawable("gallery_image_09"), "Square photo 9"),
      ImageItem(10, Drawable("gallery_image_10"), "Landscape photo 10"),
      ImageItem(11, Drawable("gallery_image_11"), "Landscape photo 11"),
      ImageItem(12, Drawable("gallery_image_12"), "Portrait photo 12"),
      ImageItem(13, Drawable("gallery_image_13"), "Square photo 13"),
      ImageItem(14, Drawable("gallery_image_14"), "Landscape photo 14"),
      ImageItem(15, Drawable("gallery_image_15"), "Portrait photo 15") ]
  }

  /** The image at position k has id k + 1. */
  lemma IdsArePositions()
    ensures forall k :: 0 <= k < |GetImages()| ==> GetImages()[k].id == k + 1
  {
    var images := GetImages();
    assert images[0].id == 1 && images[1].id == 2 && images[2].id == 3;
  }

  /** Ids grow strictly along the list, so no two images share an id. */
  lemma IdsStrictlyIncreasing()
    ensures forall j, k :: 0 <= j < k < |GetImages()| ==> GetImages()[j].id < GetImages()[k].id
    ensures forall j, k :: 0 <= j < |GetImages()| && 0 <= k < |GetImages()| && j != k ==>
      GetImages()[j].id != GetImages()[k].id
  {
    IdsArePositions();
  }

  predicate EndsWith(s: string, suffix: string) {
    |suffix| <= |s| && s[|s| - |suffix|..] == suffix
  }

  /** The item's description ends with "photo N", N being its own id. */
  predicate NamesOwnId(item: ImageItem) {
    EndsWith(item.contentDescription, "photo " + Decimal.IntToText(item.id))
  }

  /** Every description ends with "photo N", N being the image's own id. */
  lemma DescriptionsNameIds()
    ensures forall k :: 0 <= k < |GetImages()| ==> NamesOwnId(GetImages()[k])
  {
    forall k | 0 <= k < |GetImages()| ensures NamesOwnId(GetImages()[k]) {
      IdTexts();
      if k < 5 {
        DescriptionsNameIdsBelow5(k);
      } else if k < 10 {
        DescriptionsNameIdsBelow10(k);
      } else {
        DescriptionsNameIdsBelow15(k);
      }
    }
  }

  /** The decimal texts of the catalogue's ids. */
  lemma IdTexts()
    ensures Decimal.IntToText(1) == "1" && Decimal.IntToText(2) == "2" && Decimal.IntToText(3) == "3"
    ensures Decimal.IntToText(4) == "4" && Decimal.IntToText(5) == "5" && Decimal.IntToText(6) == "6"
    ensures Decimal.IntToText(7) == "7" && Decimal.IntToText(8) == "8" && Decimal.IntToText(9) == "9"
    ensures Decimal.IntToText(10) == "10" && Decimal.IntToText(11) == "11" && Decimal.IntToText(12) == "12"
    ensures Decimal.IntToText(13) == "13" && Decimal.IntToText(14) == "14" && Decimal.IntToText(15) == "15"
  {
  }

  // The fifteen items are checked five at a time, which keeps each proof small.

  lemma DescriptionsNameIdsBelow5(k: nat)
    requires k < 5
    ensures NamesOwnId(GetImages()[k])
  {
    IdTexts();
  }

  lemma DescriptionsNameIdsBelow10(k: nat)
    requires 5 <= k < 10
    ensures NamesOwnId(GetImages()[k])
  {
    IdTexts();
  }

  lemma DescriptionsNameIdsBelow15(k: nat)
    requires 10 <= k < 15
    ensures NamesOwnId(GetImages()[k])
  {
    IdTexts();
  }
}
