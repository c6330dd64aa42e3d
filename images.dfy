/**
 * `ServiceImage.save`: saving an image marked primary first clears the
 * primary flag on every other image of the same service, then writes the
 * image itself (an update of the row with its id, or a new row).
 */
module Images {
  import opened Wrappers

  datatype Image = Image(id: nat, service: nat, caption: string, isPrimary: bool, order: nat)

  /** `filter(service=s, is_primary=True).update(is_primary=False)` */
  function Demoted(images: seq<Image>, service: nat): (r: seq<Image>)
    ensures |r| == |images|
    ensures forall k :: 0 <= k < |images| ==>
      r[k] == if images[k].service == service then images[k].(isPrimary := false) else images[k]
  {
    seq(|images|, k requires 0 <= k < |images| =>
      if images[k].service == service then images[k].(isPrimary := false) else images[k])
  }

  /** The position of the row with this id, if there is one. */
  function Find(images: seq<Image>, id: nat): (r: Option<nat>)
    ensures r.Some? ==> r.value < |images| && images[r.value].id == id
    ensures r.None? <==> forall k :: 0 <= k < |images| ==> images[k].id != id
    decreases |images|
  {
    if images == [] then None
    else if images[|images| - 1].id == id then Some(|images| - 1)
    else Find(images[..|images| - 1], id)
  }

  /** `super().save()`: overwrite the row with the image's id, or add a row. */
  function Written(images: seq<Image>, img: Image): (r: seq<Image>)
    ensures Find(images, img.id).Some? ==> |r| == |images| && r == images[Find(images, img.id).value := img]
    ensures Find(images, img.id).None? ==> r == images + [img]
  {
    match Find(images, img.id)
    case Some(k) => images[k := img]
    case None => images + [img]
  }

  /** The table after `img.save()`. */
  function Saved(images: seq<Image>, img: Image): seq<Image> {
    Written(if img.isPrimary then Demoted(images, img.service) else images, img)
  }

  /** No two rows share an id. */
  predicate UniqueIds(images: seq<Image>) {
    forall j, k :: 0 <= j < k < |images| ==> images[j].id != images[k].id
  }

  /** Each service has at most one primary image. */
  predicate OnePrimary(images: seq<Image>) {
    forall j, k :: 0 <= j < k < |images| && images[j].isPrimary && images[k].isPrimary ==>
      images[j].service != images[k].service
  }

  class ImageTable {
    var images: seq<Image>

    constructor()
      ensures images == []
    {
      images := [];
    }

    /** `ServiceImage.save` */
    method Save(img: Image)
      modifies this
      ensures images == Saved(old(images), img)
    {
      if img.isPrimary {
        images := Demoted(images, img.service);
      }
      images := Written(images, img);
    }
  }

  /** Writing keeps ids unique. */
  lemma WrittenUniqueIds(images: seq<Image>, img: Image)
    requires UniqueIds(images)
    ensures UniqueIds(Written(images, img))
  {
  }

  /** After saving a primary image it is the only primary image of its service. */
  lemma SavedPrimaryIsTheOne(images: seq<Image>, img: Image)
    requires UniqueIds(images) && img.isPrimary
    ensures var r := Saved(images, img);
      forall k :: 0 <= k < |r| && r[k].service == img.service && r[k].isPrimary ==> r[k] == img
  {
  }

  /** Saving keeps at most one primary image per service, and ids unique. */
  lemma SavedOnePrimary(images: seq<Image>, img: Image)
    requires UniqueIds(images) && OnePrimary(images)
    ensures UniqueIds(Saved(images, img)) && OnePrimary(Saved(images, img))
  {
    var base := if img.isPrimary then Demoted(images, img.service) else images;
    assert UniqueIds(base);
    assert OnePrimary(base);
    WrittenUniqueIds(base, img);
    var r := Saved(images, img);
    if !img.isPrimary {
      assert forall k :: 0 <= k < |r| && r[k].isPrimary ==> k < |base| && r[k] == base[k];
    } else {
      SavedPrimaryIsTheOne(images, img);
    }
  }

  /** Images of other services keep their place and their fields. */
  lemma OtherServicesUntouched(images: seq<Image>, img: Image, k: nat)
    requires k < |images| && images[k].service != img.service && images[k].id != img.id
    ensures k < |Saved(images, img)| && Saved(images, img)[k] == images[k]
  {
  }

  /** Saving an image that is not primary changes no other row. */
  lemma NonPrimaryTouchesNoOther(images: seq<Image>, img: Image, k: nat)
    requires !img.isPrimary && k < |images| && images[k].id != img.id
    ensures k < |Saved(images, img)| && Saved(images, img)[k] == images[k]
  {
  }
}
