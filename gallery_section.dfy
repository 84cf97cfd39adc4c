/**
 * The public gallery: the list of images (built-in until a fetch replaces it)
 * and the lightbox, which holds the id of the open image or `null`, with
 * wrap-around navigation to the previous and the next image.
 */
module GallerySection {
  import opened Json
  import opened Wrappers
  import opened RecordLists

  function StaticImage(id: real, src: string, alt: string, category: string): Record
  {
    map["id" := Num(id), "src" := Str(src), "alt" := Str(alt), "category" := Str(category)]
  }

  const StaticGalleryImages: seq<Record> := [
    StaticImage(1.0, "https://images.pexels.com/photos/958545/pexels-photo-958545.jpeg?auto=compress&cs=tinysrgb&w=800&h=600&fit=crop", "Elegant dining room", "ambiance"),
    StaticImage(2.0, "https://images.pexels.com/photos/1640777/pexels-photo-1640777.jpeg?auto=compress&cs=tinysrgb&w=800&h=600&fit=crop", "Signature dish preparation", "food"),
    StaticImage(3.0, "https://images.pexels.com/photos/2467287/pexels-photo-2467287.jpeg?auto=compress&cs=tinysrgb&w=800&h=600&fit=crop", "Wine cellar", "ambiance"),
    StaticImage(4.0, "https://images.pexels.com/photos/1640774/pexels-photo-1640774.jpeg?auto=compress&cs=tinysrgb&w=800&h=600&fit=crop", "Fresh ingredients", "food"),
    StaticImage(5.0, "https://images.pexels.com/photos/696218/pexels-photo-696218.jpeg?auto=compress&cs=tinysrgb&w=800&h=600&fit=crop", "Private dining area", "ambiance"),
    StaticImage(6.0, "https://images.pexels.com/photos/1435904/pexels-photo-1435904.jpeg?auto=compress&cs=tinysrgb&w=800&h=600&fit=crop", "Artisanal dessert", "food")]

  datatype Direction = Prev | Next

  /**
   * The position `navigateLightbox` moves to from `current`, the result of
   * `findIndex` (-1 when the open id is not in the list).
   */
  function NavigateIndex(current: int, len: nat, dir: Direction): (k: nat)
    requires len > 0 && -1 <= current < len
    ensures k < len
    ensures dir == Next && current < len - 1 ==> k == current + 1
    ensures dir == Next && current == len - 1 ==> k == 0
    ensures dir == Prev && current > 0 ==> k == current - 1
    ensures dir == Prev && current <= 0 ==> k == len - 1
  {
    match dir
    case Prev => if current > 0 then current - 1 else len - 1
    case Next => if current < len - 1 then current + 1 else 0
  }

  /**
   * The lightbox after `navigateLightbox`: closed stays closed; otherwise the id of
   * the neighbouring image, the first (next) or last (previous) image when the
   * open id is not in the list.
   */
  function Navigated(images: seq<Record>, lightbox: Value, dir: Direction): (r: Value)
    requires images != []
    ensures lightbox == Null ==> r == Null
    ensures lightbox != Null ==> exists k :: 0 <= k < |images| && r == Field(images[k], "id")
    ensures lightbox != Null && (forall x :: x in images ==> Field(x, "id") != lightbox) ==>
              r == Field(images[if dir == Next then 0 else |images| - 1], "id")
  {
    if lightbox == Null then Null
    else
      var current := FindIndex(images, "id", lightbox);
      Field(images[NavigateIndex(current, |images|, dir)], "id")
  }

  /** With distinct, non-null ids, next from image `k` opens image `k + 1`, wrapping to the first. */
  lemma NavigateNextStep(images: seq<Record>, k: nat)
    requires UniqueAt(images, "id") && k < |images|
    requires Field(images[k], "id") != Null
    ensures Navigated(images, Field(images[k], "id"), Next) == Field(images[if k < |images| - 1 then k + 1 else 0], "id")
    ensures Navigated(images, Field(images[k], "id"), Prev) == Field(images[if k > 0 then k - 1 else |images| - 1], "id")
  {
    FindIndexOfUnique(images, "id", k);
  }

  /** With distinct, non-null ids, previous after next, and next after previous, return to the same image. */
  lemma NavigateRoundTrip(images: seq<Record>, k: nat)
    requires UniqueAt(images, "id") && k < |images|
    requires forall j :: 0 <= j < |images| ==> Field(images[j], "id") != Null
    ensures Navigated(images, Navigated(images, Field(images[k], "id"), Next), Prev) == Field(images[k], "id")
    ensures Navigated(images, Navigated(images, Field(images[k], "id"), Prev), Next) == Field(images[k], "id")
  {
    var n := if k < |images| - 1 then k + 1 else 0;
    var p := if k > 0 then k - 1 else |images| - 1;
    NavigateNextStep(images, k);
    NavigateNextStep(images, n);
    NavigateNextStep(images, p);
  }

  /**
   * The image the lightbox displays (`lightboxImage && currentImage`): the first
   * image with the open id, when that id is truthy.
   */
  function Shown(images: seq<Record>, lightbox: Value): (r: Option<Record>)
    ensures r.Some? <==> Truthy(lightbox) && exists x :: x in images && Field(x, "id") == lightbox
    ensures r.Some? ==> r.value in images && Field(r.value, "id") == lightbox
    ensures r.Some? ==> exists i :: 0 <= i < |images| && r.value == images[i] && Field(images[i], "id") == lightbox &&
                                    forall k :: 0 <= k < i ==> Field(images[k], "id") != lightbox
  {
    if Truthy(lightbox) then Find(images, "id", lightbox) else None
  }

  /** A fetched image: `src` from `url || src`, `alt` defaults to '', `id` from `_id || id`; the other fields are kept. */
  function Normalize(img: Record): (r: Record)
    ensures Field(r, "src") == Or(Field(img, "url"), Field(img, "src"))
    ensures Field(r, "alt") == Or(Field(img, "alt"), Str(""))
    ensures Field(r, "id") == Or(Field(img, "_id"), Field(img, "id"))
    ensures r.Keys == img.Keys + {"src", "alt", "id"}
    ensures forall k :: k in img && k !in {"src", "alt", "id"} ==> r[k] == img[k]
  {
    img + map[
      "src" := Or(Field(img, "url"), Field(img, "src")),
      "alt" := Or(Field(img, "alt"), Str("")),
      "id" := Or(Field(img, "_id"), Field(img, "id"))]
  }

  /** Normalising a normalised image changes nothing. */
  lemma NormalizeIdempotent(img: Record)
    ensures Normalize(Normalize(img)) == Normalize(img)
  {
    var n := Normalize(img);
    assert Normalize(n).Keys == n.Keys;
  }

  class Gallery {
    var images: seq<Record>
    /** The open image's id, `Null` when the lightbox is closed. */
    var lightbox: Value

    ghost predicate Valid()
      reads this
    {
      images != []
    }

    constructor ()
      ensures Valid() && images == StaticGalleryImages && lightbox == Null
    {
      images := StaticGalleryImages;
      lightbox := Null;
    }

    /** `openLightbox`. */
    method Open(imageId: Value)
      requires Valid()
      modifies this
      ensures Valid() && lightbox == imageId && images == old(images)
    {
      lightbox := imageId;
    }

    /** `closeLightbox`. */
    method Close()
      requires Valid()
      modifies this
      ensures Valid() && lightbox == Null && images == old(images)
    {
      lightbox := Null;
    }

    /** `navigateLightbox`. */
    method Navigate(dir: Direction)
      requires Valid()
      modifies this
      ensures Valid() && images == old(images)
      ensures lightbox == Navigated(images, old(lightbox), dir)
      ensures old(lightbox) == Null ==> lightbox == Null
    {
      lightbox := Navigated(images, lightbox, dir);
    }

    /** The mount fetch settling; the lightbox (closed at mount) is left as it is. */
    method ApplyFetch(fetched: Fetched)
      requires Valid()
      modifies this
      ensures Valid() && lightbox == old(lightbox)
      ensures images == ReplaceIfNonEmpty(old(images), fetched, Normalize)
    {
      images := ReplaceIfNonEmpty(images, fetched, Normalize);
    }
  }
}
