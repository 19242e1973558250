/** The product image carousel (src/components/ui/ProductGallery.tsx): the
    shown image's index with wrap-around next/previous, thumbnail selection
    and the zoom toggle. */
module ProductGallery {
  import opened Wrappers

  /** `goToNext`: one image on, wrapping from the last to the first. */
  function Next(i: nat, n: nat): (r: nat)
    requires n > 0
    ensures r < n
  {
    (i + 1) % n
  }

  /** `goToPrevious`: one image back, wrapping from the first to the last.
      With i >= 0 the dividend is never negative, so JavaScript's truncating
      `%` and Dafny's Euclidean `%` agree. */
  function Prev(i: nat, n: nat): (r: nat)
    requires n > 0
    ensures r < n
  {
    (i - 1 + n) % n
  }

  lemma ModOfSmall(x: int, n: int)
    requires 0 <= x < n
    ensures x % n == x
  {
  }

  lemma ModOfNext(x: int, n: int)
    requires n <= x < 2 * n
    ensures x % n == x - n
  {
  }

  /** Next steps up by one except from the last image, which wraps to 0. */
  lemma NextSteps(i: nat, n: nat)
    requires i < n
    ensures Next(i, n) == if i == n - 1 then 0 else i + 1
  {
    if i + 1 < n { ModOfSmall(i + 1, n); }
  }

  /** Prev steps down by one except from the first image, which wraps to n - 1. */
  lemma PrevSteps(i: nat, n: nat)
    requires i < n
    ensures Prev(i, n) == if i == 0 then n - 1 else i - 1
  {
    if i == 0 { ModOfSmall(n - 1, n); } else { ModOfNext(i - 1 + n, n); }
  }

  /** Previous undoes next. */
  lemma PrevAfterNext(i: nat, n: nat)
    requires i < n
    ensures Prev(Next(i, n), n) == i
  {
    NextSteps(i, n);
    PrevSteps(Next(i, n), n);
  }

  /** Next undoes previous. */
  lemma NextAfterPrev(i: nat, n: nat)
    requires i < n
    ensures Next(Prev(i, n), n) == i
  {
    PrevSteps(i, n);
    NextSteps(Prev(i, n), n);
  }

  /** k presses of the next button. */
  function NextTimes(k: nat, i: nat, n: nat): (r: nat)
    requires n > 0
  {
    if k == 0 then i else Next(NextTimes(k - 1, i, n), n)
  }

  /** Up to n presses of next from an index in range move k places on,
      wrapping past the end once at most. */
  lemma {:induction false} NextTimesRotates(k: nat, i: nat, n: nat)
    requires i < n && k <= n
    ensures NextTimes(k, i, n) == if i + k < n then i + k else i + k - n
  {
    if k > 0 {
      NextTimesRotates(k - 1, i, n);
      NextSteps(NextTimes(k - 1, i, n), n);
    }
  }

  /** n presses of next go round the whole carousel and back. */
  lemma NextAroundIsIdentity(i: nat, n: nat)
    requires i < n
    ensures NextTimes(n, i, n) == i
  {
    NextTimesRotates(n, i, n);
  }

  /** The gallery component's state for one mounted instance. `images` is
      its prop; React keeps `currentIndex` and `isZoomed` when the prop
      changes, since nothing keys the component on it. */
  class Gallery {
    var images: seq<string>
    var currentIndex: nat
    var isZoomed: bool

    /** The index names a shown image (or is 0 when there are none). */
    predicate Valid()
      reads this
    {
      currentIndex < |images| || currentIndex == 0
    }

    /** Thumbnail k is drawn with the active ring. */
    predicate IsActive(k: nat)
      reads this
    {
      k == currentIndex
    }

    /** Mounting: the first image, not zoomed. */
    constructor (images: seq<string>)
      ensures this.images == images && currentIndex == 0 && !isZoomed
      ensures Valid()
    {
      this.images := images;
      currentIndex := 0;
      isZoomed := false;
    }

    /** The right arrow. From any index, even a stale one, the result is in range. */
    method GoToNext()
      requires |images| > 0
      modifies this
      ensures images == old(images) && isZoomed == old(isZoomed)
      ensures currentIndex == Next(old(currentIndex), |images|)
      ensures Valid()
    {
      currentIndex := (currentIndex + 1) % |images|;
    }

    /** The left arrow. */
    method GoToPrevious()
      requires |images| > 0
      modifies this
      ensures images == old(images) && isZoomed == old(isZoomed)
      ensures currentIndex == Prev(old(currentIndex), |images|)
      ensures Valid()
    {
      currentIndex := (currentIndex - 1 + |images|) % |images|;
    }

    /** The zoom button or a click on the image. */
    method ToggleZoom()
      modifies this
      ensures isZoomed == !old(isZoomed)
      ensures images == old(images) && currentIndex == old(currentIndex)
    {
      isZoomed := !isZoomed;
    }

    /** A click on thumbnail k: that image is shown and only its thumbnail
        is marked active. */
    method SelectThumbnail(k: nat)
      requires k < |images|
      modifies this
      ensures images == old(images) && isZoomed == old(isZoomed)
      ensures currentIndex == k
      ensures forall j :: 0 <= j < |images| ==> (IsActive(j) <==> j == k)
      ensures Valid()
    {
      currentIndex := k;
    }

    /** A re-render with a new `images` prop: the index is kept as it is. */
    method ReceiveImages(newImages: seq<string>)
      modifies this
      ensures images == newImages
      ensures currentIndex == old(currentIndex) && isZoomed == old(isZoomed)
      ensures Valid() <==> old(currentIndex) < |newImages| || old(currentIndex) == 0
    {
      images := newImages;
    }

    /** The same re-render if the index were reset with the prop: the
        invariant then survives any change of the list. */
    method ReceiveImagesResetting(newImages: seq<string>)
      modifies this
      ensures images == newImages && currentIndex == 0
      ensures isZoomed == old(isZoomed)
      ensures Valid()
    {
      images := newImages;
      currentIndex := 0;
    }

    /** `images[currentIndex]`: the main picture's source, `undefined`
        (None) when the index has fallen off the end of the list. */
    method CurrentImage() returns (src: Option<string>)
      ensures currentIndex < |images| ==> src == Some(images[currentIndex])
      ensures currentIndex >= |images| ==> src == None
      ensures Valid() && |images| > 0 ==> src.Some?
    {
      if currentIndex < |images| {
        src := Some(images[currentIndex]);
      } else {
        src := None;
      }
    }
  }
}
