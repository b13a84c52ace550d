/** The image carousel of the destination view (`TravelModal.tsx`): an index into the
    destination's images, stepped forwards and backwards with wrap-around, set directly by
    the dot buttons, and stepped forwards by the auto-scroll timer. */
module Carousel {

  /** `nextImage`'s update: the last index wraps to 0. */
  function NextIndex(i: int, n: int): (r: int)
    ensures 0 <= i < n ==> 0 <= r < n && r == (i + 1) % n
  {
    if i == n - 1 then 0 else i + 1
  }

  /** `prevImage`'s update: index 0 wraps to the last one. */
  function PrevIndex(i: int, n: int): (r: int)
    ensures 0 <= i < n ==> 0 <= r < n && r == (i - 1) % n
  {
    if i == 0 then n - 1 else i - 1
  }

  /** A step back undoes a step forwards. */
  lemma PrevUndoesNext(i: int, n: int)
    requires 0 <= i < n
    ensures PrevIndex(NextIndex(i, n), n) == i
  {
  }

  /** A step forwards undoes a step back. */
  lemma NextUndoesPrev(i: int, n: int)
    requires 0 <= i < n
    ensures NextIndex(PrevIndex(i, n), n) == i
  {
  }

  /** The index after `k` forward steps from `i`. */
  function StepsForward(i: int, n: int, k: nat): int {
    if k == 0 then i else NextIndex(StepsForward(i, n, k - 1), n)
  }

  /** `k` forward steps advance the index by `k` modulo the number of images. */
  lemma {:induction false} StepsForwardIsModular(i: int, n: int, k: nat)
    requires 0 <= i < n
    ensures StepsForward(i, n, k) == (i + k) % n
  {
    if k > 0 {
      StepsForwardIsModular(i, n, k - 1);
      var j := (i + k - 1) % n;
      assert NextIndex(j, n) == (j + 1) % n;
      ModStep(i + k - 1, n);
    }
  }

  /** Adding one before or after reducing modulo `n` gives the same residue. */
  lemma ModStep(a: int, n: int)
    requires n > 0
    ensures (a % n + 1) % n == (a + 1) % n
  {
    var q, r := a / n, a % n;
    assert a == q * n + r;
    if r + 1 < n {
      ModUnique(r + 1, n, 0, r + 1);
      ModUnique(a + 1, n, q, r + 1);
    } else {
      assert (q + 1) * n == q * n + n;
      ModUnique(r + 1, n, 1, 0);
      ModUnique(a + 1, n, q + 1, 0);
    }
  }

  /** The residue is determined by any quotient-remainder decomposition. */
  lemma ModUnique(x: int, n: int, q: int, r: int)
    requires n > 0 && 0 <= r < n && x == q * n + r
    ensures x % n == r
  {
    var q0, r0 := x / n, x % n;
    assert (q - q0) * n == r0 - r;
    if q > q0 {
      MulAtLeast(q - q0, n);
    } else if q < q0 {
      MulAtLeast(q0 - q, n);
    }
  }

  lemma MulAtLeast(a: int, n: int)
    requires a >= 1 && n > 0
    ensures a * n >= n
  {
  }

  /** `n` forward steps go once round and return to the start. */
  lemma FullCycleReturns(i: int, n: int)
    requires 0 <= i < n
    ensures StepsForward(i, n, n) == i
  {
    StepsForwardIsModular(i, n, n);
    ModUnique(i + n, n, 1, i);
  }

  /** With a single image both steps stay on it. */
  lemma SingleImageStays(i: int)
    requires 0 <= i < 1
    ensures NextIndex(i, 1) == i && PrevIndex(i, 1) == i
  {
  }

  /** The arrows and the dots are drawn only for more than one image. */
  predicate ControlsShown(n: int) {
    n > 1
  }

  /** The indices the dot buttons pass to `goToImage`: one per image, when drawn. */
  function DotIndices(n: int): (dots: seq<int>)
    ensures ControlsShown(n) ==> |dots| == n
    ensures !ControlsShown(n) ==> dots == []
    ensures forall k :: 0 <= k < |dots| ==> dots[k] == k && 0 <= dots[k] < n
  {
    if ControlsShown(n) then seq(n, k requires 0 <= k < n => k) else []
  }

  /** The carousel state: `currentImageIndex` for a destination with `imageCount` images. */
  class ImageCarousel {
    const imageCount: nat
    var currentImageIndex: int

    /** With at least one image, the index points at one of them. */
    ghost predicate Valid()
      reads this
    {
      imageCount >= 1 ==> 0 <= currentImageIndex < imageCount
    }

    /** The index starts at 0. */
    constructor (n: nat)
      ensures imageCount == n && currentImageIndex == 0
      ensures Valid()
    {
      imageCount := n;
      currentImageIndex := 0;
    }

    /** `nextImage`. */
    method NextImage()
      modifies this
      ensures currentImageIndex == NextIndex(old(currentImageIndex), imageCount)
      ensures old(Valid()) ==> Valid()
    {
      currentImageIndex := if currentImageIndex == imageCount - 1 then 0 else currentImageIndex + 1;
    }

    /** `prevImage`. */
    method PrevImage()
      modifies this
      ensures currentImageIndex == PrevIndex(old(currentImageIndex), imageCount)
      ensures old(Valid()) ==> Valid()
    {
      currentImageIndex := if currentImageIndex == 0 then imageCount - 1 else currentImageIndex - 1;
    }

    /** `goToImage(index)`: the index is taken as given; a dot's index keeps it valid. */
    method GoToImage(index: int)
      modifies this
      ensures currentImageIndex == index
      ensures index in DotIndices(imageCount) ==> Valid()
    {
      currentImageIndex := index;
    }

    /** One tick of the auto-scroll interval: the same step as `nextImage`. */
    method AutoScrollTick()
      modifies this
      ensures currentImageIndex == NextIndex(old(currentImageIndex), imageCount)
      ensures old(Valid()) ==> Valid()
    {
      currentImageIndex := if currentImageIndex == imageCount - 1 then 0 else currentImageIndex + 1;
    }
  }
}
