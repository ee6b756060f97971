/**
 * The image viewer's navigation (src/components/ImageViewer.tsx): the
 * current index moves forwards and backwards around the image list.
 */
module ImageViewer {
  import opened Types

  /** The quotient of `a / n` truncated toward zero, for `n > 0`. */
  function JsQuot(a: int, n: int): int
    requires n > 0
  {
    if a >= 0 then a / n else -((-a) / n)
  }

  /**
   * JavaScript's `a % n` for `n > 0`: what is left of `a` after taking away
   * `n` times the truncated quotient, so the remainder takes the sign of `a`.
   */
  function JsRem(a: int, n: int): (r: int)
    requires n > 0
    ensures a >= 0 ==> 0 <= r < n
    ensures a <= 0 ==> -n < r <= 0
    ensures r == a - n * JsQuot(a, n)
  {
    if a >= 0 then a % n else -((-a) % n)
  }

  lemma ModBasics(x: int, n: int)
    requires 0 <= x < n
    ensures x % n == x && (x + n) % n == x
  {
  }

  /** `nextImage`: `(prev + 1) % images.length` */
  function NextIndex(i: int, n: int): (r: int)
    requires n > 0
    ensures i + 1 >= 0 ==> 0 <= r < n
  {
    JsRem(i + 1, n)
  }

  /** `prevImage`: `(prev - 1 + images.length) % images.length` */
  function PrevIndex(i: int, n: int): (r: int)
    requires n > 0
    ensures i - 1 + n >= 0 ==> 0 <= r < n
  {
    JsRem(i - 1 + n, n)
  }

  /** From a valid index, next wraps from the last to the first and previous from the first to the last. */
  lemma {:induction false} StepCases(i: int, n: int)
    requires 0 <= i < n
    ensures NextIndex(i, n) == if i + 1 == n then 0 else i + 1
    ensures PrevIndex(i, n) == if i == 0 then n - 1 else i - 1
  {
    if i + 1 == n {
      ModBasics(0, n);
    } else {
      ModBasics(i + 1, n);
    }
    if i == 0 {
      ModBasics(n - 1, n);
    } else {
      ModBasics(i - 1, n);
    }
  }

  /** From a valid index both moves give a valid index. */
  lemma IndexInRange(i: int, n: int)
    requires 0 <= i < n
    ensures 0 <= NextIndex(i, n) < n && 0 <= PrevIndex(i, n) < n
  {
  }

  /** Next and previous undo each other. */
  lemma NextPrevInverse(i: int, n: int)
    requires 0 <= i < n
    ensures PrevIndex(NextIndex(i, n), n) == i
    ensures NextIndex(PrevIndex(i, n), n) == i
  {
    StepCases(i, n);
    StepCases(NextIndex(i, n), n);
    StepCases(PrevIndex(i, n), n);
  }

  /** `k` moves forwards. */
  function NextTimes(i: int, n: int, k: nat): int
    requires n > 0
  {
    if k == 0 then i else NextIndex(NextTimes(i, n, k - 1), n)
  }

  /** Up to `n` moves forwards from a valid index land `k` places further round the list. */
  lemma {:induction false} NextTimesShift(i: int, n: int, k: nat)
    requires 0 <= i < n && k <= n
    ensures NextTimes(i, n, k) == if i + k < n then i + k else i + k - n
  {
    if k > 0 {
      NextTimesShift(i, n, k - 1);
      StepCases(NextTimes(i, n, k - 1), n);
    }
  }

  /** `n` moves forwards return to the start; with one image both moves stay put. */
  lemma FullCycle(i: int, n: int)
    requires 0 <= i < n
    ensures NextTimes(i, n, n) == i
    ensures n == 1 ==> NextIndex(i, n) == i && PrevIndex(i, n) == i
  {
    NextTimesShift(i, n, n);
    StepCases(i, n);
  }

  /** The index after a key press: right arrow moves forwards, left arrow backwards, any other key stays. */
  function KeyStep(i: int, n: int, key: string): (r: int)
    requires n > 0
    ensures key == "ArrowRight" ==> r == NextIndex(i, n)
    ensures key == "ArrowLeft" ==> r == PrevIndex(i, n)
    ensures key != "ArrowRight" && key != "ArrowLeft" ==> r == i
    ensures 0 <= i < n ==> 0 <= r < n
  {
    if key == "ArrowRight" then NextIndex(i, n)
    else if key == "ArrowLeft" then PrevIndex(i, n)
    else i
  }

  /** The viewer's state: the images it was opened on and the index shown. */
  class Viewer {
    const images: seq<Image>
    var currentIndex: int

    predicate Valid() {
      |images| > 0
    }

    constructor (images: seq<Image>, initialIndex: int)
      requires |images| > 0
      ensures Valid() && this.images == images && currentIndex == initialIndex
    {
      this.images := images;
      currentIndex := initialIndex;
    }

    method NextImage()
      requires Valid()
      modifies this
      ensures currentIndex == NextIndex(old(currentIndex), |images|)
      ensures 0 <= old(currentIndex) < |images| ==> 0 <= currentIndex < |images|
    {
      currentIndex := NextIndex(currentIndex, |images|);
    }

    method PrevImage()
      requires Valid()
      modifies this
      ensures currentIndex == PrevIndex(old(currentIndex), |images|)
      ensures 0 <= old(currentIndex) < |images| ==> 0 <= currentIndex < |images|
    {
      currentIndex := PrevIndex(currentIndex, |images|);
    }

    /** `handleKeyDown`: Escape asks to close; the arrows move; `close` reports the `onClose` call. */
    method HandleKeyDown(key: string) returns (close: bool)
      requires Valid()
      modifies this
      ensures close <==> key == "Escape"
      ensures currentIndex == KeyStep(old(currentIndex), |images|, key)
    {
      close := key == "Escape";
      if key == "ArrowRight" {
        NextImage();
      }
      if key == "ArrowLeft" {
        PrevImage();
      }
    }
  }
}
