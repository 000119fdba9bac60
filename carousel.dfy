/** The image carousel of the landing page: a slide index that steps forward
    and backward through a fixed, non-empty list of images and wraps around
    at both ends. */
module Carousel {

  /** Number of images the carousel cycles through (two pictures of the farm). */
  const ImageCount: int := 2

  /** JavaScript's `%` on integers: the remainder truncates toward zero, so it
      takes the sign of the dividend (unlike Dafny's Euclidean `%`). */
  function JsRemainder(a: int, n: int): (r: int)
    requires n > 0
    ensures a >= 0 ==> r == a % n
    ensures a >= 0 ==> 0 <= r < n
    ensures a < 0 ==> -n < r <= 0
  {
    if a >= 0 then a % n else -((-a) % n)
  }

  /** The updater passed by `nextSlide`: `(prevSlide + 1) % images.length`. */
  function Next(i: int, n: int): (r: int)
    requires n > 0
    ensures 0 <= i < n ==> 0 <= r < n
    ensures 0 <= i < n ==> (r == 0 <==> i == n - 1)
    ensures 0 <= i < n - 1 ==> r == i + 1
  {
    // Both branches compute the same value; the first only calls ModOnce to
    // prove the ensures for a valid slide.
    if 0 <= i < n then ModOnce(i + 1, n); JsRemainder(i + 1, n)
    else JsRemainder(i + 1, n)
  }

  /** The updater passed by `prevSlide`: `(prevSlide - 1 + images.length) % images.length`. */
  function Prev(i: int, n: int): (r: int)
    requires n > 0
    ensures 0 <= i < n ==> 0 <= r < n
    ensures 0 <= i < n ==> (r == n - 1 <==> i == 0)
    ensures 0 < i < n ==> r == i - 1
  {
    // Both branches compute the same value; the first only calls ModOnce to
    // prove the ensures for a valid slide.
    if 0 <= i < n then ModOnce(i - 1 + n, n); JsRemainder(i - 1 + n, n)
    else JsRemainder(i - 1 + n, n)
  }

  /** A value below twice the modulus wraps at most once. */
  lemma ModOnce(a: int, n: int)
    requires 0 <= a < 2 * n
    ensures a % n == if a < n then a else a - n
  {

  }

  /** Pressing "next" and then "previous" returns to the same slide. */
  lemma PrevAfterNext(i: int, n: int)
    requires 0 <= i < n
    ensures Prev(Next(i, n), n) == i
  {

  }

  /** Pressing "previous" and then "next" returns to the same slide. */
  lemma NextAfterPrev(i: int, n: int)
    requires 0 <= i < n
    ensures Next(Prev(i, n), n) == i
  {

  }

  /** The slide reached after pressing "next" k times from slide i. */
  function NextTimes(i: int, k: nat, n: int): int
    requires n > 0
  {
    if k == 0 then i else Next(NextTimes(i, k - 1, n), n)
  }

  /** k presses of "next" advance the index by k modulo the number of slides. */
  lemma {:induction false} NextTimesAdvances(i: int, k: nat, n: int)
    requires 0 <= i < n
    ensures NextTimes(i, k, n) == (i + k) % n
  {
    if k > 0 {
      NextTimesAdvances(i, k - 1, n);
      var j := (i + k - 1) % n;
      assert NextTimes(i, k, n) == Next(j, n);
      ModSucc(i + k - 1, n);
    }
  }

  /** The Euclidean remainder is determined by any quotient/remainder split. */
  lemma ModUnique(m: int, n: int, q: int, r: int)
    requires n > 0 && 0 <= r < n && m == q * n + r
    ensures m % n == r
  {
    var d := q - m / n;
    assert d * n == m % n - r;
  }

  /** Euclidean remainder of a successor: `(m % n + 1) % n == (m + 1) % n`. */
  lemma ModSucc(m: int, n: int)
    requires m >= 0 && n > 0
    ensures (m % n + 1) % n == (m + 1) % n
  {
    var q, r := m / n, m % n;
    if r + 1 < n {
      ModUnique(r + 1, n, 0, r + 1);
      ModUnique(m + 1, n, q, r + 1);
    } else {
      ModUnique(r + 1, n, 1, 0);
      ModUnique(m + 1, n, q + 1, 0);
    }
  }

  /** Pressing "next" as many times as there are slides cycles back to the start. */
  lemma FullCycle(i: int, n: int)
    requires 0 <= i < n
    ensures NextTimes(i, n as nat, n) == i
  {
    NextTimesAdvances(i, n as nat, n);
    ModUnique(i + n, n, 1, i);
  }

  /** The carousel component: its single piece of state is `currentSlide`. */
  class Home {
    var currentSlide: int

    ghost predicate Valid()
      reads this
    {
      0 <= currentSlide < ImageCount
    }

    /** `useState(0)`: the carousel starts on the first image. */
    constructor ()
      ensures Valid() && currentSlide == 0
    {
      currentSlide := 0;
    }

    /** The "next" arrow button. */
    method NextSlide()
      requires Valid()
      modifies this
      ensures Valid()
      ensures currentSlide == Next(old(currentSlide), ImageCount)
    {
      currentSlide := Next(currentSlide, ImageCount);
    }

    /** The "previous" arrow button. */
    method PrevSlide()
      requires Valid()
      modifies this
      ensures Valid()
      ensures currentSlide == Prev(old(currentSlide), ImageCount)
    {
      currentSlide := Prev(currentSlide, ImageCount);
    }

    /** The slide number shown in the image's alt text, `currentSlide + 1`. */
    function SlideNumber(): (k: int)
      reads this
      requires Valid()
      ensures 1 <= k <= ImageCount
      ensures k - 1 == currentSlide
    {
      currentSlide + 1
    }
  }
}
