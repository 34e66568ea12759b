/**
 * The hero slider (`src/components/HeroSlider.tsx`): five slides, an index
 * and an animation direction, moved by the arrow buttons, the dots and a
 * five-second auto-advance interval.
 */
module HeroSlider {

  const SlideCount: nat := 5

  /** JavaScript's `a % n` for `n > 0`: the remainder takes the sign of `a`. */
  function JsRem(a: int, n: nat): (r: int)
    requires n > 0
    ensures a >= 0 ==> 0 <= r < n && r == a % n
  {
    if a >= 0 then a % n else -((-a) % n)
  }

  /** The index `nextSlide` moves to: `(prev + 1) % slides.length`. */
  function Next(i: int): int {
    JsRem(i + 1, SlideCount)
  }

  /** The index `prevSlide` moves to: `(prev - 1 + slides.length) % slides.length`. */
  function Prev(i: int): int {
    JsRem(i - 1 + SlideCount, SlideCount)
  }

  /** A slide index the slider can show. */
  predicate InRange(i: int) {
    0 <= i < SlideCount
  }

  /** Both moves stay on a slide, and each undoes the other. */
  lemma NextPrevInverse(i: int)
    requires InRange(i)
    ensures InRange(Next(i)) && InRange(Prev(i))
    ensures Prev(Next(i)) == i && Next(Prev(i)) == i
  {
  }

  /** The index after `k` forward moves (button presses or interval ticks) from `i`. */
  function Advance(i: int, k: nat): int {
    if k == 0 then i else Next(Advance(i, k - 1))
  }

  /** One forward move from the slide of position `m` is the slide of position `m + 1`. */
  lemma NextOfRemainder(m: nat)
    ensures Next(m % SlideCount) == (m + 1) % SlideCount
  {
    var q, r := m / SlideCount, m % SlideCount;
    assert m == SlideCount * q + r;
    if r + 1 < SlideCount {
      assert m + 1 == SlideCount * q + (r + 1);
    } else {
      assert m + 1 == SlideCount * (q + 1);
    }
  }

  /** `k` forward moves from a slide land `k` places further round the ring. */
  lemma {:induction false} AdvanceIsRotation(i: int, k: nat)
    requires InRange(i)
    ensures Advance(i, k) == (i + k) % SlideCount
  {
    if k > 0 {
      AdvanceIsRotation(i, k - 1);
      NextOfRemainder(i + k - 1);
    }
  }

  /** Five forward moves come back to the starting slide. */
  lemma FiveAdvancesReturn(i: int)
    requires InRange(i)
    ensures Advance(i, SlideCount) == i
  {
    AdvanceIsRotation(i, SlideCount);
    assert i + SlideCount == SlideCount * 1 + i;
  }

  class Slider {
    var currentSlide: int
    /** 1 when the last move went forward, -1 when back, 0 before any move. */
    var direction: int

    ghost predicate Valid()
      reads this
    {
      InRange(currentSlide) && -1 <= direction <= 1
    }

    constructor ()
      ensures Valid() && currentSlide == 0 && direction == 0
    {
      currentSlide := 0;
      direction := 0;
    }

    /** The right arrow. */
    method NextSlide()
      requires Valid()
      modifies this
      ensures Valid()
      ensures currentSlide == Next(old(currentSlide)) && direction == 1
    {
      direction := 1;
      currentSlide := JsRem(currentSlide + 1, SlideCount);
    }

    /** The left arrow. */
    method PrevSlide()
      requires Valid()
      modifies this
      ensures Valid()
      ensures currentSlide == Prev(old(currentSlide)) && direction == -1
    {
      direction := -1;
      currentSlide := JsRem(currentSlide - 1 + SlideCount, SlideCount);
    }

    /** One tick of the five-second interval: the same move as the right arrow. */
    method AutoAdvance()
      requires Valid()
      modifies this
      ensures Valid()
      ensures currentSlide == Next(old(currentSlide)) && direction == 1
    {
      direction := 1;
      currentSlide := JsRem(currentSlide + 1, SlideCount);
    }

    /**
     * A dot: jump to `index`; the direction is forward only when `index` lies
     * after the current slide, and backward otherwise, even for the current one.
     */
    method GoToSlide(index: int)
      requires Valid() && InRange(index)
      modifies this
      ensures Valid()
      ensures currentSlide == index
      ensures direction == 1 <==> index > old(currentSlide)
      ensures direction == -1 <==> index <= old(currentSlide)
    {
      direction := if index > currentSlide then 1 else -1;
      currentSlide := index;
    }
  }
}
