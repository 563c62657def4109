/**
 * The tutorial carousel: the index of the visible slide among four, advanced by the arrow
 * buttons, by the indicator dots and by a five-second timer (the timing itself is not modelled;
 * each timer firing is a call of Tick).
 */
module Carousel {

  const SlideCount: nat := 4

  /** `(prev + 1) % slides.length` */
  function Next(i: nat): (j: nat)
    ensures j < SlideCount
    ensures i < SlideCount - 1 ==> j == i + 1
    ensures i == SlideCount - 1 ==> j == 0
  {
    (i + 1) % SlideCount
  }

  /** `(prev - 1 + slides.length) % slides.length` */
  function Prev(i: nat): (j: nat)
    ensures j < SlideCount
    ensures 0 < i < SlideCount ==> j == i - 1
    ensures i == 0 ==> j == SlideCount - 1
  {
    (i - 1 + SlideCount) % SlideCount
  }

  /** Back after forward, and forward after back, return to the same slide. */
  lemma NextPrevInverse(i: nat)
    requires i < SlideCount
    ensures Prev(Next(i)) == i && Next(Prev(i)) == i
  {
  }

  /** The slide reached after k advances. */
  function Advance(i: nat, k: nat): (j: nat)
    ensures k > 0 ==> j < SlideCount
  {
    if k == 0 then i else Next(Advance(i, k - 1))
  }

  /** k advances move k slides on, cyclically. */
  lemma {:induction false} AdvanceModular(i: nat, k: nat)
    requires i < SlideCount
    ensures Advance(i, k) == (i + k) % SlideCount
  {
    if k > 0 {
      AdvanceModular(i, k - 1);
      NextOfRemainder(i + k - 1);
    }
  }

  /** Advancing from the remainder of n is the remainder of n + 1. */
  lemma NextOfRemainder(n: nat)
    ensures Next(n % SlideCount) == (n + 1) % SlideCount
  {
    var q, r := n / SlideCount, n % SlideCount;
    assert n == 4 * q + r;
    if r < 3 {
      assert n + 1 == 4 * q + (r + 1);
    } else {
      assert n + 1 == 4 * (q + 1);
    }
  }

  /** As many advances as there are slides come back to the starting slide. */
  lemma FullCycle(i: nat)
    requires i < SlideCount
    ensures Advance(i, SlideCount) == i
  {
    AdvanceModular(i, SlideCount);
  }

  class TutorialCarousel {
    var currentSlide: nat

    predicate Valid()
      reads this
    {
      currentSlide < SlideCount
    }

    constructor ()
      ensures currentSlide == 0 && Valid()
    {
      currentSlide := 0;
    }

    method NextSlide()
      requires Valid()
      modifies this
      ensures currentSlide == Next(old(currentSlide)) && Valid()
    {
      currentSlide := (currentSlide + 1) % SlideCount;
    }

    method PrevSlide()
      requires Valid()
      modifies this
      ensures currentSlide == Prev(old(currentSlide)) && Valid()
    {
      currentSlide := (currentSlide - 1 + SlideCount) % SlideCount;
    }

    /** The indicator dots pass only the indices of the slides. */
    method GoToSlide(index: nat)
      requires index < SlideCount
      modifies this
      ensures currentSlide == index && Valid()
    {
      currentSlide := index;
    }

    /** One firing of the interval timer: the same update as the forward arrow. */
    method Tick()
      requires Valid()
      modifies this
      ensures currentSlide == Next(old(currentSlide)) && Valid()
    {
      NextSlide();
    }
  }
}
