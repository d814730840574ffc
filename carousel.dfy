/**
 * The home page's image carousel: a current slide index moved forward by a
 * timer and the next button, backward by the previous button, and set
 * directly by the indicator dots. Each handler passes React an updater, a
 * function from the previous index to the next, and those updaters are what
 * is modelled here. The index arithmetic uses JavaScript's `%`, whose
 * remainder takes the sign of the dividend.
 */
module Carousel {
  /** The number of images in the carousel. */
  const SlideCount: int := 6

  /** JavaScript's `a % SlideCount`: truncating, so never positive for a negative `a`. */
  function JsRem(a: int): (r: int)
    ensures a >= 0 ==> 0 <= r < SlideCount && r == a % SlideCount
    ensures a < 0 ==> -SlideCount < r <= 0
  {
    if a >= 0 then a % SlideCount else -((-a) % SlideCount)
  }

  /** `(prev + 1) % eventImages.length`, the step of the next button. */
  function NextSlide(prev: int): (r: int)
    ensures 0 <= prev < SlideCount ==> 0 <= r < SlideCount
    ensures 0 <= prev < SlideCount - 1 ==> r == prev + 1
    ensures prev == SlideCount - 1 ==> r == 0
  {
    JsRem(prev + 1)
  }

  /** `(prev - 1 + eventImages.length) % eventImages.length`, the step of the previous button. */
  function PrevSlide(prev: int): (r: int)
    ensures 0 <= prev < SlideCount ==> 0 <= r < SlideCount
    ensures 0 < prev < SlideCount ==> r == prev - 1
    ensures prev == 0 ==> r == SlideCount - 1
  {
    JsRem(prev - 1 + SlideCount)
  }

  /** The timer's step, written out a second time in the page. */
  function AutoAdvance(prev: int): (r: int)
    ensures r == NextSlide(prev)
  {
    JsRem(prev + 1)
  }

  /** Previous undoes next, and next undoes previous, on every index in range. */
  lemma NextPrevInverse(i: int)
    requires 0 <= i < SlideCount
    ensures PrevSlide(NextSlide(i)) == i
    ensures NextSlide(PrevSlide(i)) == i
  {
  }

  /**
   * Below zero the steps are not inverse: the truncating remainder keeps a
   * negative sum negative, so next from -6 to -2 stays below zero, while
   * previous after next always lands back in range, one round above a
   * start just below zero.
   */
  lemma NextPrevNotInverseBelowZero(i: int)
    requires i < 0
    ensures -SlideCount <= i < -1 ==> NextSlide(i) == i + 1 < 0
    ensures 0 <= PrevSlide(NextSlide(i)) < SlideCount
    ensures PrevSlide(NextSlide(i)) != i
    ensures -SlideCount < i ==> PrevSlide(NextSlide(i)) == i + SlideCount
  {
  }

  /** `k` steps forward. */
  function Advance(i: int, k: nat): int
  {
    if k == 0 then i else NextSlide(Advance(i, k - 1))
  }

  /** The remainder is determined by any quotient-and-remainder split. */
  lemma RemainderOfSplit(x: int, q: int, m: int)
    requires x == q * SlideCount + m && 0 <= m < SlideCount
    ensures x % SlideCount == m
  {
  }

  /** One forward step from the remainder of `x` gives the remainder of `x + 1`. */
  lemma StepRemainder(x: int)
    requires x >= 0
    ensures NextSlide(x % SlideCount) == (x + 1) % SlideCount
  {
    var q, m := x / SlideCount, x % SlideCount;
    if m < SlideCount - 1 {
      RemainderOfSplit(x + 1, q, m + 1);
    } else {
      RemainderOfSplit(x + 1, q + 1, 0);
    }
  }

  /** `k` steps forward from an index in range land on `(i + k) % SlideCount`. */
  lemma {:induction false} AdvanceIsRemainder(i: int, k: nat)
    requires 0 <= i < SlideCount
    ensures Advance(i, k) == (i + k) % SlideCount
  {
    if k > 0 {
      AdvanceIsRemainder(i, k - 1);
      StepRemainder(i + k - 1);
    }
  }

  /** After a full round of automatic steps the carousel is back where it started. */
  lemma FullRound(i: int)
    requires 0 <= i < SlideCount
    ensures Advance(i, SlideCount as nat) == i
  {
    AdvanceIsRemainder(i, SlideCount as nat);
  }

  /** `goToSlide(index)`: the dot's index becomes the current slide, whatever it was. */
  function GoToSlide(prev: int, index: int): (r: int)
    ensures r == index
  {
    index
  }

  /** The remainder of a number below twice the slide count. */
  lemma SmallRemainder(x: int)
    requires 0 <= x < 2 * SlideCount
    ensures x % SlideCount == if x < SlideCount then x else x - SlideCount
  {
  }

  /**
   * Jumping to dot `k` lands where stepping forward `(k - i) mod SlideCount`
   * times from `i` would: the dots reach the same slides as the arrows.
   */
  lemma GoToSlideIsForwardSteps(i: int, k: int)
    requires 0 <= i < SlideCount && 0 <= k < SlideCount
    ensures GoToSlide(i, k) == Advance(i, ((k - i + SlideCount) % SlideCount) as nat)
  {
    var d := k - i + SlideCount;
    SmallRemainder(d);
    var steps := d % SlideCount;
    AdvanceIsRemainder(i, steps as nat);
    SmallRemainder(i + steps);
  }
}
