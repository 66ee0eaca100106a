/** The welcome carousel: three slides, an index that the arrows, a
    five-second interval and the dots move. */
module Welcome {

  const SLIDE_COUNT: int := 3

  predicate InRange(i: int) {
    0 <= i < SLIDE_COUNT
  }

  /** The successor used by the arrow and the interval: the last slide
      wraps to the first. */
  function Next(i: int): (r: int)
    ensures InRange(i) ==> InRange(r)
  {
    if i == SLIDE_COUNT - 1 then 0 else i + 1
  }

  /** The predecessor: the first slide wraps to the last. */
  function Prev(i: int): (r: int)
    ensures InRange(i) ==> InRange(r)
  {
    if i == 0 then SLIDE_COUNT - 1 else i - 1
  }

  /** On slide indices, `Next` is addition modulo the slide count. */
  lemma NextIsModular(i: int)
    requires InRange(i)
    ensures InRange(Next(i)) && Next(i) == (i + 1) % SLIDE_COUNT
  {
  }

  /** On slide indices, `Prev` is subtraction modulo the slide count. */
  lemma PrevIsModular(i: int)
    requires InRange(i)
    ensures InRange(Prev(i)) && Prev(i) == (i - 1) % SLIDE_COUNT
  {
  }

  /** The two arrows undo each other. */
  lemma NextPrevInverse(i: int)
    requires InRange(i)
    ensures Prev(Next(i)) == i && Next(Prev(i)) == i
  {
  }

  /** The index after `n` advances. */
  function Advance(i: int, n: nat): (r: int)
    ensures InRange(i) ==> InRange(r)
    decreases n
  {
    if n == 0 then i else Advance(Next(i), n - 1)
  }

  /** `n` advances land on slide `(i + n) mod 3`: every slide comes round,
      and three advances bring back the same slide. */
  lemma {:induction false} AdvanceIsModular(i: int, n: nat)
    requires InRange(i)
    ensures Advance(i, n) == (i + n) % SLIDE_COUNT
    decreases n
  {
    if n > 0 {
      NextIsModular(i);
      AdvanceIsModular(Next(i), n - 1);
      assert (Next(i) + (n - 1)) % SLIDE_COUNT == (i + n) % SLIDE_COUNT by {
        assert Next(i) == (i + 1) % SLIDE_COUNT;
        ModShift(i + 1, n - 1);
      }
    }
  }

  lemma ModShift(a: int, b: nat)
    ensures (a % SLIDE_COUNT + b) % SLIDE_COUNT == (a + b) % SLIDE_COUNT
  {
  }

  class Carousel {
    var currentSlide: int

    ghost predicate Valid()
      reads this
    {
      InRange(currentSlide)
    }

    constructor ()
      ensures currentSlide == 0 && Valid()
    {
      currentSlide := 0;
    }

    /** The right arrow, and each tick of the auto-advance interval. */
    method HandleNext()
      requires Valid()
      modifies this`currentSlide
      ensures currentSlide == (old(currentSlide) + 1) % SLIDE_COUNT
      ensures Valid()
    {
      NextIsModular(currentSlide);
      currentSlide := Next(currentSlide);
    }

    /** The left arrow. */
    method HandlePrev()
      requires Valid()
      modifies this`currentSlide
      ensures currentSlide == (old(currentSlide) - 1) % SLIDE_COUNT
      ensures Valid()
    {
      PrevIsModular(currentSlide);
      currentSlide := Prev(currentSlide);
    }

    /** A click on dot `index`; the dots are one per slide. */
    method SelectDot(index: int)
      requires InRange(index)
      modifies this`currentSlide
      ensures currentSlide == index && Valid()
    {
      currentSlide := index;
    }
  }
}
