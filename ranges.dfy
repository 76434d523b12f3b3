/**
 * An inclusive range of numbers and its overlap test (class Range, js/app.js:145-196).
 *
 * The overlap test is modelled exactly as written: against a number it is membership, against a
 * range it asks only whether one of the argument's two endpoints lies inside the receiver. That is
 * one-sided: a receiver strictly inside the argument is reported as not overlapping. The lemmas
 * compare it with true intersection of the point sets.
 */
module Ranges {

  /** The argument of `overlaps`: JavaScript dispatches on `typeof` / `instanceof`. */
  datatype Operand = Num(v: real) | Rng(r: Range)

  /** The inclusive range [start, end]. The constructor enforces nothing about the order. */
  datatype Range = Range(start: real, end: real) {

    /** start <= end: the range contains at least one point. */
    predicate WellFormed()
    {
      start <= end
    }

    /** The number of pixels the range spans. */
    function Width(): real
    {
      end - start
    }

    /** The number v lies in the inclusive range. */
    predicate Contains(v: real)
    {
      start <= v <= end
    }

    /** `overlaps(range)`: membership for a number, "an endpoint of the argument lies in this
        range" for a range. */
    predicate Overlaps(arg: Operand): (b: bool)
      ensures arg.Num? ==> (b <==> Contains(arg.v))
      ensures arg.Rng? ==> (b <==> Contains(arg.r.start) || Contains(arg.r.end))
    {
      match arg
      case Num(v) => start <= v && end >= v
      case Rng(r) => (start <= r.start && end >= r.start) || (start <= r.end && end >= r.end)
    }

    /** The static `Range.overlaps(range1, range2)`: delegates to the first range. */
    static function RangesOverlap(range1: Range, range2: Range): (b: bool)
      ensures b <==> range1.Contains(range2.start) || range1.Contains(range2.end)
    {
      range1.Overlaps(Rng(range2))
    }
  }

  /** True intersection: some number lies in both ranges. */
  ghost predicate Intersects(a: Range, b: Range)
  {
    exists p :: a.Contains(p) && b.Contains(p)
  }

  /** For well-formed ranges intersection is the symmetric textbook test. */
  lemma IntersectsIff(a: Range, b: Range)
    requires a.WellFormed() && b.WellFormed()
    ensures Intersects(a, b) <==> a.start <= b.end && b.start <= a.end
  {
    if a.start <= b.end && b.start <= a.end {
      var p := if a.start <= b.start then b.start else a.start;
      assert a.Contains(p) && b.Contains(p);
    }
  }

  /** Soundness: when the argument is well-formed, a reported overlap is a shared point. */
  lemma OverlapsSound(a: Range, b: Range)
    ensures b.WellFormed() && a.Overlaps(Rng(b)) ==> Intersects(a, b)
  {
    if b.WellFormed() && a.Overlaps(Rng(b)) {
      if a.Contains(b.start) {
        assert b.Contains(b.start);
      } else {
        assert a.Contains(b.end) && b.Contains(b.end);
      }
    }
  }

  /** Every well-formed range overlaps itself. */
  lemma OverlapsReflexive(a: Range)
    requires a.WellFormed()
    ensures a.Overlaps(Rng(a))
  {
  }

  /** When the argument is no wider than the receiver, the one-sided test agrees with true
      intersection in both directions. */
  lemma OverlapsNarrowerIffIntersects(a: Range, b: Range)
    requires a.WellFormed() && b.WellFormed()
    requires b.Width() <= a.Width()
    ensures a.Overlaps(Rng(b)) <==> Intersects(a, b)
  {
    IntersectsIff(a, b);
  }

  /** The one-sidedness, on the smallest example: [2,3] lies inside [0,5], the two ranges share
      every point of [2,3], yet [2,3].overlaps([0,5]) is false while the swapped call is true. */
  lemma ContainedReceiverNotReported()
    ensures !Range(2.0, 3.0).Overlaps(Rng(Range(0.0, 5.0)))
    ensures Range(0.0, 5.0).Overlaps(Rng(Range(2.0, 3.0)))
    ensures Intersects(Range(2.0, 3.0), Range(0.0, 5.0))
  {
    assert Range(2.0, 3.0).Contains(2.0) && Range(0.0, 5.0).Contains(2.0);
  }
}
