/**
 * Scoring: the placement error of a response, its five-level feedback bucket,
 * the choice between the two interpretations of a squircle trial, and the
 * mean error shown at the end of a test run.
 */
module Scoring {
  import opened Base

  /** A position in the toolkit's coordinates; component `y` (index 1) is height. */
  datatype Pos = Pos(x: real, y: real, z: real)

  /** Feedback thresholds, in metres, in ascending order. */
  const Thresholds: seq<real> := [3.0, 5.0, 7.0, 9.0]

  /**
   * The square of the placement error: the distance between the correct and
   * the actual location measured in the horizontal plane (components 0 and 2).
   */
  function SquaredError(corr: Pos, actual: Pos): (d: real)
    ensures d >= 0.0
  {
    var dx, dz := corr.x - actual.x, corr.z - actual.z;
    SquareNonNegative(dx);
    SquareNonNegative(dz);
    dx * dx + dz * dz
  }

  lemma SquareNonNegative(a: real)
    ensures a * a >= 0.0
  {
    if a < 0.0 {
      assert a * a == (-a) * (-a);
    }
  }

  lemma MulPositive(a: real, b: real)
    requires a > 0.0 && b > 0.0
    ensures a * b > 0.0
  {
  }

  /** `e` is the value the error computation returns: the non-negative square root of `SquaredError`. */
  ghost predicate IsError(e: real, corr: Pos, actual: Pos)
  {
    e >= 0.0 && e * e == SquaredError(corr, actual)
  }

  /** The height of either position never affects the error. */
  lemma ErrorIgnoresHeight(e: real, corr: Pos, actual: Pos, h1: real, h2: real)
    ensures SquaredError(corr.(y := h1), actual.(y := h2)) == SquaredError(corr, actual)
    ensures IsError(e, corr.(y := h1), actual.(y := h2)) <==> IsError(e, corr, actual)
  {
  }

  /** Squaring is strictly increasing on the non-negative reals. */
  lemma SquareStrictlyMonotone(a: real, b: real)
    requires 0.0 <= a < b
    ensures a * a < b * b
  {
    var p, q := b - a, b + a;
    MulPositive(p, q);
    assert b * b - a * a == p * q;
  }

  /**
   * Comparing two errors measured from the same response is the same as
   * comparing the squared horizontal distances to the two locations.
   */
  lemma {:induction false} ErrorOrder(e1: real, loc1: Pos, e2: real, loc2: Pos, actual: Pos)
    requires IsError(e1, loc1, actual) && IsError(e2, loc2, actual)
    ensures e1 < e2 <==> SquaredError(loc1, actual) < SquaredError(loc2, actual)
    ensures e1 == e2 <==> SquaredError(loc1, actual) == SquaredError(loc2, actual)
  {
    if e1 < e2 {
      SquareStrictlyMonotone(e1, e2);
    } else if e2 < e1 {
      SquareStrictlyMonotone(e2, e1);
    }
  }

  /** The error is determined by the two positions. */
  lemma {:induction false} ErrorUnique(e1: real, e2: real, corr: Pos, actual: Pos)
    requires IsError(e1, corr, actual) && IsError(e2, corr, actual)
    ensures e1 == e2
  {
    ErrorOrder(e1, corr, e2, corr, actual);
  }

  /** A 3-4-5 triangle in the horizontal plane gives an error of 5, whatever the heights. */
  lemma ErrorExample(h1: real, h2: real)
    ensures SquaredError(Pos(0.0, h1, 0.0), Pos(3.0, h2, 4.0)) == 25.0
    ensures IsError(5.0, Pos(0.0, h1, 0.0), Pos(3.0, h2, 4.0))
  {
  }

  /** Number of thresholds in `ts` that `e` strictly exceeds. */
  function Exceeded(ts: seq<real>, e: real): (n: nat)
    ensures n <= |ts|
  {
    if ts == [] then 0 else (if ts[0] < e then 1 else 0) + Exceeded(ts[1..], e)
  }

  lemma ExceededThresholds(e: real)
    ensures Exceeded(Thresholds, e)
            == (if 3.0 < e then 1 else 0) + (if 5.0 < e then 1 else 0)
             + (if 7.0 < e then 1 else 0) + (if 9.0 < e then 1 else 0)
  {
    var t := Thresholds;
    assert Exceeded(t[3..], e) == (if 9.0 < e then 1 else 0) by {
      assert t[3..] == [9.0] && t[3..][1..] == [];
    }
    assert Exceeded(t[2..], e) == (if 7.0 < e then 1 else 0) + Exceeded(t[3..], e) by {
      assert t[2..][0] == 7.0 && t[2..][1..] == t[3..];
    }
    assert Exceeded(t[1..], e) == (if 5.0 < e then 1 else 0) + Exceeded(t[2..], e) by {
      assert t[1..][0] == 5.0 && t[1..][1..] == t[2..];
    }
  }

  /**
   * The feedback level for an error, branch for branch as the scripts write it:
   * every comparison is strict, so an error equal to a threshold reaches no
   * branch and has no level (`None`); the scripts then fail on the unbound level.
   */
  function Feedback(error: real): (level: Option<nat>)
    ensures level.None? <==> error in Thresholds
    ensures level.Some? ==> 1 <= level.value <= 5
    ensures level.Some? ==> level.value == 1 + Exceeded(Thresholds, error)
  {
    ExceededThresholds(error);
    if error < Thresholds[0] then Some(1)
    else if error > Thresholds[0] && error < Thresholds[1] then Some(2)
    else if error > Thresholds[1] && error < Thresholds[2] then Some(3)
    else if error > Thresholds[2] && error < Thresholds[3] then Some(4)
    else if error > Thresholds[3] then Some(5)
    else None
  }

  /** A larger error never earns a better (smaller) level. */
  lemma FeedbackMonotone(e1: real, e2: real)
    requires e1 <= e2 && Feedback(e1).Some? && Feedback(e2).Some?
    ensures Feedback(e1).value <= Feedback(e2).value
  {
  }

  lemma FeedbackExamples()
    ensures Feedback(2.9) == Some(1)
    ensures Feedback(3.0) == None
    ensures Feedback(5.5) == Some(3)
    ensures Feedback(9.0) == None
    ensures Feedback(9.1) == Some(5)
  {
  }

  /**
   * Interpretation reported for a squircle trial: 1 (the first location set)
   * when its error is strictly smaller, otherwise 2, so a tie goes to 2.
   */
  function SquircleChoice(error1: real, error2: real): (k: nat)
    ensures k == 1 || k == 2
  {
    if error1 < error2 then 1 else 2
  }

  /** The error of the chosen interpretation. */
  function ChosenError(error1: real, error2: real): real
  {
    if SquircleChoice(error1, error2) == 1 then error1 else error2
  }

  /**
   * The reported interpretation is the location set whose object is strictly
   * nearer the response in the horizontal plane, and its error is the smaller one.
   */
  lemma {:induction false} SquircleChoiceNearer(e1: real, loc1: Pos, e2: real, loc2: Pos, actual: Pos)
    requires IsError(e1, loc1, actual) && IsError(e2, loc2, actual)
    ensures SquircleChoice(e1, e2) == 1 <==> SquaredError(loc1, actual) < SquaredError(loc2, actual)
    ensures ChosenError(e1, e2) <= e1 && ChosenError(e1, e2) <= e2
  {
    ErrorOrder(e1, loc1, e2, loc2, actual);
  }

  function Sum(xs: seq<real>): real
  {
    if xs == [] then 0.0 else Sum(xs[..|xs| - 1]) + xs[|xs| - 1]
  }

  /** The arithmetic mean; an empty list has none (the scripts' numeric library yields not-a-number). */
  function Mean(xs: seq<real>): (m: Option<real>)
    ensures m.None? <==> xs == []
    ensures m.Some? ==> m.value * (|xs| as real) == Sum(xs)
  {
    if xs == [] then None else Some(Sum(xs) / (|xs| as real))
  }

  lemma {:induction false} SumBounds(xs: seq<real>, lo: real, hi: real)
    requires forall i :: 0 <= i < |xs| ==> lo <= xs[i] <= hi
    ensures lo * (|xs| as real) <= Sum(xs) <= hi * (|xs| as real)
  {
    if xs != [] {
      SumBounds(xs[..|xs| - 1], lo, hi);
    }
  }

  /** The mean lies between any lower and upper bound of the values. */
  lemma {:induction false} MeanBounds(xs: seq<real>, lo: real, hi: real)
    requires xs != []
    requires forall i :: 0 <= i < |xs| ==> lo <= xs[i] <= hi
    ensures lo <= Mean(xs).value <= hi
  {
    SumBounds(xs, lo, hi);
    var n := |xs| as real;
    var m := Mean(xs).value;
    assert m * n == Sum(xs);
    assert lo * n <= Sum(xs);
    assert Sum(xs) <= hi * n;
    ScaledOrder(lo, m, n);
    ScaledOrder(m, hi, n);
  }

  /** Scaling by a positive factor keeps the order. */
  lemma ScaledOrder(a: real, b: real, n: real)
    requires n > 0.0 && a * n <= b * n
    ensures a <= b
  {
    assert (b - a) * n == b * n - a * n;
  }
}
