/**
 * ExponentialBackoff as the placement-group manager uses it: a value that is
 * copied into every pending-queue entry and into every scheduling request, so
 * it is modelled as a datatype. Intervals are integer nanoseconds and the
 * multiplier is an integer (the source keeps a double).
 */
module Backoff {

  datatype ExponentialBackoff = ExponentialBackoff(
    current: nat,     // the interval the next call to Next() hands out
    initial: nat,     // the first interval of a fresh retry sequence
    multiplier: nat,
    maxValue: nat)
  {
    /** The multiplier must be positive; with an integer multiplier that is >= 1. */
    predicate WellFormed() {
      multiplier >= 1
    }
  }

  function Min(a: int, b: int): int {
    if a <= b then a else b
  }

  function Pow(b: nat, k: nat): nat {
    if k == 0 then 1 else b * Pow(b, k - 1)
  }

  /** A fresh retry sequence: its first interval is the minimum interval. */
  function Create(initial: nat, multiplier: nat, maxValue: nat): (b: ExponentialBackoff)
    requires multiplier >= 1
    ensures b.WellFormed()
    ensures b.initial == initial && b.multiplier == multiplier && b.maxValue == maxValue
    ensures Next(b).0 == initial
  {
    ExponentialBackoff(initial, initial, multiplier, maxValue)
  }

  /**
   * Next(): hands out the current interval and advances the cursor to
   * min(current * multiplier, max). The configuration never changes, the
   * cursor never passes the cap, and it never shrinks unless it is clamped to
   * the cap.
   */
  function Next(b: ExponentialBackoff): (r: (nat, ExponentialBackoff))
    requires b.WellFormed()
    ensures r.0 == b.current
    ensures r.1.WellFormed()
    ensures r.1.initial == b.initial && r.1.multiplier == b.multiplier && r.1.maxValue == b.maxValue
    ensures r.1.current <= b.maxValue
    ensures r.1.current >= b.current || r.1.current == b.maxValue
  {
    (b.current, b.(current := Min(b.current * b.multiplier, b.maxValue)))
  }

  /**
   * The backoff after k calls to Next(): the configuration is kept, and after
   * at least one call the cursor is within the cap and has not shrunk unless
   * it sits at the cap.
   */
  function Advance(b: ExponentialBackoff, k: nat): (r: ExponentialBackoff)
    requires b.WellFormed()
    ensures r.WellFormed()
    ensures r.initial == b.initial && r.multiplier == b.multiplier && r.maxValue == b.maxValue
    ensures k > 0 ==> r.current <= b.maxValue
    ensures r.current >= b.current || r.current == b.maxValue
    decreases k
  {
    if k == 0 then b else Advance(Next(b).1, k - 1)
  }

  /**
   * The k-th interval (counting from 0) of a fresh retry sequence, in closed
   * form: the minimum first, then min(initial * multiplier^k, max).
   */
  function Interval(initial: nat, multiplier: nat, maxValue: nat, k: nat): nat {
    if k == 0 then initial else Min(initial * Pow(multiplier, k), maxValue)
  }

  lemma MinTimes(a: nat, c: nat, m: nat)
    requires m >= 1
    ensures Min(Min(a, c) * m, c) == Min(a * m, c)
  {
    if a <= c {
      assert a * m <= c * m;
    } else {
      assert c * m >= c;
      assert a * m >= c * m;
    }
  }

  /** Each interval is the previous one times the multiplier, capped at the maximum. */
  lemma {:induction false} IntervalStep(initial: nat, multiplier: nat, maxValue: nat, k: nat)
    requires multiplier >= 1
    ensures Interval(initial, multiplier, maxValue, k + 1)
         == Min(Interval(initial, multiplier, maxValue, k) * multiplier, maxValue)
  {
    assert Pow(multiplier, k + 1) == multiplier * Pow(multiplier, k);
    calc {
      initial * Pow(multiplier, k + 1);
      initial * (multiplier * Pow(multiplier, k));
      { assert initial * (multiplier * Pow(multiplier, k)) == (initial * Pow(multiplier, k)) * multiplier; }
      (initial * Pow(multiplier, k)) * multiplier;
    }
    if k > 0 {
      MinTimes(initial * Pow(multiplier, k), maxValue, multiplier);
    }
  }

  /**
   * k calls to Next() on a fresh backoff leave its cursor at the k-th interval
   * of the closed form, so the (k+1)-th call hands out Interval(k).
   */
  lemma {:induction false} AdvanceFromFresh(initial: nat, multiplier: nat, maxValue: nat, k: nat)
    requires multiplier >= 1
    ensures Advance(Create(initial, multiplier, maxValue), k).current
         == Interval(initial, multiplier, maxValue, k)
    ensures Advance(Create(initial, multiplier, maxValue), k).multiplier == multiplier
    ensures Advance(Create(initial, multiplier, maxValue), k).maxValue == maxValue
  {
    var b := Create(initial, multiplier, maxValue);
    if k > 0 {
      AdvanceFromFresh(initial, multiplier, maxValue, k - 1);
      AdvanceSplit(b, k - 1);
      IntervalStep(initial, multiplier, maxValue, k - 1);
    }
  }

  /** Advancing k + 1 times is advancing k times and then calling Next() once. */
  lemma {:induction false} AdvanceSplit(b: ExponentialBackoff, k: nat)
    requires b.WellFormed()
    ensures Advance(b, k + 1) == Next(Advance(b, k)).1
    decreases k
  {
    if k > 0 {
      AdvanceSplit(Next(b).1, k - 1);
    }
  }

  /**
   * With the minimum no larger than the maximum, the intervals never decrease
   * and never exceed the maximum.
   */
  lemma {:induction false} IntervalMonotone(initial: nat, multiplier: nat, maxValue: nat, k: nat)
    requires multiplier >= 1 && initial <= maxValue
    ensures Interval(initial, multiplier, maxValue, k) <= Interval(initial, multiplier, maxValue, k + 1)
    ensures Interval(initial, multiplier, maxValue, k + 1) <= maxValue
  {
    IntervalStep(initial, multiplier, maxValue, k);
    var i := Interval(initial, multiplier, maxValue, k);
    assert i <= maxValue by {
      if k > 0 {
        IntervalMonotone(initial, multiplier, maxValue, k - 1);
      }
    }
    assert i * multiplier >= i;
  }

  /** Once the cap is reached, every later interval stays at the cap. */
  lemma {:induction false} IntervalSaturates(initial: nat, multiplier: nat, maxValue: nat, k: nat, j: nat)
    requires multiplier >= 1
    requires Interval(initial, multiplier, maxValue, k) == maxValue
    requires k <= j
    ensures Interval(initial, multiplier, maxValue, j) == maxValue
  {
    if k < j {
      IntervalSaturates(initial, multiplier, maxValue, k, j - 1);
      IntervalStep(initial, multiplier, maxValue, j - 1);
      assert maxValue * multiplier >= maxValue;
    }
  }
}
