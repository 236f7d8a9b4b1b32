/** Saturating arithmetic: the clamp that keeps each angle between its stops,
    and what repeatedly applying it does. */
module Clamping {

  function Abs(x: int): (r: int)
    ensures r >= 0 && (r == x || r == -x)
  {
    if x < 0 then -x else x
  }

  /** Saturates `x` to `[lo, hi]`. Like the source it checks the lower bound
      first, so with `lo > hi` every `x` below `lo` yields `lo` and every other
      `x` above `hi` yields `hi`. */
  function Clamp(x: int, lo: int, hi: int): (r: int)
    ensures lo <= hi ==> lo <= r <= hi
    ensures lo <= x <= hi ==> r == x
    ensures x < lo ==> r == lo
    ensures lo <= x && hi < x ==> r == hi
  {
    if x < lo then lo else if x > hi then hi else x
  }

  /** With a non-empty range, the clamp returns the point of the range nearest
      to its input. */
  lemma ClampNearest(x: int, lo: int, hi: int, y: int)
    requires lo <= y <= hi
    ensures Abs(Clamp(x, lo, hi) - x) <= Abs(y - x)
  {
  }

  /** Clamping twice is clamping once. */
  lemma ClampIdempotent(x: int, lo: int, hi: int)
    requires lo <= hi
    ensures Clamp(Clamp(x, lo, hi), lo, hi) == Clamp(x, lo, hi)
  {
  }

  /** The clamp is monotone in its input. */
  lemma ClampMonotone(x: int, y: int, lo: int, hi: int)
    requires lo <= hi
    requires x <= y
    ensures Clamp(x, lo, hi) <= Clamp(y, lo, hi)
  {
  }

  /** From a position inside the range, adding `d` and clamping moves the
      position by at most `|d|`, and never against the sign of `d`. */
  lemma ClampedMove(a: int, d: int, lo: int, hi: int)
    requires lo <= a <= hi
    ensures Abs(Clamp(a + d, lo, hi) - a) <= Abs(d)
    ensures d >= 0 ==> Clamp(a + d, lo, hi) >= a
    ensures d <= 0 ==> Clamp(a + d, lo, hi) <= a
    ensures d == 0 ==> Clamp(a + d, lo, hi) == a
  {
  }

  /** The position reached after `k` cycles that all add the same step `d`
      and clamp to `[lo, hi]`. */
  function Drive(a: int, d: int, lo: int, hi: int, k: nat): int
  {
    if k == 0 then a else Clamp(Drive(a, d, lo, hi, k - 1) + d, lo, hi)
  }

  /** Clamping after every step is the same as clamping once at the end: a
      constant step saturates at a stop and is held there, however long it
      persists. */
  lemma {:induction false} DriveClosedForm(a: int, d: int, lo: int, hi: int, k: nat)
    requires lo <= a <= hi
    ensures Drive(a, d, lo, hi, k) == Clamp(a + k * d, lo, hi)
  {
    if k > 0 {
      DriveClosedForm(a, d, lo, hi, k - 1);
      var p := a + (k - 1) * d;
      assert k * d == (k - 1) * d + d;
      if d >= 0 {
        if p <= hi {
          assert Clamp(p, lo, hi) == p;
        } else {
          assert Clamp(p, lo, hi) == hi;
        }
      } else {
        if p >= lo {
          assert Clamp(p, lo, hi) == p;
        } else {
          assert Clamp(p, lo, hi) == lo;
        }
      }
    }
  }

  /** A positive step held long enough drives the position to the upper stop
      and holds it there; on the way the position never decreases. */
  lemma DriveSaturates(a: int, d: int, lo: int, hi: int, k: nat)
    requires lo <= a <= hi
    requires d > 0
    ensures lo <= Drive(a, d, lo, hi, k) <= hi
    ensures k * d >= hi - a ==> Drive(a, d, lo, hi, k) == hi
    ensures k > 0 ==> Drive(a, d, lo, hi, k - 1) <= Drive(a, d, lo, hi, k)
  {
    DriveClosedForm(a, d, lo, hi, k);
    if k > 0 {
      DriveClosedForm(a, d, lo, hi, k - 1);
      assert a + (k - 1) * d <= a + k * d;
      ClampMonotone(a + (k - 1) * d, a + k * d, lo, hi);
    }
  }

  /** A negative step held long enough drives the position to the lower
      stop and holds it there; on the way the position never increases. */
  lemma DriveSaturatesLow(a: int, d: int, lo: int, hi: int, k: nat)
    requires lo <= a <= hi
    requires d < 0
    ensures lo <= Drive(a, d, lo, hi, k) <= hi
    ensures k * d <= lo - a ==> Drive(a, d, lo, hi, k) == lo
    ensures k > 0 ==> Drive(a, d, lo, hi, k) <= Drive(a, d, lo, hi, k - 1)
  {
    DriveClosedForm(a, d, lo, hi, k);
    if k > 0 {
      DriveClosedForm(a, d, lo, hi, k - 1);
      assert a + k * d <= a + (k - 1) * d;
      ClampMonotone(a + k * d, a + (k - 1) * d, lo, hi);
    }
  }
}
