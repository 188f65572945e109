/** Datatypes and arithmetic shared by every module. */
module Wrappers {
  datatype Option<+T> = None | Some(value: T)

  function Abs(x: real): real { if x < 0.0 then -x else x }

  function Min(x: real, y: real): real { if x < y then x else y }

  function Max(x: real, y: real): real { if x < y then y else x }

  // Python's int() on a float: truncation toward zero.
  function Truncate(x: real): int { if x < 0.0 then -(-x).Floor else x.Floor }

  // Products and quotients of two variables are named, so that a proof can treat
  // them as units and ask for a law of arithmetic only where it needs one.
  function Times(x: real, y: real): real { x * y }

  function Over(x: real, y: real): real
    requires y != 0.0
  {
    x / y
  }

  lemma TimesMonotone(x: real, y: real, z: real)
    requires x <= y && 0.0 <= z
    ensures Times(x, z) <= Times(y, z)
  {
    assert (y - x) * z >= 0.0;
  }

  lemma TimesStrict(x: real, y: real, z: real)
    requires x < y && 0.0 < z
    ensures Times(x, z) < Times(y, z)
  {
    assert (y - x) * z > 0.0;
  }

  lemma OverTimes(x: real, y: real)
    requires y != 0.0
    ensures Times(Over(x, y), y) == x
  {
  }

  lemma OverUnique(x: real, y: real, q: real)
    requires y != 0.0 && Times(q, y) == x
    ensures Over(x, y) == q
  {
    assert (Over(x, y) - q) * y == 0.0;
  }

  lemma ZeroFactor(x: real, y: real)
    requires Times(x, y) == 0.0 && y != 0.0
    ensures x == 0.0
  {
    OverUnique(0.0, y, x);
    OverUnique(0.0, y, 0.0);
  }
}
