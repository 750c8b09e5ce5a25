/** Option type used for parse results and for conversions that may be undefined. */
module Wrappers {

  datatype Option<+T> = None | Some(value: T) {

    /** The value in Some, or `default` when None. */
    function GetOr(default: T): T {
      match this
      case Some(v) => v
      case None => default
    }
  }
}

/** Integer conversions and sums over reals shared by both programs. */
module Numeric {

  /**
   * Conversion of a real to an integer that truncates toward zero, as Python's
   * `int()` on a float and C++'s float-to-integer conversion do.
   */
  function Trunc(x: real): (r: int)
    ensures 0.0 <= x ==> r as real <= x < r as real + 1.0
    ensures x < 0.0 ==> r as real - 1.0 < x <= r as real
  {
    if x >= 0.0 then x.Floor else -((-x).Floor)
  }

  /** Truncation and floor agree on non-negative numbers; below zero they differ by one unless the number is whole. */
  lemma TruncVersusFloor(x: real)
    ensures 0.0 <= x ==> Trunc(x) == x.Floor
    ensures x < 0.0 ==> x.Floor <= Trunc(x) <= 0
  {
  }

  /**
   * Saturation into [lo, hi]: Python's `min(hi, max(lo, v))` and Arduino's
   * `constrain(v, lo, hi)`.
   */
  function Clamp(v: int, lo: int, hi: int): (r: int)
    requires lo <= hi
    ensures lo <= r <= hi
    ensures lo <= v <= hi ==> r == v
    ensures v < lo ==> r == lo
    ensures hi < v ==> r == hi
  {
    if v < lo then lo else if v > hi then hi else v
  }

  /** Clamping is monotone in the clamped value. */
  lemma ClampMonotone(u: int, v: int, lo: int, hi: int)
    requires lo <= hi && u <= v
    ensures Clamp(u, lo, hi) <= Clamp(v, lo, hi)
  {
  }

  /** Sum of a sequence of reals, added front to back. */
  function Sum(s: seq<real>): real
  {
    if s == [] then 0.0 else Sum(s[..|s| - 1]) + s[|s| - 1]
  }

  /** Arithmetic mean of a non-empty sequence (numpy's `mean`, over exact reals). */
  function Mean(s: seq<real>): real
    requires |s| > 0
  {
    Sum(s) / |s| as real
  }

  lemma MeanSingleton(x: real)
    ensures Mean([x]) == x
  {
    assert [x][..0] == [];
    assert Sum([x]) == x;
    assert |[x]| as real == 1.0;
  }

  /** Every element of `s` lies in [lo, hi]. */
  predicate AllWithin(s: seq<real>, lo: real, hi: real)
  {
    forall i :: 0 <= i < |s| ==> lo <= s[i] <= hi
  }

  /** A sum of n values from [lo, hi] lies in [n * lo, n * hi]. */
  lemma {:induction false} SumWithin(s: seq<real>, lo: real, hi: real)
    requires AllWithin(s, lo, hi)
    ensures |s| as real * lo <= Sum(s) <= |s| as real * hi
  {
    if s != [] {
      var n := |s| - 1;
      SumWithin(s[..n], lo, hi);
      assert (n + 1) as real * lo == n as real * lo + lo;
      assert (n + 1) as real * hi == n as real * hi + hi;
    }
  }

  /** The mean of values from [lo, hi] lies in [lo, hi]. */
  lemma MeanWithin(s: seq<real>, lo: real, hi: real)
    requires |s| > 0 && AllWithin(s, lo, hi)
    ensures lo <= Mean(s) <= hi
  {
    SumWithin(s, lo, hi);
    var n := |s| as real;
    assert Sum(s) / n >= lo by {
      assert Sum(s) >= n * lo;
    }
    assert Sum(s) / n <= hi by {
      assert Sum(s) <= n * hi;
    }
  }
}
