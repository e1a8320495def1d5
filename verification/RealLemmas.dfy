/**
  The products and quotients of reals that the proofs need, one small fact each.
 */
module RealLemmas {

  lemma {:induction false} NonNegative(x: real, y: real)
    requires x >= 0.0 && y >= 0.0
    ensures x * y >= 0.0
  {
  }

  lemma {:induction false} Distribute(x: real, a: real, b: real)
    ensures x * a + x * b == x * (a + b)
  {
  }

  lemma {:induction false} TimesNext(x: real, k: real)
    ensures x * (k + 1.0) == x * k + x && x * 0.0 == 0.0
  {
  }

  lemma {:induction false} Positive(x: real, y: real)
    requires x > 0.0 && y > 0.0
    ensures x * y > 0.0
  {
  }

  lemma {:induction false} ScaleLe(x: real, y: real, p: real)
    requires p > 0.0
    ensures x <= y <==> x * p <= y * p
  {
    if x <= y {
      assert (y - x) * p >= 0.0;
    } else {
      assert (x - y) * p > 0.0;
    }
  }

  lemma {:induction false} DivBounds(s: real, n: real, lo: real, hi: real)
    requires n > 0.0 && lo * n <= s <= hi * n
    ensures lo <= s / n <= hi
  {
    var q := s / n;
    assert q * n == s;
    ScaleLe(lo, q, n);
    ScaleLe(q, hi, n);
  }

  lemma {:induction false} MulDiv(q: real, k: real)
    requires k != 0.0
    ensures q * k / k == q
  {
  }

  lemma {:induction false} PartWay(v: real, target: real, k: real, lo: real, hi: real)
    requires 0.0 <= k <= 1.0 && lo <= v <= hi && lo <= target <= hi
    ensures lo <= v + k * (target - v) <= hi
  {
    assert v + k * (target - v) == (1.0 - k) * v + k * target;
    assert (1.0 - k) * (v - lo) >= 0.0 && k * (target - lo) >= 0.0;
    assert (1.0 - k) * (hi - v) >= 0.0 && k * (hi - target) >= 0.0;
  }

  function Power(k: real, n: nat): real { if n == 0 then 1.0 else k * Power(k, n - 1) }

  lemma {:induction false} PowerRange(k: real, n: nat)
    requires 0.0 <= k <= 1.0
    ensures 0.0 <= Power(k, n) <= 1.0
  {
    if n > 0 {
      PowerRange(k, n - 1);
      NonNegative(k, Power(k, n - 1));
      NonNegative(k, 1.0 - Power(k, n - 1));
    }
  }

  lemma {:induction false} Regroup(x: real, y: real, z: real)
    ensures x * y * z == x * (y * z)
  {
  }
}
