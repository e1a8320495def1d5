/**
  The interval window of the CLOCK jack law: the last (at most) eight accepted
  intervals, oldest first, and their mean. Intervals are exact reals (samples).
 */
module ClockWindow {
  import opened RealLemmas

  const WINDOW: nat := 8

  function Sum(w: seq<real>): real {
    if w == [] then 0.0 else w[0] + Sum(w[1..])
  }

  function Mean(w: seq<real>): real
    requires w != []
  {
    Sum(w) / (|w| as real)
  }

  /** What one more interval makes of the window: it grows to WINDOW, then slides. */
  function Pushed(w: seq<real>, x: real): seq<real> {
    if |w| < WINDOW then w + [x] else w[1..] + [x]
  }

  /** The last k elements of s (all of it when it is shorter). */
  function Last(s: seq<real>, k: nat): seq<real> {
    if |s| <= k then s else s[|s| - k..]
  }

  predicate AllWithin(w: seq<real>, lo: real, hi: real) {
    forall i | 0 <= i < |w| :: lo <= w[i] <= hi
  }

  function Const(x: real, n: nat): (s: seq<real>)
    ensures |s| == n
    ensures forall i | 0 <= i < n :: s[i] == x
  {
    seq(n, _ => x)
  }

  lemma {:induction false} SumConcat(a: seq<real>, b: seq<real>)
    ensures Sum(a + b) == Sum(a) + Sum(b)
  {
    if a == [] {
      assert a + b == b;
    } else {
      SumConcat(a[1..], b);
      assert (a + b)[1..] == a[1..] + b;
    }
  }

  lemma {:induction false} SumBounds(w: seq<real>, lo: real, hi: real)
    requires AllWithin(w, lo, hi)
    ensures lo * (|w| as real) <= Sum(w) <= hi * (|w| as real)
  {
    if w == [] {
      TimesNext(lo, 0.0);
      TimesNext(hi, 0.0);
    } else {
      var n := |w[1..]| as real;
      SumBounds(w[1..], lo, hi);
      assert |w| as real == n + 1.0;
      TimesNext(lo, n);
      TimesNext(hi, n);
    }
  }

  lemma {:induction false} MeanBounds(w: seq<real>, lo: real, hi: real)
    requires w != [] && AllWithin(w, lo, hi)
    ensures lo <= Mean(w) <= hi
  {
    SumBounds(w, lo, hi);
    DivBounds(Sum(w), |w| as real, lo, hi);
  }

  lemma {:induction false} SumConst(x: real, n: nat)
    ensures Sum(Const(x, n)) == x * (n as real)
  {
    SumBounds(Const(x, n), x, x);
  }

  lemma {:induction false} SumPair(x: real, y: real)
    ensures Sum([x, y]) == x + y
  {
    assert [x, y] == [x] + [y];
    SumConcat([x], [y]);
  }

  lemma {:induction false} SumOne(x: real)
    ensures Sum([x]) == x
  {
  }

  lemma {:induction false} SumSnoc(w: seq<real>, x: real)
    ensures Sum(w + [x]) == Sum(w) + x
  {
    SumConcat(w, [x]);
  }

  /** Pushing keeps exactly the last WINDOW intervals ever pushed. */
  lemma {:induction false} PushedKeepsLast(history: seq<real>, w: seq<real>, x: real)
    requires w == Last(history, WINDOW)
    ensures Pushed(w, x) == Last(history + [x], WINDOW)
  {
  }

  /** The sum of the slots of a ring does not depend on where the oldest sits. */
  lemma {:induction false} SumRotated(ring: seq<real>, head: nat)
    requires head <= |ring|
    ensures Sum(ring[head..] + ring[..head]) == Sum(ring)
  {
    SumConcat(ring[head..], ring[..head]);
    SumConcat(ring[..head], ring[head..]);
    assert ring[..head] + ring[head..] == ring;
  }
}
