/**
  Two kinds of unsteady trains measured from the first edge on: swing, whose
  pairs average to the beat, and late stamps, whose lateness telescopes.
 */
module ClockSwing {
  import opened ClockWindow
  import opened Options
  import opened RealLemmas
  import opened ClockSpec
  import opened ClockTrain
  import opened ClockTempo

  /** No interval heard yet. */
  function Unheard(held: real): Tempo {
    Tempo([], 0, held)
  }

  // ---- swing ------------------------------------------------------------------------

  /** Swung periods: a, b, a, b, ... */
  function Alt(a: real, b: real, n: nat): (s: seq<real>)
    ensures |s| == n
  {
    seq(n, i => if i % 2 == 0 then a else b)
  }

  lemma {:induction false} SumAlt(a: real, b: real, n: nat)
    ensures Sum(Alt(a, b, n)) == (a + b) * ((n / 2) as real) + if n % 2 == 0 then 0.0 else a
    decreases n
  {
    hide Alt;
    AltHead(a, b, n);
    if n <= 1 {
      SumOne(a);
      assert (n / 2) as real == 0.0;
      TimesNext(a + b, (n / 2) as real);
    } else {
      SumConcat([a, b], Alt(a, b, n - 2));
      SumPair(a, b);
      SumAlt(a, b, n - 2);
      TimesNext(a + b, ((n - 2) / 2) as real);
      assert (n / 2) as real == ((n - 2) / 2) as real + 1.0;
    }
  }

  lemma {:induction false} AltHead(a: real, b: real, n: nat)
    ensures n == 0 ==> Alt(a, b, n) == []
    ensures n == 1 ==> Alt(a, b, n) == [a]
    ensures n > 1 ==> Alt(a, b, n) == [a, b] + Alt(a, b, n - 2)
  {
  }

  lemma {:induction false} MeanOfAlt(a: real, b: real)
    ensures Mean(Alt(a, b, WINDOW)) == (a + b) / 2.0
  {
    SumAlt(a, b, WINDOW);
  }

  /** While the window fills, the next swung period never times out. */
  lemma {:induction false} NextInTime(a: real, b: real, n: nat)
    requires 0 < n && 0.0 < a && 0.0 < b <= TIMEOUT_PERIODS * a
    ensures (if n % 2 == 0 then a else b) <= TIMEOUT_PERIODS * Mean(Alt(a, b, n))
  {
    SumAlt(a, b, n);
    var k := (n / 2) as real;
    var s := Sum(Alt(a, b, n));
    NonNegative(a, k);
    NonNegative(b, k);
    Distribute(k, a, b);
    if n % 2 == 0 {
      assert n as real == 2.0 * k;
      assert s == k * a + k * b;
      NonNegative(a, n as real);
      TwiceMean(a, s, n as real);
    } else {
      assert n as real == 2.0 * k + 1.0;
      assert s == k * a + k * b + a;
      Distribute(b, 2.0 * k, 1.0);
      TwiceMean(b, s, n as real);
    }
  }

  lemma {:induction false} TwiceMean(x: real, s: real, n: real)
    requires n > 0.0 && x * n <= 2.0 * s
    ensures x <= 2.0 * (s / n)
  {
    var q := s / n;
    assert q * n == s;
    assert x * n <= (2.0 * q) * n;
  }

  /** A window not yet full takes everything it hears. */
  lemma {:induction false} Filling(sr: real, held: real, xs: seq<real>)
    requires |xs| <= WINDOW
    ensures HearAll(Unheard(held), xs) == Tempo(xs, 0, held)
    decreases |xs|
  {
    if xs != [] {
      var n := |xs| - 1;
      assert xs == xs[..n] + [xs[n]];
      Filling(sr, held, xs[..n]);
      HearAllSnoc(Unheard(held), xs[..n], xs[n]);
    }
  }

  lemma {:induction false} FillingSwing(sr: real, held: real, a: real, b: real, n: nat)
    requires n <= WINDOW && Accepted(sr, a) && Accepted(sr, b) && b <= TIMEOUT_PERIODS * a
    ensures InTime(sr, Unheard(held), Alt(a, b, n))
    ensures HearAll(Unheard(held), Alt(a, b, n)) == Tempo(Alt(a, b, n), 0, held)
    decreases n
  {
    Filling(sr, held, Alt(a, b, n));
    if n > 0 {
      var xs := Alt(a, b, n - 1);
      assert Alt(a, b, n) == xs + [if (n - 1) % 2 == 0 then a else b];
      FillingSwing(sr, held, a, b, n - 1);
      if n > 1 { NextInTime(a, b, n - 1); }
      InTimeSnoc(sr, Unheard(held), xs, if (n - 1) % 2 == 0 then a else b);
    }
  }

  /** A full swung window whose oldest period is the one that comes next. */
  predicate Rolling(t: Tempo, x: real, y: real) {
    t.window == Alt(x, y, WINDOW) && t.side == 0
  }

  /** A swung window that holds: every period is out of the band or the one
      right after such a period. */
  predicate Frozen(t: Tempo, x: real, y: real) {
    && |t.window| == WINDOW && Mean(t.window) == (x + y) / 2.0
    && (if t.side == 0 then Side(t.window, x) != 0 else t.side == Side(t.window, y))
  }

  lemma {:induction false} FrozenHears(t: Tempo, x: real, y: real)
    requires Frozen(t, x, y) && x > 0.0 && y > 0.0
    ensures Frozen(Hear(t, x), y, x) && Hear(t, x).window == t.window
  {
  }

  lemma {:induction false} RollingHears(t: Tempo, x: real, y: real)
    requires Rolling(t, x, y) && x > 0.0 && y > 0.0
    ensures InBand((x + y) / 2.0, x) ==> Rolling(Hear(t, x), y, x)
    ensures !InBand((x + y) / 2.0, x) ==> Frozen(Hear(t, x), y, x) && Hear(t, x).window == t.window
  {
    MeanOfAlt(x, y);
    MeanOfAlt(y, x);
    assert Pushed(Alt(x, y, WINDOW), x) == Alt(y, x, WINDOW);
  }

  /** From a full swung window on, every mean is the beat and no period is late. */
  lemma {:induction false} SwingOn(sr: real, t: Tempo, x: real, y: real, n: nat)
    requires Rolling(t, x, y) || Frozen(t, x, y)
    requires Accepted(sr, x) && Accepted(sr, y)
    ensures var p, t' := (x + y) / 2.0, HearAll(t, Alt(x, y, n));
            && InTime(sr, t, Alt(x, y, n))
            && t'.window != [] && Mean(t'.window) == p
            && (Rolling(t, x, y) && InBand(p, x) && InBand(p, y) ==>
                  t'.window == if n % 2 == 0 then Alt(x, y, WINDOW) else Alt(y, x, WINDOW))
            && (Frozen(t, x, y) ==> t'.window == t.window)
    decreases n
  {
    hide Hear, Mean;
    MeanOfAlt(x, y);
    if n > 0 {
      assert Alt(x, y, n)[1..] == Alt(y, x, n - 1);
      if Frozen(t, x, y) { FrozenHears(t, x, y); } else { RollingHears(t, x, y); }
      SwingOn(sr, Hear(t, x), y, x, n - 1);
    }
  }

  /** Swing from the first edge on: once the window is full the period is
      exactly the beat on every pulse, without loss; with both halves in the
      band every period enters the window, and otherwise none does after the 9th. */
  lemma {:induction false} SwingAverages(sr: real, held: real, a: real, b: real, n: nat)
    requires Accepted(sr, a) && Accepted(sr, b) && b <= TIMEOUT_PERIODS * a && n >= WINDOW
    ensures var p, t := (a + b) / 2.0, HearAll(Unheard(held), Alt(a, b, n));
            && InTime(sr, Unheard(held), Alt(a, b, n))
            && t.window != [] && Mean(t.window) == p
            && (InBand(p, a) && InBand(p, b) ==>
                  t.window == if n % 2 == 0 then Alt(a, b, WINDOW) else Alt(b, a, WINDOW))
            && (!(InBand(p, a) && InBand(p, b)) && n > WINDOW ==>
                  t.window == HearAll(Unheard(held), Alt(a, b, WINDOW + 1)).window)
  {
    hide Alt, Hear, HearAll, InTime, Accepted, Mean, InBand;
    var xs, ys := Alt(a, b, WINDOW), Alt(a, b, n - WINDOW);
    var t := Tempo(xs, 0, held);
    FillingSwing(sr, held, a, b, WINDOW);
    AltSplits(a, b, n);
    HearAllConcat(Unheard(held), xs, ys);
    SwingOn(sr, t, a, b, n - WINDOW);
    InTimeConcat(sr, Unheard(held), xs, ys);
    if !(InBand((a + b) / 2.0, a) && InBand((a + b) / 2.0, b)) && n > WINDOW {
      NinthFreezes(sr, t, a, b, n - WINDOW);
      HearAllSnoc(Unheard(held), xs, a);
    }
  }

  lemma {:induction false} AltSplits(a: real, b: real, n: nat)
    requires n >= WINDOW
    ensures Alt(a, b, n) == Alt(a, b, WINDOW) + Alt(a, b, n - WINDOW)
    ensures Alt(a, b, WINDOW + 1) == Alt(a, b, WINDOW) + [a]
  {
  }

  lemma {:induction false} NinthFreezes(sr: real, t: Tempo, x: real, y: real, n: nat)
    requires Rolling(t, x, y) && Accepted(sr, x) && Accepted(sr, y) && n > 0
    requires !(InBand((x + y) / 2.0, x) && InBand((x + y) / 2.0, y))
    ensures HearAll(t, Alt(x, y, n)).window == Hear(t, x).window
  {
    assert Alt(x, y, n)[1..] == Alt(y, x, n - 1);
    RollingHears(t, x, y);
    MeanOfAlt(y, x);
    assert Frozen(Hear(t, x), y, x);
    SwingOn(sr, Hear(t, x), y, x, n - 1);
  }

  /** Both halves of a swing s are in the band exactly up to s = 1/6. */
  lemma {:induction false} SwingInBand(p: real, s: real)
    requires p > 0.0 && 0.0 <= s < 1.0
    ensures InBand(p, (1.0 + s) * p) && InBand(p, (1.0 - s) * p) <==> s <= 1.0 / 6.0
  {
    var u := s * p;
    assert (1.0 + s) * p == p + u && (1.0 - s) * p == p - u;
    NonNegative(s, p);
    SixthOf(p, s, u);
  }

  lemma {:induction false} SixthOf(p: real, s: real, u: real)
    requires p > 0.0 && u == s * p
    ensures s <= 1.0 / 6.0 <==> 6.0 * u <= p
  {
    var d := 1.0 - 6.0 * s;
    assert d * p == p - 6.0 * u;
    ScaleLe(0.0, d, p);
  }

  /** The law under swing, from the reference edge on: every edge is a pulse,
      the clock is never lost, and from the 8th pulse on the tempo is the beat's. */
  lemma {:induction false} Swing(c: State, a: nat, b: nat, calls: seq<Call>)
    requires OnBeat(c) && !c.running && IsTrain(calls) && |calls| >= WINDOW
    requires Accepted(c.sr, a as real) && Accepted(c.sr, b as real) && b <= 2 * a
    requires forall i | 0 <= i < |calls| :: calls[i].samples == if i % 2 == 0 then a else b
    ensures AllPulses(Outs(c, calls))
    ensures LastBpm(Outs(c, calls)) == Bpm(c.sr, (a as real + b as real) / 2.0)
  {
    hide Step, Hear, Bpm, Mean;
    assert Intervals(calls) == Alt(a as real, b as real, |calls|);
    assert c.tempo == Unheard(c.tempo.held);
    SwingAverages(c.sr, c.tempo.held, a as real, b as real, |calls|);
    Train(c, calls);
  }

  // ---- late stamps --------------------------------------------------------------------

  /** The intervals of a steady clock of period p whose i-th stamp is e[i] late. */
  function Stamped(p: real, e: seq<real>): (s: seq<real>)
    requires e != []
    ensures |s| == |e| - 1
  {
    seq(|e| - 1, i requires 0 <= i < |e| - 1 => p + e[i + 1] - e[i])
  }

  predicate LateBy(e: seq<real>, q: real) {
    forall i | 0 <= i < |e| :: 0.0 <= e[i] < q
  }

  /** The lateness of every stamp but the first and the last cancels. */
  lemma {:induction false} Telescopes(p: real, e: seq<real>)
    requires e != []
    ensures Sum(Stamped(p, e)) == p * ((|e| - 1) as real) + e[|e| - 1] - e[0]
    decreases |e|
  {
    if |e| > 1 {
      Telescopes(p, e[1..]);
      assert Stamped(p, e)[1..] == Stamped(p, e[1..]);
      Distribute(p, (|e| - 2) as real, 1.0);
      assert (|e| - 2) as real + 1.0 == (|e| - 1) as real;
    } else {
      assert Stamped(p, e) == [];
    }
  }

  /** The last k of the intervals are those of the last k + 1 stamps. */
  lemma {:induction false} LastStamped(p: real, e: seq<real>, k: nat)
    requires e != [] && k <= |e| - 1
    ensures Stamped(p, e)[|e| - 1 - k..] == Stamped(p, e[|e| - 1 - k..])
  {
  }

  /** The mean of the last k periods is off by the two end stamps only. */
  lemma {:induction false} MeanOfStamped(p: real, e: seq<real>, q: real, k: nat)
    requires 0 < k <= |e| - 1 && LateBy(e, q)
    ensures var m, n := Mean(Last(Stamped(p, e), k)), |e| - 1;
            && m == p + (e[n] - e[n - k]) / (k as real)
            && m - p < q / (k as real) && p - m < q / (k as real)
  {
    var n, d := |e| - 1, e[|e| - 1 - k..];
    LastStamped(p, e, k);
    assert Last(Stamped(p, e), k) == Stamped(p, d);
    Telescopes(p, d);
    MeanOff(p, e[n] - e[n - k], q, k as real);
  }

  lemma {:induction false} MeanOff(p: real, x: real, q: real, k: real)
    requires k > 0.0 && -q < x < q
    ensures (p * k + x) / k == p + x / k
    ensures x / k < q / k && -(x / k) < q / k
  {
    var u, v := x / k, q / k;
    assert u * k == x && v * k == q;
    assert (v - u) * k > 0.0 && (u + v) * k > 0.0;
  }

  /** Every late-stamped interval is in time and enters the window. */
  lemma {:induction false} StampedEnter(sr: real, held: real, p: real, q: real, e: seq<real>)
    requires e != [] && LateBy(e, q) && 0.0 < q <= p / 8.0
    requires Accepted(sr, p - q) && Accepted(sr, p + q)
    ensures InTime(sr, Unheard(held), Stamped(p, e))
    ensures HearAll(Unheard(held), Stamped(p, e)) == Tempo(Last(Stamped(p, e), WINDOW), 0, held)
    decreases |e|
  {
    hide Hear;
    if |e| > 1 {
      var d := e[..|e| - 1];
      var xs, x := Stamped(p, d), Stamped(p, e)[|e| - 2];
      assert Stamped(p, e) == xs + [x];
      StampedEnter(sr, held, p, q, d);
      var t := Tempo(Last(xs, WINDOW), 0, held);
      HearAllSnoc(Unheard(held), xs, x);
      PushedKeepsLast(xs, t.window, x);
      if xs == [] {
        assert t.window == [];
      } else {
        var k := if |xs| < WINDOW then |xs| else WINDOW;
        MeanOfStamped(p, d, q, k);
        assert Last(xs, k) == t.window;
        ShareOfQ(q, k as real);
        assert p - q < Mean(t.window) < p + q;
      }
      NearEnters(t, p, q, x);
      InTimeSnoc(sr, Unheard(held), xs, x);
    } else {
      assert Stamped(p, e) == [];
    }
  }

  lemma {:induction false} ShareOfQ(q: real, k: real)
    requires q > 0.0 && k >= 1.0
    ensures q / k <= q
    ensures k == 8.0 ==> q / k == q / 8.0
  {
    var v := q / k;
    assert v * k == q;
    ScaleLe(0.0, v, k);
    NonNegative(v, k - 1.0);
  }

  lemma {:induction false} NearEnters(t: Tempo, p: real, q: real, x: real)
    requires |t.window| <= WINDOW && t.side == 0 && 0.0 < q <= p / 8.0 && p - q < x < p + q
    requires t.window != [] ==> p - q < Mean(t.window) < p + q
    requires |t.window| == WINDOW ==> p - q / 8.0 < Mean(t.window) < p + q / 8.0
    ensures Hear(t, x) == t.(window := Pushed(t.window, x))
    ensures t.window != [] ==> x <= TIMEOUT_PERIODS * Mean(t.window)
  {
  }

  /** A steady clock whose stamps are each late by less than q <= p/8, from the
      reference edge on: it is never lost, the period is the span of the last
      k = min(n, 8) intervals over k, and it is within q/k of p. */
  lemma {:induction false} Quantization(c: State, p: real, q: real, e: seq<real>, calls: seq<Call>)
    requires OnBeat(c) && !c.running && IsTrain(calls) && calls != []
    requires |e| == |calls| + 1 && LateBy(e, q) && 0.0 < q <= p / 8.0
    requires Accepted(c.sr, p - q) && Accepted(c.sr, p + q)
    requires forall i | 0 <= i < |calls| :: calls[i].samples as real == p + e[i + 1] - e[i]
    ensures AllPulses(Outs(c, calls))
    ensures End(c, calls).running
    ensures var k := if |calls| < WINDOW then |calls| else WINDOW;
            var period := Mean(End(c, calls).tempo.window);
            && LastBpm(Outs(c, calls)) == Bpm(c.sr, period)
            && period == p + (e[|calls|] - e[|calls| - k]) / (k as real)
            && period - p < q / (k as real) && p - period < q / (k as real)
  {
    hide Step, Hear, Bpm, Mean;
    assert Intervals(calls) == Stamped(p, e);
    assert c.tempo == Unheard(c.tempo.held);
    StampedEnter(c.sr, c.tempo.held, p, q, e);
    Train(c, calls);
    var k := if |calls| < WINDOW then |calls| else WINDOW;
    assert Last(Stamped(p, e), WINDOW) == Last(Stamped(p, e), k);
    MeanOfStamped(p, e, q, k);
  }
}
