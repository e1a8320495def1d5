/**
  The numeric claims of the tempo measurement, as bounds on every pulse of a
  train: how far one odd period moves the tempo, how a tempo step settles, what
  swing averages to, and how late stamps show in the period.
 */
module ClockTempo {
  import opened ClockWindow
  import opened Options
  import opened RealLemmas
  import opened ClockSpec
  import opened ClockTrain

  predicate InBand(p: real, x: real) {
    p / BAND <= x <= p * BAND
  }

  /** A full window of equal periods with nothing held aside. */
  predicate FullOf(t: Tempo, p: real) {
    t.window == Const(p, WINDOW) && t.side == 0
  }

  lemma {:induction false} MeanOfFull(p: real)
    ensures Mean(Const(p, WINDOW)) == p
  {
    MeanOfConst(p, WINDOW);
  }

  lemma {:induction false} MeanOfConst(p: real, n: nat)
    requires n > 0
    ensures Const(p, n) != [] && Mean(Const(p, n)) == p
  {
    SumConst(p, n);
    MulDiv(p, n as real);
  }

  // ---- one odd period --------------------------------------------------------------

  /** A full window of p with one odd period r at place i. */
  function Odd(p: real, r: real, i: nat): seq<real>
    requires i < WINDOW
  {
    Const(p, WINDOW)[i := r]
  }

  lemma {:induction false} MeanOfOdd(p: real, r: real, i: nat)
    requires i < WINDOW
    ensures Mean(Odd(p, r, i)) == (7.0 * p + r) / 8.0
  {
    var a, b := Const(p, i), Const(p, WINDOW - 1 - i);
    assert Odd(p, r, i) == a + [r] + b;
    SumConcat(a + [r], b);
    SumSnoc(a, r);
    SumConst(p, i);
    SumConst(p, WINDOW - 1 - i);
    SevenTimes(p, i);
  }

  lemma {:induction false} SevenTimes(p: real, i: nat)
    requires i < WINDOW
    ensures p * (i as real) + p * ((WINDOW - 1 - i) as real) == 7.0 * p
  {
    assert (WINDOW - 1 - i) as real == 7.0 - i as real;
  }

  lemma {:induction false} OddSlides(p: real, r: real, i: nat)
    requires i < WINDOW
    ensures Pushed(Odd(p, r, i), p) == if i == 0 then Const(p, WINDOW) else Odd(p, r, i - 1)
    ensures Pushed(Const(p, WINDOW), r) == Odd(p, r, WINDOW - 1)
  {
    assert Pushed(Odd(p, r, i), p) == if i == 0 then Const(p, WINDOW) else Odd(p, r, i - 1);
    assert Pushed(Const(p, WINDOW), r) == Odd(p, r, WINDOW - 1);
  }

  /** Another p into the window of one in-band r is always in the band. */
  lemma {:induction false} OddHearsP(p: real, r: real, i: nat, held: real)
    requires i < WINDOW && p > 0.0 && InBand(p, r)
    ensures Hear(Tempo(Odd(p, r, i), 0, held), p).window
         == if i == 0 then Const(p, WINDOW) else Odd(p, r, i - 1)
    ensures Hear(Tempo(Odd(p, r, i), 0, held), p).side == 0
  {
    MeanOfOdd(p, r, i);
    OddSlides(p, r, i);
  }

  lemma {:induction false} FullHears(t: Tempo, p: real, x: real)
    requires FullOf(t, p) && p > 0.0
    ensures InBand(p, x) ==> Hear(t, x).window == Odd(p, x, WINDOW - 1) && Hear(t, x).side == 0
    ensures !InBand(p, x) ==> Hear(t, x) == Tempo(t.window, if x > p then 1 else -1, x)
    ensures FullOf(Hear(t, p), p)
  {
    MeanOfFull(p);
    OddSlides(p, x, 0);
    OddSlides(p, p, 0);
  }

  /** After one in-band r and n periods p: r has slid n places, or has left. */
  lemma {:induction false} AfterOdd(sr: real, t: Tempo, p: real, r: real, i: nat, n: nat)
    requires i < WINDOW && t.window == Odd(p, r, i) && t.side == 0
    requires p > 0.0 && InBand(p, r) && Accepted(sr, p)
    ensures InTime(sr, t, Const(p, n))
    ensures HearAll(t, Const(p, n)).side == 0
    ensures HearAll(t, Const(p, n)).window == if n <= i then Odd(p, r, i - n) else Const(p, WINDOW)
    decreases n
  {
    MeanOfOdd(p, r, i);
    if n > 0 {
      assert Const(p, n)[1..] == Const(p, n - 1);
      OddHearsP(p, r, i, t.held);
      if i == 0 {
        StaysFull(sr, Hear(t, p), p, n - 1);
      } else {
        AfterOdd(sr, Hear(t, p), p, r, i - 1, n - 1);
      }
    }
  }

  lemma {:induction false} StaysFull(sr: real, t: Tempo, p: real, n: nat)
    requires FullOf(t, p) && p > 0.0 && Accepted(sr, p)
    ensures InTime(sr, t, Const(p, n)) && FullOf(HearAll(t, Const(p, n)), p)
    decreases n
  {
    if n > 0 {
      assert Const(p, n)[1..] == Const(p, n - 1);
      MeanOfFull(p);
      FullHears(t, p, p);
      StaysFull(sr, Hear(t, p), p, n - 1);
    }
  }

  /** From a full window of p: one valid odd period r in time, then n periods p.
      The mean is (7p + r) / 8 while an in-band r is in the window, p ever
      after, and p all along when r is out of the band. */
  lemma {:induction false} OddPeriod(sr: real, t: Tempo, p: real, r: real, n: nat)
    requires FullOf(t, p) && Accepted(sr, p) && Accepted(sr, r) && r <= TIMEOUT_PERIODS * p
    ensures var xs := [r] + Const(p, n);
            && InTime(sr, t, xs)
            && HearAll(t, xs).window != []
            && Mean(HearAll(t, xs).window) == if InBand(p, r) && n < WINDOW then (7.0 * p + r) / 8.0 else p
  {
    var xs := [r] + Const(p, n);
    assert xs[1..] == Const(p, n);
    MeanOfFull(p);
    FullHears(t, p, r);
    if InBand(p, r) {
      AfterOdd(sr, Hear(t, r), p, r, WINDOW - 1, n);
      if n < WINDOW { MeanOfOdd(p, r, WINDOW - 1 - n); }
    } else if n == 0 {
      assert HearAll(Hear(t, r), []) == Hear(t, r);
    } else {
      var t1 := Hear(t, r);
      assert Const(p, n)[1..] == Const(p, n - 1);
      assert Hear(t1, p) == t1.(side := 0);
      StaysFull(sr, Hear(t1, p), p, n - 1);
    }
  }

  /** A tempo bpm that is off the beat's by (p - r) / (7p + r) of it, under 2.5 %. */
  predicate Excess(beat: real, bpm: real, p: real, r: real)
    requires 7.0 * p + r != 0.0
  {
    && bpm - beat == beat * ((p - r) / (7.0 * p + r))
    && -0.025 * beat < bpm - beat < 0.025 * beat
  }

  /** The excursion of the tempo, 60 sr / period, from the beat p: exactly
      |r-1| / (7+r) of it in beats r / p, and under 2.5 %. */
  lemma {:induction false} ExcursionBound(sr: real, p: real, r: real)
    requires sr > 0.0 && p > 0.0 && r > 0.0
    ensures InBand(p, r) ==> Excess(Bpm(sr, p), Bpm(sr, (7.0 * p + r) / 8.0), p, r)
  {
    var m := (7.0 * p + r) / 8.0;
    var beat, bpm := Bpm(sr, p), Bpm(sr, m);
    var f := (p - r) / (7.0 * p + r);
    assert beat * p == 60.0 * sr && bpm * m == 60.0 * sr;
    assert f * (8.0 * m) == p - r;
    ScaleExcursion(beat, bpm, p, m, f, r);
    if InBand(p, r) {
      assert beat > 0.0;
      FractionBound(p - r, 7.0 * p + r, f);
      Between(beat, f);
    }
  }

  lemma {:induction false} ScaleExcursion(beat: real, bpm: real, p: real, m: real, f: real, r: real)
    requires beat * p == bpm * m && m > 0.0 && 8.0 * m == 7.0 * p + r && f * (8.0 * m) == p - r
    ensures bpm - beat == beat * f
  {
    assert beat * f * (8.0 * m) == beat * (p - r);
    assert (bpm - beat) * (8.0 * m) == 8.0 * beat * p - beat * (7.0 * p + r);
    assert (bpm - beat - beat * f) * m == 0.0;
  }

  lemma {:induction false} FractionBound(x: real, d: real, f: real)
    requires d > 0.0 && f * d == x && -0.025 * d < x < 0.025 * d
    ensures -0.025 < f < 0.025
  {
  }

  lemma {:induction false} Between(b: real, f: real)
    requires b > 0.0 && -0.025 < f < 0.025
    ensures -0.025 * b < b * f < 0.025 * b
  {
  }

  /** The excursion over a train of edges: from a full window of p, an odd period
      r and then any number of periods p (the samples as real stamps) keep the
      clock running and every pulse's tempo within the bound of the beat. */
  lemma {:induction false} Excursion(c: State, p: nat, odd: Call, steady: seq<Call>)
    requires OnBeat(c) && c.running && FullOf(c.tempo, p as real) && p > 0
    requires Accepted(c.sr, p as real) && Accepted(c.sr, odd.samples as real) && odd.samples <= 2 * p
    requires IsTrain([odd] + steady)
    requires forall i | 0 <= i < |steady| :: steady[i].samples == p
    ensures var outs, r, beat := Outs(c, [odd] + steady), odd.samples as real, Bpm(c.sr, p as real);
            && AllPulses(outs)
            && (InBand(p as real, r) && |steady| < WINDOW ==> Excess(beat, LastBpm(outs), p as real, r))
            && (!InBand(p as real, r) || |steady| >= WINDOW ==> LastBpm(outs) == beat)
  {
    hide Hear, Step, Bpm, AllPulses, End, Outs, LastBpm, HearAll;
    var calls, r := [odd] + steady, odd.samples as real;
    assert Intervals(calls) == [r] + Const(p as real, |steady|);
    OddPeriod(c.sr, c.tempo, p as real, r, |steady|);
    Train(c, calls);
    ExcursionBound(c.sr, p as real, r);
  }

  // ---- a tempo step -------------------------------------------------------------------

  /** A full window of p after k periods of q. */
  function Ramp(p: real, q: real, k: nat): seq<real>
    requires k <= WINDOW
  {
    Const(p, WINDOW - k) + Const(q, k)
  }

  lemma {:induction false} MeanOfRamp(p: real, q: real, k: nat)
    requires k <= WINDOW
    ensures Mean(Ramp(p, q, k)) == p + (q - p) * (k as real) / 8.0
  {
    SumConcat(Const(p, WINDOW - k), Const(q, k));
    SumConst(p, WINDOW - k);
    SumConst(q, k);
    assert (WINDOW - k) as real == 8.0 - k as real;
    assert p * (8.0 - k as real) + q * (k as real) == 8.0 * p + (q - p) * (k as real);
  }

  /** Between p and q the ramp's mean keeps an in-band q in the band. */
  lemma {:induction false} RampHearsQ(p: real, q: real, k: nat, held: real)
    requires k < WINDOW && p > 0.0 && q > 0.0 && InBand(p, q)
    ensures Hear(Tempo(Ramp(p, q, k), 0, held), q) == Tempo(Ramp(p, q, k + 1), 0, held)
  {
    MeanOfRamp(p, q, k);
    var m, f := Mean(Ramp(p, q, k)), k as real / 8.0;
    assert m == p + (q - p) * f && 0.0 <= f <= 1.0;
    MeanBetween(p, q, f, m);
    assert Pushed(Ramp(p, q, k), q) == Ramp(p, q, k + 1);
  }

  lemma {:induction false} MeanBetween(p: real, q: real, f: real, m: real)
    requires 0.0 <= f <= 1.0 && m == p + (q - p) * f
    ensures p <= q ==> p <= m <= q
    ensures q <= p ==> q <= m <= p
  {
    if p <= q {
      NonNegative(q - p, f);
      NonNegative(q - p, 1.0 - f);
    } else {
      NonNegative(p - q, f);
      NonNegative(p - q, 1.0 - f);
    }
  }

  lemma {:induction false} InBandRamp(sr: real, t: Tempo, p: real, q: real, k: nat, n: nat)
    requires k <= WINDOW && t == Tempo(Ramp(p, q, k), 0, t.held) && InBand(p, q)
    requires Accepted(sr, p) && Accepted(sr, q)
    ensures InTime(sr, t, Const(q, n))
    ensures HearAll(t, Const(q, n)) == Tempo(Ramp(p, q, if k + n < WINDOW then k + n else WINDOW), 0, t.held)
    decreases n
  {
    hide Hear, Ramp, Mean, Accepted, InBand;
    if n > 0 {
      assert Const(q, n)[1..] == Const(q, n - 1);
      RampInTime(sr, p, q, k);
      if k < WINDOW {
        RampGrows(sr, p, q, k, t.held);
        InBandRamp(sr, Hear(t, q), p, q, k + 1, n - 1);
      } else {
        RampIsFull(sr, t, p, q);
        InBandRamp(sr, t, p, q, k, n - 1);
      }
    }
  }

  lemma {:induction false} RampGrows(sr: real, p: real, q: real, k: nat, held: real)
    requires k < WINDOW && Accepted(sr, p) && Accepted(sr, q) && InBand(p, q)
    ensures Hear(Tempo(Ramp(p, q, k), 0, held), q) == Tempo(Ramp(p, q, k + 1), 0, held)
  {
    RampHearsQ(p, q, k, held);
  }

  lemma {:induction false} RampIsFull(sr: real, t: Tempo, p: real, q: real)
    requires t == Tempo(Ramp(p, q, WINDOW), 0, t.held) && Accepted(sr, q)
    ensures Hear(t, q) == t
  {
    assert Ramp(p, q, WINDOW) == Const(q, WINDOW);
    FullHears(t, q, q);
  }

  /** The ramp's mean lies between p and q, so an in-band q is never late. */
  lemma {:induction false} RampInTime(sr: real, p: real, q: real, k: nat)
    requires k <= WINDOW && Accepted(sr, p) && Accepted(sr, q) && InBand(p, q)
    ensures Ramp(p, q, k) != [] && q <= TIMEOUT_PERIODS * Mean(Ramp(p, q, k))
  {
    MeanOfRamp(p, q, k);
    var m, f := Mean(Ramp(p, q, k)), k as real / 8.0;
    assert m == p + (q - p) * f && 0.0 <= f <= 1.0;
    MeanBetween(p, q, f, m);
  }

  /** From a window of k <= WINDOW periods q alone, more q fill it with q. */
  lemma {:induction false} Refill(sr: real, t: Tempo, q: real, k: nat, n: nat)
    requires 0 < k <= WINDOW && t.window == Const(q, k) && t.side == 0 && Accepted(sr, q)
    ensures InTime(sr, t, Const(q, n))
    ensures HearAll(t, Const(q, n)) == Tempo(Const(q, if k + n < WINDOW then k + n else WINDOW), 0, t.held)
    decreases n
  {
    if n > 0 {
      assert Const(q, n)[1..] == Const(q, n - 1);
      MeanOfConst(q, k);
      if k < WINDOW {
        assert Pushed(t.window, q) == Const(q, k + 1);
        Refill(sr, Hear(t, q), q, k + 1, n - 1);
      } else {
        FullHears(t, q, q);
        assert Hear(t, q) == t;
        Refill(sr, t, q, k, n - 1);
      }
    }
  }

  /** The period at the n-th pulse of a step from p to q. */
  function Settling(p: real, q: real, n: nat): real {
    if !InBand(p, q) then (if n <= 1 then p else q)
    else if n < WINDOW then p + (q - p) * (n as real) / 8.0
    else q
  }

  /** A step from a full window of p to periods of q ramps through the window
      when q is in the band and has settled exactly at the 8th period; out of
      the band the first q leaves the tempo alone and the 2nd settles it exactly. */
  lemma {:induction false} StepSettles(sr: real, t: Tempo, p: real, q: real, n: nat)
    requires FullOf(t, p) && Accepted(sr, p) && Accepted(sr, q) && q <= TIMEOUT_PERIODS * p && n > 0
    ensures InTime(sr, t, Const(q, n)) && HearAll(t, Const(q, n)).window != []
    ensures Mean(HearAll(t, Const(q, n)).window) == Settling(p, q, n)
  {
    hide Hear, Mean, InBand, Ramp;
    if InBand(p, q) {
      InBandSettles(sr, t, p, q, n);
    } else {
      OutOfBandStep(sr, t, p, q, n);
    }
  }

  lemma {:induction false} InBandSettles(sr: real, t: Tempo, p: real, q: real, n: nat)
    requires FullOf(t, p) && Accepted(sr, p) && Accepted(sr, q) && InBand(p, q)
    ensures InTime(sr, t, Const(q, n)) && HearAll(t, Const(q, n)).window != []
    ensures Mean(HearAll(t, Const(q, n)).window)
         == if n < WINDOW then p + (q - p) * (n as real) / 8.0 else q
  {
    hide Hear, Accepted, InBand, InTime, HearAll;
    var k := if n < WINDOW then n else WINDOW;
    assert Const(p, WINDOW) == Ramp(p, q, 0);
    InBandRamp(sr, t, p, q, 0, n);
    MeanOfRamp(p, q, k);
    RampEnds(p, q);
  }

  lemma {:induction false} RampEnds(p: real, q: real)
    ensures p + (q - p) * (WINDOW as real) / 8.0 == q
  {
  }

  /** The law under a tempo step: no edge is lost, and the tempo handed out
      ramps to the new beat in eight pulses or jumps to it at the second. */
  lemma {:induction false} TempoStep(c: State, p: nat, q: nat, calls: seq<Call>)
    requires OnBeat(c) && c.running && FullOf(c.tempo, p as real)
    requires Accepted(c.sr, p as real) && Accepted(c.sr, q as real) && q <= 2 * p
    requires IsTrain(calls) && calls != [] && forall i | 0 <= i < |calls| :: calls[i].samples == q
    ensures AllPulses(Outs(c, calls))
    ensures LastBpm(Outs(c, calls)) == Bpm(c.sr, Settling(p as real, q as real, |calls|))
  {
    hide Hear, Step, Settling, Mean, Bpm, AllPulses, End, Outs, LastBpm, HearAll;
    assert Intervals(calls) == Const(q as real, |calls|);
    StepSettles(c.sr, c.tempo, p as real, q as real, |calls|);
    Train(c, calls);
  }

  lemma {:induction false} OutOfBandStep(sr: real, t: Tempo, p: real, q: real, n: nat)
    requires FullOf(t, p) && Accepted(sr, p) && Accepted(sr, q) && q <= TIMEOUT_PERIODS * p && n > 0
    requires !InBand(p, q)
    ensures InTime(sr, t, Const(q, n)) && HearAll(t, Const(q, n)).window != []
    ensures Mean(HearAll(t, Const(q, n)).window) == if n == 1 then p else q
  {
    hide Hear, Mean, Accepted, InBand;
    MeanOfFull(p);
    PositivePeriods(sr, p, q);
    FullHears(t, p, q);
    var t1 := Hear(t, q);
    assert Const(q, n)[1..] == Const(q, n - 1);
    if n == 1 {
      assert InTime(sr, t1, Const(q, 0)) && HearAll(t1, Const(q, 0)) == t1;
    } else {
      assert Const(q, n - 1)[1..] == Const(q, n - 2);
      var t2 := Hear(t1, q);
      TwoOutOfBand(t, p, q, q);
      assert t2.window == Const(q, 2) by { assert [q, q] == Const(q, 2); }
      Refill(sr, t2, q, 2, n - 2);
      MeanOfConst(q, if n < WINDOW then n else WINDOW);
    }
  }

  lemma {:induction false} PositivePeriods(sr: real, p: real, q: real)
    requires Accepted(sr, p) && Accepted(sr, q)
    ensures p > 0.0 && q > 0.0 && InBand(q, q)
  {
  }

  /** When two periods after a full window of p move the tempo: in the band the
      window slides; out of it the tempo holds on the first and jumps to the
      mean of the two exactly when they agree on the same side. */
  lemma {:induction false} TwoOutOfBand(t: Tempo, p: real, x: real, y: real)
    requires FullOf(t, p) && p > 0.0 && x > 0.0 && y > 0.0 && !InBand(p, x) && !InBand(p, y)
    ensures Hear(t, x).window == t.window
    ensures var agree := (x > p <==> y > p) && InBand(x, y);
            && Hear(Hear(t, x), y).window == (if agree then [x, y] else t.window)
            && (agree <==> Hear(Hear(t, x), y).side == 0)
  {
    MeanOfFull(p);
    FullHears(t, p, x);
  }
}
