/**
  Trains of CLOCK edges: what the law measures when edges arrive at given
  intervals. The calls carry one edge each and any samples, any knob and beat
  phase, and RESET edges where they fall; ClockCalls extends every result to
  hosts that split the samples further.
 */
module ClockTrain {
  import opened ClockWindow
  import opened Options
  import opened ClockSpec

  /** The tempo after a train of valid intervals. */
  function HearAll(t: Tempo, xs: seq<real>): Tempo
    decreases |xs|
  {
    if xs == [] then t else HearAll(Hear(t, xs[0]), xs[1..])
  }

  lemma {:induction false} HearAllConcat(t: Tempo, xs: seq<real>, ys: seq<real>)
    ensures HearAll(t, xs + ys) == HearAll(HearAll(t, xs), ys)
    decreases |xs|
  {
    if xs == [] {
      assert xs + ys == ys;
    } else {
      assert (xs + ys)[1..] == xs[1..] + ys;
      HearAllConcat(Hear(t, xs[0]), xs[1..], ys);
    }
  }

  lemma {:induction false} HearAllSnoc(t: Tempo, xs: seq<real>, x: real)
    ensures HearAll(t, xs + [x]) == Hear(HearAll(t, xs), x)
  {
    HearAllConcat(t, xs, [x]);
    assert [x][1..] == [];
    assert HearAll(Hear(HearAll(t, xs), x), []) == Hear(HearAll(t, xs), x);
  }

  /** Every interval is valid and comes before the running clock times out. */
  predicate InTime(sr: real, t: Tempo, xs: seq<real>)
    decreases |xs|
  {
    xs == [] ||
    (Accepted(sr, xs[0]) && (t.window != [] ==> xs[0] <= TIMEOUT_PERIODS * Mean(t.window))
     && InTime(sr, Hear(t, xs[0]), xs[1..]))
  }

  lemma {:induction false} InTimeConcat(sr: real, t: Tempo, xs: seq<real>, ys: seq<real>)
    requires InTime(sr, t, xs) && InTime(sr, HearAll(t, xs), ys)
    ensures InTime(sr, t, xs + ys)
    decreases |xs|
  {
    if xs == [] {
      assert xs + ys == ys;
    } else {
      assert (xs + ys)[1..] == xs[1..] + ys;
      InTimeConcat(sr, Hear(t, xs[0]), xs[1..], ys);
    }
  }

  lemma {:induction false} InTimeSnoc(sr: real, t: Tempo, xs: seq<real>, x: real)
    requires InTime(sr, t, xs) && Accepted(sr, x)
    requires HearAll(t, xs).window != [] ==> x <= TIMEOUT_PERIODS * Mean(HearAll(t, xs).window)
    ensures InTime(sr, t, xs + [x])
  {
    assert [x][1..] == [];
    assert InTime(sr, Hear(HearAll(t, xs), x), []);
    InTimeConcat(sr, t, xs, [x]);
  }

  // ---- from tempos to the law ----------------------------------------------------

  /** A CLOCK edge lies at the state's own stamp, a valid one if the clock runs. */
  predicate OnBeat(c: Clock) {
    c.edge == Some(c.now) && (c.running ==> c.lastValid == c.now)
  }

  predicate IsTrain(calls: seq<Call>) {
    forall i | 0 <= i < |calls| :: calls[i].jacks.clockEdge
  }

  function Intervals(calls: seq<Call>): seq<real> {
    seq(|calls|, i requires 0 <= i < |calls| => calls[i].samples as real)
  }

  /** Every call of the run was a pulse and none lost the clock. */
  predicate AllPulses(outs: seq<Out>) {
    forall i | 0 <= i < |outs| :: outs[i].pulse && !outs[i].lost
  }

  /** The tempo the run's last call handed out. */
  function LastBpm(outs: seq<Out>): real {
    if outs == [] then 0.0 else outs[|outs| - 1].measuredBpm
  }

  /** A valid edge in time is a pulse: the tempo hears its interval, the clock
      runs on and its tempo is handed out. */
  lemma {:induction false} BeatStep(c: State, call: Call)
    requires OnBeat(c) && call.jacks.clockEdge
    requires Accepted(c.sr, call.samples as real)
    requires c.running ==> call.samples as real <= TIMEOUT_PERIODS * c.period
    ensures var r := Step(c, call);
            && OnBeat(r.clock) && r.clock.running && r.clock.sr == c.sr
            && r.clock.tempo == Hear(c.tempo, call.samples as real)
            && r.out.pulse && !r.out.lost
            && r.out.measuredBpm == Bpm(c.sr, Mean(r.clock.tempo.window))
  {
    hide ResetPhase, Hear, Mean, Bpm;
    var c1 := Elapse(c, call.samples, call.jacks.knob);
    assert c1 == c.(now := c.now + call.samples);
    var e := Edge(c1);
    assert e.clock.tempo == Hear(c.tempo, call.samples as real);
    assert Takeover(e.clock, call.jacks.knob) == e.clock;
    ResetKeepsTempo(e.clock, call.jacks, e.pulse);
  }

  lemma {:induction false} ResetKeepsTempo(c: Mid, j: Jacks, pulse: bool)
    ensures var r := ResetPhase(c, j, pulse).clock; r == c.(armed := r.armed, one := r.one)
  {
  }

  /** The first edge of a clock is a reference: from a state without one, the
      next edge's interval is measured from it. */
  lemma {:induction false} FirstEdge(c: State, call: Call)
    requires !c.running && c.edge.None? && call.jacks.clockEdge
    ensures var r := Step(c, call);
            OnBeat(r.clock) && !r.clock.running && r.clock.sr == c.sr && !r.out.pulse && !r.out.lost
  {
    hide ResetPhase;
    var c1 := Elapse(c, call.samples, call.jacks.knob);
    var e := Edge(c1);
    ResetKeepsTempo(Takeover(e.clock, call.jacks.knob), call.jacks, e.pulse);
  }

  /** A whole train in time: every edge is a pulse, none loses the clock, and
      the tempo is the one HearAll gives. */
  lemma {:induction false} Train(c: State, calls: seq<Call>)
    requires OnBeat(c) && IsTrain(calls) && InTime(c.sr, c.tempo, Intervals(calls))
    ensures OnBeat(End(c, calls)) && End(c, calls).sr == c.sr
    ensures End(c, calls).tempo == HearAll(c.tempo, Intervals(calls))
    ensures AllPulses(Outs(c, calls))
    ensures calls != [] ==> End(c, calls).running
    ensures calls != [] ==> LastBpm(Outs(c, calls)) == Bpm(c.sr, Mean(End(c, calls).tempo.window))
    decreases |calls|
  {
    hide Step, Hear, Mean, Bpm;
    if calls != [] {
      BeatStep(c, calls[0]);
      var s, rest := Step(c, calls[0]), calls[1..];
      assert Intervals(calls)[1..] == Intervals(rest);
      Train(s.clock, rest);
      var outs := Outs(s.clock, rest);
      assert Outs(c, calls) == [s.out] + outs;
      assert forall i | 0 < i < |calls| :: Outs(c, calls)[i] == outs[i - 1];
      if rest == [] {
        assert End(s.clock, rest) == s.clock;
      }
    }
  }
}
