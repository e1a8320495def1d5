/**
  The CLOCK/RESET jack law on values: one call of the law as a function from
  the law's state and the call's inputs to the next state and its outputs.
  The interval ring is the window it stands for, and the measured period is
  the window's mean. Sample rate, tempo and intervals are reals; stamps are
  unbounded sample counts.
 */
module ClockSpec {
  import opened ClockWindow
  import opened Options
  import opened RealLemmas

  const BPM_MIN: real := 20.0
  const BPM_MAX: real := 400.0
  const TIMEOUT_PERIODS: real := 2.0
  const BAND: real := 1.2
  const RESET_WINDOW_SECONDS: real := 0.010

  /** What the tempo is measured from: the window and a period held aside
      (side +1 long, -1 short, 0 none). */
  datatype Tempo = Tempo(window: seq<real>, side: int, held: real)

  /** The law's state. An edge or a restart's 1 that is not held is None. */
  datatype Clock = Clock(
    sr: real, resetWindow: nat, now: nat,
    running: bool, period: real, tempo: Tempo,
    edge: Option<nat>, lastValid: nat, one: Option<nat>,
    armed: bool, prevPhase: real, knobRef: Option<real>)

  datatype Out = Out(pulse: bool, counted: bool, restart: bool, restartAge: nat,
                     lost: bool, clockLamp: bool, resetLamp: bool, measuredBpm: real)

  /** What one call reads: the two jacks, the raw TEMPO knob, the beat phase. */
  datatype Jacks = Jacks(clockEdge: bool, resetEdge: bool, knob: real, phase: real)

  /** One call: the samples elapsed since the last one, and what it reads. */
  datatype Call = Call(samples: nat, jacks: Jacks)

  function ResetWindowSamples(sr: real): nat
    requires sr >= 0.0
  {
    (RESET_WINDOW_SECONDS * sr + 0.5).Floor
  }

  /** An interval whose tempo, 60 sr / interval, lies in BPM_MIN..BPM_MAX. */
  predicate Accepted(sr: real, interval: real) {
    interval > 0.0 && BPM_MIN * interval <= 60.0 * sr <= BPM_MAX * interval
  }

  predicate AllAccepted(sr: real, w: seq<real>) {
    forall i | 0 <= i < |w| :: Accepted(sr, w[i])
  }

  /** The tempo handed out for a held period: 0 for none (the knob's). */
  function Bpm(sr: real, period: real): real {
    if period == 0.0 then 0.0 else 60.0 * sr / period
  }

  // ---- the invariant -------------------------------------------------------

  predicate TempoWf(sr: real, t: Tempo) {
    && |t.window| <= WINDOW
    && AllAccepted(sr, t.window)
    && (t.side == 0 || t.side == 1 || t.side == -1)
    && (t.side != 0 ==> |t.window| == WINDOW && Accepted(sr, t.held))
  }

  /** Holds between any two phases of a call. */
  predicate Core(c: Clock) {
    && c.sr >= 0.0
    && TempoWf(c.sr, c.tempo)
    && c.lastValid <= c.now
    && (c.edge.Some? ==> c.edge.value <= c.now)
    && (c.one.Some? ==> c.one.value <= c.now)
    && (c.period == 0.0 || Accepted(c.sr, c.period))
    && (!c.running ==> c.tempo.window == [] && c.tempo.side == 0)
    && (c.running ==>
          && c.tempo.window != []
          && c.edge.Some? && c.lastValid <= c.edge.value
          && c.period == Mean(c.tempo.window) && c.period != 0.0
          && (c.now - c.lastValid) as real <= TIMEOUT_PERIODS * c.period)
  }

  /** Holds between calls: Core, and a reset left armed by a lost clock waits
      for the first edge back, which will find no reference edge. */
  predicate Inv(c: Clock) {
    Core(c) && (c.armed && !c.running ==> c.edge.None?)
  }

  /** The law's state between two phases of a call, and between two calls. */
  type Mid = c: Clock | Core(c) witness Fresh(48000.0)
  type State = c: Clock | Inv(c) witness Fresh(48000.0)

  function Fresh(sr: real): Clock
    requires sr >= 0.0
  {
    Clock(sr, ResetWindowSamples(sr), 0, false, 0.0, Tempo([], 0, 0.0),
          None, 0, None, false, 0.0, None)
  }

  // ---- the phases of a call ------------------------------------------------

  function Init(sr: real): State
    requires sr >= 0.0
  {
    Fresh(sr)
  }

  function Forget(c: Clock): Clock {
    c.(edge := None, one := None, tempo := c.tempo.(window := [], side := 0))
  }

  function Discontinuity(c: State): State
  {
    Forget(c).(running := false, armed := false, knobRef := None)
  }

  predicate TimedOut(c: Mid, samples: nat)
  {
    c.running && (c.now + samples - c.lastValid) as real > TIMEOUT_PERIODS * c.period
  }

  function Elapse(c: State, samples: nat, knob: real): State
  {
    if TimedOut(c, samples) then
      Forget(c).(now := c.now + samples, running := false, knobRef := Some(knob))
    else
      c.(now := c.now + samples)
  }

  function Side(window: seq<real>, x: real): int
    requires window != []
  {
    if x > Mean(window) * BAND then 1 else if x < Mean(window) / BAND then -1 else 0
  }

  predicate Agrees(held: real, x: real) {
    held / BAND <= x <= held * BAND
  }

  /** A valid interval heard while running: into the window, held aside, or
      (the second of two agreeing out-of-band ones) the start of a new window. */
  function Hear(t: Tempo, x: real): Tempo {
    if |t.window| == WINDOW && Side(t.window, x) != 0 then
      if Side(t.window, x) == t.side && Agrees(t.held, x) then
        Tempo([t.held, x], 0, t.held)
      else
        Tempo(t.window, Side(t.window, x), x)
    else if |t.window| == WINDOW && t.side != 0 then
      t.(side := 0)
    else
      t.(window := Pushed(t.window, x))
  }

  lemma {:induction false} HearWf(sr: real, t: Tempo, x: real)
    requires TempoWf(sr, t) && Accepted(sr, x)
    ensures TempoWf(sr, Hear(t, x)) && Hear(t, x).window != []
  {
  }

  /** The mean of accepted intervals is accepted, and its tempo is in range. */
  lemma {:induction false} MeanAccepted(sr: real, w: seq<real>)
    requires w != [] && AllAccepted(sr, w)
    ensures Accepted(sr, Mean(w))
  {
    MeanBounds(w, 60.0 * sr / BPM_MAX, 60.0 * sr / BPM_MIN);
    assert w[0] > 0.0;
  }

  /** A held period is either none or gives a tempo the control law accepts. */
  lemma {:induction false} BpmRange(sr: real, x: real)
    requires x == 0.0 || Accepted(sr, x)
    ensures Bpm(sr, x) == 0.0 <==> x == 0.0
    ensures x != 0.0 ==> BPM_MIN <= Bpm(sr, x) <= BPM_MAX
  {
    if x != 0.0 { DivBounds(60.0 * sr, x, BPM_MIN, BPM_MAX); }
  }

  /** The law's test on 60 sr / interval is the multiplied-out one. */
  lemma {:induction false} AcceptedByTempo(sr: real, interval: real)
    requires interval > 0.0
    ensures Accepted(sr, interval) <==> BPM_MIN <= 60.0 * sr / interval <= BPM_MAX
  {
    var b := 60.0 * sr / interval;
    assert b * interval == 60.0 * sr;
    if Accepted(sr, interval) {
      DivBounds(60.0 * sr, interval, BPM_MIN, BPM_MAX);
    }
    if BPM_MIN <= b { ScaleLe(BPM_MIN, b, interval); }
    if b <= BPM_MAX { ScaleLe(b, BPM_MAX, interval); }
  }

  function Distance(a: nat, b: nat): nat {
    if a > b then a - b else b - a
  }

  datatype EdgeResult = EdgeResult(clock: Mid, pulse: bool, counted: bool)

  predicate ValidInterval(c: Mid) {
    c.edge.Some? && Accepted(c.sr, (c.now - c.edge.value) as real)
  }

  /** One CLOCK edge at c.now. */
  function Edge(c: Mid): (r: EdgeResult)
    ensures r.clock.edge == Some(c.now)
  {
    if !ValidInterval(c) then
      EdgeResult(c.(edge := Some(c.now)), false, false)
    else
      var x := (c.now - c.edge.value) as real;
      HearWf(c.sr, c.tempo, x);
      var t := Hear(c.tempo, x);
      MeanAccepted(c.sr, t.window);
      var c1 := c.(edge := Some(c.now), lastValid := c.now, tempo := t, period := Mean(t.window));
      if c.running then
        EdgeResult(c1, true, false)
      else
        EdgeResult(c1.(running := true, one := None), true,
                   c.one.Some? && Distance(c.one.value, c.edge.value) <= c.resetWindow)
  }

  function MaybeEdge(c: Mid, edge: bool): EdgeResult {
    if edge then Edge(c) else EdgeResult(c, false, false)
  }

  /** While no clock runs a held tempo yields to the first knob value that
      differs from the reference taken at the loss. */
  function Takeover(c: Mid, knob: real): Mid {
    if c.running || c.period == 0.0 then c
    else if c.knobRef.None? then c.(knobRef := Some(knob))
    else if knob != c.knobRef.value then c.(period := 0.0)
    else c
  }

  function Restarted(c: Mid, age: nat): Mid
    requires age <= c.now
  {
    c.(armed := false, one := Some(c.now - age))
  }

  datatype ResetResult = ResetResult(clock: Mid, restart: bool, age: nat)

  function ResetPhase(c: Mid, j: Jacks, pulse: bool): ResetResult {
    if j.resetEdge then
      if pulse || !c.running then ResetResult(Restarted(c, 0), true, 0)
      else if c.now - c.lastValid <= c.resetWindow then
        ResetResult(Restarted(c, c.now - c.lastValid), true, c.now - c.lastValid)
      else ResetResult(c.(armed := true), false, 0)
    else if c.armed && (pulse || (!c.running && (j.clockEdge || j.phase < c.prevPhase))) then
      ResetResult(Restarted(c, 0), true, 0)
    else
      ResetResult(c, false, 0)
  }

  datatype StepResult = StepResult(clock: State, out: Out)

  /** The CLOCK jack's half of a call: the edge, then the knob. */
  function HearClock(c: State, j: Jacks): (r: EdgeResult)
    ensures r.clock.armed && !r.clock.running && r.clock.edge.Some? ==> j.clockEdge
  {
    var e := MaybeEdge(c, j.clockEdge);
    e.(clock := Takeover(e.clock, j.knob))
  }

  /** The RESET jack's half; a reset armed by a lost clock is spent on the edge
      that has just brought a reference back. */
  function HearReset(e: EdgeResult, j: Jacks): StepResult
    requires e.clock.armed && !e.clock.running && e.clock.edge.Some? ==> j.clockEdge
  {
    var s := ResetPhase(e.clock, j, e.pulse);
    StepResult(s.clock.(prevPhase := j.phase),
               Out(e.pulse, e.counted, s.restart, s.age, false,
                   j.clockEdge, j.resetEdge, Bpm(s.clock.sr, s.clock.period)))
  }

  /** Both jacks of a call, its samples having passed. */
  function HearJacks(c: State, j: Jacks): StepResult {
    HearReset(HearClock(c, j), j)
  }

  function Step(c: State, call: Call): StepResult {
    var r := HearJacks(Elapse(c, call.samples, call.jacks.knob), call.jacks);
    r.(out := r.out.(lost := TimedOut(c, call.samples)))
  }

  // ---- runs ----------------------------------------------------------------

  /** The state after a run of calls. */
  function End(c: State, calls: seq<Call>): State
    decreases |calls|
  {
    if calls == [] then c else End(Step(c, calls[0]).clock, calls[1..])
  }

  /** The outputs of a run, one per call. */
  function Outs(c: State, calls: seq<Call>): (outs: seq<Out>)
    ensures |outs| == |calls|
    decreases |calls|
  {
    if calls == [] then [] else [Step(c, calls[0]).out] + Outs(Step(c, calls[0]).clock, calls[1..])
  }

  lemma {:induction false} EndConcat(c: State, a: seq<Call>, b: seq<Call>)
    ensures End(c, a + b) == End(End(c, a), b)
    decreases |a|
  {
    hide Step;
    if a == [] {
      assert a + b == b;
    } else {
      assert (a + b)[1..] == a[1..] + b;
      EndConcat(Step(c, a[0]).clock, a[1..], b);
    }
  }

  lemma {:induction false} OutsConcat(c: State, a: seq<Call>, b: seq<Call>)
    ensures Outs(c, a + b) == Outs(c, a) + Outs(End(c, a), b)
    decreases |a|
  {
    hide Step;
    if a == [] {
      assert a + b == b;
    } else {
      assert (a + b)[1..] == a[1..] + b;
      OutsConcat(Step(c, a[0]).clock, a[1..], b);
    }
  }

  lemma {:induction false} OneCall(c: State, call: Call)
    ensures End(c, [call]) == Step(c, call).clock && Outs(c, [call]) == [Step(c, call).out]
  {
    hide Step;
    var s := Step(c, call).clock;
    assert [call][1..] == [];
    assert End(s, []) == s && Outs(s, []) == [];
  }
}
