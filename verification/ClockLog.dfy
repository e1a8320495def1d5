/**
  The CLOCK/RESET law told from outside: a log of what went in and what came
  out since boot or a discontinuity says what the next call will answer, each
  output in its own terms and none of them through the law's state.
 */
module ClockLog {
  import opened Options
  import opened RealLemmas
  import opened ClockWindow
  import opened ClockSpec
  import opened ClockResets

  datatype Entry = Entry(call: Call, out: Out)

  function Log(calls: seq<Call>, outs: seq<Out>): seq<Entry>
    requires |calls| == |outs|
  {
    seq(|calls|, i requires 0 <= i < |calls| => Entry(calls[i], outs[i]))
  }

  // ---- what a log shows -----------------------------------------------------------

  /** Samples elapsed over the log. */
  function Stamp(log: seq<Entry>): nat {
    if log == [] then 0 else Stamp(log[..|log| - 1]) + log[|log| - 1].call.samples
  }

  /** The stamp of the last pulse since the clock was last lost. */
  function PulseIn(log: seq<Entry>): Option<nat> {
    if log == [] then None
    else if log[|log| - 1].out.pulse then Some(Stamp(log))
    else if log[|log| - 1].out.lost then None
    else PulseIn(log[..|log| - 1])
  }

  /** A pulse since the clock was last lost. */
  predicate RunningIn(log: seq<Entry>) { PulseIn(log).Some? }

  /** The stamp of the last CLOCK edge since the edges were last forgotten. */
  function EdgeIn(log: seq<Entry>): Option<nat> {
    if log == [] then None
    else if log[|log| - 1].call.jacks.clockEdge then Some(Stamp(log))
    else if log[|log| - 1].out.lost then None
    else EdgeIn(log[..|log| - 1])
  }

  /** The 1 of the last restart since the edges were last forgotten. */
  function OneIn(log: seq<Entry>): Option<int> {
    if log == [] then None
    else if log[|log| - 1].out.restart then Some(Stamp(log) as int - log[|log| - 1].out.restartAge)
    else if log[|log| - 1].out.lost then None
    else OneIn(log[..|log| - 1])
  }

  /** A RESET edge with no restart from its call on. */
  predicate ArmedIn(log: seq<Entry>) {
    log != [] && !log[|log| - 1].out.restart && (log[|log| - 1].call.jacks.resetEdge || ArmedIn(log[..|log| - 1]))
  }

  // ---- what it says of the next call ------------------------------------------------

  /** The stamp of the next call. */
  function Next(log: seq<Entry>, call: Call): nat { Stamp(log) + call.samples }

  /** More than two beats of the tempo last handed out have gone by since the last pulse. */
  predicate LostNext(log: seq<Entry>, call: Call, sr: real) {
    && RunningIn(log)
    && (Next(log, call) - PulseIn(log).value) as real * log[|log| - 1].out.measuredBpm > 2.0 * (60.0 * sr)
  }

  /** A CLOCK edge whose distance to the one before is a beat of 20 to 400 BPM. */
  predicate PulseNext(log: seq<Entry>, call: Call, sr: real) {
    && call.jacks.clockEdge && !LostNext(log, call, sr)
    && EdgeIn(log).Some? && Next(log, call) > EdgeIn(log).value
    && 20.0 <= 60.0 * sr / ((Next(log, call) - EdgeIn(log).value) as real) <= 400.0
  }

  predicate RunsNext(log: seq<Entry>, call: Call, sr: real) {
    PulseNext(log, call, sr) || (RunningIn(log) && !LostNext(log, call, sr))
  }

  /** The pulse counts: the clock was not running, and a restart's 1 lay within
      the window of its reference edge. */
  predicate CountsNext(log: seq<Entry>, call: Call, sr: real, window: int) {
    && PulseNext(log, call, sr) && !RunningIn(log) && OneIn(log).Some?
    && -window <= OneIn(log).value - EdgeIn(log).value <= window
  }

  /** An armed RESET is due: on a pulse, or without a clock on the first edge
      back or where the beat phase falls. */
  predicate DueNext(log: seq<Entry>, call: Call, sr: real) {
    ArmedIn(log) && (PulseNext(log, call, sr) ||
      (!RunsNext(log, call, sr) &&
       (call.jacks.clockEdge || call.jacks.phase < log[|log| - 1].call.jacks.phase)))
  }

  // ---- the state is what the log shows -----------------------------------------------

  /** A state that holds no edge, no 1, no clock and no armed reset: at boot and
      after a discontinuity. */
  predicate Blank(c: Clock) {
    !c.running && c.edge.None? && c.one.None? && !c.armed
  }

  lemma {:induction false} BootIsBlank(sr: real, c: State)
    requires sr >= 0.0
    ensures Blank(Init(sr)) && Init(sr).period == 0.0 && Init(sr).sr == sr
    ensures Blank(Discontinuity(c)) && Discontinuity(c).period == c.period && Discontinuity(c).knobRef.None?
  {
  }

  /** The law's state is what the log shows, counted from the blank state. */
  predicate Shows(c: Clock, from: nat, log: seq<Entry>) {
    && c.now == from + Stamp(log)
    && c.running == RunningIn(log)
    && (c.running ==> c.lastValid == from + PulseIn(log).value)
    && (c.edge.Some? <==> EdgeIn(log).Some?)
    && (c.edge.Some? ==> c.edge.value == from + EdgeIn(log).value)
    && (!c.running ==> (c.one.Some? <==> OneIn(log).Some?))
    && (c.one.Some? ==> OneIn(log).Some? && c.one.value == from + OneIn(log).value)
    && c.armed == ArmedIn(log)
    && (log != [] ==> c.prevPhase == log[|log| - 1].call.jacks.phase)
    && (log != [] ==> Bpm(c.sr, c.period) == log[|log| - 1].out.measuredBpm)
  }

  /** How one call moves the parts of the state the log shows. */
  lemma {:induction false} LoggedParts(c: State, call: Call)
    ensures var r := Step(c, call);
            var o, c', now := r.out, r.clock, c.now + call.samples;
            && c'.now == now && c'.resetWindow == c.resetWindow && c'.sr == c.sr
            && c'.running == (o.pulse || (!o.lost && c.running))
            && (c'.running ==> c'.lastValid == if o.pulse then now else c.lastValid)
            && c'.edge == (if call.jacks.clockEdge then Some(now) else if o.lost then None else c.edge)
            && (o.restart ==> o.restartAge <= now && c'.one == Some(now - o.restartAge))
            && (!o.restart ==> c'.one == if o.lost || (o.pulse && !c.running) then None else c.one)
            && c'.armed == (!o.restart && (call.jacks.resetEdge || c.armed))
            && c'.prevPhase == call.jacks.phase && Bpm(c'.sr, c'.period) == o.measuredBpm
            && (o.pulse ==> !o.lost) && (o.lost ==> c.running)
            && o.counted == (o.pulse && !c.running && c.one.Some? && c.edge.Some?
                             && Distance(c.one.value, c.edge.value) <= c.resetWindow)
  {
    hide Edge, Takeover, ResetPhase, ValidInterval;
    var c1 := Elapse(c, call.samples, call.jacks.knob);
    EdgeParts(c1);
    var e := MaybeEdge(c1, call.jacks.clockEdge);
    TakeoverParts(e.clock, call.jacks.knob);
    ResetParts(Takeover(e.clock, call.jacks.knob), call.jacks, e.pulse);
    PulseHasEdge(c1);
    if call.jacks.resetEdge { ResetAnswered(c, call); } else { ArmedFires(c, call); }
  }

  lemma {:induction false} PulseHasEdge(c: Mid)
    ensures Edge(c).pulse ==> c.edge.Some?
    ensures Edge(c).clock.lastValid == if Edge(c).pulse then c.now else c.lastValid
  {
  }

  lemma {:induction false} LogShows(c: State, calls: seq<Call>)
    requires Blank(c)
    ensures var d := End(c, calls);
            Shows(d, c.now, Log(calls, Outs(c, calls))) && d.resetWindow == c.resetWindow && d.sr == c.sr
    decreases |calls|
  {
    hide Step;
    if calls != [] {
      var n := |calls| - 1;
      var before, last := calls[..n], calls[n];
      assert calls == before + [last];
      LogShows(c, before);
      EndConcat(c, before, [last]);
      OutsConcat(c, before, [last]);
      var d := End(c, before);
      var s, log, log' := Step(d, last), Log(before, Outs(c, before)), Log(calls, Outs(c, calls));
      OneCall(d, last);
      KeepsSetup(d, last);
      assert log'[..n] == log && log'[n] == Entry(last, s.out);
      ShowsNext(d, c.now, log, last);
      assert log' == log + [Entry(last, s.out)];
    }
  }

  lemma {:induction false} ShowsNext(d: State, from: nat, log: seq<Entry>, call: Call)
    requires Shows(d, from, log)
    ensures Shows(Step(d, call).clock, from, log + [Entry(call, Step(d, call).out)])
  {
    hide Step;
    LoggedParts(d, call);
    assert (log + [Entry(call, Step(d, call).out)])[..|log|] == log;
  }

  // ---- the next call's answers --------------------------------------------------------

  lemma {:induction false} LossShown(d: State, from: nat, log: seq<Entry>, call: Call)
    requires Shows(d, from, log)
    ensures TimedOut(d, call.samples) <==> LostNext(log, call, d.sr)
  {
    hide Bpm, Stamp, PulseIn, EdgeIn, OneIn, ArmedIn, Core, Accepted;
    RunningPeriod(d);
    HasPulse(log);
    if d.running {
      BeatsOf(d.sr, d.period, (d.now + call.samples - d.lastValid) as real);
    }
  }

  lemma {:induction false} RunningPeriod(c: State)
    ensures c.running ==> Accepted(c.sr, c.period) && c.lastValid <= c.now
  {
  }

  lemma {:induction false} HasPulse(log: seq<Entry>)
    ensures PulseIn(log).Some? ==> log != []
  {
  }

  lemma {:induction false} BeatsOf(sr: real, period: real, n: real)
    requires Accepted(sr, period)
    ensures n > TIMEOUT_PERIODS * period <==> n * Bpm(sr, period) > 2.0 * (60.0 * sr)
  {
    var bpm := Bpm(sr, period);
    BpmRange(sr, period);
    assert period * bpm == 60.0 * sr;
    assert TIMEOUT_PERIODS * period * bpm == 2.0 * (60.0 * sr);
    ScaleLe(n, TIMEOUT_PERIODS * period, bpm);
  }

  lemma {:induction false} PulseShown(d: State, from: nat, log: seq<Entry>, call: Call)
    requires Shows(d, from, log)
    ensures Step(d, call).out.pulse <==> PulseNext(log, call, d.sr)
    ensures Step(d, call).out.lost <==> LostNext(log, call, d.sr)
  {
    hide Bpm, Stamp, PulseIn, EdgeIn, OneIn, ArmedIn, LostNext, Accepted, Takeover, ResetPhase, Edge;
    LossShown(d, from, log, call);
    var c1 := Elapse(d, call.samples, call.jacks.knob);
    EdgeParts(c1);
    if c1.edge.Some? && c1.now > c1.edge.value {
      AcceptedByTempo(d.sr, (c1.now - c1.edge.value) as real);
    }
    NoTime(d.sr);
  }

  lemma {:induction false} NoTime(sr: real)
    ensures !Accepted(sr, 0.0)
  {
  }

  /** What a call makes of RESET, told by the log before it. */
  lemma {:induction false} ResetShown(d: State, from: nat, log: seq<Entry>, call: Call)
    requires Shows(d, from, log)
    ensures var r := Step(d, call);
            var o, now := r.out, Next(log, call);
            && r.clock.running == RunsNext(log, call, d.sr)
            && (!call.jacks.resetEdge ==> (o.restart <==> DueNext(log, call, d.sr)))
            && (call.jacks.resetEdge && (o.pulse || !r.clock.running) ==> o.restart && o.restartAge == 0)
            && (call.jacks.resetEdge && !o.pulse && r.clock.running ==>
                  && (o.restart <==> now - PulseIn(log).value <= d.resetWindow)
                  && (o.restart ==> now - o.restartAge == PulseIn(log).value))
  {
    hide Bpm, Stamp, PulseIn, EdgeIn, OneIn, LostNext, PulseNext, Accepted, Takeover, Edge;
    PulseShown(d, from, log, call);
    LoggedParts(d, call);
    if call.jacks.resetEdge {
      DatedBack(d, call);
    } else {
      ArmedFires(d, call);
    }
  }

  /** A RESET edge with the clock running and no pulse restarts on the last pulse. */
  lemma {:induction false} DatedBack(c: State, call: Call)
    requires call.jacks.resetEdge
    ensures var r := Step(c, call);
            && (r.out.pulse || !r.clock.running ==> r.out.restart && r.out.restartAge == 0)
            && (!r.out.pulse && r.clock.running ==>
                  && (r.out.restart <==> c.now + call.samples - c.lastValid <= c.resetWindow)
                  && (r.out.restart ==> r.out.restartAge == c.now + call.samples - c.lastValid))
  {
    hide Bpm, Accepted, Takeover, Edge;
    var c1 := Elapse(c, call.samples, call.jacks.knob);
    EdgeParts(c1);
    PulseHasEdge(c1);
    TakeoverParts(MaybeEdge(c1, call.jacks.clockEdge).clock, call.jacks.knob);
  }

  // ---- over every run from boot or a discontinuity ------------------------------------

  /** Pulses and losses are those the log asks for, and the lamps are the jacks' edges. */
  lemma {:induction false} EdgesExactly(c: State, calls: seq<Call>, call: Call)
    requires Blank(c)
    ensures var o, log := Step(End(c, calls), call).out, Log(calls, Outs(c, calls));
            && (o.pulse <==> PulseNext(log, call, c.sr)) && (o.lost <==> LostNext(log, call, c.sr))
            && o.clockLamp == call.jacks.clockEdge && o.resetLamp == call.jacks.resetEdge
  {
    LogShows(c, calls);
    PulseShown(End(c, calls), c.now, Log(calls, Outs(c, calls)), call);
    Lamps(End(c, calls), call);
  }

  lemma {:induction false} Lamps(c: State, call: Call)
    ensures var o := Step(c, call).out;
            o.clockLamp == call.jacks.clockEdge && o.resetLamp == call.jacks.resetEdge
  {
    hide Elapse, Edge, Takeover, ResetPhase, Bpm;
  }

  /** counted appears exactly on the pulse that starts the clock when a restart
      since the edges were last forgotten has its 1 within the reset window of
      the reference edge. */
  lemma {:induction false} CountedExactly(c: State, calls: seq<Call>, call: Call)
    requires Blank(c)
    ensures Step(End(c, calls), call).out.counted
            <==> CountsNext(Log(calls, Outs(c, calls)), call, c.sr, c.resetWindow)
  {
    hide Step, LostNext, EdgeIn, OneIn, PulseIn;
    LogShows(c, calls);
    var d, log := End(c, calls), Log(calls, Outs(c, calls));
    PulseShown(d, c.now, log, call);
    LoggedParts(d, call);
  }

  /** A RESET edge on a pulse or without a clock is the 1 itself. With the clock
      running it restarts exactly when the last pulse is no further back than the
      window, and then its 1 is that pulse; otherwise it is armed. */
  lemma {:induction false} ResetDatesBack(c: State, calls: seq<Call>, call: Call)
    requires Blank(c) && call.jacks.resetEdge
    ensures var r, log := Step(End(c, calls), call), Log(calls, Outs(c, calls));
            var o, now := r.out, Next(log, call);
            if PulseNext(log, call, c.sr) || !RunsNext(log, call, c.sr) then
              o.restart && o.restartAge == 0
            else if now - PulseIn(log).value <= c.resetWindow then
              o.restart && now - o.restartAge == PulseIn(log).value
            else
              !o.restart && r.clock.armed
  {
    hide Step, PulseNext, LostNext, RunsNext;
    LogShows(c, calls);
    var d, log := End(c, calls), Log(calls, Outs(c, calls));
    PulseShown(d, c.now, log, call);
    ResetShown(d, c.now, log, call);
    LoggedParts(d, call);
    RunsHasPulse(log, call, c.sr);
  }

  lemma {:induction false} RunsHasPulse(log: seq<Entry>, call: Call, sr: real)
    ensures RunsNext(log, call, sr) && !PulseNext(log, call, sr) ==> PulseIn(log).Some?
  {
  }

  /** Without a RESET edge the 1 comes exactly when an armed one is due, in its own call. */
  lemma {:induction false} RestartsExactly(c: State, calls: seq<Call>, call: Call)
    requires Blank(c) && !call.jacks.resetEdge
    ensures var o, log := Step(End(c, calls), call).out, Log(calls, Outs(c, calls));
            (o.restart <==> DueNext(log, call, c.sr)) && (o.restart ==> o.restartAge == 0)
  {
    hide Step, DueNext;
    LogShows(c, calls);
    var d, log := End(c, calls), Log(calls, Outs(c, calls));
    ResetShown(d, c.now, log, call);
    ArmedFires(d, call);
  }

  // ---- the tempo handed out -----------------------------------------------------------

  /** A running clock's tempo is that of its window's mean. */
  lemma {:induction false} RunningTempo(c: State, call: Call)
    ensures var r := Step(c, call);
            r.clock.running ==>
              r.clock.tempo.window != [] && r.out.measuredBpm == 60.0 * r.clock.sr / Mean(r.clock.tempo.window)
  {
    hide Elapse, Edge, Takeover, ResetPhase, Mean;
    LoggedParts(c, call);
    RunningMean(Step(c, call).clock);
  }

  lemma {:induction false} RunningMean(c: State)
    ensures c.running ==> c.tempo.window != [] && c.period == Mean(c.tempo.window) != 0.0
  {
  }

  predicate Waiting(c: Clock, knob: real) {
    !c.running && (c.period != 0.0 ==> c.knobRef == Some(knob))
  }

  predicate AllAt(calls: seq<Call>, knob: real) {
    forall i | 0 <= i < |calls| :: calls[i].jacks.knob == knob
  }

  predicate NoPulse(outs: seq<Out>) {
    forall i | 0 <= i < |outs| :: !outs[i].pulse
  }

  /** A lost clock takes the knob as its reference and keeps its tempo, and so
      does the first call after a discontinuity. */
  lemma {:induction false} LossTakesKnob(c: State, call: Call)
    requires Step(c, call).out.lost || (!c.running && c.knobRef.None? && !Step(c, call).out.pulse)
    ensures var d := Step(c, call).clock;
            Waiting(d, call.jacks.knob) && d.period == c.period && d.sr == c.sr
  {
    hide Edge, ResetPhase;
    var c1 := Elapse(c, call.samples, call.jacks.knob);
    EdgeParts(c1);
    LoggedParts(c, call);
    NoPulseNoPeriod(c1);
    var e := MaybeEdge(c1, call.jacks.clockEdge);
    ResetParts(Takeover(e.clock, call.jacks.knob), call.jacks, e.pulse);
  }

  lemma {:induction false} NoPulseNoPeriod(c: Mid)
    ensures !Edge(c).pulse ==> Edge(c).clock == c.(edge := Some(c.now))
  {
  }

  lemma {:induction false} HoldsOrYields(c: State, call: Call, knob: real)
    requires Waiting(c, knob) && !Step(c, call).out.pulse
    ensures var d := Step(c, call).clock;
            Waiting(d, knob) && d.sr == c.sr && d.period == if call.jacks.knob == knob then c.period else 0.0
  {
    hide Edge, ResetPhase;
    var c1 := Elapse(c, call.samples, call.jacks.knob);
    EdgeParts(c1);
    LoggedParts(c, call);
    NoPulseNoPeriod(c1);
    var e := MaybeEdge(c1, call.jacks.clockEdge);
    ResetParts(Takeover(e.clock, call.jacks.knob), call.jacks, e.pulse);
  }

  /** Until a clock runs again the held tempo stays exactly as long as the knob
      is left where it was; once turned, the tempo is the knob's for good. */
  lemma {:induction false} HeldUntilTurned(c: State, calls: seq<Call>, knob: real)
    requires Waiting(c, knob) && NoPulse(Outs(c, calls))
    ensures var d := End(c, calls);
            Waiting(d, knob) && d.sr == c.sr && d.period == if AllAt(calls, knob) then c.period else 0.0
    decreases |calls|
  {
    hide Step, Waiting;
    if calls != [] {
      var s, rest := Step(c, calls[0]), calls[1..];
      assert Outs(c, calls)[0] == s.out && Outs(c, calls)[1..] == Outs(s.clock, rest);
      HoldsOrYields(c, calls[0], knob);
      HeldUntilTurned(s.clock, rest, knob);
      assert AllAt(calls, knob) <==> calls[0].jacks.knob == knob && AllAt(rest, knob);
    }
  }

  /** From the call that loses the clock on, or the first one after a
      discontinuity: the tempo handed out is the held one while the knob rests. */
  lemma {:induction false} LostTempoHolds(c: State, call: Call, calls: seq<Call>, last: Call)
    requires Step(c, call).out.lost || (!c.running && c.knobRef.None?)
    requires NoPulse(Outs(c, [call] + calls + [last]))
    ensures Step(End(c, [call] + calls), last).out.measuredBpm
            == if AllAt(calls + [last], call.jacks.knob) then Bpm(c.sr, c.period) else 0.0
  {
    hide Step, Waiting, Bpm;
    var s, rest, knob := Step(c, call), calls + [last], call.jacks.knob;
    assert [call] + calls + [last] == [call] + rest;
    assert ([call] + rest)[1..] == rest && ([call] + calls)[1..] == calls;
    assert Outs(c, [call] + rest)[0] == s.out && Outs(c, [call] + rest)[1..] == Outs(s.clock, rest);
    LossTakesKnob(c, call);
    HeldUntilTurned(s.clock, rest, knob);
    EndConcat(s.clock, calls, [last]);
    OneCall(End(s.clock, calls), last);
    LoggedParts(End(s.clock, calls), last);
    NoTempo(c.sr);
  }

  lemma {:induction false} NoTempo(sr: real)
    ensures Bpm(sr, 0.0) == 0.0
  {
  }

  /** The reset window is ten milliseconds, to the nearest sample. */
  lemma {:induction false} TenMilliseconds(sr: real)
    requires sr >= 0.0
    ensures ResetWindowSamples(sr) as real - 0.5 <= sr / 100.0 < ResetWindowSamples(sr) as real + 0.5
    ensures ResetWindowSamples(48000.0) == 480
  {
  }
}
