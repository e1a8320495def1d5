/**
  What every run of the CLOCK/RESET law keeps: outputs in range, every RESET
  edge answered exactly as promised, and the window of the last intervals.
 */
module ClockResets {
  import opened ClockWindow
  import opened Options
  import opened ClockSpec

  // ---- one call ---------------------------------------------------------------

  /** Every output is in range: the tempo handed out is none or one the control
      law accepts, and no restart is dated back further than the reset window. */
  lemma {:induction false} OutInRange(c: State, call: Call)
    ensures var o := Step(c, call).out;
            && (o.measuredBpm == 0.0 || BPM_MIN <= o.measuredBpm <= BPM_MAX)
            && o.restartAge <= c.resetWindow
    ensures Step(c, call).clock.resetWindow == c.resetWindow && Step(c, call).clock.sr == c.sr
  {
    var r := Step(c, call).clock;
    BpmRange(r.sr, r.period);
    KeepsSetup(c, call);
  }

  lemma {:induction false} KeepsSetup(c: State, call: Call)
    ensures var r := Step(c, call);
            && r.clock.resetWindow == c.resetWindow && r.clock.sr == c.sr
            && r.out.measuredBpm == Bpm(r.clock.sr, r.clock.period)
            && r.out.restartAge <= c.resetWindow
  {
    hide Edge, Takeover, ResetPhase;
    var c1 := Elapse(c, call.samples, call.jacks.knob);
    EdgeParts(c1);
    var e := MaybeEdge(c1, call.jacks.clockEdge);
    TakeoverParts(e.clock, call.jacks.knob);
    ResetParts(Takeover(e.clock, call.jacks.knob), call.jacks, e.pulse);
  }

  // The parts of the state a phase moves, as the log of calls shows them.

  lemma {:induction false} EdgeParts(c: Mid)
    ensures var e := Edge(c);
            var d := e.clock;
            && d.sr == c.sr && d.resetWindow == c.resetWindow && d.now == c.now && d.armed == c.armed
            && d.prevPhase == c.prevPhase
            && d.edge == Some(c.now)
            && e.pulse == ValidInterval(c)
            && d.running == (c.running || e.pulse)
            && d.one == (if e.pulse && !c.running then None else c.one)
            && e.counted == (e.pulse && !c.running && c.one.Some?
                             && Distance(c.one.value, c.edge.value) <= c.resetWindow)
  {
  }

  lemma {:induction false} TakeoverParts(c: Mid, knob: real)
    ensures var d := Takeover(c, knob);
            d == c.(knobRef := d.knobRef, period := d.period)
  {
  }

  lemma {:induction false} ResetParts(c: Mid, j: Jacks, pulse: bool)
    ensures var r := ResetPhase(c, j, pulse);
            && r.clock == c.(armed := r.clock.armed, one := r.clock.one)
            && r.age <= c.now && r.age <= c.resetWindow
            && r.clock.one == (if r.restart then Some(c.now - r.age) else c.one)
  {
  }

  /** A RESET edge restarts in its own call or is armed, never both and never neither. */
  lemma {:induction false} ResetAnswered(c: State, call: Call)
    requires call.jacks.resetEdge
    ensures Step(c, call).out.restart <==> !Step(c, call).clock.armed
  {
  }

  /** Without a RESET edge: a restart is an armed one, and an armed one fires
      exactly on a pulse, on the first edge back of a lost clock, or, with the
      clock gone, on the beat wrap; until then it stays armed. */
  lemma {:induction false} ArmedFires(c: State, call: Call)
    requires !call.jacks.resetEdge
    ensures var r := Step(c, call);
            && r.out.restart == (c.armed && (r.out.pulse || (!r.clock.running
                                  && (call.jacks.clockEdge || call.jacks.phase < c.prevPhase))))
            && r.clock.armed == (c.armed && !r.out.restart)
            && (r.out.restart ==> r.out.restartAge == 0)
  {
  }

  /** The first CLOCK edge after a lost clock is no pulse, and it fires an armed restart. */
  lemma {:induction false} FirstEdgeBackRestarts(c: State, call: Call)
    requires c.armed && !c.running && call.jacks.clockEdge
    ensures Step(c, call).out.restart && Step(c, call).out.restartAge == 0 && !Step(c, call).out.pulse
  {
  }

  // ---- runs: no reset lost, no restart invented ---------------------------------

  function ResetEdges(calls: seq<Call>): nat {
    if calls == [] then 0 else (if calls[0].jacks.resetEdge then 1 else 0) + ResetEdges(calls[1..])
  }

  function Restarts(outs: seq<Out>): nat {
    if outs == [] then 0 else (if outs[0].restart then 1 else 0) + Restarts(outs[1..])
  }

  function Pending(c: Clock): nat { if c.armed then 1 else 0 }

  /** Restarts never outnumber the RESET edges that asked for them. */
  lemma {:induction false} RestartsAreAsked(c: State, calls: seq<Call>)
    ensures Restarts(Outs(c, calls)) + Pending(End(c, calls)) <= Pending(c) + ResetEdges(calls)
    decreases |calls|
  {
    hide Step;
    if calls != [] {
      var call, s := calls[0], Step(c, calls[0]);
      if call.jacks.resetEdge { ResetAnswered(c, call); } else { ArmedFires(c, call); }
      RestartsAreAsked(s.clock, calls[1..]);
      assert Outs(c, calls)[1..] == Outs(s.clock, calls[1..]);
    }
  }

  predicate AnyRestart(outs: seq<Out>) { exists k | 0 <= k < |outs| :: outs[k].restart }

  lemma {:induction false} AnyRestartOf(o: Out, rest: seq<Out>)
    ensures AnyRestart([o] + rest) <==> o.restart || AnyRestart(rest)
  {
    var all := [o] + rest;
    assert all[0] == o && forall k | 0 <= k < |rest| :: all[k + 1] == rest[k];
    assert forall k | 0 < k < |all| :: all[k] == rest[k - 1];
  }

  /** An armed reset is still armed at the end of the run or a restart spent it. */
  lemma {:induction false} ArmedIsKept(c: State, calls: seq<Call>)
    requires c.armed
    ensures End(c, calls).armed || AnyRestart(Outs(c, calls))
    decreases |calls|
  {
    hide Step, AnyRestart;
    if calls != [] {
      var call, s := calls[0], Step(c, calls[0]);
      if call.jacks.resetEdge { ResetAnswered(c, call); } else { ArmedFires(c, call); }
      if !s.out.restart {
        ArmedIsKept(s.clock, calls[1..]);
      }
      AnyRestartOf(s.out, Outs(s.clock, calls[1..]));
    }
  }

  /** No RESET edge is lost: from the call that sees it on there is a restart,
      unless it is still armed at the end of the run. */
  lemma {:induction false} NoResetLost(c: State, calls: seq<Call>, i: nat)
    requires i < |calls| && calls[i].jacks.resetEdge
    ensures End(c, calls).armed || AnyRestart(Outs(c, calls)[i..])
  {
    hide Step, AnyRestart;
    var before, after := calls[..i], calls[i..];
    assert calls == before + after;
    EndConcat(c, before, after);
    OutsConcat(c, before, after);
    var d := End(c, before);
    assert Outs(c, calls)[i..] == Outs(d, after);
    var s := Step(d, after[0]);
    ResetAnswered(d, after[0]);
    if !s.out.restart {
      ArmedIsKept(s.clock, after[1..]);
    }
    AnyRestartOf(s.out, Outs(s.clock, after[1..]));
  }

  // ---- the window is the last intervals heard -------------------------------------

  /** The second of two agreeing out-of-band periods. */
  predicate StartsAnew(t: Tempo, x: real) {
    |t.window| == WINDOW && Side(t.window, x) != 0 && Side(t.window, x) == t.side && Agrees(t.held, x)
  }

  /** An out-of-band period, or the one right after it. */
  predicate HeldAside(t: Tempo, x: real) {
    |t.window| == WINDOW && !StartsAnew(t, x) && (Side(t.window, x) != 0 || t.side != 0)
  }

  /** The intervals that have entered the window since it was last started. */
  function Entered(history: seq<real>, t: Tempo, x: real): seq<real> {
    if StartsAnew(t, x) then [t.held, x] else if HeldAside(t, x) then history else history + [x]
  }

  lemma {:induction false} HearsLast(history: seq<real>, t: Tempo, x: real)
    requires t.window == Last(history, WINDOW)
    ensures Hear(t, x).window == Last(Entered(history, t, x), WINDOW)
  {
    PushedKeepsLast(history, t.window, x);
  }

  /** What one call makes of that history: a lost clock forgets it, a valid edge's
      interval may enter it. */
  function EnteredBy(history: seq<real>, c: State, call: Call): seq<real> {
    var c1 := Elapse(c, call.samples, call.jacks.knob);
    var kept := if TimedOut(c, call.samples) then [] else history;
    if call.jacks.clockEdge && ValidInterval(c1) then
      Entered(kept, c1.tempo, (c1.now - c1.edge.value) as real)
    else kept
  }

  function EnteredIn(history: seq<real>, c: State, calls: seq<Call>): seq<real>
    decreases |calls|
  {
    if calls == [] then history else EnteredIn(EnteredBy(history, c, calls[0]), Step(c, calls[0]).clock, calls[1..])
  }

  /** The tempo's window after a call: nothing but the call's edge moves it. */
  lemma {:induction false} StepTempo(c: State, call: Call)
    ensures var c1 := Elapse(c, call.samples, call.jacks.knob);
            Step(c, call).clock.tempo == MaybeEdge(c1, call.jacks.clockEdge).clock.tempo
  {
    hide Edge, Takeover, ResetPhase;
    var e := MaybeEdge(Elapse(c, call.samples, call.jacks.knob), call.jacks.clockEdge);
    TakeoverParts(e.clock, call.jacks.knob);
    ResetParts(Takeover(e.clock, call.jacks.knob), call.jacks, e.pulse);
  }

  lemma {:induction false} EnteredStep(history: seq<real>, c: State, call: Call)
    requires c.tempo.window == Last(history, WINDOW)
    ensures Step(c, call).clock.tempo.window == Last(EnteredBy(history, c, call), WINDOW)
  {
    hide Step, Hear, Entered, Mean;
    StepTempo(c, call);
    var c1 := Elapse(c, call.samples, call.jacks.knob);
    if call.jacks.clockEdge && ValidInterval(c1) {
      var kept := if TimedOut(c, call.samples) then [] else history;
      HearsLast(kept, c1.tempo, (c1.now - c1.edge.value) as real);
    }
  }

  /** Over every run from a stopped clock the window holds the last min(n, WINDOW) of
      the n intervals that have entered it since it was last started. */
  lemma {:induction false} WindowIsLastEntered(c: State, calls: seq<Call>)
    requires !c.running
    ensures End(c, calls).tempo.window == Last(EnteredIn([], c, calls), WINDOW)
  {
    EnteredRun([], c, calls);
  }

  lemma {:induction false} EnteredRun(history: seq<real>, c: State, calls: seq<Call>)
    requires c.tempo.window == Last(history, WINDOW)
    ensures End(c, calls).tempo.window == Last(EnteredIn(history, c, calls), WINDOW)
    decreases |calls|
  {
    hide Step, EnteredBy, Last;
    if calls != [] {
      EnteredStep(history, c, calls[0]);
      EnteredRun(EnteredBy(history, c, calls[0]), Step(c, calls[0]).clock, calls[1..]);
    }
  }
}
