/**
  One law for two hosts: how the samples of a run are split into calls matters
  only where a reset is armed and the clock is gone, for there the law reads the
  beat phase. Everywhere else a stretch of calls without edges, the knob still, can
  be merged into the call that follows, and there exactly if no wrap is read in it.
 */
module ClockCalls {
  import opened ClockWindow
  import opened ClockSpec
  import opened ClockResets
  import opened Options

  /** Equal but for the last beat phase and for the knob's reference, which
      nothing reads while the clock runs. */
  predicate Alike(a: Clock, b: Clock) {
    && b == a.(knobRef := b.knobRef, prevPhase := b.prevPhase)
    && (!a.running ==> a.knobRef == b.knobRef)
  }

  predicate Same(a: Clock, b: Clock) {
    Alike(a, b) && a.prevPhase == b.prevPhase
  }

  predicate AlikeEdges(x: EdgeResult, y: EdgeResult) {
    Alike(x.clock, y.clock) && x.pulse == y.pulse && x.counted == y.counted
  }

  /** The call's beat phase decides: a reset is armed, there is no clock, and no
      edge of the call decides first. */
  predicate ReadsPhase(c: Clock, j: Jacks) {
    c.armed && !c.running && !j.clockEdge && !j.resetEdge
  }

  /** If it decides, both states read it the same way: as a wrap or not. */
  predicate SameWrap(a: Clock, b: Clock, j: Jacks) {
    ReadsPhase(a, j) ==> (j.phase < a.prevPhase <==> j.phase < b.prevPhase)
  }

  // ---- alike states stay alike ----------------------------------------------

  lemma {:induction false} AlikeElapse(a: State, b: State, samples: nat, knob: real)
    requires Alike(a, b)
    ensures Alike(Elapse(a, samples, knob), Elapse(b, samples, knob))
    ensures TimedOut(a, samples) == TimedOut(b, samples)
  {
  }

  lemma {:induction false} AlikeEdge(a: Mid, b: Mid)
    requires Alike(a, b)
    ensures AlikeEdges(Edge(a), Edge(b))
  {
  }

  lemma {:induction false} AlikeTakeover(a: Mid, b: Mid, knob: real)
    requires Alike(a, b)
    ensures Alike(Takeover(a, knob), Takeover(b, knob))
  {
  }

  lemma {:induction false} AlikeHearClock(a: State, b: State, j: Jacks)
    requires Alike(a, b)
    ensures AlikeEdges(HearClock(a, j), HearClock(b, j))
  {
    if j.clockEdge {
      AlikeEdge(a, b);
      AlikeTakeover(Edge(a).clock, Edge(b).clock, j.knob);
    } else {
      AlikeTakeover(a, b, j.knob);
    }
  }

  lemma {:induction false} AlikeReset(a: Mid, b: Mid, j: Jacks, pulse: bool)
    requires Alike(a, b) && SameWrap(a, b, j)
    ensures var x, y := ResetPhase(a, j, pulse), ResetPhase(b, j, pulse);
            Alike(x.clock, y.clock) && x.restart == y.restart && x.age == y.age
  {
  }

  lemma {:induction false} AlikeHearReset(x: EdgeResult, y: EdgeResult, j: Jacks)
    requires AlikeEdges(x, y) && SameWrap(x.clock, y.clock, j)
    requires x.clock.armed && !x.clock.running && x.clock.edge.Some? ==> j.clockEdge
    ensures Same(HearReset(x, j).clock, HearReset(y, j).clock)
    ensures HearReset(x, j).out == HearReset(y, j).out
  {
    AlikeReset(x.clock, y.clock, j, x.pulse);
  }

  lemma {:induction false} KeepsPhase(c: State, j: Jacks)
    ensures HearClock(c, j).clock.prevPhase == c.prevPhase
    ensures ReadsPhase(HearClock(c, j).clock, j) == ReadsPhase(c, j)
  {
  }

  lemma {:induction false} AlikeJacks(a: State, b: State, j: Jacks)
    requires Alike(a, b) && SameWrap(a, b, j)
    ensures Same(HearJacks(a, j).clock, HearJacks(b, j).clock)
    ensures HearJacks(a, j).out == HearJacks(b, j).out
  {
    AlikeHearClock(a, b, j);
    KeepsPhase(a, j);
    KeepsPhase(b, j);
    AlikeHearReset(HearClock(a, j), HearClock(b, j), j);
  }

  /** The knob's reference is dead while the clock runs: equal calls keep two
      such states the same and answer the same. */
  lemma {:induction false} SameStep(a: State, b: State, call: Call)
    requires Same(a, b)
    ensures Same(Step(a, call).clock, Step(b, call).clock)
    ensures Step(a, call).out == Step(b, call).out
  {
    AlikeElapse(a, b, call.samples, call.jacks.knob);
    AlikeJacks(Elapse(a, call.samples, call.jacks.knob), Elapse(b, call.samples, call.jacks.knob), call.jacks);
  }

  lemma {:induction false} SameRun(a: State, b: State, calls: seq<Call>)
    requires Same(a, b)
    ensures Same(End(a, calls), End(b, calls)) && Outs(a, calls) == Outs(b, calls)
    decreases |calls|
  {
    if calls != [] {
      SameStep(a, b, calls[0]);
      SameRun(Step(a, calls[0]).clock, Step(b, calls[0]).clock, calls[1..]);
    }
  }

  // ---- a quiet call merges into the next --------------------------------------

  /** What a call without edges does: time passes and, with no clock, the knob is watched. */
  function Idle(c: State, samples: nat, knob: real): State {
    Takeover(Elapse(c, samples, knob), knob)
  }

  /** The state a quiet call leaves. */
  function AfterQuiet(c: State, samples: nat, knob: real, phase: real): (s: State)
    ensures s.prevPhase == phase
  {
    Idle(c, samples, knob).(prevPhase := phase)
  }

  /** The clock is gone once n more samples have passed. */
  predicate Gone(c: State, n: nat) {
    !c.running || TimedOut(c, n)
  }

  /** A call without edges that reads a wrap: an armed reset fires in it. */
  predicate WrapsIn(c: State, samples: nat, from: real, phase: real) {
    c.armed && Gone(c, samples) && phase < from
  }

  lemma {:induction false} QuietStep(c: State, samples: nat, knob: real, phase: real)
    requires !WrapsIn(c, samples, c.prevPhase, phase)
    ensures var r := Step(c, Call(samples, Jacks(false, false, knob, phase)));
            && r.clock == AfterQuiet(c, samples, knob, phase)
            && !r.out.pulse && !r.out.restart && !r.out.counted && r.out.lost == TimedOut(c, samples)
  {
  }

  /** Time that passes in two parts, the knob looked at in between. */
  lemma {:induction false} IdleThenElapse(c: State, n: nat, n': nat, knob: real)
    ensures Elapse(Idle(c, n, knob), n', knob) == Idle(c, n + n', knob)
    ensures TimedOut(c, n + n') <==> TimedOut(c, n) || TimedOut(Idle(c, n, knob), n')
  {
    if c.running {
      if TimedOut(c, n) {
        assert Idle(c, n, knob) == Elapse(c, n, knob);
      } else {
        assert Idle(c, n, knob) == c.(now := c.now + n);
      }
    } else {
      NotRunningElapse(c, n, n', knob);
    }
  }

  lemma {:induction false} NotRunningElapse(c: State, n: nat, n': nat, knob: real)
    requires !c.running
    ensures Elapse(Idle(c, n, knob), n', knob) == Idle(c, n + n', knob)
  {
  }

  lemma {:induction false} ElapseKeepsPhase(c: State, phase: real, samples: nat, knob: real)
    ensures Elapse(c.(prevPhase := phase), samples, knob) == Elapse(c, samples, knob).(prevPhase := phase)
    ensures TimedOut(c.(prevPhase := phase), samples) == TimedOut(c, samples)
  {
  }

  /** Having looked at the knob before an edge comes changes nothing. */
  lemma {:induction false} KnobThenEdge(c: State, knob: real)
    requires !c.running
    ensures var x, y := Edge(c), Edge(Takeover(c, knob));
            && x.pulse == y.pulse && x.counted == y.counted
            && Alike(Takeover(x.clock, knob), Takeover(y.clock, knob))
  {
    if ValidInterval(c) {
    }
  }

  lemma {:induction false} KnobFirst(c: State, j: Jacks)
    ensures AlikeEdges(HearClock(c, j), HearClock(Takeover(c, j.knob), j))
  {
    if c.running {
      assert Takeover(c, j.knob) == c;
    } else if j.clockEdge {
      KnobThenEdge(c, j.knob);
    }
  }

  lemma {:induction false} MergeJacks(m: State, d: State, j: Jacks)
    requires d == Takeover(m, j.knob).(prevPhase := d.prevPhase) && SameWrap(m, d, j)
    ensures Same(HearJacks(m, j).clock, HearJacks(d, j).clock)
    ensures HearJacks(m, j).out == HearJacks(d, j).out
  {
    KnobFirst(m, j);
    AlikeHearClock(Takeover(m, j.knob), d, j);
    KeepsPhase(m, j);
    KeepsPhase(d, j);
    AlikeHearReset(HearClock(m, j), HearClock(d, j), j);
  }

  lemma {:induction false} SplitElapse(c: State, n: nat, phase: real, n': nat, knob: real)
    ensures var s := AfterQuiet(c, n, knob, phase);
            && Elapse(s, n', knob) == AfterQuiet(c, n + n', knob, phase)
            && (TimedOut(c, n + n') <==> TimedOut(c, n) || TimedOut(s, n'))
  {
    IdleThenElapse(c, n, n', knob);
    ElapseKeepsPhase(Idle(c, n, knob), phase, n', knob);
  }

  lemma {:induction false} StepIs(c: State, n: nat, j: Jacks, m: State)
    requires m == Elapse(c, n, j.knob)
    ensures Step(c, Call(n, j)).clock == HearJacks(m, j).clock
    ensures Step(c, Call(n, j)).out == HearJacks(m, j).out.(lost := TimedOut(c, n))
  {
  }

  /** Two states that time has brought together but for a look at the knob answer alike. */
  lemma {:induction false} MergeAt(c: State, n: nat, s: State, n': nat, j: Jacks, m: State, d: State)
    requires m == Elapse(c, n, j.knob) && d == Elapse(s, n', j.knob)
    requires d == Takeover(m, j.knob).(prevPhase := d.prevPhase) && SameWrap(m, d, j)
    ensures Same(Step(c, Call(n, j)).clock, Step(s, Call(n', j)).clock)
    ensures Step(c, Call(n, j)).out == Step(s, Call(n', j)).out.(lost := TimedOut(c, n))
    ensures Step(s, Call(n', j)).out.lost == TimedOut(s, n')
  {
    StepIs(s, n', j, d);
    StepIs(c, n, j, m);
    MergeJacks(m, d, j);
  }

  /** One quiet call merges into the next when the knob is still and the next
      call's beat phase, if it decides, is a wrap against both earlier ones or
      against neither. */
  lemma {:induction false} MergeOne(c: State, n: nat, phase: real, n': nat, j: Jacks, s: State)
    requires s == AfterQuiet(c, n, j.knob, phase)
    requires WrapDecides(c, n + n', j) ==> (j.phase < phase <==> j.phase < c.prevPhase)
    ensures Same(Step(c, Call(n + n', j)).clock, Step(s, Call(n', j)).clock)
    ensures var split := Step(s, Call(n', j)).out;
            Step(c, Call(n + n', j)).out == split.(lost := TimedOut(c, n) || split.lost)
  {
    hide Step, HearJacks;
    var m, d := Elapse(c, n + n', j.knob), Elapse(s, n', j.knob);
    SplitElapse(c, n, phase, n', j.knob);
    ElapseReads(c, n + n', j);
    MergeAt(c, n + n', s, n', j, m, d);
  }

  /** Whether a call's beat phase will decide, before its samples have passed. */
  predicate WrapDecides(c: State, n: nat, j: Jacks) {
    c.armed && Gone(c, n) && !j.clockEdge && !j.resetEdge
  }

  lemma {:induction false} ElapseReads(c: State, n: nat, j: Jacks)
    ensures ReadsPhase(Elapse(c, n, j.knob), j) == WrapDecides(c, n, j)
    ensures Elapse(c, n, j.knob).prevPhase == c.prevPhase
  {
  }

  // ---- runs -------------------------------------------------------------------

  /** A call without edges: its samples and the beat phase it reads. */
  datatype Pass = Pass(samples: nat, phase: real)

  /** A stretch of calls without edges under a still knob, and the call that ends it. */
  datatype Segment = Segment(passes: seq<Pass>, samples: nat, jacks: Jacks)

  function Quiet(passes: seq<Pass>, knob: real): seq<Call> {
    seq(|passes|, i requires 0 <= i < |passes| =>
      Call(passes[i].samples, Jacks(false, false, knob, passes[i].phase)))
  }

  function Total(passes: seq<Pass>): nat {
    if passes == [] then 0 else passes[0].samples + Total(passes[1..])
  }

  function LastPhase(from: real, passes: seq<Pass>): real {
    if passes == [] then from else passes[|passes| - 1].phase
  }

  /** A wrap is read in the stretch: n samples of it have passed, and the last beat
      phase was from. */
  predicate WrapRead(c: State, n: nat, from: real, passes: seq<Pass>)
    decreases |passes|
  {
    passes != [] && (WrapsIn(c, n + passes[0].samples, from, passes[0].phase)
                     || WrapRead(c, n + passes[0].samples, passes[0].phase, passes[1..]))
  }

  /** With a reset armed and the clock gone by its end: no wrap is read inside the
      segment, and its closing call, if its phase decides, wraps against the phase
      before the segment exactly if it wraps against the last one inside. */
  predicate Mergeable(c: State, g: Segment) {
    c.armed && Gone(c, Total(g.passes) + g.samples) ==>
      && !WrapRead(c, 0, c.prevPhase, g.passes)
      && (!g.jacks.clockEdge && !g.jacks.resetEdge ==>
            (g.jacks.phase < LastPhase(c.prevPhase, g.passes) <==> g.jacks.phase < c.prevPhase))
  }

  predicate AnyLost(outs: seq<Out>) {
    outs != [] && (outs[0].lost || AnyLost(outs[1..]))
  }

  /** Nothing happened but, perhaps, the loss of the clock. */
  predicate Silent(outs: seq<Out>) {
    outs == [] || (!outs[0].pulse && !outs[0].restart && !outs[0].counted && Silent(outs[1..]))
  }

  lemma {:induction false} IdleTwice(c: State, n: nat, phase: real, n': nat, knob: real, phase': real)
    ensures AfterQuiet(AfterQuiet(c, n, knob, phase), n', knob, phase') == AfterQuiet(c, n + n', knob, phase')
  {
    SplitElapse(c, n, phase, n', knob);
  }

  /** Later in the stretch the clock is gone when it was to be from the start. */
  lemma {:induction false} GoneLater(c: State, n: nat, knob: real, phase: real, m: nat)
    ensures var s := AfterQuiet(c, n, knob, phase);
            Gone(s, m) == Gone(c, n + m) && s.armed == c.armed
  {
    SplitElapse(c, n, phase, m, knob);
  }

  lemma {:induction false} WrapReadLater(c: State, n: nat, knob: real, phase: real, m: nat, from: real,
                                                 passes: seq<Pass>)
    ensures WrapRead(AfterQuiet(c, n, knob, phase), m, from, passes) == WrapRead(c, n + m, from, passes)
    decreases |passes|
  {
    hide AfterQuiet, Gone;
    if passes != [] {
      GoneLater(c, n, knob, phase, m + passes[0].samples);
      WrapReadLater(c, n, knob, phase, m + passes[0].samples, passes[0].phase, passes[1..]);
    }
  }

  /** A stretch of quiet calls in which no wrap is read does what one call with all
      their samples does. */
  lemma {:induction false} QuietRun(c: State, passes: seq<Pass>, knob: real)
    requires passes != [] && !WrapRead(c, 0, c.prevPhase, passes)
    ensures End(c, Quiet(passes, knob)) == AfterQuiet(c, Total(passes), knob, LastPhase(0.0, passes))
    ensures Silent(Outs(c, Quiet(passes, knob)))
    ensures AnyLost(Outs(c, Quiet(passes, knob))) <==> TimedOut(c, Total(passes))
    decreases |passes|
  {
    hide Step, HearJacks, AfterQuiet, Idle, Elapse, TimedOut, WrapsIn;
    var calls := Quiet(passes, knob);
    var p, rest := passes[0], passes[1..];
    assert calls[1..] == Quiet(rest, knob);
    var s := AfterQuiet(c, p.samples, knob, p.phase);
    QuietStep(c, p.samples, knob, p.phase);
    OneOut(c, calls);
    if rest == [] {
      assert End(s, []) == s && Outs(s, []) == [];
    } else {
      WrapReadLater(c, p.samples, knob, p.phase, 0, p.phase, rest);
      QuietRun(s, rest, knob);
      IdleTwice(c, p.samples, p.phase, Total(rest), knob, LastPhase(0.0, rest));
      SplitElapse(c, p.samples, p.phase, Total(rest), knob);
    }
  }

  /** One in which a wrap is read restarts. */
  lemma {:induction false} QuietRestarts(c: State, passes: seq<Pass>, knob: real)
    requires WrapRead(c, 0, c.prevPhase, passes)
    ensures !Silent(Outs(c, Quiet(passes, knob)))
    decreases |passes|
  {
    hide Step, HearJacks, AfterQuiet, Gone, Silent;
    var calls := Quiet(passes, knob);
    var p, rest := passes[0], passes[1..];
    assert calls[1..] == Quiet(rest, knob);
    OneOut(c, calls);
    if WrapsIn(c, p.samples, c.prevPhase, p.phase) {
      WrapRestarts(c, p.samples, Jacks(false, false, knob, p.phase));
    } else {
      QuietStep(c, p.samples, knob, p.phase);
      WrapReadLater(c, p.samples, knob, p.phase, 0, p.phase, rest);
      QuietRestarts(AfterQuiet(c, p.samples, knob, p.phase), rest, knob);
    }
  }

  /** Where a call's beat phase decides, it restarts exactly on a wrap. */
  lemma {:induction false} WrapRestarts(c: State, n: nat, j: Jacks)
    requires !j.clockEdge && !j.resetEdge && c.armed && Gone(c, n)
    ensures Step(c, Call(n, j)).out.restart <==> j.phase < c.prevPhase
  {
  }

  lemma {:induction false} OneOut(c: State, calls: seq<Call>)
    requires calls != []
    ensures var r := Step(c, calls[0]);
            var rest := Outs(r.clock, calls[1..]);
            && End(c, calls) == End(r.clock, calls[1..])
            && (AnyLost(Outs(c, calls)) <==> r.out.lost || AnyLost(rest))
            && (Silent(Outs(c, calls)) <==> !r.out.pulse && !r.out.restart && !r.out.counted && Silent(rest))
  {
    hide Step;
    var r := Step(c, calls[0]);
    var rest, outs := Outs(r.clock, calls[1..]), Outs(c, calls);
    assert outs == [r.out] + rest;
    assert outs[1..] == rest;
  }

  /** The calls of a host that splits the segment, and the one call of a host that does not. */
  function Fine(g: Segment): seq<Call> {
    Quiet(g.passes, g.jacks.knob) + [Call(g.samples, g.jacks)]
  }

  function Coarse(g: Segment): Call {
    Call(Total(g.passes) + g.samples, g.jacks)
  }

  /** What a split segment reports: its closing call's outputs, and a loss anywhere in it. */
  function Report(c: State, g: Segment): Out {
    var outs := Outs(c, Fine(g));
    outs[|g.passes|].(lost := AnyLost(outs))
  }

  lemma {:induction false} AnyLostSnoc(outs: seq<Out>, o: Out)
    ensures AnyLost(outs + [o]) <==> AnyLost(outs) || o.lost
  {
    if outs != [] {
      AnyLostSnoc(outs[1..], o);
      assert (outs + [o])[1..] == outs[1..] + [o];
    }
  }

  /** A segment split into calls and the same samples in one call leave the same
      state, report the same loss and hand out the same; the quiet calls hand out
      nothing. */
  predicate Agree(c: State, g: Segment) {
    && Same(Step(c, Coarse(g)).clock, End(c, Fine(g)))
    && Step(c, Coarse(g)).out == Report(c, g)
    && Silent(Outs(c, Fine(g))[..|g.passes|])
  }

  /** Call-size independence, exactly: whatever the sizes of the calls, they agree if
      and only if the segment is mergeable; with no reset armed, or a clock running
      to its end, it always is. */
  lemma {:induction false} CallSizeIndependence(c: State, g: Segment)
    ensures Agree(c, g) <==> Mergeable(c, g)
  {
    hide Step, AfterQuiet, TimedOut, Agree;
    if Mergeable(c, g) {
      MergeableAgrees(c, g);
    } else if WrapRead(c, 0, c.prevPhase, g.passes) {
      QuietRestarts(c, g.passes, g.jacks.knob);
      FineParts(c, g);
      NotSilent(c, g);
    } else {
      ClosingDiffers(c, g);
    }
  }

  lemma {:induction false} NotSilent(c: State, g: Segment)
    requires !Silent(Outs(c, Fine(g))[..|g.passes|])
    ensures !Agree(c, g)
  {
  }

  /** Up to the wrap an armed reset waits: a wrap is read only where the clock is gone. */
  lemma {:induction false} WrapNeedsGone(c: State, n: nat, from: real, passes: seq<Pass>)
    requires WrapRead(c, n, from, passes)
    ensures c.armed && Gone(c, n + Total(passes))
    decreases |passes|
  {
    if WrapsIn(c, n + passes[0].samples, from, passes[0].phase) {
      GoneStays(c, n + passes[0].samples, Total(passes[1..]));
    } else {
      WrapNeedsGone(c, n + passes[0].samples, passes[0].phase, passes[1..]);
    }
  }

  lemma {:induction false} GoneStays(c: State, n: nat, m: nat)
    requires Gone(c, n)
    ensures Gone(c, n + m)
  {
  }

  lemma {:induction false} MergeableAgrees(c: State, g: Segment)
    requires Mergeable(c, g)
    ensures Agree(c, g)
  {
    hide Step, AfterQuiet, TimedOut, Gone, WrapRead;
    var quiet, last := Quiet(g.passes, g.jacks.knob), Call(g.samples, g.jacks);
    FineParts(c, g);
    if g.passes == [] {
      assert End(c, quiet) == c && Outs(c, quiet) == [];
      assert Coarse(g) == last;
      SameItself(Step(c, last).clock);
    } else {
      NoWrapRead(c, g);
      QuietRun(c, g.passes, g.jacks.knob);
      MergeOne(c, Total(g.passes), LastPhase(0.0, g.passes), g.samples, g.jacks, End(c, quiet));
    }
  }

  lemma {:induction false} SameItself(c: Clock)
    ensures Same(c, c)
  {
  }

  lemma {:induction false} NoWrapRead(c: State, g: Segment)
    requires Mergeable(c, g)
    ensures !WrapRead(c, 0, c.prevPhase, g.passes)
  {
    hide Gone, WrapsIn;
    if WrapRead(c, 0, c.prevPhase, g.passes) {
      WrapNeedsGone(c, 0, c.prevPhase, g.passes);
      GoneStays(c, Total(g.passes), g.samples);
    }
  }

  /** The closing call reads a wrap on one side and none on the other. */
  lemma {:induction false} ClosingDiffers(c: State, g: Segment)
    requires !Mergeable(c, g) && !WrapRead(c, 0, c.prevPhase, g.passes)
    ensures !Agree(c, g)
  {
    hide Step, AfterQuiet, TimedOut, WrapRead, Gone;
    var quiet, last := Quiet(g.passes, g.jacks.knob), Call(g.samples, g.jacks);
    FineParts(c, g);
    if g.passes != [] {
      var phase := LastPhase(0.0, g.passes);
      QuietRun(c, g.passes, g.jacks.knob);
      GoneLater(c, Total(g.passes), g.jacks.knob, phase, g.samples);
      WrapRestarts(c, Total(g.passes) + g.samples, g.jacks);
      WrapRestarts(End(c, quiet), g.samples, g.jacks);
    }
  }

  /** A split segment taken apart: the quiet stretch and the closing call. */
  lemma {:induction false} FineParts(c: State, g: Segment)
    ensures var quiet, last := Quiet(g.passes, g.jacks.knob), Call(g.samples, g.jacks);
            var r := Step(End(c, quiet), last);
            && End(c, Fine(g)) == r.clock
            && Report(c, g) == r.out.(lost := AnyLost(Outs(c, quiet)) || r.out.lost)
            && Outs(c, Fine(g))[..|g.passes|] == Outs(c, quiet)
  {
    hide Step;
    var quiet, last := Quiet(g.passes, g.jacks.knob), Call(g.samples, g.jacks);
    var s := End(c, quiet);
    EndConcat(c, quiet, [last]);
    OutsConcat(c, quiet, [last]);
    OneCall(s, last);
    AnyLostSnoc(Outs(c, quiet), Step(s, last).out);
  }

  function FineRun(gs: seq<Segment>): seq<Call> {
    if gs == [] then [] else Fine(gs[0]) + FineRun(gs[1..])
  }

  function CoarseRun(gs: seq<Segment>): seq<Call> {
    seq(|gs|, i requires 0 <= i < |gs| => Coarse(gs[i]))
  }

  function Reports(c: State, gs: seq<Segment>): seq<Out>
    decreases |gs|
  {
    if gs == [] then [] else [Report(c, gs[0])] + Reports(End(c, Fine(gs[0])), gs[1..])
  }

  predicate AllMergeable(c: State, gs: seq<Segment>)
    decreases |gs|
  {
    gs == [] || (Mergeable(c, gs[0]) && AllMergeable(End(c, Fine(gs[0])), gs[1..]))
  }

  /** The two hosts side by side: after every segment the same state, and of it the
      same report, the quiet calls handing out nothing. */
  predicate InStep(coarse: State, fine: State, gs: seq<Segment>)
    decreases |gs|
  {
    gs == [] ||
    (var one, split := Step(coarse, Coarse(gs[0])), End(fine, Fine(gs[0]));
     && Same(one.clock, split) && one.out == Report(fine, gs[0])
     && Silent(Outs(fine, Fine(gs[0]))[..|gs[0].passes|])
     && InStep(one.clock, split, gs[1..]))
  }

  /** Two hosts that read the same jacks at the same instants run the same law,
      whatever their call sizes: over a whole run they stay in step if and only if no
      segment reads a wrap of the beat for an armed reset of a lost clock that its
      split would read elsewhere. */
  lemma {:induction false} HostsAgree(coarse: State, fine: State, gs: seq<Segment>)
    requires Same(coarse, fine)
    ensures InStep(coarse, fine, gs) <==> AllMergeable(fine, gs)
    decreases |gs|
  {
    hide Step, Mergeable, Report, Silent, Same;
    if gs != [] {
      var g, rest := gs[0], gs[1..];
      CallSizeIndependence(fine, g);
      AgreeFrom(coarse, fine, g);
      if Mergeable(fine, g) {
        HostsAgree(Step(coarse, Coarse(g)).clock, End(fine, Fine(g)), rest);
      }
    }
  }

  /** A host that has been in step agrees exactly where the law does with itself. */
  lemma {:induction false} AgreeFrom(coarse: State, fine: State, g: Segment)
    requires Same(coarse, fine)
    ensures var one, split := Step(coarse, Coarse(g)), End(fine, Fine(g));
            Agree(fine, g) <==> Same(one.clock, split) && one.out == Report(fine, g)
                                && Silent(Outs(fine, Fine(g))[..|g.passes|])
  {
    hide Step, Report, Silent, End, Outs, Fine;
    var one, split := Step(coarse, Coarse(g)), End(fine, Fine(g));
    SameStep(coarse, fine, Coarse(g));
    SameEither(one.clock, Step(fine, Coarse(g)).clock, split);
  }

  lemma {:induction false} SameEither(a: State, b: State, c: State)
    requires Same(a, b)
    ensures Same(a, c) <==> Same(b, c)
  {
  }

  /** In step over a run, the hosts hand out the same and end in the same state. */
  lemma {:induction false} InStepRun(coarse: State, fine: State, gs: seq<Segment>)
    requires Same(coarse, fine) && InStep(coarse, fine, gs)
    ensures Same(End(coarse, CoarseRun(gs)), End(fine, FineRun(gs)))
    ensures Outs(coarse, CoarseRun(gs)) == Reports(fine, gs)
    decreases |gs|
  {
    hide Step, Same, Report, Silent;
    if gs != [] {
      var g, rest := gs[0], gs[1..];
      assert CoarseRun(gs)[1..] == CoarseRun(rest);
      InStepRun(Step(coarse, Coarse(g)).clock, End(fine, Fine(g)), rest);
      EndConcat(fine, Fine(g), FineRun(rest));
    }
  }

  // ---- a run in which no reset waits ----------------------------------------------

  lemma {:induction false} ResetEdgesConcat(a: seq<Call>, b: seq<Call>)
    ensures ResetEdges(a + b) == ResetEdges(a) + ResetEdges(b)
    decreases |a|
  {
    if a == [] {
      assert a + b == b;
    } else {
      assert (a + b)[0] == a[0] && (a + b)[1..] == a[1..] + b;
      ResetEdgesConcat(a[1..], b);
    }
  }

  /** Without a RESET edge in the run, and none armed before it, the hosts are in step
      whatever the beat does. */
  lemma {:induction false} UnarmedHostsAgree(coarse: State, fine: State, gs: seq<Segment>)
    requires Same(coarse, fine) && !fine.armed && ResetEdges(FineRun(gs)) == 0
    ensures InStep(coarse, fine, gs)
  {
    UnarmedMerges(fine, gs);
    HostsAgree(coarse, fine, gs);
  }

  lemma {:induction false} UnarmedMerges(c: State, gs: seq<Segment>)
    requires !c.armed && ResetEdges(FineRun(gs)) == 0
    ensures AllMergeable(c, gs)
    decreases |gs|
  {
    hide Step, Fine, Gone, WrapRead;
    if gs != [] {
      ResetEdgesConcat(Fine(gs[0]), FineRun(gs[1..]));
      RestartsAreAsked(c, Fine(gs[0]));
      UnarmedMerges(End(c, Fine(gs[0])), gs[1..]);
    }
  }

  // ---- where they do not --------------------------------------------------------

  const EDGE: Jacks := Jacks(true, false, 0.5, 0.0)

  /** A run that loses its clock with a reset armed: two edges half a second apart, a
      RESET a fifth of a second later, and then nothing for most of a second. */
  const LOSING_RUN: seq<Call> := [
    Call(1, EDGE), Call(24000, EDGE),
    Call(10000, Jacks(false, true, 0.5, 0.4)), Call(40000, Jacks(false, false, 0.5, 0.9))
  ]

  /** Two samples in which the beat wraps on the first. */
  const WRAPPING: Segment := Segment([Pass(1, 0.1)], 1, Jacks(false, false, 0.5, 0.2))

  predicate Waiting(c: Clock) {
    c.armed && !c.running && c.prevPhase == 0.9
  }

  /** An armed reset of a lost clock, and a wrap inside the segment: the host that
      splits it restarts on the wrap, the other one at the segment's end. */
  lemma {:induction false} MidSegmentWrap(c: State)
    requires Waiting(c)
    ensures Outs(c, Fine(WRAPPING))[0].restart && !Report(c, WRAPPING).restart
    ensures Step(c, Coarse(WRAPPING)).out.restart
    ensures !Agree(c, WRAPPING)
  {
    hide Step, Agree, Gone, Same, Silent;
    var g := WRAPPING;
    var p := Jacks(false, false, 0.5, 0.1);
    var calls := [Call(1, p), Call(1, g.jacks)];
    assert Fine(g) == calls && calls[1..] == [Call(1, g.jacks)];
    assert Total(g.passes) == 1 by { assert g.passes[1..] == []; }
    NotRunningIsGone(c, 1);
    NotRunningIsGone(c, 2);
    WrapRestarts(c, 1, p);
    WrapRestarts(c, 2, g.jacks);
    var s := Step(c, calls[0]);
    SpentInQuiet(c, 1, p);
    OneCall(s.clock, calls[1]);
    assert Outs(c, calls) == [s.out] + Outs(s.clock, calls[1..]);
    CallSizeIndependence(c, g);
    assert Mergeable(c, g) ==> Agree(c, g);
    assert WrapRead(c, 0, c.prevPhase, g.passes);
  }

  lemma {:induction false} NotRunningIsGone(c: State, n: nat)
    requires !c.running
    ensures Gone(c, n)
  {
  }

  /** A reset that has fired does not fire again without another RESET edge. */
  lemma {:induction false} SpentInQuiet(c: State, n: nat, j: Jacks)
    requires !j.clockEdge && !j.resetEdge && Step(c, Call(n, j)).out.restart
    ensures var s := Step(c, Call(n, j)).clock;
            forall call: Call | !call.jacks.resetEdge :: !Step(s, call).out.restart
  {
    hide Step;
    ArmedFires(c, Call(n, j));
    var s := Step(c, Call(n, j)).clock;
    forall call: Call | !call.jacks.resetEdge
      ensures !Step(s, call).out.restart
    {
      ArmedFires(s, call);
    }
  }

  /** And the law does come to wait so. */
  lemma {:induction false} LosingRunWaits()
    ensures Waiting(End(Init(48000.0), LOSING_RUN))
  {
    hide Step;
    var c0 := Init(48000.0);
    var run := LOSING_RUN;
    var c1 := Step(c0, run[0]).clock;
    var c2 := Step(c1, run[1]).clock;
    var c3 := Step(c2, run[2]).clock;
    var c4 := Step(c3, run[3]).clock;
    Reference(c0, c1);
    Started(c1, c2);
    Armed(c2, c3);
    LostArmed(c3, c4);
    assert run[1..][1..] == run[2..] && run[2..][1..] == run[3..] && run[3..][1..] == [];
    assert End(c4, []) == c4 && End(c3, run[3..]) == End(c4, []);
    assert End(c2, run[2..]) == End(c3, run[3..]) && End(c1, run[1..]) == End(c2, run[2..]);
  }

  lemma {:induction false} Reference(c: State, d: State)
    requires c == Init(48000.0) && d == Step(c, Call(1, EDGE)).clock
    ensures d.sr == 48000.0 && d.resetWindow == 480 && !d.running && d.edge == Some(1) && d.now == 1
    ensures d.tempo.window == [] && !d.armed
  {
  }

  lemma {:induction false} Started(c: State, d: State)
    requires c.sr == 48000.0 && c.resetWindow == 480 && !c.running && c.edge == Some(1) && c.now == 1
    requires c.tempo.window == [] && !c.armed && d == Step(c, Call(24000, EDGE)).clock
    ensures d.resetWindow == 480 && d.running && d.now == d.lastValid && d.period == 24000.0
  {
    assert Pushed([], 24000.0) == [24000.0];
    SumOne(24000.0);
  }

  lemma {:induction false} Armed(c: State, d: State)
    requires c.resetWindow == 480 && c.running && c.now == c.lastValid && c.period == 24000.0
    requires d == Step(c, Call(10000, Jacks(false, true, 0.5, 0.4))).clock
    ensures d.armed && d.running && d.period == 24000.0 && d.now == d.lastValid + 10000 && d.prevPhase == 0.4
  {
  }

  lemma {:induction false} LostArmed(c: State, d: State)
    requires c.armed && c.running && c.period == 24000.0 && c.now == c.lastValid + 10000 && c.prevPhase == 0.4
    requires d == Step(c, Call(40000, Jacks(false, false, 0.5, 0.9))).clock
    ensures Waiting(d)
  {
  }
}
