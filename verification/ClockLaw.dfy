/**
  The CLOCK/RESET jack law in the form the hosts run it: fields updated in
  place, the intervals in an eight-slot ring. Every method is tied to the law
  on values (ClockSpec) through Model().
 */
module ClockLaw {
  import opened ClockWindow
  import opened Options
  import opened RealLemmas
  import opened ClockSpec

  class Law {
    var sr: real
    var now: nat
    var running: bool
    var bpm: real
    var period: real
    var haveEdge: bool
    var lastEdge: nat
    var lastValid: nat
    const ring: array<real>
    var count: nat
    var head: nat
    var pendingSide: int
    var pendingInterval: real
    var resetWindow: nat
    var haveOne: bool
    var oneAt: nat
    var armed: bool
    var prevPhase: real
    var haveKnobRef: bool
    var knobRef: real

    /** The ring's shape: until it is full the oldest interval is slot 0. */
    ghost predicate RingValid()
      reads this`count, this`head
    {
      && ring.Length == WINDOW
      && count <= WINDOW
      && head < WINDOW
      && (count < WINDOW ==> head == count)
    }

    /** The ring read from the oldest interval on. */
    ghost function Window(): seq<real>
      reads this`count, this`head, ring
      requires RingValid()
    {
      if count < WINDOW then ring[..count] else ring[head..] + ring[..head]
    }

    ghost function Model(): Clock
      reads this, ring
      requires RingValid()
    {
      Clock(sr, resetWindow, now, running, if bpm == 0.0 then 0.0 else period,
            Tempo(Window(), pendingSide, pendingInterval),
            if haveEdge then Some(lastEdge) else None, lastValid, if haveOne then Some(oneAt) else None,
            armed, prevPhase, if haveKnobRef then Some(knobRef) else None)
    }

    /** The period is the one behind the tempo. */
    ghost predicate PeriodValid()
      reads this`sr, this`bpm, this`period
    {
      (bpm != 0.0 ==> period != 0.0) && bpm == Bpm(sr, if bpm == 0.0 then 0.0 else period)
    }

    ghost predicate Valid()
      reads this, ring
    {
      RingValid() && PeriodValid() && Inv(Model())
    }

    constructor (sampleRate: real)
      requires sampleRate >= 0.0
      ensures Valid() && fresh(ring)
      ensures Model() == ClockSpec.Init(sampleRate)
    {
      sr := sampleRate;
      resetWindow := ResetWindowSamples(sampleRate);
      now, running, bpm, period := 0, false, 0.0, 0.0;
      haveEdge, lastEdge, lastValid := false, 0, 0;
      ring := new real[WINDOW](_ => 0.0);
      count, head := 0, 0;
      pendingSide, pendingInterval := 0, 0.0;
      haveOne, oneAt := false, 0;
      armed, prevPhase, haveKnobRef, knobRef := false, 0.0, false, 0.0;
    }

    method Discontinuity()
      requires Valid()
      modifies this
      ensures Valid()
      ensures Model() == ClockSpec.Discontinuity(old(Model()))
    {
      ForgetEdges();
      running := false;
      armed := false;
      haveKnobRef := false;
    }

    method ForgetEdges()
      requires RingValid()
      modifies this`haveEdge, this`haveOne, this`count, this`head, this`pendingSide
      ensures RingValid() && Window() == []
      ensures !haveEdge && !haveOne && pendingSide == 0
    {
      haveEdge := false;
      haveOne := false;
      count := 0;
      head := 0;
      pendingSide := 0;
    }

    method Push(interval: real)
      requires RingValid()
      modifies this`count, this`head, ring
      ensures RingValid()
      ensures Window() == Pushed(old(Window()), interval)
    {
      ghost var before := ring[..];
      ghost var h := head;
      ring[head] := interval;
      head := (head + 1) % WINDOW;
      if count < WINDOW { count := count + 1; }
      assert ring[..] == before[h := interval];
      if old(count) == WINDOW {
        RingSlides(before, h, interval);
      }
    }

    /** The mean is taken over the slots in ring order; the window's order does not matter. */
    method MeanOfRing() returns (m: real)
      requires RingValid() && count > 0
      ensures Window() != [] && m == Mean(Window())
    {
      var s := 0.0;
      for i := 0 to count
        invariant s == Sum(ring[..i])
      {
        s := s + ring[i];
        SumSnoc(ring[..i], ring[i]);
        assert ring[..i + 1] == ring[..i] + [ring[i]];
      }
      if count == WINDOW {
        assert ring[..count] == ring[..];
        SumRotated(ring[..], head);
      }
      m := s / (count as real);
    }

    method Measure()
      requires RingValid() && count > 0 && sr >= 0.0 && AllAccepted(sr, Window())
      modifies this`period, this`bpm
      ensures Window() != [] && period == Mean(Window()) && bpm != 0.0
      ensures PeriodValid()
    {
      period := MeanOfRing();
      MeanAccepted(sr, Window());
      bpm := 60.0 * sr / period;
      BpmRange(sr, period);
    }

    /** The tempo's half of OnEdge: a valid interval heard while the clock runs. */
    method HearInterval(interval: real)
      requires RingValid() && PeriodValid() && running && sr >= 0.0
      requires Window() != [] && period == Mean(Window()) && bpm != 0.0
      requires TempoWf(sr, Tempo(Window(), pendingSide, pendingInterval)) && Accepted(sr, interval)
      modifies this`period, this`bpm, this`count, this`head, this`pendingSide, this`pendingInterval, ring
      ensures RingValid() && PeriodValid() && bpm != 0.0
      ensures Window() != [] && period == Mean(Window())
      ensures Tempo(Window(), pendingSide, pendingInterval)
           == Hear(old(Tempo(Window(), pendingSide, pendingInterval)), interval)
    {
      ghost var t := Tempo(Window(), pendingSide, pendingInterval);
      HearWf(sr, t, interval);
      if count == WINDOW {
        var m := MeanOfRing();
        var side := if interval > m * BAND then 1 else if interval < m / BAND then -1 else 0;
        if side != 0 {
          if side == pendingSide && interval <= pendingInterval * BAND && interval >= pendingInterval / BAND {
            count := 0;
            head := 0;
            pendingSide := 0;
            Push(pendingInterval);
            Push(interval);
            assert Window() == [pendingInterval, interval];
            Measure();
            return;
          }
          pendingSide := side;
          pendingInterval := interval;
          return;
        }
        if pendingSide != 0 {
          pendingSide := 0;
          return;
        }
      }
      Push(interval);
      Measure();
    }

    /** The second valid edge: the clock runs, and a restart near the reference edge counts. */
    method StartRunning(ref: nat, interval: real) returns (counted: bool)
      requires RingValid() && PeriodValid() && !running && sr >= 0.0
      requires Window() == [] && pendingSide == 0 && Accepted(sr, interval)
      modifies this`running, this`haveOne, this`period, this`bpm, this`count, this`head, ring
      ensures RingValid() && PeriodValid()
      ensures Window() == [interval] && period == Mean(Window()) && bpm != 0.0
      ensures running && !haveOne
      ensures counted == (old(haveOne) && Distance(oneAt, ref) <= resetWindow)
    {
      counted := false;
      running := true;
      if haveOne {
        var d := if oneAt > ref then oneAt - ref else ref - oneAt;
        counted := d <= resetWindow;
        haveOne := false;
      }
      Push(interval);
      assert Pushed([], interval) == [interval];
      Measure();
    }

    /** One CLOCK edge as a reference: whether an interval in range ends on it. */
    method TakeReference() returns (valid: bool, ref: nat, interval: real)
      requires haveEdge ==> lastEdge <= now
      modifies this`haveEdge, this`lastEdge, this`lastValid
      ensures haveEdge && lastEdge == now
      ensures old(haveEdge) ==> ref == old(lastEdge) && interval == (now - ref) as real
      ensures valid == (old(haveEdge) && Accepted(sr, interval))
      ensures lastValid == if valid then now else old(lastValid)
    {
      if !haveEdge {
        haveEdge := true;
        lastEdge := now;
        return false, 0, 0.0;
      }
      ref := lastEdge;
      interval := (now - lastEdge) as real;
      lastEdge := now;
      if interval <= 0.0 { return false, ref, interval; }
      var b := 60.0 * sr / interval;
      AcceptedByTempo(sr, interval);
      if b < BPM_MIN || b > BPM_MAX { return false, ref, interval; }
      lastValid := now;
      valid := true;
    }

    /** What the tempo's fields promise between phases. */
    ghost predicate TempoValid()
      reads this`sr, this`running, this`bpm, this`period, this`pendingSide, this`pendingInterval,
            this`count, this`head, ring
    {
      && RingValid() && sr >= 0.0
      && TempoWf(sr, Tempo(Window(), pendingSide, pendingInterval))
      && (if running then Window() != [] && period == Mean(Window()) && bpm != 0.0
          else Window() == [] && pendingSide == 0)
    }

    /** A valid interval: the clock starts on it, or hears it. */
    method ValidPulse(ref: nat, interval: real) returns (counted: bool)
      requires TempoValid() && PeriodValid() && Accepted(sr, interval)
      modifies this`running, this`haveOne, this`period, this`bpm, this`count, this`head,
               this`pendingSide, this`pendingInterval, ring
      ensures TempoValid() && PeriodValid() && running
      ensures Tempo(Window(), pendingSide, pendingInterval)
           == Hear(old(Tempo(Window(), pendingSide, pendingInterval)), interval)
      ensures haveOne == (old(running) && old(haveOne))
      ensures counted == (!old(running) && old(haveOne) && Distance(oneAt, ref) <= resetWindow)
    {
      HearWf(sr, Tempo(Window(), pendingSide, pendingInterval), interval);
      if !running {
        assert Pushed([], interval) == [interval];
        counted := StartRunning(ref, interval);
      } else {
        counted := false;
        HearInterval(interval);
      }
    }

    /** One CLOCK edge at now: whether it is a valid pulse, and whether it counts. */
    method OnEdge() returns (pulse: bool, counted: bool)
      requires RingValid() && PeriodValid() && Core(Model())
      modifies this, ring
      ensures RingValid() && PeriodValid()
      ensures var r := Edge(old(Model())); Model() == r.clock && pulse == r.pulse && counted == r.counted
    {
      hide Hear, TempoWf, Mean;
      counted := false;
      var ref, interval;
      pulse, ref, interval := TakeReference();
      if pulse {
        counted := ValidPulse(ref, interval);
      }
    }

    /** The clock is gone: the edges are forgotten and the knob's reference is taken. */
    method Lose(tempoKnob: real)
      requires RingValid()
      modifies this`running, this`haveEdge, this`haveOne, this`count, this`head, this`pendingSide,
               this`haveKnobRef, this`knobRef
      ensures RingValid() && Window() == []
      ensures !running && !haveEdge && !haveOne && pendingSide == 0 && haveKnobRef && knobRef == tempoKnob
    {
      running := false;
      ForgetEdges();
      knobRef := tempoKnob;
      haveKnobRef := true;
    }

    /** Time passes; no valid edge for longer than TIMEOUT_PERIODS periods loses the clock. */
    method Elapse(samples: nat, tempoKnob: real) returns (lost: bool)
      requires Valid()
      modifies this
      ensures RingValid() && PeriodValid()
      ensures lost == TimedOut(old(Model()), samples)
      ensures Model() == ClockSpec.Elapse(old(Model()), samples, tempoKnob)
    {
      lost := false;
      now := now + samples;
      if running && (now - lastValid) as real > TIMEOUT_PERIODS * period {
        lost := true;
        Lose(tempoKnob);
      }
    }

    method KnobTakeover(tempoKnob: real)
      requires RingValid() && PeriodValid() && Core(Model())
      modifies this`bpm, this`haveKnobRef, this`knobRef
      ensures RingValid() && PeriodValid()
      ensures Model() == Takeover(old(Model()), tempoKnob)
    {
      BpmRange(sr, Model().period);
      if !running && bpm > 0.0 {
        if !haveKnobRef {
          knobRef := tempoKnob;
          haveKnobRef := true;
        } else if tempoKnob != knobRef {
          bpm := 0.0;
        }
      }
    }

    method Restart(age: nat)
      requires age <= now
      modifies this`armed, this`haveOne, this`oneAt
      ensures !armed && haveOne && oneAt == now - age
    {
      armed := false;
      haveOne := true;
      oneAt := now - age;
    }

    method HandleReset(j: Jacks, pulse: bool) returns (restart: bool, age: nat)
      requires RingValid() && Core(Model())
      modifies this`armed, this`haveOne, this`oneAt
      ensures RingValid()
      ensures var r := ResetPhase(old(Model()), j, pulse);
              Model() == r.clock && restart == r.restart && age == r.age
    {
      restart, age := false, 0;
      if j.resetEdge {
        if pulse || !running {
          Restart(0);
          restart := true;
        } else if now - lastValid <= resetWindow {
          age := now - lastValid;
          Restart(age);
          restart := true;
        } else {
          armed := true;
        }
      } else if armed {
        if pulse {
          Restart(0);
          restart := true;
        } else if !running && j.clockEdge {
          Restart(0);
          restart := true;
        } else if !running && j.phase < prevPhase {
          Restart(0);
          restart := true;
        }
      }
    }

    /** The CLOCK jack's half of a call: the edge, then the knob. */
    method HearClock(j: Jacks) returns (pulse: bool, counted: bool)
      requires Valid()
      modifies this, ring
      ensures RingValid() && PeriodValid()
      ensures var r := ClockSpec.HearClock(old(Model()), j);
              Model() == r.clock && pulse == r.pulse && counted == r.counted
    {
      hide Edge, Takeover;
      pulse, counted := false, false;
      if j.clockEdge { pulse, counted := OnEdge(); }
      KnobTakeover(j.knob);
    }

    /** The RESET jack's half of a call; the beat phase is kept for the next one. */
    method HearReset(j: Jacks, pulse: bool, ghost counted: bool) returns (restart: bool, age: nat)
      requires RingValid() && PeriodValid() && Core(Model())
      requires armed && !running && haveEdge ==> j.clockEdge
      modifies this`armed, this`haveOne, this`oneAt, this`prevPhase
      ensures RingValid()
      ensures var r := ClockSpec.HearReset(EdgeResult(old(Model()), pulse, counted), j);
              Model() == r.clock && restart == r.out.restart && age == r.out.restartAge
    {
      hide ResetPhase;
      restart, age := HandleReset(j, pulse);
      prevPhase := j.phase;
    }

    /** Both jacks of a call whose time has passed. */
    method HearJacks(j: Jacks, lost: bool) returns (o: Out)
      requires Valid()
      modifies this, ring
      ensures RingValid() && PeriodValid()
      ensures var r := ClockSpec.HearJacks(old(Model()), j);
              Model() == r.clock && o == r.out.(lost := lost)
    {
      hide ClockSpec.HearClock, ResetPhase;
      var pulse, counted := HearClock(j);
      var restart, age := HearReset(j, pulse, counted);
      o := Out(pulse, counted, restart, age, lost, j.clockEdge, j.resetEdge, bpm);
    }

    /** One call of the law. */
    method Step(samples: nat, clockEdge: bool, resetEdge: bool, tempoKnob: real, beatPhase: real)
      returns (o: Out)
      requires Valid()
      modifies this, ring
      ensures Valid()
      ensures var r := ClockSpec.Step(old(Model()), Call(samples, Jacks(clockEdge, resetEdge, tempoKnob, beatPhase)));
              Model() == r.clock && o == r.out
    {
      hide ClockSpec.HearJacks, ClockSpec.Elapse;
      var lost := Elapse(samples, tempoKnob);
      o := HearJacks(Jacks(clockEdge, resetEdge, tempoKnob, beatPhase), lost);
    }
  }

  /** Overwriting the oldest slot of a full ring and moving the head slides the window. */
  lemma {:induction false} RingSlides(ring: seq<real>, head: nat, x: real)
    requires |ring| == WINDOW && head < WINDOW
    ensures var ring' := ring[head := x];
            var head' := (head + 1) % WINDOW;
            ring'[head'..] + ring'[..head'] == Pushed(ring[head..] + ring[..head], x)
  {
    var head' := if head + 1 == |ring| then 0 else head + 1;
    assert head' == (head + 1) % WINDOW;
    FromHead(ring, head);
    if head' == 0 {
      LastSlot(ring, x);
    } else {
      InnerSlot(ring, head, x);
    }
  }

  lemma {:induction false} FromHead(ring: seq<real>, head: nat)
    requires head < |ring|
    ensures (ring[head..] + ring[..head])[1..] == ring[head + 1..] + ring[..head]
    ensures |ring[head..] + ring[..head]| == |ring|
  {
    assert ring[head..] == [ring[head]] + ring[head + 1..];
  }

  lemma {:induction false} LastSlot(ring: seq<real>, x: real)
    requires |ring| > 0
    ensures var head := |ring| - 1;
            var ring' := ring[head := x];
            ring'[0..] + ring'[..0] == ring[head + 1..] + ring[..head] + [x]
  {
    var head := |ring| - 1;
    assert ring[head := x] == ring[..head] + [x];
  }

  lemma {:induction false} InnerSlot(ring: seq<real>, head: nat, x: real)
    requires head < |ring|
    ensures var ring' := ring[head := x];
            ring'[head + 1..] + ring'[..head + 1] == ring[head + 1..] + ring[..head] + [x]
  {
    var ring' := ring[head := x];
    assert ring'[head + 1..] == ring[head + 1..];
    assert ring'[..head + 1] == ring[..head] + [x];
    assert ring[head + 1..] + (ring[..head] + [x]) == ring[head + 1..] + ring[..head] + [x];
  }
}
