/**
  The room's sleep and wake protocol inside the mix loop: what a run of the mix
  does to the reverb is a run of the protocol, with a control tick on every 96th
  sample.
 */
module MixWakes {
  import opened MixSmooth
  import opened Options
  import opened MixRoom
  import opened MixSleep
  import opened MixDucks
  import opened MixSpec
  import opened MixRuns

  function SampleOps(tick: bool, send: Stereo): seq<Op> {
    if tick then [ControlTick, Sample(send)] else [Sample(send)]
  }

  lemma {:induction false} SampleOpsDo(s: Setup, v: Rev, tick: bool, send: Stereo)
    ensures DoAll(s, v, SampleOps(tick, send)) == OneSample(s.k, if tick then ClearTick(v) else v, send).v
    ensures Ticks(SampleOps(tick, send)) == if tick then 1 else 0
  {
    hide OneSample, ClearTick;
    OneOp(s, if tick then ClearTick(v) else v, Sample(send));
    if tick {
      assert SampleOps(tick, send)[1..] == [Sample(send)];
    }
  }

  lemma {:induction false} OneOp(s: Setup, v: Rev, op: Op)
    ensures DoAll(s, v, [op]) == Do(s, v, op) && Ticks([op]) == if op.ControlTick? then 1 else 0
  {
    hide Do;
    assert [op][1..] == [];
  }

  /** What one moment does to the reverb. */
  function OpsOf(e: Engine, m: Mix, x: Moment): seq<Op>
    requires m.rev.Some?
  {
    match x
    case One(input) =>
      var t := Ticked(e, m);
      var h := DeckHalf(e, t.d, t.choke, input, true);
      SampleOps(m.d.ctr == 0, SentTo(e, t.rev.value, h.p, h.gains, h.duck))
    case Between(ev) =>
      match ev
      case SetMix(p, n) => [MixKnob(p, n)]
      case SetRoom(knobs) => [RoomKnob(knobs)]
      case SetDecay(knobs, _) => [RoomKnob(knobs)]
      case _ => []
  }

  function OpsRun(e: Engine, m: Mix, xs: seq<Moment>): seq<Op>
    decreases |xs|
  {
    if xs == [] || m.rev.None? then [] else OpsOf(e, m, xs[0]) + OpsRun(e, Advance(e, m, xs[0], true), xs[1..])
  }

  lemma {:induction false} DoAllConcat(s: Setup, v: Rev, a: seq<Op>, b: seq<Op>)
    ensures DoAll(s, v, a + b) == DoAll(s, DoAll(s, v, a), b)
    decreases |a|
  {
    hide Do;
    if a == [] {
      assert a + b == b;
    } else {
      assert (a + b)[1..] == a[1..] + b;
      DoAllConcat(s, Do(s, v, a[0]), a[1..], b);
    }
  }

  lemma {:induction false} MomentIsOps(e: Engine, m: Mix, x: Moment)
    requires m.rev.Some?
    ensures Advance(e, m, x, true).rev == Some(DoAll(e.room, m.rev.value, OpsOf(e, m, x)))
  {
    hide DeckHalf, DeckTick, SentTo, OneSample, ClearTick, SetReverbMix, Blend, SampleOps;
    if x.One? {
      var t := Ticked(e, m);
      var h := DeckHalf(e, t.d, t.choke, x.input, true);
      SampleOpsDo(e.room, m.rev.value, m.d.ctr == 0, SentTo(e, t.rev.value, h.p, h.gains, h.duck));
    }
  }

  /** Every run of the mix is a run of the protocol. */
  lemma {:induction false} RunIsOps(e: Engine, m: Mix, xs: seq<Moment>)
    requires m.rev.Some?
    ensures Run(e, m, xs, true).rev == Some(DoAll(e.room, m.rev.value, OpsRun(e, m, xs)))
    decreases |xs|
  {
    hide Advance, OpsOf, Do;
    if xs != [] {
      var m1 := Advance(e, m, xs[0], true);
      MomentIsOps(e, m, xs[0]);
      RunIsOps(e, m1, xs[1..]);
      DoAllConcat(e.room, m.rev.value, OpsOf(e, m, xs[0]), OpsRun(e, m1, xs[1..]));
    }
  }

  /** So the protocol's invariant holds in every state a run of the mix from boot reaches. */
  lemma {:induction false} RoomIsSound(e: Engine, s: Start, xs: seq<Moment>)
    requires StartOk(e, s) && s.hasRoom
    ensures var v := Run(e, Boot(e, s), xs, true).rev; v.Some? && Sound(e.room.k, v.value)
  {
    hide Sound, Run;
    BootIsSound(e.room, s.sampleRate);
    RoomStaysSound(e, Boot(e, s), xs);
  }

  lemma {:induction false} RoomStaysSound(e: Engine, m: Mix, xs: seq<Moment>)
    requires m.rev.Some? && Sound(e.room.k, m.rev.value)
    ensures var v := Run(e, m, xs, true).rev; v.Some? && Sound(e.room.k, v.value)
  {
    hide Sound, Run, OpsRun, DoAll;
    RunIsOps(e, m, xs);
    SoundIsKept(e.room, m.rev.value, OpsRun(e, m, xs));
  }

  // ---- waking in time -----------------------------------------------------------------

  function Samples(xs: seq<Moment>): nat
    decreases |xs|
  {
    if xs == [] then 0 else (if xs[0].One? then 1 else 0) + Samples(xs[1..])
  }

  lemma {:induction false} TicksConcat(a: seq<Op>, b: seq<Op>)
    ensures Ticks(a + b) == Ticks(a) + Ticks(b)
    decreases |a|
  {
    if a == [] {
      assert a + b == b;
    } else {
      assert (a + b)[1..] == a[1..] + b;
      TicksConcat(a[1..], b);
    }
  }

  lemma {:induction false} TicksOf(e: Engine, m: Mix, x: Moment)
    requires m.rev.Some?
    ensures Ticks(OpsOf(e, m, x)) == if x.One? && m.d.ctr == 0 then 1 else 0
  {
    hide DeckHalf, DeckTick, SentTo, SampleOps;
    if x.One? {
      var t := Ticked(e, m);
      var h := DeckHalf(e, t.d, t.choke, x.input, true);
      SampleOpsDo(e.room, m.rev.value, m.d.ctr == 0, SentTo(e, t.rev.value, h.p, h.gains, h.duck));
    }
  }

  lemma {:induction false} TicksOfRun(e: Engine, m: Mix, xs: seq<Moment>)
    requires m.rev.Some? && m.d.ctr < CONTROL_INTERVAL
    ensures Ticks(OpsRun(e, m, xs)) == (Samples(xs) + CONTROL_INTERVAL - 1 - m.d.ctr) / CONTROL_INTERVAL
    decreases |xs|
  {
    hide Sample1, OpsOf, Host;
    if xs != [] {
      var m1 := Advance(e, m, xs[0], true);
      MomentIsOps(e, m, xs[0]);
      if xs[0].One? {
        SampleTaps(e, m, xs[0].input, true);
      } else {
        HostKeepsTaps(e, m, xs[0].ev);
      }
      TicksOf(e, m, xs[0]);
      TicksConcat(OpsOf(e, m, xs[0]), OpsRun(e, m1, xs[1..]));
      TicksOfRun(e, m1, xs[1..]);
    }
  }

  /** The raster never leaves its block. */
  lemma {:induction false} RasterStays(e: Engine, m: Mix, xs: seq<Moment>)
    requires m.d.ctr < CONTROL_INTERVAL
    ensures Run(e, m, xs, true).d.ctr < CONTROL_INTERVAL
    decreases |xs|
  {
    hide Sample1, Host;
    if xs != [] {
      if xs[0].One? {
        SampleTaps(e, m, xs[0].input, true);
      } else {
        HostKeepsTaps(e, m, xs[0].ev);
      }
      RasterStays(e, Advance(e, m, xs[0], true), xs[1..]);
    }
  }

  /** Whatever has happened since boot, a room some deck sends to throughout is awake
      after at most 32 control blocks, 3072 samples. */
  lemma {:induction false} RoomWakesInTime(e: Engine, s: Start, before: seq<Moment>, xs: seq<Moment>)
    requires StartOk(e, s) && s.hasRoom
    requires var m := Run(e, Boot(e, s), before, true);
             m.rev.Some? ==> WetThroughout(e.room, m.rev.value, OpsRun(e, m, xs))
    requires Samples(xs) >= CLEAR_STEPS * CONTROL_INTERVAL
    ensures var v := Run(e, Run(e, Boot(e, s), before, true), xs, true).rev; v.Some? && !v.value.asleep
  {
    hide Sound, Run, OpsRun, WetThroughout, Samples;
    var m := Run(e, Boot(e, s), before, true);
    RoomIsSound(e, s, before);
    RasterStays(e, Boot(e, s), before);
    WakesFrom(e, m, xs);
  }

  lemma {:induction false} WakesFrom(e: Engine, m: Mix, xs: seq<Moment>)
    requires m.rev.Some? && Sound(e.room.k, m.rev.value) && m.d.ctr < CONTROL_INTERVAL
    requires WetThroughout(e.room, m.rev.value, OpsRun(e, m, xs))
    requires Samples(xs) >= CLEAR_STEPS * CONTROL_INTERVAL
    ensures var v := Run(e, m, xs, true).rev; v.Some? && !v.value.asleep
  {
    hide Sound, Run, OpsRun, DoAll, WetThroughout, Samples;
    RunIsOps(e, m, xs);
    TicksOfRun(e, m, xs);
    SleepingHasSteps(e.room.k, m.rev.value);
    WakesInTime(e.room, m.rev.value, OpsRun(e, m, xs));
  }
}
