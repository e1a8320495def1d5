/**
  The reverb's place in the mix: the per-deck crossfade, the return's fade, and
  the protocol by which the room is put to sleep, emptied while it sleeps, and
  woken.
 */
module MixSleep {
  import opened MixSmooth
  import opened RealLemmas
  import opened MixRoom

  datatype Rev = Rev(
    room: Room,
    dryTarget: Two<real>, wetTarget: Two<real>,
    dry: Two<OnePole>, wet: Two<OnePole>,
    primed: bool, asleep: bool, gain: real, step: real)

  /** The kernel and the crossfade curve. */
  datatype Setup = Setup(k: Kernel, curve: real -> (real, real))

  const DEFAULT_MIX: real := 0.25
  const MIX_GLIDE_SECONDS: real := 0.010
  const RETURN_FADE_SECONDS: real := 0.15

  /** At boot the room is new and awake, and the first sample has yet to snap the mix. */
  function BootRev(s: Setup, sampleRate: real): Rev
    requires sampleRate > 0.0
  {
    Positive(RETURN_FADE_SECONDS, sampleRate);
    var (dry, wet) := s.curve(DEFAULT_MIX);
    var still := OnePole(0.0, false, GlideRate(MIX_GLIDE_SECONDS, sampleRate));
    Rev(Booted(s.k), Two(dry, dry), Two(wet, wet), Two(still, still), Two(still, still),
        false, false, 1.0, 1.0 / (RETURN_FADE_SECONDS * sampleRate))
  }

  predicate AnyWet(v: Rev) { v.wetTarget.a > 0.0 || v.wetTarget.b > 0.0 }

  /** Both decks' sends are shut for good: gain and target exactly 0. */
  predicate Closing(v: Rev) {
    v.wet.a.value == 0.0 && v.wet.b.value == 0.0 && v.wetTarget.a == 0.0 && v.wetTarget.b == 0.0
  }

  /** One deck's MIX knob: exact ends, a crossfade curve between them. */
  function SetReverbMix(v: Rev, curve: real -> (real, real), p: nat, n: real): Rev {
    var x := Clamp(n, 0.0, 1.0);
    var (dry, wet) := if x <= 0.0 then (1.0, 0.0) else if x >= 1.0 then (0.0, 1.0) else curve(x);
    var v1 := v.(dryTarget := Put(v.dryTarget, p, dry), wetTarget := Put(v.wetTarget, p, wet));
    if wet > 0.0 && !Clearing(v.room) then v1.(asleep := false) else v1
  }

  /** A room knob turned. */
  function Tune(v: Rev, knobs: Knobs): Rev { v.(room := v.room.(knobs := knobs)) }

  /** The control tick's share: one chunk of a clear under way, and the wake. */
  function ClearTick(v: Rev): Rev {
    if !Clearing(v.room) then v
    else
      var v1 := v.(room := Stepped(v.room));
      if !Clearing(v1.room) && AnyWet(v) then v1.(asleep := false) else v1
  }

  /** The first sample snaps the mix set before it; a room nobody sends to starts
      asleep. */
  function Prime(k: Kernel, v: Rev): Rev {
    if v.primed then v
    else
      var v1 := v.(dry := Two(ResetTo(v.dry.a, v.dryTarget.a), ResetTo(v.dry.b, v.dryTarget.b)),
                   wet := Two(ResetTo(v.wet.a, v.wetTarget.a), ResetTo(v.wet.b, v.wetTarget.b)),
                   gain := 1.0, primed := true);
      if v.wetTarget.a == 0.0 && v.wetTarget.b == 0.0 then v1.(room := Begun(k, v.room), asleep := true) else v1
  }

  function GlideMix(v: Rev): Rev {
    v.(dry := Two(Glide(v.dry.a, v.dryTarget.a), Glide(v.dry.b, v.dryTarget.b)),
       wet := Two(Glide(v.wet.a, v.wetTarget.a), Glide(v.wet.b, v.wetTarget.b)))
  }

  /** The return's ride: down to an exact 0 while closing, up to an exact 1. */
  function Ride(v: Rev): real {
    if Closing(v) then Max(0.0, v.gain - v.step)
    else if v.gain < 1.0 then Min(1.0, v.gain + v.step) else v.gain
  }

  datatype Returned = Returned(v: Rev, out: Stereo)

  /** What the room adds to one sample, and the sleep check behind it. */
  function Return(k: Kernel, v: Rev, send: Stereo): Returned {
    if v.asleep then Returned(v, Stereo(0.0, 0.0))
    else
      var p := k.play(v.room.knobs, v.room.loop, v.room.buffer, send);
      var gain := Ride(v);
      var v1 := v.(room := v.room.(loop := p.loop, buffer := p.buffer), gain := gain);
      var out := Stereo(p.wet.l * gain, p.wet.r * gain);
      if Closing(v) && gain == 0.0 then
        Returned(v1.(room := Begun(k, v1.room), asleep := true, gain := 1.0), out)
      else
        Returned(v1, out)
  }

  // ---- the protocol's invariant ---------------------------------------------------------

  /** A room being emptied is not played; a sleeping room is empty up to where its
      clear has come, and one a deck sends to sleeps only until the clear is done. */
  ghost predicate Sound(k: Kernel, v: Rev) {
    && v.step > 0.0 && 0.0 <= v.gain <= 1.0
    && (Clearing(v.room) ==> v.asleep)
    && (v.asleep ==> ClearedSoFar(k, v.room) && v.gain == 1.0)
    && (v.asleep && AnyWet(v) ==> Clearing(v.room))
  }

  lemma {:induction false} SetReverbMixKeeps(k: Kernel, v: Rev, curve: real -> (real, real), p: nat, n: real)
    requires Sound(k, v) && p < 2
    ensures Sound(k, SetReverbMix(v, curve, p, n))
  {
  }

  lemma {:induction false} TuneKeeps(k: Kernel, v: Rev, knobs: Knobs)
    requires Sound(k, v)
    ensures Sound(k, Tune(v, knobs))
  {
  }

  lemma {:induction false} ClearTickKeeps(k: Kernel, v: Rev)
    requires Sound(k, v)
    ensures Sound(k, ClearTick(v))
  {
    hide Stepped;
    if v.asleep {
      StepClears(k, v.room);
    }
  }

  lemma {:induction false} PrimeKeeps(k: Kernel, v: Rev)
    requires Sound(k, v)
    ensures Sound(k, Prime(k, v))
  {
  }

  lemma {:induction false} GlideMixKeeps(k: Kernel, v: Rev)
    requires Sound(k, v)
    ensures Sound(k, GlideMix(v))
  {
  }

  lemma {:induction false} ReturnKeeps(k: Kernel, v: Rev, send: Stereo)
    requires Sound(k, v)
    ensures Sound(k, Return(k, v, send).v)
  {
  }

  // ---- runs ---------------------------------------------------------------------------------

  /** Everything that happens to the reverb: a MIX knob, a knob of the room, the
      control tick, one sample of whatever is sent. */
  datatype Op = MixKnob(p: nat, n: real) | RoomKnob(knobs: Knobs) | ControlTick | Sample(send: Stereo)

  function OneSample(k: Kernel, v: Rev, send: Stereo): Returned {
    Return(k, GlideMix(Prime(k, v)), send)
  }

  function Do(s: Setup, v: Rev, op: Op): Rev {
    match op
    case MixKnob(p, n) => SetReverbMix(v, s.curve, if p == 0 then 0 else 1, n)
    case RoomKnob(knobs) => Tune(v, knobs)
    case ControlTick => ClearTick(v)
    case Sample(send) => OneSample(s.k, v, send).v
  }

  function DoAll(s: Setup, v: Rev, ops: seq<Op>): Rev
    decreases |ops|
  {
    if ops == [] then v else DoAll(s, Do(s, v, ops[0]), ops[1..])
  }

  lemma {:induction false} DoKeeps(s: Setup, v: Rev, op: Op)
    requires Sound(s.k, v)
    ensures Sound(s.k, Do(s, v, op))
  {
    hide Sound, SetReverbMix, Tune, ClearTick, Return, GlideMix, Prime;
    match op
    case MixKnob(p, n) => SetReverbMixKeeps(s.k, v, s.curve, if p == 0 then 0 else 1, n);
    case RoomKnob(knobs) => TuneKeeps(s.k, v, knobs);
    case ControlTick => ClearTickKeeps(s.k, v);
    case Sample(send) =>
      PrimeKeeps(s.k, v);
      GlideMixKeeps(s.k, Prime(s.k, v));
      ReturnKeeps(s.k, GlideMix(Prime(s.k, v)), send);
  }

  lemma {:induction false} SoundIsKept(s: Setup, v: Rev, ops: seq<Op>)
    requires Sound(s.k, v)
    ensures Sound(s.k, DoAll(s, v, ops))
    decreases |ops|
  {
    hide Sound, Do;
    if ops != [] {
      DoKeeps(s, v, ops[0]);
      SoundIsKept(s, Do(s, v, ops[0]), ops[1..]);
    }
  }

  lemma {:induction false} BootIsSound(s: Setup, sampleRate: real)
    requires sampleRate > 0.0
    ensures Sound(s.k, BootRev(s, sampleRate))
  {
    Positive(RETURN_FADE_SECONDS, sampleRate);
    var d := RETURN_FADE_SECONDS * sampleRate;
    assert 1.0 / d * d == 1.0;
    assert 1.0 / d > 0.0;
  }

  /** The protocol holds in every state a run from boot reaches. */
  lemma {:induction false} RunKeeps(s: Setup, sampleRate: real, ops: seq<Op>)
    requires sampleRate > 0.0
    ensures Sound(s.k, DoAll(s, BootRev(s, sampleRate), ops))
  {
    BootIsSound(s, sampleRate);
    SoundIsKept(s, BootRev(s, sampleRate), ops);
  }

  /** A room that is being emptied is left to it. */
  lemma {:induction false} ClearingIsNotPlayed(s: Setup, v: Rev, send: Stereo)
    requires Sound(s.k, v) && Clearing(v.room)
    ensures OneSample(s.k, v, send).out == Stereo(0.0, 0.0)
    ensures OneSample(s.k, v, send).v.room == v.room || !v.primed
  {
  }

  /** Whatever wakes the room finds it empty, as if it had been cleared at once. */
  lemma {:induction false} WakesIntoSilence(s: Setup, v: Rev, op: Op)
    requires Sound(s.k, v) && v.asleep && !Do(s, v, op).asleep
    ensures Do(s, v, op).room == Emptied(s.k, v.room) && Do(s, v, op).gain == 1.0
    ensures AnyWet(Do(s, v, op))
  {
    hide Stepped;
    StepClears(s.k, v.room);
    DoneIsEmptied(s.k, if op.ControlTick? then Stepped(v.room) else v.room, 0) by {
      assert !Clearing(if op.ControlTick? then Stepped(v.room) else v.room);
    }
  }

  /** It falls asleep only on the very first sample, or on one to which the room
      adds exactly nothing, every send having been shut. */
  lemma {:induction false} SleepsInSilence(s: Setup, v: Rev, op: Op)
    requires Sound(s.k, v) && !v.asleep && Do(s, v, op).asleep
    ensures op.Sample? && !AnyWet(v)
    ensures !v.primed || (Closing(GlideMix(v)) && OneSample(s.k, v, op.send).out == Stereo(0.0, 0.0))
  {
  }

  // ---- progress -----------------------------------------------------------------------------------

  function Ticks(ops: seq<Op>): nat
    decreases |ops|
  {
    if ops == [] then 0 else (if ops[0].ControlTick? then 1 else 0) + Ticks(ops[1..])
  }

  /** Some deck sends to the room before and after every step. */
  predicate WetThroughout(s: Setup, v: Rev, ops: seq<Op>)
    decreases |ops|
  {
    AnyWet(v) && (ops == [] || WetThroughout(s, Do(s, v, ops[0]), ops[1..]))
  }

  /** A step of a room somebody sends to: it does not fall asleep, and a tick brings
      a sleeping one nearer to waking. */
  lemma {:induction false} WetStep(s: Setup, v: Rev, op: Op)
    requires Sound(s.k, v) && AnyWet(v)
    ensures !v.asleep ==> !Do(s, v, op).asleep
    ensures v.asleep && Do(s, v, op).asleep ==>
              Remaining(Do(s, v, op).room) == Remaining(v.room) - if op.ControlTick? then 1 else 0
    ensures v.asleep && op.ControlTick? && Remaining(v.room) == 1 ==> !Do(s, v, op).asleep
  {
    hide Stepped;
    if v.asleep { StepClears(s.k, v.room); }
  }

  /** A room somebody sends to is awake after as many control ticks as its clear has
      steps left, at most 32, whatever else happens meanwhile; and stays awake. */
  lemma {:induction false} WakesInTime(s: Setup, v: Rev, ops: seq<Op>)
    requires Sound(s.k, v) && WetThroughout(s, v, ops)
    requires !v.asleep || Ticks(ops) >= Remaining(v.room)
    ensures !DoAll(s, v, ops).asleep
    decreases |ops|
  {
    hide Sound, Do, Remaining;
    SleepingHasSteps(s.k, v);
    if ops != [] {
      DoKeeps(s, v, ops[0]);
      WetStep(s, v, ops[0]);
      SleepingHasSteps(s.k, Do(s, v, ops[0]));
      WakesInTime(s, Do(s, v, ops[0]), ops[1..]);
    }
  }

  lemma {:induction false} SleepingHasSteps(k: Kernel, v: Rev)
    requires Sound(k, v)
    ensures Remaining(v.room) <= CLEAR_STEPS
    ensures v.asleep && AnyWet(v) ==> Remaining(v.room) > 0
  {
    if v.asleep { SpreadClearIsClear(k, v.room, 0); }
  }

  /** With the knobs left alone a shut room's return fades by one step a sample, and
      the room sleeps on the sample that takes it to 0, no sooner and no later. */
  lemma {:induction false} FadesToSleep(s: Setup, v: Rev, sends: seq<Op>)
    requires Sound(s.k, v) && v.primed && !v.asleep && Closing(v)
    requires forall i | 0 <= i < |sends| :: sends[i].Sample?
    ensures DoAll(s, v, sends).asleep <==> |sends| as real * v.step >= v.gain && sends != []
    ensures !DoAll(s, v, sends).asleep ==> DoAll(s, v, sends).gain == v.gain - |sends| as real * v.step
    decreases |sends|
  {
    hide Sound, Do, Closing, AnyWet;
    if sends != [] {
      ClosingSample(s, v, sends[0]);
      DoKeeps(s, v, sends[0]);
      Multiples(v.step, |sends|, v.gain);
      assert |sends[1..]| == |sends| - 1 && forall i | 0 <= i < |sends[1..]| :: sends[1..][i] == sends[i + 1];
      if Do(s, v, sends[0]).asleep {
        StaysAsleep(s, Do(s, v, sends[0]), sends[1..]);
      } else {
        FadesToSleep(s, Do(s, v, sends[0]), sends[1..]);
      }
    }
  }

  lemma {:induction false} ClosingSample(s: Setup, v: Rev, op: Op)
    requires Sound(s.k, v) && v.primed && !v.asleep && Closing(v) && op.Sample?
    ensures Do(s, v, op).primed && Closing(Do(s, v, op)) && !AnyWet(Do(s, v, op))
    ensures Do(s, v, op).step == v.step > 0.0
    ensures Do(s, v, op).asleep <==> v.step >= v.gain
    ensures !Do(s, v, op).asleep ==> Do(s, v, op).gain == v.gain - v.step
  {
    ShutStaysShut(v.wet.a);
    ShutStaysShut(v.wet.b);
  }

  lemma {:induction false} ShutStaysShut(o: OnePole)
    requires o.value == 0.0
    ensures Glide(o, 0.0).value == 0.0
  {
  }

  lemma {:induction false} Multiples(step: real, n: nat, gain: real)
    requires n > 0 && step > 0.0
    ensures n as real * step == step + (n - 1) as real * step
    ensures (n - 1) as real * step >= 0.0
    ensures n > 1 ==> (n - 1) as real * step >= step
  {
    assert (n - 1) as real >= 0.0;
    if n > 1 { assert (n - 2) as real * step >= 0.0; }
  }

  lemma {:induction false} StaysAsleep(s: Setup, v: Rev, sends: seq<Op>)
    requires v.primed && v.asleep && !AnyWet(v)
    requires forall i | 0 <= i < |sends| :: sends[i].Sample?
    ensures DoAll(s, v, sends).asleep
    decreases |sends|
  {
    if sends != [] {
      StaysAsleep(s, Do(s, v, sends[0]), sends[1..]);
    }
  }

  // ---- where a knob and a send go ---------------------------------------------------------

  /** A MIX knob reaches its own deck's crossfade, with exact ends, and wakes a room
      that is not being emptied when it opens a send; the other deck keeps its own. */
  lemma {:induction false} KnobReachesItsDeck(v: Rev, curve: real -> (real, real), p: nat, n: real)
    requires p < 2
    ensures var w := SetReverbMix(v, curve, p, n);
            var (dry, wet) := (At(w.dryTarget, p), At(w.wetTarget, p));
            && (n <= 0.0 ==> (dry, wet) == (1.0, 0.0)) && (n >= 1.0 ==> (dry, wet) == (0.0, 1.0))
            && (0.0 < n < 1.0 ==> (dry, wet) == curve(n))
            && At(w.dryTarget, 1 - p) == At(v.dryTarget, 1 - p) && At(w.wetTarget, 1 - p) == At(v.wetTarget, 1 - p)
            && (w.asleep <==> v.asleep && (Clearing(v.room) || wet <= 0.0))
            && w == v.(dryTarget := w.dryTarget, wetTarget := w.wetTarget, asleep := w.asleep)
  {
  }

  /** Each gain glides to its own deck's target; the first sample starts on it. */
  lemma {:induction false} EachGlidesToItsOwn(k: Kernel, v: Rev, p: nat)
    requires p < 2
    ensures var g := GlideMix(Prime(k, v));
            if v.primed then
              && At(g.dry, p) == Glide(At(v.dry, p), At(v.dryTarget, p))
              && At(g.wet, p) == Glide(At(v.wet, p), At(v.wetTarget, p))
            else
              At(g.dry, p).value == At(v.dryTarget, p) && At(g.wet, p).value == At(v.wetTarget, p)
  {
  }

  /** A room that is awake is heard: what the kernel returns of the send, at the gain
      the ride has come to. */
  lemma {:induction false} AwakeIsHeard(k: Kernel, v: Rev, send: Stereo)
    requires !v.asleep && (v.primed || AnyWet(v))
    ensures var r, p := OneSample(k, v, send), k.play(v.room.knobs, v.room.loop, v.room.buffer, send);
            var gain := if r.v.asleep then 0.0 else r.v.gain;
            && r.out == Stereo(p.wet.l * gain, p.wet.r * gain)
            && (!r.v.asleep ==> r.v.room == v.room.(loop := p.loop, buffer := p.buffer))
  {
    hide Glide;
  }

  /** While somebody sends, a return caught in its fade rises by one step a sample to
      exactly 1 and stays there. */
  lemma {:induction false} ReopensInSteps(s: Setup, v: Rev, sends: seq<Op>)
    requires Sound(s.k, v) && v.primed && !v.asleep && AnyWet(v)
    requires forall i | 0 <= i < |sends| :: sends[i].Sample?
    ensures var w := DoAll(s, v, sends);
            !w.asleep && w.gain == Min(1.0, v.gain + |sends| as real * v.step)
    decreases |sends|
  {
    hide Sound, Do, AnyWet;
    if sends == [] {
      GainAtMostOne(s.k, v);
    } else {
      OpenSample(s, v, sends[0]);
      DoKeeps(s, v, sends[0]);
      Multiples(v.step, |sends|, v.gain);
      assert |sends[1..]| == |sends| - 1 && forall i | 0 <= i < |sends[1..]| :: sends[1..][i] == sends[i + 1];
      ReopensInSteps(s, Do(s, v, sends[0]), sends[1..]);
    }
  }

  lemma {:induction false} GainAtMostOne(k: Kernel, v: Rev)
    requires Sound(k, v)
    ensures v.gain <= 1.0 && v.step > 0.0
  {
  }

  lemma {:induction false} OpenSample(s: Setup, v: Rev, op: Op)
    requires Sound(s.k, v) && v.primed && !v.asleep && AnyWet(v) && op.Sample?
    ensures var w := Do(s, v, op);
            w.primed && !w.asleep && AnyWet(w) && w.step == v.step > 0.0 && w.gain == Min(1.0, v.gain + v.step)
  {
    hide Glide;
  }
}
