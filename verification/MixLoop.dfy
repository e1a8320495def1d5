/**
  The mix loop in the form the hosts run it: the instrument's fields updated in
  place, sample by sample, the room in its own buffer, the output written into the
  caller's. Tied to the mix on values (MixSpec) group by group.
 */
module MixLoop {
  import opened MixSmooth
  import opened Options
  import opened RealLemmas
  import opened MixRoom
  import opened MixSleep
  import opened MixDucks
  import opened MixSpec

  /** A sample is its tick, the decks' half and the mix, in that order. */
  lemma {:induction false} SampleMade(e: Engine, m: Mix, t: Mix, h: Half, input: Stereo, memoOn: bool)
    requires t == Ticked(e, m) && h == DeckHalf(e, t.d, t.choke, input, memoOn)
    ensures var x := MixDown(e, t.bloom, t.rev, h.p, h.gains, h.pan, h.duck);
            var (lim, out) := e.limit(t.lim, x.out);
            var s := Sample1(e, m, input, memoOn);
            s.m == Mix(h.d, h.choke, x.bloom, x.rev, lim) && s.out == out
  {
    hide Ticked, DeckHalf, MixDown;
  }

  class Instrument {
    const e: Engine
    const reverb: AmbientReverb?
    const memoOn: bool
    ghost const repr: set<object>

    // the decks and what passes between them
    var decks: Two<Deck>
    var center: Center
    var panC: PanMemo
    var dryTap: Two<real>
    var deckTap: Two<Stereo>
    var ctrlCtr: nat
    var pull: real

    // CHOKE
    var choke: real
    var chokeEnv: real
    var chokeDepth: OnePole
    var chokeDuckGain: real
    var chokeMemo: Memo

    // the bloom duck
    var duckGain: real
    var duckTarget: real
    var duckResidual: real
    var duckArmed: bool
    const duckKeepDown: real
    const duckKeepUp: real

    // the reverb's place in the mix
    var dryTarget: Two<real>
    var wetTarget: Two<real>
    var revDry: Two<OnePole>
    var revWet: Two<OnePole>
    var revPrimed: bool
    var revAsleep: bool
    var revReturnGain: real
    const revReturnStep: real

    var limiter: Limiter

    /** repr is the room and its buffer. */
    ghost predicate Valid() {
      && (reverb == null ==> repr == {})
      && (reverb != null ==> reverb.Valid() && reverb.kernel == e.room.k && repr == {reverb, reverb.buffer})
    }

    ghost function DecksModel(): Decks
      reads this`decks, this`center, this`panC, this`dryTap, this`deckTap, this`ctrlCtr, this`pull
    {
      Decks(decks, center, panC, dryTap, deckTap, ctrlCtr, pull)
    }

    ghost function ChokeModel(): Choke
      reads this`choke, this`chokeEnv, this`chokeDepth, this`chokeDuckGain, this`chokeMemo
    {
      Choke(choke, chokeEnv, chokeDepth, chokeDuckGain, chokeMemo)
    }

    ghost function BloomModel(): Bloom
      reads this`duckGain, this`duckTarget, this`duckResidual, this`duckArmed
    {
      Bloom(duckGain, duckTarget, duckResidual, duckArmed, duckKeepDown, duckKeepUp)
    }

    ghost function RevModel(): Option<Rev>
      requires Valid()
      reads this`dryTarget, this`wetTarget, this`revDry, this`revWet, this`revPrimed, this`revAsleep, this`revReturnGain
      reads repr
    {
      if reverb == null then None
      else Some(Rev(reverb.Model(), dryTarget, wetTarget, revDry, revWet,
                    revPrimed, revAsleep, revReturnGain, revReturnStep))
    }

    ghost function Model(): Mix
      requires Valid()
      reads this, repr
    {
      Mix(DecksModel(), ChokeModel(), BloomModel(), RevModel(), limiter)
    }

    /** An instrument initialised around its decks; its room is made new. */
    constructor (e: Engine, reverb: AmbientReverb?, memoOn: bool, s: Start)
      requires reverb != null ==> reverb.Valid() && reverb.kernel == e.room.k
      requires s.sampleRate > 0.0 && s.hasRoom == (reverb != null)
      modifies if reverb == null then {} else {reverb, reverb.buffer}
      ensures Valid() && this.e == e && this.reverb == reverb && this.memoOn == memoOn
      ensures Model() == Boot(e, s)
    {
      this.e, this.reverb, this.memoOn := e, reverb, memoOn;
      repr := if reverb == null then {} else {reverb, reverb.buffer};
      decks, center, limiter := s.decks, s.center, s.lim;
      panC, dryTap, deckTap := NoPan, Two(0.0, 0.0), Two(Stereo(0.0, 0.0), Stereo(0.0, 0.0));
      ctrlCtr, pull := 0, 0.0;
      var still := OnePole(0.0, false, GlideRate(MIX_GLIDE_SECONDS, s.sampleRate));
      choke, chokeEnv, chokeDuckGain, chokeMemo, chokeDepth := 0.0, 0.0, 1.0, NoMemo, still;
      duckGain, duckTarget, duckResidual, duckArmed := 1.0, 1.0, 0.0, false;
      duckKeepDown, duckKeepUp := s.keepDown, s.keepUp;
      var (dry, wet) := e.room.curve(DEFAULT_MIX);
      dryTarget, wetTarget := Two(dry, dry), Two(wet, wet);
      revDry, revWet := Two(still, still), Two(still, still);
      Positive(RETURN_FADE_SECONDS, s.sampleRate);
      revPrimed, revAsleep, revReturnGain := false, false, 1.0;
      revReturnStep := 1.0 / (RETURN_FADE_SECONDS * s.sampleRate);
      new;
      hide Booted, GlideRate;
      if reverb != null {
        reverb.Init();
      }
    }

    // ---- the knobs ----------------------------------------------------------------------

    method SetChoke(c: real)
      requires Valid()
      modifies this`choke
      ensures Model() == Host(e, old(Model()), Event.SetChoke(c))
    {
      choke := Clamp(c, -1.0, 1.0);
    }

    method SetPull(x: real)
      requires Valid()
      modifies this`pull
      ensures Model() == Host(e, old(Model()), Event.SetPull(x))
    {
      pull := Clamp(x, -1.0, 1.0);
    }

    method SetReverbMix(p: nat, n: real)
      requires Valid() && p < 2
      modifies this`dryTarget, this`wetTarget, this`revAsleep
      ensures Valid() && RevModel() == old(Host(e, Model(), SetMix(p, n)).rev)
    {
      var x := Clamp(n, 0.0, 1.0);
      if x <= 0.0 {
        dryTarget, wetTarget := Put(dryTarget, p, 1.0), Put(wetTarget, p, 0.0);
      } else if x >= 1.0 {
        dryTarget, wetTarget := Put(dryTarget, p, 0.0), Put(wetTarget, p, 1.0);
      } else {
        var (dry, wet) := e.room.curve(x);
        dryTarget, wetTarget := Put(dryTarget, p, dry), Put(wetTarget, p, wet);
      }
      if At(wetTarget, p) > 0.0 && !(reverb != null && reverb.clearPos < BUFFER_SIZE) {
        revAsleep := false;
      }
    }

    /** DECAY: the loop gain past unity arms the bloom duck. */
    method SetReverbDecay(knobs: Knobs, loopGain: real)
      requires Valid()
      modifies this`duckArmed, repr
      ensures BloomModel() == old(Host(e, Model(), SetDecay(knobs, loopGain)).bloom)
      ensures RevModel() == old(Host(e, Model(), SetDecay(knobs, loopGain)).rev)
    {
      if reverb != null {
        reverb.Tune(knobs);
      }
      duckArmed := loopGain > 1.0;
    }

    // ---- the control tick -----------------------------------------------------------

    method SetGravities()
      modifies this`decks
      ensures decks == Gravity(e, old(decks), pull)
    {
      var amt := Abs(pull);
      if amt <= PULL_DEAD {
        decks := decks.(a := e.setGravity(decks.a, 0, 0.0));
        decks := decks.(b := e.setGravity(decks.b, 0, 0.0));
      } else {
        var lead := if pull < 0.0 then 0 else 1;
        var follower := if lead == 0 then 1 else 0;
        var prob := (amt - PULL_DEAD) / (1.0 - PULL_DEAD);
        decks := Put(decks, follower, e.setGravity(At(decks, follower), e.chord(At(decks, lead)), prob));
        decks := Put(decks, lead, e.setGravity(At(decks, lead), 0, 0.0));
      }
    }

    method TickDecks()
      modifies this`decks, this`center, this`panC, this`ctrlCtr
      ensures DecksModel() == DeckTick(e, old(DecksModel())).d
    {
      hide Gravity;
      var (c, updated) := e.update(center, decks);
      center := c;
      panC := Pan(e.pans(center));
      var a := e.setOtherTap(updated.a, dryTap.b);
      var b := e.setOtherTap(updated.b, dryTap.a);
      a := e.setRhythm(a, e.rhythm(b));
      b := e.setRhythm(b, e.rhythm(a));
      decks := Two(a, b);
      SetGravities();
      ctrlCtr := CONTROL_INTERVAL;
    }

    method TickBloom()
      requires Valid()
      modifies this`duckTarget, this`duckResidual
      ensures BloomModel() == BloomTick(e, old(BloomModel()), old(RevModel()))
    {
      var target := 1.0;
      if reverb != null && duckArmed {
        target := BloomTarget(true, e.room.k.level(reverb.loop));
      }
      if target != duckTarget {
        duckResidual := duckResidual + duckTarget - target;
        duckTarget := target;
      }
    }

    method TickRoom()
      requires Valid()
      modifies this`revAsleep, repr
      ensures Valid()
      ensures RevModel() == RevTick(old(RevModel()))
    {
      hide Stepped;
      if reverb != null && reverb.clearPos < BUFFER_SIZE {
        reverb.ClearStep();
        if !(reverb.clearPos < BUFFER_SIZE) && (wetTarget.a > 0.0 || wetTarget.b > 0.0) {
          revAsleep := false;
        }
      }
    }

    // ---- one sample ------------------------------------------------------------------

    method PlayDecks(input: Stereo) returns (p: Played2)
      modifies this`decks
      ensures p == MixSpec.PlayDecks(e, old(decks), deckTap, choke, input) && decks == p.decks
    {
      var pri := if choke > 0.0 then 1 else 0;
      var yld := if pri == 0 then 1 else 0;
      var ins := Two(deckTap.b, deckTap.a);
      decks := Two(e.setDeckIn(decks.a, ins.a), e.setDeckIn(decks.b, ins.b));
      decks := Put(decks, pri, e.setInhibit(At(decks, pri), false));
      var first := e.process(At(decks, pri), input);
      decks := Put(decks, pri, first.deck);
      var amt := Abs(choke);
      var window := false;
      if amt > 0.5 {
        window := e.gate(At(decks, pri)) || e.flow(At(decks, pri));
        if !window && amt > 0.75 {
          window := e.voiceEnv(At(decks, pri)) > DECAY_ENV;
        }
      }
      decks := Put(decks, yld, e.setInhibit(At(decks, yld), window));
      var second := e.process(At(decks, yld), input);
      decks := Put(decks, yld, second.deck);
      p := if pri == 0 then Played2(decks, ins, Two(first.out, second.out), Two(first.send, second.send))
           else Played2(decks, ins, Two(second.out, first.out), Two(second.send, first.send));
    }

    /** The follower on the priority deck and the yielding deck's gain. */
    method DuckYielding(rect: real)
      modifies this`chokeDepth, this`chokeMemo, this`chokeEnv, this`chokeDuckGain
      ensures ChokeModel() == Duck(e.rates, old(ChokeModel()), rect, memoOn)
    {
      hide Glide, ChainOf, Follow, DuckGain, DepthTarget;
      chokeDepth := Glide(chokeDepth, DepthTarget(choke));
      var x: Chain;
      if memoOn && chokeMemo.Memo? && chokeMemo.key == chokeDepth.value {
        x := chokeMemo.chain;
      } else {
        x := ChainOf(e.rates, chokeDepth.value);
      }
      chokeMemo := Memo(chokeDepth.value, x);
      chokeEnv := Follow(x, chokeEnv, rect);
      chokeDuckGain := DuckGain(x, chokeEnv);
    }

    method TapDecks(p: Played2)
      requires decks == p.decks
      modifies this`dryTap, this`deckTap
      ensures DecksModel() == Tap(old(DecksModel()), p)
    {
      if ctrlCtr == 0 {
        dryTap := Two(Mono(p.outs.a), Mono(p.outs.b));
      }
      deckTap := p.outs;
    }

    // ---- the room's share of a sample --------------------------------------------------

    /** The first sample snaps the mix set before it. */
    method PrimeRoom()
      requires Valid() && reverb != null
      modifies this`revDry, this`revWet, this`revPrimed, this`revAsleep, this`revReturnGain,
               this`duckGain, this`duckTarget, this`duckResidual, repr
      ensures Valid() && RevModel() == Some(Prime(e.room.k, old(RevModel()).value))
      ensures BloomModel() == if old(revPrimed) then old(BloomModel()) else Unducked(old(BloomModel()))
    {
      if !revPrimed {
        SnapMix();
        if wetTarget.a == 0.0 && wetTarget.b == 0.0 {
          reverb.BeginClear();
          revAsleep := true;
        }
        duckGain, duckTarget, duckResidual := 1.0, 1.0, 0.0;
        revReturnGain := 1.0;
        revPrimed := true;
      }
    }

    method SnapMix()
      modifies this`revDry, this`revWet
      ensures revDry == Two(ResetTo(old(revDry).a, dryTarget.a), ResetTo(old(revDry).b, dryTarget.b))
      ensures revWet == Two(ResetTo(old(revWet).a, wetTarget.a), ResetTo(old(revWet).b, wetTarget.b))
    {
      revDry := Two(ResetTo(revDry.a, dryTarget.a), ResetTo(revDry.b, dryTarget.b));
      revWet := Two(ResetTo(revWet.a, wetTarget.a), ResetTo(revWet.b, wetTarget.b));
    }

    method GlideGains()
      requires Valid() && reverb != null
      modifies this`revDry, this`revWet
      ensures Valid() && RevModel() == Some(GlideMix(old(RevModel()).value))
    {
      hide Glide;
      revDry := Two(Glide(revDry.a, dryTarget.a), Glide(revDry.b, dryTarget.b));
      revWet := Two(Glide(revWet.a, wetTarget.a), Glide(revWet.b, wetTarget.b));
    }

    method RideDuck()
      modifies this`duckResidual, this`duckGain
      ensures BloomModel() == RideBloom(old(BloomModel()))
    {
      var keep := if duckTarget < duckGain then duckKeepDown else duckKeepUp;
      duckResidual := duckResidual * keep;
      duckGain := duckTarget + duckResidual;
    }

    method RideReturn(closing: bool)
      modifies this`revReturnGain
      ensures revReturnGain == if closing then Max(0.0, old(revReturnGain) - revReturnStep)
                               else if old(revReturnGain) < 1.0 then Min(1.0, old(revReturnGain) + revReturnStep)
                               else old(revReturnGain)
    {
      if closing {
        revReturnGain := revReturnGain - revReturnStep;
        if revReturnGain < 0.0 {
          revReturnGain := 0.0;
        }
      } else if revReturnGain < 1.0 {
        revReturnGain := revReturnGain + revReturnStep;
        if revReturnGain > 1.0 {
          revReturnGain := 1.0;
        }
      }
    }

    /** The room's return, its ride, and the sleep check. */
    method ReturnRoom(send: Stereo) returns (out: Stereo)
      requires Valid() && reverb != null
      modifies this`revAsleep, this`revReturnGain, repr
      ensures Valid()
      ensures Returned(RevModel().value, out) == Return(e.room.k, old(RevModel()).value, send)
    {
      out := Stereo(0.0, 0.0);
      if !revAsleep {
        var wet := reverb.Process(send);
        var closing := revWet.a.value == 0.0 && revWet.b.value == 0.0 && wetTarget.a == 0.0 && wetTarget.b == 0.0;
        RideReturn(closing);
        out := Stereo(wet.l * revReturnGain, wet.r * revReturnGain);
        if closing && revReturnGain == 0.0 {
          reverb.BeginClear();
          revAsleep := true;
          revReturnGain := 1.0;
        }
      }
    }

    // ---- the sample, the block --------------------------------------------------------------

    /** The decks' half: one step of the raster, both decks, the duck, the taps. */
    method HalfSample(input: Stereo) returns (p: Played2, gains: Two<real>, duck: Two<real>, pan: Two<Stereo>)
      requires ctrlCtr > 0
      modifies this`ctrlCtr, this`decks, this`dryTap, this`deckTap,
               this`chokeDepth, this`chokeMemo, this`chokeEnv, this`chokeDuckGain
      ensures Half(DecksModel(), ChokeModel(), p, gains, duck, pan)
              == DeckHalf(e, old(DecksModel()), old(ChokeModel()), input, memoOn)
    {
      hide MixSpec.PlayDecks, Duck, Rectified;
      ctrlCtr := ctrlCtr - 1;
      gains := e.gains(center);
      p := PlayDecks(input);
      var pri := Priority(choke);
      DuckYielding(Rectified(At(p.outs, pri), At(gains, pri)));
      duck := Put(Two(1.0, 1.0), 1 - pri, chokeDuckGain);
      TapDecks(p);
      pan := if memoOn && panC.Pan? then panC.gains else e.pans(center);
    }

    /** The dry blend under the bloom duck, the sends, the return. */
    method MixSample(p: Played2, gains: Two<real>, pan: Two<Stereo>, duck: Two<real>) returns (out: Stereo)
      requires Valid()
      modifies this`revDry, this`revWet, this`revPrimed, this`revAsleep, this`revReturnGain,
               this`duckGain, this`duckTarget, this`duckResidual, repr
      ensures Valid()
      ensures Mixed(BloomModel(), RevModel(), out)
              == MixDown(e, old(BloomModel()), old(RevModel()), p, gains, pan, duck)
    {
      hide Blend, SendOf, Prime, GlideMix, RideBloom, Return, Unducked;
      if reverb == null {
        out := Blend(p.outs, gains, Two(1.0, 1.0), pan, duck, 1.0);
      } else {
        PrimeRoom();
        GlideGains();
        RideDuck();
        var dry := Blend(p.outs, gains, Two(revDry.a.value, revDry.b.value), pan, duck, duckGain);
        var wet := ReturnRoom(SendOf(p.sends, gains, Two(revWet.a.value, revWet.b.value), duck));
        out := Stereo(dry.l + wet.l, dry.r + wet.r);
      }
    }

    method Tick()
      requires Valid()
      modifies this`decks, this`center, this`panC, this`ctrlCtr, this`duckTarget, this`duckResidual,
               this`revAsleep, repr
      ensures DecksModel() == DeckTick(e, old(DecksModel())).d
      ensures BloomModel() == BloomTick(e, old(BloomModel()), old(RevModel()))
      ensures RevModel() == RevTick(old(RevModel()))
    {
      hide DeckTick, BloomTick, RevTick;
      TickDecks();
      TickBloom();
      TickRoom();
    }

    method TickWhenDue()
      requires Valid()
      modifies this`decks, this`center, this`panC, this`ctrlCtr, this`duckTarget, this`duckResidual,
               this`revAsleep, repr
      ensures Model() == Ticked(e, old(Model()))
    {
      hide DeckTick, BloomTick, RevTick;
      if ctrlCtr == 0 {
        Tick();
      }
    }

    /** The mix and the master ceiling. */
    method Finish(p: Played2, gains: Two<real>, pan: Two<Stereo>, duck: Two<real>) returns (out: Stereo)
      requires Valid()
      modifies this`revDry, this`revWet, this`revPrimed, this`revAsleep, this`revReturnGain,
               this`duckGain, this`duckTarget, this`duckResidual, this`limiter, repr
      ensures var x := MixDown(e, old(BloomModel()), old(RevModel()), p, gains, pan, duck);
              (BloomModel(), RevModel(), (limiter, out)) == (x.bloom, x.rev, e.limit(old(limiter), x.out))
    {
      hide MixDown;
      var x := MixSample(p, gains, pan, duck);
      var (lim, limited) := e.limit(limiter, x);
      limiter := lim;
      out := limited;
    }

    /** The tick when it is due, and the decks' half. */
    method FirstHalf(input: Stereo) returns (p: Played2, gains: Two<real>, duck: Two<real>, pan: Two<Stereo>)
      requires Valid()
      modifies this`center, this`panC, this`ctrlCtr, this`duckTarget, this`duckResidual, this`revAsleep, repr,
               this`decks, this`dryTap, this`deckTap, this`chokeDepth, this`chokeMemo, this`chokeEnv, this`chokeDuckGain
      ensures var t := Ticked(e, old(Model()));
              && Half(DecksModel(), ChokeModel(), p, gains, duck, pan) == DeckHalf(e, t.d, t.choke, input, memoOn)
              && BloomModel() == t.bloom && RevModel() == t.rev && limiter == t.lim
    {
      hide Ticked, DeckHalf;
      TickWhenDue();
      p, gains, duck, pan := HalfSample(input);
    }

    method Sample(input: Stereo) returns (out: Stereo)
      requires Valid()
      modifies this, repr
      ensures var s := Sample1(e, old(Model()), input, memoOn); Model() == s.m && out == s.out
    {
      hide Ticked, DeckHalf, MixDown, Sample1, RevModel;
      ghost var m := Model();
      var p, gains, duck, pan := FirstHalf(input);
      ghost var h := Half(DecksModel(), ChokeModel(), p, gains, duck, pan);
      out := Finish(p, gains, pan, duck);
      SampleMade(e, m, Ticked(e, m), h, input, memoOn);
    }

    /** What a block reads: a missing input is silence. */
    static ghost function Input(inL: array?<real>, inR: array?<real>, n: nat): (xs: seq<Stereo>)
      requires (inL != null ==> inL.Length >= n) && (inR != null ==> inR.Length >= n)
      reads inL, inR
      ensures |xs| == n
    {
      seq(n, i requires 0 <= i < n reads inL, inR =>
        Stereo(if inL == null then 0.0 else inL[i], if inR == null then 0.0 else inR[i]))
    }

    /** The block loop: n samples in, n samples out; an output buffer may be an input
        buffer too. */
    method Process(inL: array?<real>, inR: array?<real>, outL: array<real>, outR: array<real>, n: nat)
      requires Valid() && outL != outR && outL.Length >= n && outR.Length >= n
      requires (inL != null ==> inL.Length >= n) && (inR != null ==> inR.Length >= n)
      requires {inL, inR, outL, outR} !! repr
      modifies this, repr, outL, outR
      ensures var b := MixSpec.Process(e, old(Model()), old(Input(inL, inR, n)), memoOn);
              && Model() == b.m
              && forall i | 0 <= i < n :: outL[i] == b.outs[i].l && outR[i] == b.outs[i].r
    {
      hide InBlock, Model, Valid;
      ghost var xs := Input(inL, inR, n);
      ghost var b := MixSpec.Process(e, Model(), xs, memoOn);
      BlockStarts(inL, inR, outL, outR, xs);
      for i := 0 to n
        invariant InBlock(inL, inR, outL, outR, xs, b, i)
      {
        ProcessOne(inL, inR, outL, outR, i, xs, b);
      }
      BlockEnds(inL, inR, outL, outR, xs, b);
    }

    /** i samples of the block that b describes are done. */
    ghost predicate InBlock(inL: array?<real>, inR: array?<real>, outL: array<real>, outR: array<real>,
                            xs: seq<Stereo>, b: Block, i: nat)
      reads this, repr, inL, inR, outL, outR
    {
      && Valid() && outL != outR && {inL, inR, outL, outR} !! repr && i <= |xs| == |b.outs|
      && Rest(xs, i, b) && Unread(inL, inR, xs, i) && Written(outL, outR, b, i)
    }

    method ProcessOne(inL: array?<real>, inR: array?<real>, outL: array<real>, outR: array<real>,
                      i: nat, ghost xs: seq<Stereo>, ghost b: Block)
      requires InBlock(inL, inR, outL, outR, xs, b, i) && i < |xs|
      modifies this, repr, outL, outR
      ensures InBlock(inL, inR, outL, outR, xs, b, i + 1)
    {
      hide Rest, Model, Valid, Unread, Written;
      var x := ReadInput(inL, inR, i, xs);
      var out := Next(x, xs, i, b);
      Emit(out, inL, inR, outL, outR, i, xs, b);
    }

    lemma BlockStarts(inL: array?<real>, inR: array?<real>, outL: array<real>, outR: array<real>, xs: seq<Stereo>)
      requires Valid() && outL != outR && {inL, inR, outL, outR} !! repr
      requires (inL != null ==> inL.Length >= |xs|) && (inR != null ==> inR.Length >= |xs|)
      requires xs == Input(inL, inR, |xs|) && outL.Length >= |xs| && outR.Length >= |xs|
      ensures InBlock(inL, inR, outL, outR, xs, MixSpec.Process(e, Model(), xs, memoOn), 0)
    {
      hide Model, Valid, Input, Unread, MixSpec.Process;
      UnreadStarts(inL, inR, xs);
      assert xs[0..] == xs;
    }

    static lemma UnreadStarts(inL: array?<real>, inR: array?<real>, xs: seq<Stereo>)
      requires (inL != null ==> inL.Length >= |xs|) && (inR != null ==> inR.Length >= |xs|)
      requires xs == Input(inL, inR, |xs|)
      ensures Unread(inL, inR, xs, 0)
    {
    }

    lemma BlockEnds(inL: array?<real>, inR: array?<real>, outL: array<real>, outR: array<real>,
                    xs: seq<Stereo>, b: Block)
      requires InBlock(inL, inR, outL, outR, xs, b, |xs|)
      ensures Valid() && |xs| == |b.outs| <= outL.Length && |xs| <= outR.Length && Model() == b.m
      ensures forall i | 0 <= i < |xs| :: outL[i] == b.outs[i].l && outR[i] == b.outs[i].r
    {
      hide Model, Valid;
      assert xs[|xs|..] == [];
    }

    /** From sample i on the inputs are still what the block was given. */
    static ghost predicate Unread(inL: array?<real>, inR: array?<real>, xs: seq<Stereo>, i: nat)
      reads inL, inR
    {
      && (inL != null ==> inL.Length >= |xs|) && (inR != null ==> inR.Length >= |xs|)
      && forall k | i <= k < |xs| ::
           && xs[k].l == (if inL == null then 0.0 else inL[k])
           && xs[k].r == (if inR == null then 0.0 else inR[k])
    }

    /** Up to sample i the outputs are those of b. */
    static ghost predicate Written(outL: array<real>, outR: array<real>, b: Block, i: nat)
      reads outL, outR
    {
      && i <= |b.outs| <= outL.Length && |b.outs| <= outR.Length
      && forall k | 0 <= k < i :: outL[k] == b.outs[k].l && outR[k] == b.outs[k].r
    }

    static method ReadInput(inL: array?<real>, inR: array?<real>, i: nat, ghost xs: seq<Stereo>) returns (x: Stereo)
      requires i < |xs| && Unread(inL, inR, xs, i)
      ensures x == xs[i]
    {
      var l, r := 0.0, 0.0;
      if inL != null { l := inL[i]; }
      if inR != null { r := inR[i]; }
      x := Stereo(l, r);
    }

    static method Emit(out: Stereo, inL: array?<real>, inR: array?<real>, outL: array<real>, outR: array<real>,
                       i: nat, ghost xs: seq<Stereo>, ghost b: Block)
      requires outL != outR && i < |xs| == |b.outs| && out == b.outs[i]
      requires Unread(inL, inR, xs, i) && Written(outL, outR, b, i)
      modifies outL, outR
      ensures Unread(inL, inR, xs, i + 1) && Written(outL, outR, b, i + 1)
    {
      outL[i] := out.l;
      outR[i] := out.r;
    }

    method Next(x: Stereo, ghost xs: seq<Stereo>, ghost i: nat, ghost b: Block) returns (out: Stereo)
      requires Valid() && i < |xs| == |b.outs| && xs[i] == x && Rest(xs, i, b)
      modifies this, repr
      ensures Rest(xs, i + 1, b) && out == b.outs[i]
    {
      hide Sample1, Model;
      assert xs[i..][0] == x && xs[i..][1..] == xs[i + 1..];
      out := Sample(x);
    }

    /** From sample i on, the rest of the block will give the rest of b. */
    ghost predicate Rest(xs: seq<Stereo>, i: nat, b: Block)
      requires Valid() && i <= |xs|
      reads this, repr
    {
      |b.outs| == |xs| && MixSpec.Process(e, Model(), xs[i..], memoOn) == Block(b.m, b.outs[i..])
    }
  }
}
