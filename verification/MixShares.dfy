/**
  Who is heard, and how loud: every sample of the mix told deck by deck. Which deck
  CHOKE makes yield, what that costs it and what it leaves the other, where each
  deck's own gains go, and what the two decks are handed before they run.
 */
module MixShares {
  import opened RealLemmas
  import opened Options
  import opened MixSmooth
  import opened MixRoom
  import opened MixSleep
  import opened MixDucks
  import opened MixSpec
  import opened MixRuns

  function Plus(x: Stereo, y: Stereo): Stereo { Stereo(x.l + y.l, x.r + y.r) }

  /** One deck's part of the dry blend: its signal under its pan, at the product of
      its gains; and its part of what the room is sent, which has no pan and no ride. */
  function Part(x: Stereo, pan: Stereo, gain: real, fade: real, duck: real, ride: real): Stereo {
    var level := gain * fade * duck * ride;
    Stereo(x.l * pan.l * level, x.r * pan.r * level)
  }

  function SentPart(x: Stereo, gain: real, fade: real, duck: real): Stereo {
    var level := gain * fade * duck;
    Stereo(x.l * level, x.r * level)
  }

  /** CHOKE right of noon: deck A yields. At noon or left of it: deck B does. */
  predicate Yields(knob: real, p: nat) {
    if p == 0 then knob > 0.0 else knob <= 0.0
  }

  /** What CHOKE leaves of deck p: all of the deck with priority. */
  function Ducked(c: Choke, p: nat): real {
    if Yields(c.knob, p) then c.gain else 1.0
  }

  /** A sample's crossfade and ride: those of a mix without a room are 1. */
  function DryGain(m: Mix, p: nat): real { if m.rev.None? then 1.0 else At(m.rev.value.dry, p).value }

  function Ridden(m: Mix): real { if m.rev.None? then 1.0 else m.bloom.gain }

  /** Deck p's share of the dry blend: its output under its own level, crossfade, pan,
      what CHOKE leaves of it, and the ride. */
  function DryShare(e: Engine, s: Sampled, p: nat): Stereo {
    Part(At(s.seen.outs, p), At(e.pans(s.m.d.center), p),
         At(e.gains(s.m.d.center), p), DryGain(s.m, p), Ducked(s.m.choke, p), Ridden(s.m))
  }

  /** Deck p's share of what the room is sent. */
  function SendShare(e: Engine, s: Sampled, p: nat): Stereo
    requires s.m.rev.Some?
  {
    SentPart(At(s.seen.sends, p),
             At(e.gains(s.m.d.center), p), At(s.m.rev.value.wet, p).value, Ducked(s.m.choke, p))
  }

  /** The whole of a sample: both shares, and what the room returns of both sends. */
  ghost predicate IsSum(e: Engine, m: Mix, s: Sampled) {
    var dry := Plus(DryShare(e, s, 0), DryShare(e, s, 1));
    match Ticked(e, m).rev
    case None => s.m.rev.None? && (s.m.lim, s.out) == e.limit(m.lim, dry)
    case Some(v) =>
      && s.m.rev.Some?
      && var r := OneSample(e.room.k, v, Plus(SendShare(e, s, 0), SendShare(e, s, 1)));
         s.m.rev.value == r.v && (s.m.lim, s.out) == e.limit(m.lim, Plus(dry, r.out))
  }

  lemma {:induction false} Regrouped(x: real, gain: real, fade: real, pan: real, duck: real, ride: real)
    ensures x * gain * fade * pan * duck * ride == x * pan * (gain * fade * duck * ride)
  {
    var y := x * pan;
    assert x * gain * fade * pan == y * gain * fade;
    assert y * gain * fade * duck * ride == y * (gain * fade * duck * ride);
  }

  lemma {:induction false} TwoTerms(x: real, y: real, r: real)
    ensures (x + y) * r == x * r + y * r
  {
  }

  lemma {:induction false} BlendIsTwoParts(outs: Two<Stereo>, gains: Two<real>, dry: Two<real>, pan: Two<Stereo>,
                                           duck: Two<real>, ride: real)
    ensures Blend(outs, gains, dry, pan, duck, ride)
         == Plus(Part(outs.a, pan.a, gains.a, dry.a, duck.a, ride), Part(outs.b, pan.b, gains.b, dry.b, duck.b, ride))
  {
    Regrouped(outs.a.l, gains.a, dry.a, pan.a.l, duck.a, ride);
    Regrouped(outs.a.r, gains.a, dry.a, pan.a.r, duck.a, ride);
    Regrouped(outs.b.l, gains.b, dry.b, pan.b.l, duck.b, ride);
    Regrouped(outs.b.r, gains.b, dry.b, pan.b.r, duck.b, ride);
    TwoTerms(outs.a.l * gains.a * dry.a * pan.a.l * duck.a, outs.b.l * gains.b * dry.b * pan.b.l * duck.b, ride);
    TwoTerms(outs.a.r * gains.a * dry.a * pan.a.r * duck.a, outs.b.r * gains.b * dry.b * pan.b.r * duck.b, ride);
  }

  lemma {:induction false} SendIsTwoParts(sends: Two<Stereo>, gains: Two<real>, wet: Two<real>, duck: Two<real>)
    ensures SendOf(sends, gains, wet, duck)
         == Plus(SentPart(sends.a, gains.a, wet.a, duck.a), SentPart(sends.b, gains.b, wet.b, duck.b))
  {
    Times3(sends.a.l, gains.a, wet.a, duck.a);
    Times3(sends.a.r, gains.a, wet.a, duck.a);
    Times3(sends.b.l, gains.b, wet.b, duck.b);
    Times3(sends.b.r, gains.b, wet.b, duck.b);
  }

  lemma {:induction false} Times3(x: real, a: real, b: real, c: real)
    ensures x * a * b * c == x * (a * b * c)
  {
  }

  /** Every sample of every state is that sum. */
  lemma {:induction false} SampleIsSum(e: Engine, m: Mix, input: Stereo, memoOn: bool)
    requires memoOn ==> MemosOk(e, m)
    ensures IsSum(e, m, Sample1(e, m, input, memoOn))
  {
    hide OneSample, Part, SentPart, Blend, SendOf, Duck, PlayDecks, BloomTick, RevTick,
         Gravity, Rectified, RideBloom, MemoOk, Unducked, Prime, GlideMix;
    var s, t := Sample1(e, m, input, memoOn), Ticked(e, m);
    var h := DeckHalf(e, t.d, t.choke, input, memoOn);
    assert h.gains == e.gains(s.m.d.center) && h.pan == e.pans(s.m.d.center);
    KeepsKnob(e.rates, t.choke, Rectified(At(h.p.outs, Priority(t.choke.knob)),
                                          At(h.gains, Priority(t.choke.knob))), memoOn);
    assert h.duck == Two(Ducked(s.m.choke, 0), Ducked(s.m.choke, 1));
    if t.rev.None? {
      BlendIsTwoParts(h.p.outs, h.gains, Two(1.0, 1.0), h.pan, h.duck, 1.0);
    } else {
      var v := t.rev.value;
      var glided := GlideMix(Prime(e.room.k, v));
      PlaysGlided(e.room.k, v, SentTo(e, v, h.p, h.gains, h.duck));
      BlendIsTwoParts(h.p.outs, h.gains, Values(glided.dry), h.pan, h.duck, s.m.bloom.gain);
      SendIsTwoParts(h.p.sends, h.gains, Values(glided.wet), h.duck);
    }
  }

  lemma {:induction false} KeepsKnob(r: Rates, c: Choke, rect: real, memoOn: bool)
    ensures Duck(r, c, rect, memoOn).knob == c.knob
  {
  }

  lemma {:induction false} PlaysGlided(k: Kernel, v: Rev, send: Stereo)
    ensures var r, g := OneSample(k, v, send).v, GlideMix(Prime(k, v)); r.dry == g.dry && r.wet == g.wet
  {
    hide GlideMix, Prime, Ride;
  }

  /** A reachable state remembers only what it would compute. */
  lemma {:induction false} MemosInRuns(e: Engine, m: Mix, xs: seq<Moment>)
    requires MemosOk(e, m) && PansKept(e, xs)
    ensures MemosOk(e, Run(e, m, xs, true))
    decreases |xs|
  {
    hide Sample1, MemosOk;
    if xs != [] {
      assert PansKept(e, xs[1..]) by {
        assert forall i | 0 <= i < |xs[1..]| :: xs[1..][i] == xs[i + 1];
      }
      MemosAdvance(e, m, xs[0]);
      MemosInRuns(e, Advance(e, m, xs[0], true), xs[1..]);
    }
  }

  lemma {:induction false} MemosAdvance(e: Engine, m: Mix, x: Moment)
    requires MemosOk(e, m)
    requires x.Between? && x.ev.SetCenter? ==> forall c: Center :: e.pans(x.ev.g(c)) == e.pans(c)
    ensures MemosOk(e, Advance(e, m, x, true))
  {
    hide Sample1, MemosOk;
    SameButForMemos(m);
    if x.One? {
      SampleMemos(e, m, m, x.input);
    } else {
      HostMemos(e, m, m, x.ev);
    }
  }

  lemma {:induction false} SameButForMemos(m: Mix)
    ensures ButForMemos(m, m)
  {
  }

  /** After every run from boot the next sample is that sum. */
  lemma {:induction false} EverySampleIsSum(e: Engine, start: Start, xs: seq<Moment>, input: Stereo)
    requires StartOk(e, start) && PansKept(e, xs)
    ensures var m := Run(e, Boot(e, start), xs, true); IsSum(e, m, Sample1(e, m, input, true))
  {
    hide Sample1, IsSum, MemosOk, Run;
    BootMemos(e, start);
    MemosInRuns(e, Boot(e, start), xs);
    SampleIsSum(e, Run(e, Boot(e, start), xs, true), input, true);
  }

  lemma {:induction false} BootMemos(e: Engine, start: Start)
    requires StartOk(e, start)
    ensures MemosOk(e, Boot(e, start))
  {
  }

  // ---- what CHOKE costs ---------------------------------------------------------------

  /** The same sample with nothing ducked. */
  function Unchoked(s: Sampled): Sampled { s.(m := s.m.(choke := s.m.choke.(gain := 1.0))) }

  function Times(k: real, x: Stereo): Stereo { Stereo(k * x.l, k * x.r) }

  /** CHOKE takes nothing from the deck it gives priority, neither of the blend nor of
      the room's send; of the other one it leaves gain times both. */
  lemma {:induction false} ChokeTakesFromOne(e: Engine, s: Sampled, p: nat)
    requires p < 2
    ensures Yields(s.m.choke.knob, p) <==> !Yields(s.m.choke.knob, 1 - p)
    ensures var k := if Yields(s.m.choke.knob, p) then s.m.choke.gain else 1.0;
            && DryShare(e, s, p) == Times(k, DryShare(e, Unchoked(s), p))
            && (s.m.rev.Some? ==> SendShare(e, s, p) == Times(k, SendShare(e, Unchoked(s), p)))
  {
    hide At;
    var k := Ducked(s.m.choke, p);
    var out, pan, gain := At(s.seen.outs, p), At(e.pans(s.m.d.center), p), At(e.gains(s.m.d.center), p);
    Pulled(out.l * pan.l, gain, DryGain(s.m, p), k, Ridden(s.m));
    Pulled(out.r * pan.r, gain, DryGain(s.m, p), k, Ridden(s.m));
    if s.m.rev.Some? {
      var sent, wet := At(s.seen.sends, p), At(s.m.rev.value.wet, p).value;
      Pulled(sent.l, gain, wet, k, 1.0);
      Pulled(sent.r, gain, wet, k, 1.0);
    }
  }

  lemma {:induction false} Pulled(x: real, gain: real, fade: real, k: real, ride: real)
    ensures x * (gain * fade * k * ride) == k * (x * (gain * fade * 1.0 * ride))
  {
    var y := gain * fade;
    assert y * 1.0 == y;
    Swapped(y, k, ride);
    var z := y * ride;
    assert x * (k * z) == k * (x * z);
  }

  lemma {:induction false} Swapped(y: real, k: real, ride: real)
    ensures y * k * ride == k * (y * ride)
  {
  }

  /** How loud a deck is: the louder channel under its level. */
  predicate Loudness(x: real, out: Stereo, gain: real) {
    && x >= Abs(out.l * gain) && x >= Abs(out.r * gain)
    && (x == Abs(out.l * gain) || x == Abs(out.r * gain))
  }

  /** The follower listens to the deck with priority, after that deck's own level. */
  lemma {:induction false} FollowerHearsPriority(e: Engine, m: Mix, input: Stereo, memoOn: bool, p: nat)
    requires p < 2 && !Yields(m.choke.knob, p)
    ensures var s := Sample1(e, m, input, memoOn);
            exists x :: Loudness(x, At(s.seen.outs, p), At(e.gains(s.m.d.center), p))
                        && s.m.choke == Duck(e.rates, m.choke, x, memoOn)
  {
    hide MixDown, Duck, PlayDecks, BloomTick, RevTick, Gravity;
    var s := Sample1(e, m, input, memoOn);
    assert p == Priority(m.choke.knob);
    var out, gain := At(s.seen.outs, p), At(e.gains(s.m.d.center), p);
    assert Loudness(Rectified(out, gain), out, gain);
  }

  // ---- the decks of a sample ----------------------------------------------------------

  /** When the deck with priority blocks the other one's events: never up to half
      travel; from there while it holds a note or drones; past three quarters also
      while a voice of it is still heard. */
  predicate BlocksEvents(e: Engine, first: Deck, travel: real) {
    if travel <= 0.5 then false
    else e.gate(first) || e.flow(first) || (travel > 0.75 && e.voiceEnv(first) > 0.0001)
  }

  /** Right of noon deck B runs first and freely, and A under its window; else the
      other way round. Either is handed its sibling's previous sample before both run. */
  lemma {:induction false} PriorityRunsFree(e: Engine, decks: Two<Deck>, taps: Two<Stereo>, knob: real, input: Stereo)
    ensures var p := PlayDecks(e, decks, taps, knob, input);
            var a, b := e.setDeckIn(decks.a, taps.b), e.setDeckIn(decks.b, taps.a);
            if knob > 0.0 then
              var first := e.process(e.setInhibit(b, false), input);
              var second := e.process(e.setInhibit(a, BlocksEvents(e, first.deck, knob)), input);
              p == Played2(Two(second.deck, first.deck), Two(taps.b, taps.a),
                           Two(second.out, first.out), Two(second.send, first.send))
            else
              var first := e.process(e.setInhibit(a, false), input);
              var second := e.process(e.setInhibit(b, BlocksEvents(e, first.deck, -knob)), input);
              p == Played2(Two(first.deck, second.deck), Two(taps.b, taps.a),
                           Two(first.out, second.out), Two(first.send, second.send))
  {
  }

  /** A control tick hands either deck the other one's last mono and its rhythm. */
  lemma {:induction false} TickCrosses(e: Engine, d: Decks)
    ensures var (center, decks) := e.update(d.center, d.decks);
            var b := e.setOtherTap(decks.b, d.dryTap.a);
            var a := e.setRhythm(e.setOtherTap(decks.a, d.dryTap.b), e.rhythm(b));
            var t := DeckTick(e, d).d;
            && t.center == center && t.pan == Pan(e.pans(center)) && t.ctr == 96
            && t.decks == Gravity(e, Two(a, e.setRhythm(b, e.rhythm(a))), d.pull)
            && t.deckTap == d.deckTap && t.pull == d.pull
            && DeckTick(e, d).taps == Two(d.dryTap.b, d.dryTap.a)
  {
    hide Gravity;
  }

  /** At boot both buses are silent. */
  lemma {:induction false} FirstSampleHearsNothing(e: Engine, start: Start, input: Stereo, memoOn: bool)
    requires StartOk(e, start)
    ensures var s, zero := Sample1(e, Boot(e, start), input, memoOn), Stereo(0.0, 0.0);
            s.seen.deckIn == Two(zero, zero) && s.seen.otherTap == Some(Two(0.0, 0.0))
  {
    hide MixDown, Duck, PlayDecks, BloomTick, RevTick, Gravity, BootRev;
    var m := Boot(e, start);
    Handed(e, Ticked(e, m).d.decks, m.d.deckTap, m.choke.knob, input);
  }

  // ---- the bloom duck of a sample ---------------------------------------------------------

  /** What the bloom duck aims at, fed forward from what the room returns. */
  function Aim(e: Engine, m: Mix): real {
    if m.d.ctr != 0 then m.bloom.target
    else if m.rev.None? then 1.0
    else BloomTarget(m.bloom.armed, e.room.k.level(m.rev.value.room.loop))
  }

  /** The aim moves on control ticks alone, and the ride goes on from where the gain
      was; the first sample of a room starts unducked. */
  lemma {:induction false} BloomFollowsTheRoom(e: Engine, m: Mix, input: Stereo, memoOn: bool)
    requires BloomOk(m.bloom) && m.rev.Some?
    ensures var b := Sample1(e, m, input, memoOn).m.bloom;
            var keep := if Aim(e, m) < m.bloom.gain then b.keepDown else b.keepUp;
            if m.rev.value.primed then
              b.target == Aim(e, m) && b.gain == Aim(e, m) + (m.bloom.gain - Aim(e, m)) * keep
            else
              b.target == 1.0 && b.gain == 1.0 && b.residual == 0.0
  {
    hide DeckHalf, DeckTick, Blend, SentTo, OneSample, GlideMix, Prime, BloomTarget;
    ClearKeepsPrimed(m.rev.value);
    Still(m.bloom.keepUp);
  }

  lemma {:induction false} ClearKeepsPrimed(v: Rev)
    ensures ClearTick(v).primed == v.primed
  {
  }

  lemma {:induction false} Still(k: real)
    ensures 0.0 * k == 0.0
  {
  }

  /** The boot rates: the return fades in 0.15 s, the crossfades glide in 0.01 s, or in
      one sample where that is longer, and both decks start a quarter of the way into
      the room. */
  lemma {:induction false} BootRates(s: Setup, sampleRate: real)
    requires sampleRate > 0.0
    ensures var v := BootRev(s, sampleRate);
            && v.step * (0.15 * sampleRate) == 1.0
            && (if sampleRate >= 100.0 then v.dry.a.kof * (0.010 * sampleRate) == 1.0 else v.dry.a.kof == 1.0)
            && v.dry.a == v.dry.b == v.wet.a == v.wet.b
            && (v.dryTarget, v.wetTarget) == (var (dry, wet) := s.curve(0.25); (Two(dry, dry), Two(wet, wet)))
  {
    Inverse(0.15 * sampleRate);
    Inverse(0.010 * sampleRate);
  }

  /** An initialised instrument ducks, binds and fades nothing: CHOKE and PULL stand at
      noon, the room is empty and awake, and its mix waits for the first sample. */
  lemma {:induction false} BootIsNeutral(e: Engine, start: Start)
    requires StartOk(e, start)
    ensures var m := Boot(e, start);
            && m.choke.knob == 0.0 && m.choke.env == 0.0 && m.choke.depth.value == 0.0 && m.choke.gain == 1.0
            && m.d.pull == 0.0 && m.d.pan.NoPan? && m.choke.memo.NoMemo?
            && (m.rev.Some? <==> start.hasRoom)
            && (m.rev.Some? ==> var v := m.rev.value;
                                !v.primed && !v.asleep && v.gain == 1.0
                                && v.room == Emptied(e.room.k, v.room) && v.room.knobs == e.room.k.boot)
  {
    hide GlideRate;
  }

  lemma {:induction false} Inverse(x: real)
    requires x > 0.0
    ensures 1.0 / x * x == 1.0
  {
  }

  // ---- the host's knobs -----------------------------------------------------------------

  predicate IsClamped(x: real, y: real) {
    if y < -1.0 then x == -1.0 else if y > 1.0 then x == 1.0 else x == y
  }

  /** A knob reaches its own place, clamped, and nothing else. */
  lemma {:induction false} KnobsReachTheirPlace(e: Engine, m: Mix, x: real, p: nat, knobs: Knobs)
    ensures var n := Host(e, m, SetChoke(x));
            IsClamped(n.choke.knob, x) && n == m.(choke := m.choke.(knob := n.choke.knob))
    ensures var n := Host(e, m, SetPull(x));
            IsClamped(n.d.pull, x) && n == m.(d := m.d.(pull := n.d.pull))
    ensures var n := Host(e, m, SetDecay(knobs, x));
            && (n.bloom.armed <==> x > 1.0) && n == m.(bloom := m.bloom.(armed := n.bloom.armed), rev := n.rev)
            && (m.rev.None? ==> n.rev.None?)
            && (m.rev.Some? ==> n.rev == Some(m.rev.value.(room := m.rev.value.room.(knobs := knobs))))
  {
  }
}
