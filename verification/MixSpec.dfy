/**
  The mix loop on values: one sample through both decks, the cross-deck buses, the
  ducks, the room and the limiter, with the control tick on every 96th sample. The
  decks, the centre section and the kernels are machines known by their interface.
 */
module MixSpec {
  import opened MixSmooth
  import opened Options
  import opened MixRoom
  import opened MixSleep
  import opened MixDucks

  const CONTROL_INTERVAL: nat := 96
  const PULL_DEAD: real := 0.03
  const DECAY_ENV: real := 0.0001

  type Deck(!new)
  type Center(!new)
  type Rhythm(!new)
  type Limiter(!new)

  datatype DeckOut = DeckOut(deck: Deck, out: Stereo, send: Stereo)

  datatype Engine = Engine(
    process: (Deck, Stereo) -> DeckOut,
    setInhibit: (Deck, bool) -> Deck,
    setDeckIn: (Deck, Stereo) -> Deck,
    setOtherTap: (Deck, real) -> Deck,
    setRhythm: (Deck, Rhythm) -> Deck,
    setGravity: (Deck, nat, real) -> Deck,
    gate: Deck -> bool, flow: Deck -> bool, voiceEnv: Deck -> real,
    chord: Deck -> nat, rhythm: Deck -> Rhythm,
    update: (Center, Two<Deck>) -> (Center, Two<Deck>),
    gains: Center -> Two<real>, pans: Center -> Two<Stereo>,
    limit: (Limiter, Stereo) -> (Limiter, Stereo),
    rates: Rates, room: Setup)

  datatype PanMemo = NoPan | Pan(gains: Two<Stereo>)

  /** Both decks and what passes between them. */
  datatype Decks = Decks(
    decks: Two<Deck>, center: Center, pan: PanMemo,
    dryTap: Two<real>, deckTap: Two<Stereo>, ctr: nat, pull: real)

  datatype Mix = Mix(d: Decks, choke: Choke, bloom: Bloom, rev: Option<Rev>, lim: Limiter)

  /** What an instrument starts from: its decks, centre and limiter, whether it has a
      room, the two bloom decays, the sample rate. */
  datatype Start = Start(decks: Two<Deck>, center: Center, lim: Limiter, hasRoom: bool,
                         keepDown: real, keepUp: real, sampleRate: real)

  /** The decays and the follower's rates are exponentials of negative numbers. */
  predicate StartOk(e: Engine, s: Start) {
    0.0 <= s.keepDown <= 1.0 && 0.0 <= s.keepUp <= 1.0 && s.sampleRate > 0.0 && RatesOk(e.rates)
  }

  /** An initialised instrument: nothing ducked, nothing remembered, a control tick due. */
  function Boot(e: Engine, s: Start): Mix
    requires s.sampleRate > 0.0
  {
    var silent := Stereo(0.0, 0.0);
    Mix(Decks(s.decks, s.center, NoPan, Two(0.0, 0.0), Two(silent, silent), 0, 0.0),
        BootChoke(GlideRate(MIX_GLIDE_SECONDS, s.sampleRate)), BootBloom(s.keepDown, s.keepUp),
        if s.hasRoom then Some(BootRev(e.room, s.sampleRate)) else None, s.lim)
  }

  function Mono(x: Stereo): real { 0.5 * (x.l + x.r) }

  // ---- the control tick ---------------------------------------------------------------

  /** Chord gravity: the deck PULL points away from follows the other one. */
  function Gravity(e: Engine, decks: Two<Deck>, pull: real): Two<Deck> {
    var amt := Abs(pull);
    if amt <= PULL_DEAD then Two(e.setGravity(decks.a, 0, 0.0), e.setGravity(decks.b, 0, 0.0))
    else
      var lead := if pull < 0.0 then 0 else 1;
      var follower := 1 - lead;
      var prob := (amt - PULL_DEAD) / (1.0 - PULL_DEAD);
      var d1 := Put(decks, follower, e.setGravity(At(decks, follower), e.chord(At(decks, lead)), prob));
      Put(d1, lead, e.setGravity(At(d1, lead), 0, 0.0))
  }

  /** The decks after a control tick, and what it handed each of its sibling. */
  datatype Crossed = Crossed(d: Decks, taps: Two<real>)

  /** The centre, then each deck's view of its sibling. */
  function DeckTick(e: Engine, d: Decks): Crossed {
    var (center, d0) := e.update(d.center, d.decks);
    var taps := Two(d.dryTap.b, d.dryTap.a);
    var d1 := Two(e.setOtherTap(d0.a, taps.a), e.setOtherTap(d0.b, taps.b));
    var a := e.setRhythm(d1.a, e.rhythm(d1.b));
    var d2 := Two(a, e.setRhythm(d1.b, e.rhythm(a)));
    Crossed(d.(decks := Gravity(e, d2, d.pull), center := center, pan := Pan(e.pans(center)),
               ctr := CONTROL_INTERVAL), taps)
  }

  /** The bloom duck's target, fed forward from the room's own return. */
  function BloomTick(e: Engine, bloom: Bloom, rev: Option<Rev>): Bloom {
    Retarget(bloom, if rev.None? then 1.0 else BloomTarget(bloom.armed, e.room.k.level(rev.value.room.loop)))
  }

  function RevTick(rev: Option<Rev>): Option<Rev> {
    if rev.None? then None else Some(ClearTick(rev.value))
  }

  function Tick(e: Engine, m: Mix): Mix {
    m.(d := DeckTick(e, m.d).d, bloom := BloomTick(e, m.bloom, m.rev), rev := RevTick(m.rev))
  }

  // ---- the decks of one sample ----------------------------------------------------------

  /** The deck CHOKE gives priority; the other one yields. */
  function Priority(knob: real): nat { if knob > 0.0 then 1 else 0 }

  /** Whether the priority deck blocks the other one's events. */
  predicate Blocks(e: Engine, deck: Deck, amt: real) {
    amt > 0.5 && (e.gate(deck) || e.flow(deck) || (amt > 0.75 && e.voiceEnv(deck) > DECAY_ENV))
  }

  /** The decks after a sample: what they were handed of each other, what they put out. */
  datatype Played2 = Played2(decks: Two<Deck>, ins: Two<Stereo>, outs: Two<Stereo>, sends: Two<Stereo>)

  /** Both buses are read before either deck runs; then the priority deck, then the
      yielding one. */
  function PlayDecks(e: Engine, decks: Two<Deck>, taps: Two<Stereo>, knob: real, input: Stereo): Played2 {
    var pri := Priority(knob);
    var yld := 1 - pri;
    var ins := Two(taps.b, taps.a);
    var d0 := Two(e.setDeckIn(decks.a, ins.a), e.setDeckIn(decks.b, ins.b));
    var p := e.process(e.setInhibit(At(d0, pri), false), input);
    var y := e.process(e.setInhibit(At(d0, yld), Blocks(e, p.deck, Abs(knob))), input);
    if pri == 0 then Played2(Two(p.deck, y.deck), ins, Two(p.out, y.out), Two(p.send, y.send))
    else Played2(Two(y.deck, p.deck), ins, Two(y.out, p.out), Two(y.send, p.send))
  }

  /** The priority deck's level behind its mix gain. */
  function Rectified(out: Stereo, gain: real): real { Max(Abs(out.l * gain), Abs(out.r * gain)) }

  /** The sample's taps: the audio bus always, the control bus with the last sample
      of a control block. */
  function Tap(d: Decks, p: Played2): Decks {
    d.(decks := p.decks, deckTap := p.outs,
       dryTap := if d.ctr == 0 then Two(Mono(p.outs.a), Mono(p.outs.b)) else d.dryTap)
  }

  // ---- the mix ----------------------------------------------------------------------------

  function Blend(outs: Two<Stereo>, gains: Two<real>, dry: Two<real>, pan: Two<Stereo>,
                 duck: Two<real>, ride: real): Stereo {
    Stereo((outs.a.l * gains.a * dry.a * pan.a.l * duck.a + outs.b.l * gains.b * dry.b * pan.b.l * duck.b) * ride,
           (outs.a.r * gains.a * dry.a * pan.a.r * duck.a + outs.b.r * gains.b * dry.b * pan.b.r * duck.b) * ride)
  }

  /** The sends read the gains without the pan. */
  function SendOf(sends: Two<Stereo>, gains: Two<real>, wet: Two<real>, duck: Two<real>): Stereo {
    Stereo(sends.a.l * gains.a * wet.a * duck.a + sends.b.l * gains.b * wet.b * duck.b,
           sends.a.r * gains.a * wet.a * duck.a + sends.b.r * gains.b * wet.b * duck.b)
  }

  function Values(x: Two<OnePole>): Two<real> { Two(x.a.value, x.b.value) }

  datatype Mixed = Mixed(bloom: Bloom, rev: Option<Rev>, out: Stereo)

  /** What the room is sent this sample. */
  function SentTo(e: Engine, v: Rev, p: Played2, gains: Two<real>, duck: Two<real>): Stereo {
    SendOf(p.sends, gains, Values(GlideMix(Prime(e.room.k, v)).wet), duck)
  }

  function MixDown(e: Engine, b: Bloom, rev: Option<Rev>, p: Played2,
                   gains: Two<real>, pan: Two<Stereo>, duck: Two<real>): Mixed {
    match rev
    case None => Mixed(b, None, Blend(p.outs, gains, Two(1.0, 1.0), pan, duck, 1.0))
    case Some(v) =>
      var bloom := RideBloom(if v.primed then b else Unducked(b));
      var v1 := GlideMix(Prime(e.room.k, v));
      var dry := Blend(p.outs, gains, Values(v1.dry), pan, duck, bloom.gain);
      var r := OneSample(e.room.k, v, SentTo(e, v, p, gains, duck));
      Mixed(bloom, Some(r.v), Stereo(dry.l + r.out.l, dry.r + r.out.r))
  }

  /** What a sample shows of itself: what a control tick at its top handed each deck of
      its sibling, None without one; what the audio bus did; what both put out. */
  datatype Seen = Seen(otherTap: Option<Two<real>>, deckIn: Two<Stereo>, outs: Two<Stereo>, sends: Two<Stereo>)

  datatype Sampled = Sampled(m: Mix, out: Stereo, seen: Seen)

  /** The decks' half of a sample, after the tick. */
  datatype Half = Half(d: Decks, choke: Choke, p: Played2, gains: Two<real>, duck: Two<real>, pan: Two<Stereo>)

  function DeckHalf(e: Engine, d: Decks, c: Choke, input: Stereo, memoOn: bool): Half
    requires d.ctr > 0
  {
    var gains := e.gains(d.center);
    var pri := Priority(c.knob);
    var p := PlayDecks(e, d.decks, d.deckTap, c.knob, input);
    var choke := Duck(e.rates, c, Rectified(At(p.outs, pri), At(gains, pri)), memoOn);
    var duck := Put(Two(1.0, 1.0), 1 - pri, choke.gain);
    var pan := if memoOn && d.pan.Pan? then d.pan.gains else e.pans(d.center);
    Half(Tap(d.(ctr := d.ctr - 1), p), choke, p, gains, duck, pan)
  }

  function Ticked(e: Engine, m: Mix): (t: Mix)
    ensures t.d.ctr > 0 && t.rev.Some? == m.rev.Some?
  {
    if m.d.ctr == 0 then Tick(e, m) else m
  }

  function Sample1(e: Engine, m: Mix, input: Stereo, memoOn: bool): Sampled {
    var t := Ticked(e, m);
    var h := DeckHalf(e, t.d, t.choke, input, memoOn);
    var x := MixDown(e, t.bloom, t.rev, h.p, h.gains, h.pan, h.duck);
    var (lim, out) := e.limit(t.lim, x.out);
    Sampled(Mix(h.d, h.choke, x.bloom, x.rev, lim), out,
            Seen(if m.d.ctr == 0 then Some(DeckTick(e, m.d).taps) else None,
                 h.p.ins, h.p.outs, h.p.sends))
  }

  // ---- blocks -------------------------------------------------------------------------------

  datatype Block = Block(m: Mix, outs: seq<Stereo>)

  /** One call of process(). */
  function Process(e: Engine, m: Mix, input: seq<Stereo>, memoOn: bool): (b: Block)
    ensures |b.outs| == |input|
    decreases |input|
  {
    if input == [] then Block(m, [])
    else
      var s := Sample1(e, m, input[0], memoOn);
      var rest := Process(e, s.m, input[1..], memoOn);
      Block(rest.m, [s.out] + rest.outs)
  }

  /** How a stretch of samples is cut into calls does not matter. */
  lemma {:induction false} BlocksDoNotMatter(e: Engine, m: Mix, x: seq<Stereo>, y: seq<Stereo>, memoOn: bool)
    ensures var first := Process(e, m, x, memoOn);
            var second := Process(e, first.m, y, memoOn);
            Process(e, m, x + y, memoOn) == Block(second.m, first.outs + second.outs)
    decreases |x|
  {
    hide Sample1;
    if x == [] {
      assert x + y == y;
      assert Process(e, m, y, memoOn).outs == [] + Process(e, m, y, memoOn).outs;
    } else {
      assert (x + y)[0] == x[0] && (x + y)[1..] == x[1..] + y;
      BlocksDoNotMatter(e, Sample1(e, m, x[0], memoOn).m, x[1..], y, memoOn);
    }
  }

  // ---- what the host may do between calls -------------------------------------------------------

  datatype Event =
    | SetChoke(c: real)
    | SetPull(x: real)
    | SetMix(p: nat, n: real)
    | SetRoom(knobs: Knobs)
    | SetDecay(knobs: Knobs, loopGain: real)
    | SetDecks(f: Two<Deck> -> Two<Deck>)
    | SetCenter(g: Center -> Center)

  function Host(e: Engine, m: Mix, ev: Event): Mix {
    match ev
    case SetChoke(c) => m.(choke := m.choke.(knob := Clamp(c, -1.0, 1.0)))
    case SetPull(x) => m.(d := m.d.(pull := Clamp(x, -1.0, 1.0)))
    case SetMix(p, n) =>
      if m.rev.None? then m
      else m.(rev := Some(SetReverbMix(m.rev.value, e.room.curve, if p == 0 then 0 else 1, n)))
    case SetRoom(knobs) => if m.rev.None? then m else m.(rev := Some(Tune(m.rev.value, knobs)))
    case SetDecay(knobs, loopGain) =>
      var m1 := m.(bloom := m.bloom.(armed := loopGain > 1.0));
      if m.rev.None? then m1 else m1.(rev := Some(Tune(m.rev.value, knobs)))
    case SetDecks(f) => m.(d := m.d.(decks := f(m.d.decks)))
    case SetCenter(g) => m.(d := m.d.(center := g(m.d.center)))
  }
}
