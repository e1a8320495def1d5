/**
  The mix loop over whole runs: samples, cut into blocks in any way, with any
  setter called between any two of them.
 */
module MixRuns {
  import opened MixSmooth
  import opened Options
  import opened MixRoom
  import opened MixSleep
  import opened MixDucks
  import opened MixSpec

  /** One sample, or one setter call between two samples. */
  datatype Moment = One(input: Stereo) | Between(ev: Event)

  function Advance(e: Engine, m: Mix, x: Moment, memoOn: bool): Mix {
    match x
    case One(input) => Sample1(e, m, input, memoOn).m
    case Between(ev) => Host(e, m, ev)
  }

  function Run(e: Engine, m: Mix, xs: seq<Moment>, memoOn: bool): Mix
    decreases |xs|
  {
    if xs == [] then m else Run(e, Advance(e, m, xs[0], memoOn), xs[1..], memoOn)
  }

  /** What the run's samples show, in order. */
  function SeenRun(e: Engine, m: Mix, xs: seq<Moment>, memoOn: bool): seq<Sampled>
    decreases |xs|
  {
    if xs == [] then []
    else
      (if xs[0].One? then [Sample1(e, m, xs[0].input, memoOn)] else [])
      + SeenRun(e, Advance(e, m, xs[0], memoOn), xs[1..], memoOn)
  }

  // ---- the cross-deck buses -------------------------------------------------------------

  /** Each deck read its sibling's previous sample, and on a tick the mono of it. */
  predicate Follows(s: Seen, outs: Two<Stereo>) {
    && s.deckIn == Two(outs.b, outs.a)
    && (s.otherTap.Some? ==> s.otherTap.value == Two((outs.b.l + outs.b.r) / 2.0, (outs.a.l + outs.a.r) / 2.0))
  }

  /** The taps hold the last sample's outputs. */
  predicate Holds(d: Decks, outs: Two<Stereo>) {
    d.deckTap == outs && (d.ctr == 0 ==> d.dryTap == Two(Mono(outs.a), Mono(outs.b)))
  }

  lemma {:induction false} SampleTaps(e: Engine, m: Mix, input: Stereo, memoOn: bool)
    ensures var s := Sample1(e, m, input, memoOn);
            && Holds(s.m.d, s.seen.outs)
            && (forall outs :: Holds(m.d, outs) ==> Follows(s.seen, outs))
            && (s.m.d.ctr != 0 ==> s.m.d.dryTap == m.d.dryTap)
            && s.seen.otherTap.Some? == (m.d.ctr == 0)
            && s.m.d.ctr == (if m.d.ctr == 0 then CONTROL_INTERVAL else m.d.ctr) - 1
  {
    hide MixDown, PlayDecks, Duck, BloomTick, RevTick, Gravity;
    var t := Ticked(e, m);
    Handed(e, t.d.decks, t.d.deckTap, t.choke.knob, input);
  }

  /** Each deck is handed its sibling's tap, whichever runs first. */
  lemma {:induction false} Handed(e: Engine, decks: Two<Deck>, taps: Two<Stereo>, knob: real, input: Stereo)
    ensures PlayDecks(e, decks, taps, knob, input).ins == Two(taps.b, taps.a)
  {
    hide Blocks, Priority;
  }

  lemma {:induction false} HostKeepsTaps(e: Engine, m: Mix, ev: Event)
    ensures var d := Host(e, m, ev).d; d.deckTap == m.d.deckTap && d.dryTap == m.d.dryTap && d.ctr == m.d.ctr
  {
  }

  /** For every history of CHOKE and of everything else, each deck's audio bus input
      is its sibling's output one sample earlier, and its control tap on a tick the
      mono of its sibling's last sample before the tick. */
  lemma {:induction false} CrossDeckLatency(e: Engine, m: Mix, xs: seq<Moment>, memoOn: bool, t: nat)
    requires 0 < t < |SeenRun(e, m, xs, memoOn)|
    ensures var log := SeenRun(e, m, xs, memoOn); Follows(log[t].seen, log[t - 1].seen.outs)
    decreases |xs|
  {
    hide Advance, Sample1, Follows, Holds;
    var m1, rest := Advance(e, m, xs[0], memoOn), xs[1..];
    match xs[0]
    case One(input) =>
      SampleAdvances(e, m, input, memoOn);
      if t == 1 {
        FirstFollows(e, m1, rest, memoOn, Sample1(e, m, input, memoOn).seen.outs);
      } else {
        CrossDeckLatency(e, m1, rest, memoOn, t - 1);
      }
    case Between(ev) =>
      CrossDeckLatency(e, m1, rest, memoOn, t);
  }

  lemma {:induction false} SampleAdvances(e: Engine, m: Mix, input: Stereo, memoOn: bool)
    ensures var s := Sample1(e, m, input, memoOn);
            Advance(e, m, One(input), memoOn) == s.m && Holds(s.m.d, s.seen.outs)
  {
    hide Sample1;
    SampleTaps(e, m, input, memoOn);
  }

  lemma {:induction false} FirstFollows(e: Engine, m: Mix, xs: seq<Moment>, memoOn: bool, outs: Two<Stereo>)
    requires Holds(m.d, outs) && SeenRun(e, m, xs, memoOn) != []
    ensures Follows(SeenRun(e, m, xs, memoOn)[0].seen, outs)
    decreases |xs|
  {
    hide Sample1, Follows, Host;
    match xs[0]
    case One(input) => SampleTaps(e, m, input, memoOn);
    case Between(ev) =>
      HostKeepsTaps(e, m, ev);
      FirstFollows(e, Host(e, m, ev), xs[1..], memoOn, outs);
  }

  lemma {:induction false} RasterFrom(e: Engine, m: Mix, xs: seq<Moment>, memoOn: bool, t: nat)
    requires m.d.ctr < CONTROL_INTERVAL && t < |SeenRun(e, m, xs, memoOn)|
    ensures SeenRun(e, m, xs, memoOn)[t].seen.otherTap.Some? <==> t % CONTROL_INTERVAL == m.d.ctr
    decreases |xs|
  {
    hide Sample1, Host;
    match xs[0]
    case One(input) =>
      SampleTaps(e, m, input, memoOn);
      if t > 0 {
        RasterFrom(e, Sample1(e, m, input, memoOn).m, xs[1..], memoOn, t - 1);
        Residues(t, m.d.ctr);
      }
    case Between(ev) =>
      HostKeepsTaps(e, m, ev);
      RasterFrom(e, Host(e, m, ev), xs[1..], memoOn, t);
  }

  /** From boot the control tick falls on exactly every 96th sample. */
  lemma {:induction false} Raster(e: Engine, s: Start, xs: seq<Moment>, memoOn: bool, t: nat)
    requires StartOk(e, s) && t < |SeenRun(e, Boot(e, s), xs, memoOn)|
    ensures SeenRun(e, Boot(e, s), xs, memoOn)[t].seen.otherTap.Some? <==> t % CONTROL_INTERVAL == 0
  {
    hide SeenRun;
    RasterFrom(e, Boot(e, s), xs, memoOn, t);
  }

  lemma {:induction false} Residues(t: nat, c: nat)
    requires t > 0 && c < CONTROL_INTERVAL
    ensures (t - 1) % CONTROL_INTERVAL == (if c == 0 then CONTROL_INTERVAL else c) - 1 <==> t % CONTROL_INTERVAL == c
  {
  }

  // ---- neither deck is favoured ----------------------------------------------------------------

  function Swap<T>(x: Two<T>): Two<T> { Two(x.b, x.a) }

  function SwapPlayed(p: Played2): Played2 { Played2(Swap(p.decks), Swap(p.ins), Swap(p.outs), Swap(p.sends)) }

  /** Exchanging the decks and turning CHOKE over exchanges what they play. */
  lemma {:induction false} ChokeIsMirrored(e: Engine, decks: Two<Deck>, taps: Two<Stereo>, knob: real, input: Stereo)
    ensures PlayDecks(e, Swap(decks), Swap(taps), -knob, input) == SwapPlayed(PlayDecks(e, decks, taps, knob, input))
  {
  }

  /** The same for PULL, which binds the notes of one deck at most, surely at its
      ends, and of none in its dead zone. */
  lemma {:induction false} PullIsMirrored(e: Engine, decks: Two<Deck>, pull: real)
    ensures Gravity(e, Swap(decks), -pull) == Swap(Gravity(e, decks, pull))
  {
  }

  lemma {:induction false} PullBindsOne(e: Engine, decks: Two<Deck>, pull: real)
    requires -1.0 <= pull <= 1.0
    ensures var p := (Abs(pull) - 0.03) / 0.97;
            Gravity(e, decks, pull) ==
            if Abs(pull) <= 0.03 then Two(e.setGravity(decks.a, 0, 0.0), e.setGravity(decks.b, 0, 0.0))
            else if pull < 0.0 then Two(e.setGravity(decks.a, 0, 0.0), e.setGravity(decks.b, e.chord(decks.a), p))
            else Two(e.setGravity(decks.a, e.chord(decks.b), p), e.setGravity(decks.b, 0, 0.0))
    ensures Abs(pull) > 0.03 ==> 0.0 < (Abs(pull) - 0.03) / 0.97 <= 1.0
    ensures Abs(pull) == 1.0 ==> (Abs(pull) - 0.03) / 0.97 == 1.0
  {
  }

  // ---- the memos ----------------------------------------------------------------------------------

  /** Only the control tick moves the pan smoothers. */
  ghost predicate PansKept(e: Engine, xs: seq<Moment>) {
    forall i | 0 <= i < |xs| :: xs[i].Between? && xs[i].ev.SetCenter? ==>
                                  forall c: Center :: e.pans(xs[i].ev.g(c)) == e.pans(c)
  }

  predicate MemosOk(e: Engine, m: Mix) {
    MemoOk(e.rates, m.choke) && (m.d.pan.Pan? ==> m.d.pan.gains == e.pans(m.d.center))
  }

  predicate ButForMemos(m: Mix, n: Mix) {
    n == m.(choke := m.choke.(memo := n.choke.memo), d := m.d.(pan := n.d.pan))
  }

  lemma {:induction false} TickMemos(e: Engine, m: Mix, n: Mix)
    requires MemosOk(e, m) && ButForMemos(m, n)
    ensures MemosOk(e, Ticked(e, m)) && ButForMemos(Ticked(e, m), Ticked(e, n))
  {
    hide Gravity, BloomTick, RevTick;
  }

  lemma {:induction false} HalfMemos(e: Engine, t: Mix, u: Mix, input: Stereo)
    requires MemosOk(e, t) && ButForMemos(t, u) && t.d.ctr > 0
    ensures var h, g := DeckHalf(e, t.d, t.choke, input, true), DeckHalf(e, u.d, u.choke, input, false);
            && (h.p, h.gains, h.duck, h.pan) == (g.p, g.gains, g.duck, g.pan)
            && g.d == h.d.(pan := g.d.pan) && g.choke == h.choke.(memo := g.choke.memo)
            && h.d.pan == t.d.pan && h.d.center == t.d.center && MemoOk(e.rates, h.choke)
  {
    hide PlayDecks, Glide, ChainOf, Rectified, Follow, DuckGain;
  }

  lemma {:induction false} SampleMemos(e: Engine, m: Mix, n: Mix, input: Stereo)
    requires MemosOk(e, m) && ButForMemos(m, n)
    ensures var s, t := Sample1(e, m, input, true), Sample1(e, n, input, false);
            s.out == t.out && s.seen == t.seen && MemosOk(e, s.m) && ButForMemos(s.m, t.m)
  {
    hide MixDown, DeckHalf, Ticked;
    TickMemos(e, m, n);
    HalfMemos(e, Ticked(e, m), Ticked(e, n), input);
  }

  /** Computing the pan gains and the CHOKE depth chain anew on every sample gives,
      from boot, the same output. */
  lemma {:induction false} MemosAreInvisible(e: Engine, s: Start, xs: seq<Moment>)
    requires StartOk(e, s) && PansKept(e, xs)
    ensures var on, off := SeenRun(e, Boot(e, s), xs, true), SeenRun(e, Boot(e, s), xs, false);
            |on| == |off| && forall i | 0 <= i < |on| :: on[i].out == off[i].out
  {
    MemosFrom(e, Boot(e, s), Boot(e, s), xs);
  }

  lemma {:induction false} MemosFrom(e: Engine, m: Mix, n: Mix, xs: seq<Moment>)
    requires MemosOk(e, m) && ButForMemos(m, n) && PansKept(e, xs)
    ensures var s, t := SeenRun(e, m, xs, true), SeenRun(e, n, xs, false);
            |s| == |t| && forall i | 0 <= i < |s| :: s[i].out == t[i].out
    decreases |xs|
  {
    hide Sample1, MemosOk, ButForMemos;
    if xs != [] {
      assert PansKept(e, xs[1..]) by {
        assert forall i | 0 <= i < |xs[1..]| :: xs[1..][i] == xs[i + 1];
      }
      if xs[0].One? {
        SampleMemos(e, m, n, xs[0].input);
      } else {
        HostMemos(e, m, n, xs[0].ev);
      }
      MemosFrom(e, Advance(e, m, xs[0], true), Advance(e, n, xs[0], false), xs[1..]);
    }
  }

  lemma {:induction false} HostMemos(e: Engine, m: Mix, n: Mix, ev: Event)
    requires MemosOk(e, m) && ButForMemos(m, n)
    requires ev.SetCenter? ==> forall c: Center :: e.pans(ev.g(c)) == e.pans(c)
    ensures MemosOk(e, Host(e, m, ev)) && ButForMemos(Host(e, m, ev), Host(e, n, ev))
  {
  }

  // ---- the ducks -----------------------------------------------------------------------------------

  predicate DucksOk(e: Engine, m: Mix) { ChokeOk(e.rates, m.choke) && BloomOk(m.bloom) }

  lemma {:induction false} RetargetOk(e: Engine, bloom: Bloom, rev: Option<Rev>)
    requires BloomOk(bloom)
    ensures BloomOk(BloomTick(e, bloom, rev))
  {
    if rev.Some? {
      TargetInRange(bloom.armed, e.room.k.level(rev.value.room.loop));
    }
  }

  lemma {:induction false} MixDownBloom(e: Engine, b: Bloom, rev: Option<Rev>, p: Played2,
                                        gains: Two<real>, pan: Two<Stereo>, duck: Two<real>)
    requires BloomOk(b)
    ensures BloomOk(MixDown(e, b, rev, p, gains, pan, duck).bloom)
  {
    hide Blend, SentTo, OneSample;
    RideApproaches(b);
    RideApproaches(Unducked(b));
  }

  lemma {:induction false} SampleDucks(e: Engine, m: Mix, input: Stereo)
    requires DucksOk(e, m)
    ensures DucksOk(e, Sample1(e, m, input, true).m)
    ensures CHOKE_FLOOR_HOT <= Sample1(e, m, input, true).m.choke.gain <= 1.0
  {
    hide MixDown, PlayDecks, Duck, DeckTick, BloomTick, RevTick, Rectified, BloomOk;
    RetargetOk(e, m.bloom, m.rev);
    var t := Ticked(e, m);
    var pri := Priority(t.choke.knob);
    var p := PlayDecks(e, t.d.decks, t.d.deckTap, t.choke.knob, input);
    var rect := Rectified(At(p.outs, pri), At(e.gains(t.d.center), pri));
    RectifiedIsLevel(At(p.outs, pri), At(e.gains(t.d.center), pri));
    DuckKeeps(e.rates, t.choke, rect);
    var h := DeckHalf(e, t.d, t.choke, input, true);
    MixDownBloom(e, t.bloom, t.rev, h.p, h.gains, h.pan, h.duck);
  }

  lemma {:induction false} RectifiedIsLevel(out: Stereo, gain: real)
    ensures Rectified(out, gain) >= 0.0
  {
  }

  lemma {:induction false} BootDucks(e: Engine, s: Start)
    requires StartOk(e, s)
    ensures DucksOk(e, Boot(e, s))
  {
  }

  /** In every state a run from boot reaches both ducks are within their floors and 1. */
  lemma {:induction false} DucksStayInRange(e: Engine, s: Start, xs: seq<Moment>)
    requires StartOk(e, s)
    ensures var m := Run(e, Boot(e, s), xs, true);
            && BLOOM_FLOOR <= m.bloom.gain <= 1.0 && DucksOk(e, m)
            && CHOKE_FLOOR_HOT <= m.choke.gain <= 1.0
  {
    BootDucks(e, s);
    DucksAreKept(e, Boot(e, s), xs);
  }

  lemma {:induction false} DucksAreKept(e: Engine, m: Mix, xs: seq<Moment>)
    requires DucksOk(e, m) && CHOKE_FLOOR_HOT <= m.choke.gain <= 1.0
    ensures var n := Run(e, m, xs, true); DucksOk(e, n) && CHOKE_FLOOR_HOT <= n.choke.gain <= 1.0
    decreases |xs|
  {
    hide Sample1, ChokeOk, BloomOk;
    if xs != [] {
      if xs[0].One? {
        SampleDucks(e, m, xs[0].input);
      } else {
        HostDucks(e, m, xs[0].ev);
      }
      DucksAreKept(e, Advance(e, m, xs[0], true), xs[1..]);
    }
  }

  lemma {:induction false} HostDucks(e: Engine, m: Mix, ev: Event)
    requires DucksOk(e, m)
    ensures DucksOk(e, Host(e, m, ev)) && Host(e, m, ev).choke.gain == m.choke.gain
  {
  }

  predicate NeverArmed(xs: seq<Moment>) {
    forall i | 0 <= i < |xs| :: xs[i].Between? && xs[i].ev.SetDecay? ==> xs[i].ev.loopGain <= 1.0
  }

  predicate Idle(b: Bloom) { !b.armed && b.gain == 1.0 && b.target == 1.0 && b.residual == 0.0 }

  /** While no DECAY setting takes the loop past unity the bloom duck is no duck at all. */
  lemma {:induction false} UnarmedBloomIsIdle(e: Engine, s: Start, xs: seq<Moment>)
    requires StartOk(e, s) && NeverArmed(xs)
    ensures Run(e, Boot(e, s), xs, true).bloom.gain == 1.0
  {
    BootIsIdle(e, s);
    StaysIdle(e, Boot(e, s), xs);
  }

  lemma {:induction false} BootIsIdle(e: Engine, s: Start)
    requires StartOk(e, s)
    ensures Idle(Boot(e, s).bloom)
  {
  }

  lemma {:induction false} StaysIdle(e: Engine, m: Mix, xs: seq<Moment>)
    requires Idle(m.bloom) && NeverArmed(xs)
    ensures Idle(Run(e, m, xs, true).bloom)
    decreases |xs|
  {
    hide Sample1, Idle;
    if xs != [] {
      IdleAdvance(e, m, xs[0]);
      assert forall i | 0 <= i < |xs[1..]| :: xs[1..][i] == xs[i + 1];
      StaysIdle(e, Advance(e, m, xs[0], true), xs[1..]);
    }
  }

  lemma {:induction false} IdleAdvance(e: Engine, m: Mix, x: Moment)
    requires Idle(m.bloom) && (x.Between? && x.ev.SetDecay? ==> x.ev.loopGain <= 1.0)
    ensures Idle(Advance(e, m, x, true).bloom)
  {
    hide DeckHalf, DeckTick, Blend, SentTo, OneSample, GlideMix, Prime, RevTick;
  }
}
