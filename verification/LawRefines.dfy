/**
  The sent-value cache is invisible: over any run of ticks, forget points and
  audio blocks in which engine switches land, the law with the cache leaves the
  instrument exactly as the law that sends everything on every tick.
 */
module LawRefines {
  import opened Params
  import opened LawCache
  import opened LawEdges
  import opened LawTick

  // ---- what may happen to the instrument between ticks ---------------------------------

  ghost predicate SameGlobals(i: Inst, j: Inst) {
    forall g: nat | g < G_COUNT :: Get(i, Global(g)) == Get(j, Global(g))
  }

  ghost predicate SameDeck(i: Inst, j: Inst, p: nat)
    requires p < PARTS
  {
    forall df: ADeckField :: Get(i, Deck(p, df)) == Get(j, Deck(p, df))
  }

  /** A pending switch may land, on what was pending; if that is another engine it
      may leave any value in any field of its deck. Otherwise the deck's fields
      stay: the law is their only writer. (LawCells says what would happen if not.) */
  ghost predicate DeckProcessed(i: Inst, j: Inst, p: nat)
    requires p < PARTS
  {
    var s, t := SwitchOf(i, p), SwitchOf(j, p);
    || (t == s && SameDeck(i, j, p))
    || (s.switching && t == s.(running := s.pending, switching := false)
        && (s.pending == s.running ==> SameDeck(i, j, p)))
  }

  ghost predicate Processes(i: Inst, j: Inst) {
    SameGlobals(i, j) && DeckProcessed(i, j, 0) && DeckProcessed(i, j, 1)
  }

  ghost predicate EventOk(e: Event) {
    e.Processed? ==> forall i: Inst :: Processes(i, e.process(i))
  }

  ghost predicate RunOk(es: seq<Event>) {
    forall k | 0 <= k < |es| :: EventOk(es[k])
  }

  // ---- the invariant ------------------------------------------------------------------------

  ghost predicate NothingSent(c: Cache, p: nat)
    requires p < PARTS
  {
    forall df: ADeckField :: !c.valid[Slot(Deck(p, df))]
  }

  /** Either what is marked as sent is what the deck holds, or the next tick will
      see that another engine has landed. */
  ghost predicate DeckSafe(w: World, p: nat)
    requires p < PARTS
  {
    var ran := EnginesOf(w.law, p).ran;
    || (DeckMatches(PairOf(w), p) && (NothingSent(w.law.c, p) || ran == Running(w.i, p)))
    || (ran != Running(w.i, p) && !SwitchOf(w.i, p).switching)
  }

  ghost predicate Safe(w: World) {
    GlobalsMatch(PairOf(w)) && DeckSafe(w, 0) && DeckSafe(w, 1)
  }

  // ---- the calls of one deck -------------------------------------------------------------------

  /** The cached and the uncached side agree, and deck p may be written. */
  ghost predicate InStep(w: Pair, v: Pair, p: nat)
    requires p < PARTS
  {
    w.i == v.i && GlobalsMatch(w) && DeckMatches(w, p)
  }

  /** Deck q is left alone. */
  ghost predicate Aside(w: Pair, w': Pair, q: nat)
    requires q < PARTS
  {
    && SwitchOf(w.i, q) == SwitchOf(w'.i, q)
    && (DeckMatches(w, q) ==> DeckMatches(w', q))
    && (NothingSent(w.c, q) ==> NothingSent(w'.c, q))
  }

  function Off(x: Context): Context { x.(on := false) }

  lemma {:induction false} ActSame(m: Machine, w: Pair, v: Pair, call: Call, p: nat, b: Bits, q: nat)
    requires p < PARTS && q < PARTS && InStep(w, v, p)
    ensures InStep(Act(m, w, call, p, b), Act(m, v, call, p, b), p)
    ensures Aside(w, Act(m, w, call, p, b), q)
  {
    MatchesOf(w, Act(m, w, call, p, b));
  }

  /** Matching depends on the cache, the fields and the switches alone. */
  lemma {:induction false} MatchesOf(w: Pair, w': Pair)
    requires w'.c == w.c && w'.i.(dsp := w.i.dsp) == w.i
    ensures forall f: AField :: Matches(w, f) == Matches(w', f)
  {
  }

  lemma {:induction false} PutAside(m: Machine, w: Pair, f: AField, b: Bits, q: nat)
    requires q < PARTS && Matches(w, f) && !(f.Deck? && f.p == q)
    ensures Aside(w, Put(m, true, w, f, b), q)
  {
    hide Slot, Matches;
    PutKeepsAll(m, w, f, b);
    forall df: ADeckField | !w.c.valid[Slot(Deck(q, df))]
      ensures !Put(m, true, w, f, b).c.valid[Slot(Deck(q, df))]
    {
      SlotsAreInjective(f, Deck(q, df));
    }
  }

  lemma {:induction false} PutRunning(m: Machine, on: bool, w: Pair, f: AField, b: Bits, p: nat)
    requires p < PARTS
    ensures Running(Put(m, on, w, f, b).i, p) == Running(w.i, p)
  {
  }

  lemma {:induction false} DeckOpSame(x: Context, w: Pair, v: Pair, p: nat, q: nat, op: DeckOp)
    requires x.on && p < PARTS && q < PARTS && p != q && InStep(w, v, p)
    ensures InStep(DoDeckOp(x, w, p, op), DoDeckOp(Off(x), v, p, op), p)
    ensures Aside(w, DoDeckOp(x, w, p, op), q)
    ensures Running(DoDeckOp(x, w, p, op).i, p) == Running(w.i, p)
  {
    hide Slot, Set, Put, Matches, SwitchOf;
    match op
    case Cached(df, e) =>
      var f, b := Deck(p, df), Value(x, p, e);
      PutCached(x.m, w, f, b);
      PutUncached(x.m, v, f, b);
      PutKeepsAll(x.m, w, f, b);
      PutAside(x.m, w, f, b, q);
      PutRunning(x.m, true, w, f, b, p);
    case Direct(call, e) =>
      ActSame(x.m, w, v, call, p, Value(x, p, e), q);
      ActRunning(x.m, w, call, p, Value(x, p, e), p);
  }

  lemma {:induction false} ActRunning(m: Machine, w: Pair, call: Call, p: nat, b: Bits, q: nat)
    ensures SwitchOf(Act(m, w, call, p, b).i, q) == SwitchOf(w.i, q)
  {
  }

  lemma {:induction false} DeckOpsSame(x: Context, w: Pair, v: Pair, p: nat, q: nat, ops: seq<DeckOp>)
    requires x.on && p < PARTS && q < PARTS && p != q && InStep(w, v, p)
    ensures InStep(DoDeckOps(x, w, p, ops), DoDeckOps(Off(x), v, p, ops), p)
    ensures Aside(w, DoDeckOps(x, w, p, ops), q)
    ensures Running(DoDeckOps(x, w, p, ops).i, p) == Running(w.i, p)
    decreases |ops|
  {
    hide DoDeckOp, InStep, Matches, DeckMatches, NothingSent;
    if ops != [] {
      DeckOpSame(x, w, v, p, q, ops[0]);
      DeckOpsSame(x, DoDeckOp(x, w, p, ops[0]), DoDeckOp(Off(x), v, p, ops[0]), p, q, ops[1..]);
    }
  }

  // ---- one deck's block ----------------------------------------------------------------------------

  /** Forgetting a deck leaves nothing marked there and the rest as it was. */
  lemma {:induction false} Forgotten(c: Cache, i: Inst, p: nat, q: nat)
    requires p < PARTS && q < PARTS && p != q
    ensures var w, w' := Pair(c, i), Pair(ForgetDeck(c, p), i);
            DeckMatches(w', p) && (GlobalsMatch(w) ==> GlobalsMatch(w')) && Aside(w, w', q)
  {
    hide ForgetDeck, Slot;
    forall f: AField
      ensures ForgetDeck(c, p).valid[Slot(f)] == (c.valid[Slot(f)] && !(f.Deck? && f.p == p))
      ensures ForgetDeck(c, p).sent == c.sent
    {
      ForgetDeckSlots(c, p, f);
      assert ForgetDeck(c, p).sent == c.sent by { ForgetKeepsSent(c, p); }
    }
  }

  lemma {:induction false} ForgetKeepsSent(c: Cache, p: nat)
    requires p < PARTS
    ensures ForgetDeck(c, p).sent == c.sent
  {
  }

  /** At the top of its block a deck is forgotten exactly where it has to be. */
  lemma {:induction false} NoticedInStep(w: World, v: World, p: nat, q: nat, asked: int)
    requires p < PARTS && q < PARTS && p != q
    requires w.i == v.i && GlobalsMatch(PairOf(w)) && DeckSafe(w, p)
    ensures InStep(Pair(Noticed(w.law, p, asked, Running(w.i, p)), w.i),
                   Pair(Noticed(v.law, p, asked, Running(v.i, p)), v.i), p)
    ensures Aside(PairOf(w), Pair(Noticed(w.law, p, asked, Running(w.i, p)), w.i), q)
  {
    hide ForgetDeck, Matches, NothingSent, GlobalsMatch, DeckMatches;
    Forgotten(w.law.c, w.i, p, q);
  }

  lemma {:induction false} DeckHeadSame(x: Context, w: Pair, v: Pair, p: nat, q: nat)
    requires x.on && p < PARTS && q < PARTS && p != q && InStep(w, v, p)
    ensures var (w', rec) := DeckHead(x, w, p);
            var (v', vrec) := DeckHead(Off(x), v, p);
            InStep(w', v', p) && rec == vrec && Aside(w, w', q) && Running(w'.i, p) == Running(w.i, p)
  {
    hide DoDeckOps, Matches, DeckMatches, GlobalsMatch, NothingSent, PreOps, EngineOps, SamplerOps, EngineOf;
    var d := InputOf(x.t, p);
    var pre, eng := PreOps(Running(w.i, p)), EngineOps(EngineOf(d));
    DeckOpsSame(x, w, v, p, q, pre);
    var w1, v1 := DoDeckOps(x, w, p, pre), DoDeckOps(Off(x), v, p, pre);
    DeckOpsSame(x, w1, v1, p, q, eng);
    var w2, v2 := DoDeckOps(x, w1, p, eng), DoDeckOps(Off(x), v1, p, eng);
    HookSame(x.m, w2, v2, p, q, d.eng);
    var w3, v3 := w2.(i := w2.i.(dsp := x.m.hook(w2.i, p, d.eng))), v2.(i := v2.i.(dsp := x.m.hook(v2.i, p, d.eng)));
    DeckOpsSame(x, w3, v3, p, q, SamplerOps());
    RecordSame(x.m, DoDeckOps(x, w3, p, SamplerOps()), DoDeckOps(Off(x), v3, p, SamplerOps()), p, q, d.recOn);
  }

  lemma {:induction false} HookSame(m: Machine, w: Pair, v: Pair, p: nat, q: nat, eng: int)
    requires p < PARTS && q < PARTS && InStep(w, v, p)
    ensures var w', v' := w.(i := w.i.(dsp := m.hook(w.i, p, eng))), v.(i := v.i.(dsp := m.hook(v.i, p, eng)));
            InStep(w', v', p) && Aside(w, w', q) && Running(w'.i, p) == Running(w.i, p)
  {
    MatchesOf(w, w.(i := w.i.(dsp := m.hook(w.i, p, eng))));
  }

  lemma {:induction false} RecordSame(m: Machine, w: Pair, v: Pair, p: nat, q: nat, wanted: bool)
    requires p < PARTS && q < PARTS && InStep(w, v, p)
    ensures var (w', rec) := Record(m, w, p, wanted);
            var (v', vrec) := Record(m, v, p, wanted);
            InStep(w', v', p) && rec == vrec && Aside(w, w', q) && Running(w'.i, p) == Running(w.i, p)
  {
    hide Act, Matches, DeckMatches, GlobalsMatch, NothingSent;
    var want := wanted && Running(w.i, p) == ENGINE_SAMPLER;
    ActSame(m, w, v, SamplerRecord, p, if want then 1 else 0, q);
    ActRunning(m, w, SamplerRecord, p, if want then 1 else 0, p);
  }

  lemma {:induction false} DeckTailSame(x: Context, w: Pair, v: Pair, p: nat, q: nat, newPhrase: bool, rung: int)
    requires x.on && p < PARTS && q < PARTS && p != q && InStep(w, v, p)
    ensures var w', v' := DeckTail(x, w, p, newPhrase, rung), DeckTail(Off(x), v, p, newPhrase, rung);
            InStep(w', v', p) && Aside(w, w', q) && Running(w'.i, p) == Running(w.i, p)
  {
    hide DoDeckOps, Matches, DeckMatches, GlobalsMatch, NothingSent, SurfaceOps, SongOps;
    var ops := SurfaceOps(Running(w.i, p));
    DeckOpsSame(x, w, v, p, q, ops);
    var w1, v1 := DoDeckOps(x, w, p, ops), DoDeckOps(Off(x), v, p, ops);
    DeckOpsSame(x, w1, v1, p, q, SongOps(newPhrase, rung, Running(w1.i, p)));
  }

  /** A deck whose cache the tick has brought up to date. */
  ghost predicate DeckSettled(w: World, p: nat)
    requires p < PARTS
  {
    DeckMatches(PairOf(w), p) && EnginesOf(w.law, p).ran == Running(w.i, p)
  }

  lemma {:induction false} DeckTickSame(x: Context, w: World, v: World, p: nat, q: nat)
    requires x.on && p < PARTS && q < PARTS && p != q
    requires w.i == v.i && w.law.edges == v.law.edges && GlobalsMatch(PairOf(w)) && DeckSafe(w, p)
    ensures var r, s := DeckTick(x, w, p), DeckTick(Off(x), v, p);
            && r.w.i == s.w.i && r.w.law.edges == s.w.law.edges && r.report == s.report
            && GlobalsMatch(PairOf(r.w)) && DeckSettled(r.w, p)
            && (DeckSafe(w, q) ==> DeckSafe(r.w, q)) && (DeckSettled(w, q) ==> DeckSettled(r.w, q))
  {
    hide Noticed, DeckHead, DeckTail, Matches, DeckMatches, GlobalsMatch, NothingSent, DeckStep, EngineOf;
    var asked := AskedKey(InputOf(x.t, p));
    NoticedInStep(w, v, p, q, asked);
    var w0 := Pair(Noticed(w.law, p, asked, Running(w.i, p)), w.i);
    var v0 := Pair(Noticed(v.law, p, asked, Running(v.i, p)), v.i);
    DeckHeadSame(x, w0, v0, p, q);
    var w1, v1 := DeckHead(x, w0, p).0, DeckHead(Off(x), v0, p).0;
    var (edges, fired) := DeckStep(EdgesOf(w.law.edges, p), ViewOf(InputOf(x.t, p), Running(w1.i, p)));
    DeckTailSame(x, w1, v1, p, q, fired.newPhrase, edges.song.rung);
  }

  // ---- the centre's block --------------------------------------------------------------------------

  ghost predicate AllInStep(w: Pair, v: Pair) {
    InStep(w, v, 0) && InStep(w, v, 1)
  }

  ghost predicate SameRunning(i: Inst, j: Inst) {
    Running(i, 0) == Running(j, 0) && Running(i, 1) == Running(j, 1)
  }

  lemma {:induction false} OpSame(x: Context, w: Pair, v: Pair, op: Op)
    requires x.on && AllInStep(w, v)
    ensures AllInStep(DoOp(x, w, op), DoOp(Off(x), v, op))
    ensures SameRunning(w.i, DoOp(x, w, op).i)
  {
    hide Slot, Set, Put, Matches;
    match op
    case CachedAt(f, p, e) =>
      var b := Value(x, p, e);
      assert f.Global? ==> Matches(w, Global(f.g));
      assert f.Deck? ==> Matches(w, Deck(f.p, f.df));
      PutCached(x.m, w, f, b);
      PutUncached(x.m, v, f, b);
      PutKeepsAll(x.m, w, f, b);
      PutRunning(x.m, true, w, f, b, 0);
      PutRunning(x.m, true, w, f, b, 1);
    case DirectAt(call, p, e) =>
      MatchesOf(w, Act(x.m, w, call, p, Value(x, p, e)));
  }

  lemma {:induction false} OpsSame(x: Context, w: Pair, v: Pair, ops: seq<Op>)
    requires x.on && AllInStep(w, v)
    ensures AllInStep(DoOps(x, w, ops), DoOps(Off(x), v, ops))
    ensures SameRunning(w.i, DoOps(x, w, ops).i)
    decreases |ops|
  {
    hide DoOp, AllInStep;
    if ops != [] {
      OpSame(x, w, v, ops[0]);
      OpsSame(x, DoOp(x, w, ops[0]), DoOp(Off(x), v, ops[0]), ops[1..]);
    }
  }

  lemma {:induction false} CentreTickSame(x: Context, w: World, v: World)
    requires x.on && w.i == v.i && w.law.edges == v.law.edges
    requires GlobalsMatch(PairOf(w)) && DeckSettled(w, 0) && DeckSettled(w, 1)
    ensures var (w', settle) := CentreTick(x, w);
            var (v', vsettle) := CentreTick(Off(x), v);
            w'.i == v'.i && w'.law.edges == v'.law.edges && settle == vsettle && Safe(w')
  {
    hide DoOps, LayerOps, CentreOps, Matches, DeckMatches, GlobalsMatch, NothingSent, MOD_LAYER;
    var layer := LayerOps(|MOD_LAYER|);
    OpsSame(x, PairOf(w), PairOf(v), layer);
    var w1, v1 := DoOps(x, PairOf(w), layer), DoOps(Off(x), PairOf(v), layer);
    OpsSame(x, w1, v1, CentreOps(DriftTick(w.law.edges.drift, x.t.driftInZone).settle));
  }

  // ---- ticks, events, runs ------------------------------------------------------------------------------

  /** One tick: the same instrument, the same reports, and the cache stays safe. */
  lemma {:induction false} TickSame(m: Machine, w: World, v: World, t: Input)
    requires w.i == v.i && w.law.edges == v.law.edges && Safe(w)
    ensures var r, s := Tick(m, true, w, t), Tick(m, false, v, t);
            r.w.i == s.w.i && r.w.law.edges == s.w.law.edges && r.report == s.report && Safe(r.w)
  {
    hide DoOp, DeckTick, CentreTick, Matches, DeckMatches, GlobalsMatch, NothingSent;
    var x := Context(m, true, t, m.frame(w.i.dsp));
    var op := CachedAt(Global(G_SHUFFLE), 0, Raw(SHUFFLE));
    ShuffleSame(x, w, v, op);
    var w0, v0 := WithPair(w, DoOp(x, PairOf(w), op)), WithPair(v, DoOp(Off(x), PairOf(v), op));
    DeckTickSame(x, w0, v0, 0, 1);
    var w1, v1 := DeckTick(x, w0, 0).w, DeckTick(Off(x), v0, 0).w;
    DeckTickSame(x, w1, v1, 1, 0);
    CentreTickSame(x, DeckTick(x, w1, 1).w, DeckTick(Off(x), v1, 1).w);
  }

  lemma {:induction false} ShuffleSame(x: Context, w: World, v: World, op: Op)
    requires x.on && op.CachedAt? && op.f.Global? && w.i == v.i && w.law.edges == v.law.edges && Safe(w)
    ensures var w', v' := WithPair(w, DoOp(x, PairOf(w), op)), WithPair(v, DoOp(Off(x), PairOf(v), op));
            w'.i == v'.i && w'.law.edges == v'.law.edges && Safe(w')
  {
    hide Slot, Set, Put, Matches;
    var b := Value(x, op.p, op.e);
    assert Matches(PairOf(w), Global(op.f.g));
    PutCached(x.m, PairOf(w), op.f, b);
    PutUncached(x.m, PairOf(v), op.f, b);
    PutKeepsAll(x.m, PairOf(w), op.f, b);
    PutAside(x.m, PairOf(w), op.f, b, 0);
    PutAside(x.m, PairOf(w), op.f, b, 1);
  }

  /** An audio block, with or without landings, leaves the cache safe. */
  lemma {:induction false} ProcessedSafe(w: World, j: Inst)
    requires Safe(w) && Processes(w.i, j)
    ensures Safe(w.(i := j))
  {
    hide Slot, Get;
  }

  /** A new law has sent nothing, so it is safe beside whatever instrument. */
  lemma {:induction false} NewLawIsSafe(i: Inst)
    ensures Safe(World(NewLaw(), i))
  {
  }

  /** So does every forget point, whatever the instrument was initialised to; and
      so does a new law, which is one that has just forgotten. */
  lemma {:induction false} InitialisedSafe(l: Law, j: Inst)
    ensures Safe(World(OnInstrumentInit(l), j))
  {
    hide Get;
    assert forall f: AField :: !ForgetAll(l.c).valid[Slot(f)];
  }

  lemma {:induction false} EventSame(m: Machine, w: World, v: World, e: Event)
    requires EventOk(e) && w.i == v.i && w.law.edges == v.law.edges && Safe(w)
    ensures var (w', now) := StepEvent(m, true, w, e);
            var (v', vnow) := StepEvent(m, false, v, e);
            w'.i == v'.i && w'.law.edges == v'.law.edges && now == vnow && Safe(w')
  {
    hide Tick, Safe, OnInstrumentInit;
    match e
    case Ticked(t) => TickSame(m, w, v, t);
    case Processed(process) => ProcessedSafe(w, process(w.i));
    case WasReset => ResetSame(w, v);
    case WasRestored => RestoreSame(w, v);
    case Reinitialised(init) => InitSame(w, v, init(w.i));
  }

  lemma {:induction false} InitSame(w: World, v: World, j: Inst)
    requires w.law.edges == v.law.edges
    ensures Safe(World(OnInstrumentInit(w.law), j))
    ensures OnInstrumentInit(w.law).edges == OnInstrumentInit(v.law).edges
  {
    InitialisedSafe(w.law, j);
  }

  lemma {:induction false} ResetSame(w: World, v: World)
    requires w.law.edges == v.law.edges
    ensures Safe(w.(law := OnReset(w.law))) && OnReset(w.law).edges == OnReset(v.law).edges
  {
    hide Safe;
    var e := w.law.edges;
    var e' := Edges(RearmSong(e.deckA), RearmSong(e.deckB), e.drift.(seeded := false));
    InitialisedSafe(w.law.(edges := e'), w.i);
  }

  lemma {:induction false} RestoreSame(w: World, v: World)
    requires w.law.edges == v.law.edges
    ensures Safe(w.(law := OnRestore(w.law))) && OnRestore(w.law).edges == OnRestore(v.law).edges
  {
    hide Safe, OnReset;
    var e := w.law.edges;
    var e' := e.(deckA := RearmBbd(e.deckA), deckB := RearmBbd(e.deckB));
    ResetSame(World(w.law.(edges := e'), w.i), World(v.law.(edges := e'), v.i));
  }

  /** Over whole runs the cached law and the one that sends everything leave the
      same instrument and report the same events. */
  lemma {:induction false} CacheIsInvisible(m: Machine, w: World, v: World, es: seq<Event>)
    requires RunOk(es) && w.i == v.i && w.law.edges == v.law.edges && Safe(w)
    ensures var (w', reports) := Run(m, true, w, es);
            var (v', vreports) := Run(m, false, v, es);
            w'.i == v'.i && w'.law.edges == v'.law.edges && reports == vreports && Safe(w')
    decreases |es|
  {
    hide StepEvent, Safe, EventOk;
    if es != [] {
      assert EventOk(es[0]);
      EventSame(m, w, v, es[0]);
      assert forall k | 0 <= k < |es[1..]| :: es[1..][k] == es[k + 1];
      CacheIsInvisible(m, StepEvent(m, true, w, es[0]).0, StepEvent(m, false, v, es[0]).0, es[1..]);
    }
  }
}
