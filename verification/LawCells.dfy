/**
  One field of a deck through a tick: what the cache knows of it, what it holds,
  and the values the tick sends it. From this, exactly when a tick through the cache
  leaves in a field what a tick without it would.
 */
module LawCells {
  import opened Params
  import opened LawCache
  import opened LawEdges
  import opened LawTick
  import opened LawRefines

  /** A field and its slot. */
  datatype Cell = Cell(valid: bool, sent: Bits, held: Bits)

  function CellOf(w: Pair, f: AField): Cell {
    Cell(w.c.valid[Slot(f)], w.c.sent[Slot(f)], Get(w.i, f))
  }

  /** One value sent to it. */
  function Receive(on: bool, c: Cell, b: Bits): Cell {
    if on && c.valid && c.sent == b then c else Cell(true, b, b)
  }

  function ReceiveAll(on: bool, c: Cell, bs: seq<Bits>): Cell
    decreases |bs|
  {
    if bs == [] then c else ReceiveAll(on, Receive(on, c, bs[0]), bs[1..])
  }

  lemma {:induction false} ReceiveConcat(on: bool, c: Cell, a: seq<Bits>, b: seq<Bits>)
    ensures ReceiveAll(on, c, a + b) == ReceiveAll(on, ReceiveAll(on, c, a), b)
    decreases |a|
  {
    if a == [] {
      assert a + b == b;
    } else {
      assert (a + b)[0] == a[0] && (a + b)[1..] == a[1..] + b;
      ReceiveConcat(on, Receive(on, c, a[0]), a[1..], b);
    }
  }

  /** Without the cache the last value sent is the one held. */
  lemma {:induction false} ReceivedBare(c: Cell, bs: seq<Bits>)
    ensures ReceiveAll(false, c, bs).held == if bs == [] then c.held else bs[|bs| - 1]
    decreases |bs|
  {
    if bs != [] {
      ReceivedBare(Receive(false, c, bs[0]), bs[1..]);
    }
  }

  predicate AllAre(bs: seq<Bits>, b: Bits) { forall k | 0 <= k < |bs| :: bs[k] == b }

  /** With it, so it is once one of them differs from what was sent before. */
  lemma {:induction false} ReceivedCached(c: Cell, bs: seq<Bits>)
    ensures ReceiveAll(true, c, bs).held ==
            if bs == [] || (c.valid && AllAre(bs, c.sent)) then c.held else bs[|bs| - 1]
    decreases |bs|
  {
    if bs != [] {
      var d, rest := Receive(true, c, bs[0]), bs[1..];
      ReceivedCached(d, rest);
      assert forall k | 0 <= k < |rest| :: rest[k] == bs[k + 1];
      if c.valid && bs[0] == c.sent {
        assert AllAre(rest, c.sent) <==> AllAre(bs, c.sent) by {
          assert forall k | 0 < k < |bs| :: bs[k] == rest[k - 1];
        }
      } else if rest != [] && AllAre(rest, bs[0]) {
        assert rest[|rest| - 1] == bs[0];
      }
    }
  }

  // ---- calls -------------------------------------------------------------------------------

  lemma {:induction false} PutCell(m: Machine, on: bool, w: Pair, f: AField, b: Bits, g: AField)
    ensures CellOf(Put(m, on, w, f, b), g) == if g == f then Receive(on, CellOf(w, f), b) else CellOf(w, g)
  {
    hide Slot, LawCache.Set, Get;
    SlotsAreInjective(f, g);
    SetGet(m, w.i, f, b, g);
  }

  lemma {:induction false} ActCell(m: Machine, w: Pair, call: Call, p: nat, b: Bits, g: AField)
    ensures CellOf(Act(m, w, call, p, b), g) == CellOf(w, g)
  {
    hide Slot;
    SameFields(w.i, Act(m, w, call, p, b).i, g);
  }

  lemma {:induction false} SameFields(i: Inst, j: Inst, g: AField)
    requires j == i.(dsp := j.dsp)
    ensures Get(j, g) == Get(i, g)
  {
  }

  predicate Writes(op: DeckOp, df: DeckField) { op.Cached? && op.df == df }

  /** What a list of a deck's calls sends to one of its fields. */
  function Sends(x: Context, p: nat, ops: seq<DeckOp>, df: DeckField): seq<Bits>
    decreases |ops|
  {
    if ops == [] then []
    else (if Writes(ops[0], df) then [Value(x, p, ops[0].e)] else []) + Sends(x, p, ops[1..], df)
  }

  predicate WritesAt(op: Op, f: Field) { op.CachedAt? && op.f == f }

  /** And what a list of the centre's calls does. */
  function SendsAt(x: Context, ops: seq<Op>, f: Field): seq<Bits>
    decreases |ops|
  {
    if ops == [] then []
    else (if WritesAt(ops[0], f) then [Value(x, ops[0].p, ops[0].e)] else []) + SendsAt(x, ops[1..], f)
  }

  lemma {:induction false} ReceiveOne(on: bool, c: Cell, b: Bits, rest: seq<Bits>)
    ensures ReceiveAll(on, c, [b] + rest) == ReceiveAll(on, Receive(on, c, b), rest)
    ensures ReceiveAll(on, c, [] + rest) == ReceiveAll(on, c, rest)
  {
    assert ([b] + rest)[1..] == rest && [] + rest == rest;
  }

  /** A deck's calls reach its own fields and no other deck's. */
  lemma {:induction false} DeckOpsCell(x: Context, w: Pair, p: nat, ops: seq<DeckOp>, q: nat, df: ADeckField)
    requires p < PARTS && q < PARTS
    ensures CellOf(DoDeckOps(x, w, p, ops), Deck(q, df))
         == ReceiveAll(x.on, CellOf(w, Deck(q, df)), if q == p then Sends(x, p, ops, df) else [])
    ensures Running(DoDeckOps(x, w, p, ops).i, q) == Running(w.i, q)
    decreases |ops|
  {
    hide Put, Value, CellOf, SwitchOf, Receive;
    if ops != [] {
      var op := ops[0];
      var b, c, rest := Value(x, p, op.e), CellOf(w, Deck(q, df)), Sends(x, p, ops[1..], df);
      match op {
        case Cached(f, e) =>
          PutCell(x.m, x.on, w, Deck(p, f), b, Deck(q, df));
          PutRunning(x.m, x.on, w, Deck(p, f), b, q);
        case Direct(call, e) =>
          ActCell(x.m, w, call, p, b, Deck(q, df));
          ActRunning(x.m, w, call, p, b, q);
      }
      ReceiveOne(x.on, c, b, rest);
      DeckOpsCell(x, DoDeckOp(x, w, p, op), p, ops[1..], q, df);
    }
  }

  lemma {:induction false} OpsCell(x: Context, w: Pair, ops: seq<Op>, f: AField)
    ensures CellOf(DoOps(x, w, ops), f) == ReceiveAll(x.on, CellOf(w, f), SendsAt(x, ops, f))
    decreases |ops|
  {
    hide Put, Value, CellOf, Receive;
    if ops != [] {
      var op := ops[0];
      var b, rest := Value(x, op.p, op.e), SendsAt(x, ops[1..], f);
      match op {
        case CachedAt(g, p, e) => PutCell(x.m, x.on, w, g, b, f);
        case DirectAt(call, p, e) => ActCell(x.m, w, call, p, b, f);
      }
      ReceiveOne(x.on, CellOf(w, f), b, rest);
      OpsCell(x, DoOp(x, w, op), ops[1..], f);
    }
  }

  // ---- a block ---------------------------------------------------------------------------------

  function HeadSends(x: Context, p: nat, engine: int, df: DeckField): seq<Bits> {
    Sends(x, p, PreOps(engine), df) + Sends(x, p, EngineOps(EngineOf(InputOf(x.t, p))), df)
    + Sends(x, p, SamplerOps(), df)
  }

  function TailSends(x: Context, p: nat, engine: int, newPhrase: bool, rung: int, df: DeckField): seq<Bits> {
    Sends(x, p, SurfaceOps(engine), df) + Sends(x, p, SongOps(newPhrase, rung, engine), df)
  }

  /** A hook or a REC call, as far as fields and engines go. */
  lemma {:induction false} AsideCell(w: Pair, w': Pair, q: nat, df: ADeckField)
    requires q < PARTS && w'.c == w.c && w'.i == w.i.(dsp := w'.i.dsp)
    ensures CellOf(w', Deck(q, df)) == CellOf(w, Deck(q, df)) && Running(w'.i, q) == Running(w.i, q)
  {
    hide Slot;
    SameFields(w.i, w'.i, Deck(q, df));
  }

  lemma {:induction false} HeadCell(x: Context, w: Pair, p: nat, q: nat, df: ADeckField)
    requires p < PARTS && q < PARTS
    ensures var head := DeckHead(x, w, p).0;
            && CellOf(head, Deck(q, df))
               == ReceiveAll(x.on, CellOf(w, Deck(q, df)), if q == p then HeadSends(x, p, Running(w.i, p), df) else [])
            && Running(head.i, q) == Running(w.i, q)
  {
    hide DoDeckOps, PreOps, EngineOps, SamplerOps, EngineOf, CellOf, Sends, ReceiveAll;
    var d, c := InputOf(x.t, p), CellOf(w, Deck(q, df));
    var pre, eng, smp := PreOps(Running(w.i, p)), EngineOps(EngineOf(d)), SamplerOps();
    DeckOpsCell(x, w, p, pre, q, df);
    var w1 := DoDeckOps(x, w, p, pre);
    DeckOpsCell(x, w1, p, eng, q, df);
    var w2 := DoDeckOps(x, w1, p, eng);
    var w3 := w2.(i := w2.i.(dsp := x.m.hook(w2.i, p, d.eng)));
    AsideCell(w2, w3, q, df);
    DeckOpsCell(x, w3, p, smp, q, df);
    var w4 := DoDeckOps(x, w3, p, smp);
    AsideCell(w4, DeckHead(x, w, p).0, q, df);
    if q == p {
      ReceiveConcat(x.on, c, Sends(x, p, pre, df), Sends(x, p, eng, df));
      ReceiveConcat(x.on, c, Sends(x, p, pre, df) + Sends(x, p, eng, df), Sends(x, p, smp, df));
    } else {
      ReceiveNone(x.on, c);
    }
  }

  lemma {:induction false} ReceiveNone(on: bool, c: Cell)
    ensures ReceiveAll(on, c, []) == c
  {
  }

  lemma {:induction false} TailCell(x: Context, w: Pair, p: nat, newPhrase: bool, rung: int, q: nat, df: ADeckField)
    requires p < PARTS && q < PARTS
    ensures var tail := DeckTail(x, w, p, newPhrase, rung);
            && CellOf(tail, Deck(q, df))
               == ReceiveAll(x.on, CellOf(w, Deck(q, df)),
                             if q == p then TailSends(x, p, Running(w.i, p), newPhrase, rung, df) else [])
            && Running(tail.i, q) == Running(w.i, q)
  {
    hide DoDeckOps, SurfaceOps, SongOps, CellOf, Sends, ReceiveAll;
    var c, e := CellOf(w, Deck(q, df)), Running(w.i, p);
    DeckOpsCell(x, w, p, SurfaceOps(e), q, df);
    DeckOpsCell(x, w, p, SurfaceOps(e), p, df);
    var w1 := DoDeckOps(x, w, p, SurfaceOps(e));
    DeckOpsCell(x, w1, p, SongOps(newPhrase, rung, e), q, df);
    if q == p {
      ReceiveConcat(x.on, c, Sends(x, p, SurfaceOps(e), df), Sends(x, p, SongOps(newPhrase, rung, e), df));
    } else {
      ReceiveNone(x.on, c);
    }
  }

  /** The song detector's word for this tick. */
  function SongOf(l: Law, t: Input, p: nat): SongResult {
    SongTick(EdgesOf(l.edges, p).song, InputOf(t, p).song, SONG_LADDER_COUNT)
  }

  /** Everything a deck's block sends to one of its fields. */
  function BlockSends(x: Context, w: World, p: nat, df: DeckField): seq<Bits> {
    var e, s := Running(w.i, p), SongOf(w.law, x.t, p);
    HeadSends(x, p, e, df) + TailSends(x, p, e, s.changed, s.state.rung, df)
  }

  /** A deck's field as its block finds it. */
  function Found(w: World, t: Input, p: nat, df: ADeckField): Cell
    requires p < PARTS
  {
    CellOf(Pair(Noticed(w.law, p, AskedKey(InputOf(t, p)), Running(w.i, p)), w.i), Deck(p, df))
  }

  /** Noticing a change on deck p forgets it there, and leaves the other deck alone. */
  lemma {:induction false} NoticedCell(l: Law, i: Inst, p: nat, asked: int, q: nat, df: ADeckField)
    requires p < PARTS && q < PARTS
    ensures var c := Noticed(l, p, asked, Running(i, p));
            var kept := q != p || (asked == EnginesOf(l, p).asked && Running(i, p) == EnginesOf(l, p).ran);
            var cell := CellOf(Pair(l.c, i), Deck(q, df));
            CellOf(Pair(c, i), Deck(q, df)) == if kept then cell else cell.(valid := false)
  {
    hide Slot, ForgetDeck, Get;
    ForgetDeckSlots(l.c, p, Deck(q, df));
    ForgetKeepsSent(l.c, p);
  }

  lemma {:induction false} BlockSong(x: Context, w: World, p: nat, running: int)
    requires p < PARTS
    ensures var (edges, fired) := DeckStep(EdgesOf(w.law.edges, p), ViewOf(InputOf(x.t, p), running));
            fired.newPhrase == SongOf(w.law, x.t, p).changed && edges.song.rung == SongOf(w.law, x.t, p).state.rung
  {
    hide EngineOf, HystStep;
  }

  lemma {:induction false} BlockCell(x: Context, w: World, p: nat, q: nat, df: ADeckField)
    requires p < PARTS && q < PARTS
    ensures var r := DeckTick(x, w, p).w;
            && CellOf(PairOf(r), Deck(q, df))
               == (if q == p then ReceiveAll(x.on, Found(w, x.t, p, df), BlockSends(x, w, p, df))
                   else CellOf(PairOf(w), Deck(q, df)))
            && Running(r.i, q) == Running(w.i, q)
  {
    hide Noticed, DeckHead, DeckTail, DeckStep, EngineOf, CellOf, HeadSends, TailSends, ReceiveAll, SongOf;
    var asked := AskedKey(InputOf(x.t, p));
    var w0 := Pair(Noticed(w.law, p, asked, Running(w.i, p)), w.i);
    var head := DeckHead(x, w0, p).0;
    var (edges, fired) := DeckStep(EdgesOf(w.law.edges, p), ViewOf(InputOf(x.t, p), Running(head.i, p)));
    NoticedCell(w.law, w.i, p, asked, q, df);
    BlockSong(x, w, p, Running(head.i, p));
    HeadCell(x, w0, p, q, df);
    HeadCell(x, w0, p, p, df);
    TailCell(x, head, p, fired.newPhrase, edges.song.rung, q, df);
    var c := CellOf(w0, Deck(q, df));
    if q == p {
      ReceiveConcat(x.on, c, HeadSends(x, p, Running(w.i, p), df),
                    TailSends(x, p, Running(w.i, p), fired.newPhrase, edges.song.rung, df));
    } else {
      ReceiveNone(x.on, c);
    }
  }

  /** A block moves nothing the other deck's block reads of the law. */
  lemma {:induction false} BlockAside(x: Context, w: World, p: nat, q: nat)
    requires p < PARTS && q < PARTS && p != q
    ensures var r := DeckTick(x, w, p).w;
            && EnginesOf(r.law, q) == EnginesOf(w.law, q) && EdgesOf(r.law.edges, q) == EdgesOf(w.law.edges, q)
            && r.law.edges.drift == w.law.edges.drift
  {
    hide Noticed, DeckHead, DeckTail, DeckStep, EngineOf;
  }

  // ---- a tick --------------------------------------------------------------------------------------

  function CentreSends(x: Context, w: World, f: Field): seq<Bits> {
    SendsAt(x, LayerOps(|MOD_LAYER|), f)
    + SendsAt(x, CentreOps(DriftTick(w.law.edges.drift, x.t.driftInZone).settle), f)
  }

  lemma {:induction false} CentreCell(x: Context, w: World, f: AField)
    ensures CellOf(PairOf(CentreTick(x, w).0), f) == ReceiveAll(x.on, CellOf(PairOf(w), f), CentreSends(x, w, f))
  {
    hide DoOps, LayerOps, CentreOps, CellOf, SendsAt, ReceiveAll, MOD_LAYER;
    var layer, ops := LayerOps(|MOD_LAYER|), CentreOps(DriftTick(w.law.edges.drift, x.t.driftInZone).settle);
    OpsCell(x, PairOf(w), layer, f);
    OpsCell(x, DoOps(x, PairOf(w), layer), ops, f);
    ReceiveConcat(x.on, CellOf(PairOf(w), f), SendsAt(x, layer, f), SendsAt(x, ops, f));
  }

  function ContextOf(m: Machine, on: bool, w: World, t: Input): Context { Context(m, on, t, m.frame(w.i.dsp)) }

  /** Everything a tick sends to one field of a deck, in order. */
  function TickSends(m: Machine, w: World, t: Input, p: nat, df: DeckField): seq<Bits> {
    var x := ContextOf(m, false, w, t);
    BlockSends(x, w, p, df) + CentreSends(x, w, Deck(p, df))
  }

  /** What is found and sent depends on the law and on the engine running alone. */
  lemma {:induction false} SameBlock(x: Context, w: World, v: World, p: nat, df: ADeckField)
    requires p < PARTS && EnginesOf(v.law, p) == EnginesOf(w.law, p)
    requires EdgesOf(v.law.edges, p) == EdgesOf(w.law.edges, p)
    requires Running(v.i, p) == Running(w.i, p) && CellOf(PairOf(v), Deck(p, df)) == CellOf(PairOf(w), Deck(p, df))
    ensures Found(v, x.t, p, df) == Found(w, x.t, p, df) && BlockSends(x, v, p, df) == BlockSends(x, w, p, df)
  {
    hide Noticed, CellOf, HeadSends, TailSends;
    var asked := AskedKey(InputOf(x.t, p));
    NoticedCell(w.law, w.i, p, asked, p, df);
    NoticedCell(v.law, v.i, p, asked, p, df);
  }

  lemma {:induction false} ShuffleCell(x: Context, w: World, p: nat, df: ADeckField)
    requires p < PARTS
    ensures var v := WithPair(w, DoOp(x, PairOf(w), CachedAt(Global(G_SHUFFLE), 0, Raw(SHUFFLE))));
            && v.law == w.law.(c := v.law.c)
            && Running(v.i, p) == Running(w.i, p) && CellOf(PairOf(v), Deck(p, df)) == CellOf(PairOf(w), Deck(p, df))
  {
    hide Put, CellOf, Value;
    PutCell(x.m, x.on, PairOf(w), Global(G_SHUFFLE), Value(x, 0, Raw(SHUFFLE)), Deck(p, df));
    PutRunning(x.m, x.on, PairOf(w), Global(G_SHUFFLE), Value(x, 0, Raw(SHUFFLE)), p);
  }

  /** The two blocks of a tick, as far as one field of deck p goes. */
  lemma {:induction false} BlocksCell(x: Context, w: World, p: nat, df: ADeckField)
    requires p < PARTS
    ensures var v := DeckTick(x, DeckTick(x, w, 0).w, 1).w;
            && CellOf(PairOf(v), Deck(p, df)) == ReceiveAll(x.on, Found(w, x.t, p, df), BlockSends(x, w, p, df))
            && v.law.edges.drift == w.law.edges.drift
  {
    hide DeckTick, CellOf, Found, BlockSends, ReceiveAll;
    var v := DeckTick(x, w, 0).w;
    BlockCell(x, w, 0, p, df);
    BlockCell(x, v, 1, p, df);
    BlockAside(x, w, 0, 1);
    BlockAside(x, v, 1, 0);
    if p == 1 {
      SameBlock(x, w, v, 1, df);
    }
  }

  /** A tick, cached or not, is the values it sends received one after the other. */
  lemma {:induction false} TickCell(m: Machine, on: bool, w: World, t: Input, p: nat, df: ADeckField)
    requires p < PARTS
    ensures var f: AField := Deck(p, df);
            CellOf(PairOf(Tick(m, on, w, t).w), f) == ReceiveAll(on, Found(w, t, p, df), TickSends(m, w, t, p, df))
  {
    hide DoOp, DeckTick, CentreTick, CellOf, Found, BlockSends, CentreSends, ReceiveAll;
    var x := ContextOf(m, on, w, t);
    var w0 := WithPair(w, DoOp(x, PairOf(w), CachedAt(Global(G_SHUFFLE), 0, Raw(SHUFFLE))));
    ShuffleCell(x, w, p, df);
    SameBlock(x, w, w0, p, df);
    BlocksCell(x, w0, p, df);
    var w2 := DeckTick(x, DeckTick(x, w0, 0).w, 1).w;
    CentreCell(x, w2, Deck(p, df));
    SameCentre(x, w, w2, Deck(p, df));
    ReceiveConcat(on, Found(w, t, p, df), BlockSends(x, w, p, df), CentreSends(x, w, Deck(p, df)));
    SendsUncached(x, w, p, df);
  }

  lemma {:induction false} SameCentre(x: Context, w: World, v: World, f: Field)
    requires v.law.edges.drift == w.law.edges.drift
    ensures CentreSends(x, v, f) == CentreSends(x, w, f)
  {
  }

  // The cache decides nothing of what is sent.

  lemma {:induction false} SendsUncached(x: Context, w: World, p: nat, df: DeckField)
    ensures BlockSends(Off(x), w, p, df) == BlockSends(x, w, p, df)
    ensures CentreSends(Off(x), w, Deck(p, df)) == CentreSends(x, w, Deck(p, df))
  {
    hide PreOps, EngineOps, SamplerOps, SurfaceOps, SongOps, EngineOf, LayerOps, CentreOps, MOD_LAYER, Sends, SendsAt;
    var e, s := Running(w.i, p), SongOf(w.law, x.t, p);
    DeckSendsUncached(x, p, PreOps(e), df);
    DeckSendsUncached(x, p, EngineOps(EngineOf(InputOf(x.t, p))), df);
    DeckSendsUncached(x, p, SamplerOps(), df);
    DeckSendsUncached(x, p, SurfaceOps(e), df);
    DeckSendsUncached(x, p, SongOps(s.changed, s.state.rung, e), df);
    CentreSendsUncached(x, LayerOps(|MOD_LAYER|), Deck(p, df));
    CentreSendsUncached(x, CentreOps(DriftTick(w.law.edges.drift, x.t.driftInZone).settle), Deck(p, df));
  }

  lemma {:induction false} DeckSendsUncached(x: Context, p: nat, ops: seq<DeckOp>, df: DeckField)
    ensures Sends(Off(x), p, ops, df) == Sends(x, p, ops, df)
    decreases |ops|
  {
    if ops != [] {
      DeckSendsUncached(x, p, ops[1..], df);
    }
  }

  lemma {:induction false} CentreSendsUncached(x: Context, ops: seq<Op>, f: Field)
    ensures SendsAt(Off(x), ops, f) == SendsAt(x, ops, f)
    decreases |ops|
  {
    if ops != [] {
      CentreSendsUncached(x, ops[1..], f);
    }
  }

  // ---- what lists of calls send ------------------------------------------------------------

  lemma {:induction false} Associate(a: seq<Bits>, b: seq<Bits>, c: seq<Bits>)
    ensures a + (b + c) == a + b + c
  {
  }

  lemma {:induction false} SendsConcat(x: Context, p: nat, a: seq<DeckOp>, b: seq<DeckOp>, df: DeckField)
    ensures Sends(x, p, a + b, df) == Sends(x, p, a, df) + Sends(x, p, b, df)
    decreases |a|
  {
    hide Value, Writes;
    if a == [] {
      assert a + b == b;
    } else {
      assert (a + b)[0] == a[0] && (a + b)[1..] == a[1..] + b;
      SendsConcat(x, p, a[1..], b, df);
      Associate(if Writes(a[0], df) then [Value(x, p, a[0].e)] else [], Sends(x, p, a[1..], df), Sends(x, p, b, df));
    }
  }

  lemma {:induction false} SendsNothing(x: Context, p: nat, ops: seq<DeckOp>, df: DeckField)
    requires forall i | 0 <= i < |ops| :: !Writes(ops[i], df)
    ensures Sends(x, p, ops, df) == []
    decreases |ops|
  {
    if ops != [] {
      SendsNothing(x, p, ops[1..], df);
    }
  }

  lemma {:induction false} SendsOnce(x: Context, p: nat, ops: seq<DeckOp>, k: nat, df: DeckField)
    requires k < |ops| && forall i | 0 <= i < |ops| :: Writes(ops[i], df) <==> i == k
    ensures Sends(x, p, ops, df) == [Value(x, p, ops[k].e)]
    decreases |ops|
  {
    hide Value;
    if k == 0 {
      SendsNothing(x, p, ops[1..], df);
    } else {
      SendsOnce(x, p, ops[1..], k - 1, df);
    }
  }

  lemma {:induction false} SendsAtNothing(x: Context, ops: seq<Op>, f: Field)
    requires forall i | 0 <= i < |ops| :: !WritesAt(ops[i], f)
    ensures SendsAt(x, ops, f) == []
    decreases |ops|
  {
    if ops != [] {
      SendsAtNothing(x, ops[1..], f);
    }
  }

  /** The fields the centre's block leaves to the decks' blocks. */
  predicate BlockOnly(df: DeckField) {
    !df.TargetDepth? && !df.FxDepth? && !df.FxActive? && df != Plain(D_REV_MIX) && df != Plain(D_ROOT)
  }

  lemma {:induction false} LayerLeaves(k: nat, p: nat, df: DeckField, i: nat)
    requires k <= |MOD_LAYER| && BlockOnly(df) && i < |LayerOps(k)|
    ensures !WritesAt(LayerOps(k)[i], Deck(p, df))
  {
    hide MOD_LAYER;
    if k > 0 && i < |LayerOps(k - 1)| {
      LayerLeaves(k - 1, p, df, i);
    }
  }

  lemma {:induction false} CentreLeaves(settle: bool, p: nat, df: DeckField)
    requires BlockOnly(df)
    ensures forall i | 0 <= i < |CentreOps(settle)| :: !WritesAt(CentreOps(settle)[i], Deck(p, df))
  {
  }

  lemma {:induction false} CentreSendsNothing(x: Context, w: World, p: nat, df: DeckField)
    requires BlockOnly(df)
    ensures CentreSends(x, w, Deck(p, df)) == []
  {
    hide LayerOps, CentreOps, WritesAt, SendsAt, MOD_LAYER;
    var layer, settle := LayerOps(|MOD_LAYER|), DriftTick(w.law.edges.drift, x.t.driftInZone).settle;
    forall i | 0 <= i < |layer| ensures !WritesAt(layer[i], Deck(p, df)) {
      LayerLeaves(|MOD_LAYER|, p, df, i);
    }
    SendsAtNothing(x, layer, Deck(p, df));
    CentreLeaves(settle, p, df);
    SendsAtNothing(x, CentreOps(settle), Deck(p, df));
  }

  // ---- exactly when the cache is exact -----------------------------------------------------------

  /** What a tick leaves in a field of a deck. */
  function HeldAfter(m: Machine, on: bool, w: World, t: Input, p: nat, df: ADeckField): Bits
    requires p < PARTS
  {
    var f: AField := Deck(p, df);
    Get(Tick(m, on, w, t).w.i, f)
  }

  lemma {:induction false} HeldIs(m: Machine, on: bool, w: World, t: Input, p: nat, df: ADeckField)
    requires p < PARTS
    ensures HeldAfter(m, on, w, t, p, df) == ReceiveAll(on, Found(w, t, p, df), TickSends(m, w, t, p, df)).held
  {
    hide Tick, Get, Slot, Found, TickSends, ReceiveAll;
    TickCell(m, on, w, t, p, df);
  }

  /** Of any world whatever, safe or not: a tick through the cache leaves in a field what
      a tick without it would if and only if the field's slot is forgotten, or holds what
      was sent, or the tick sends the field nothing, or something new. */
  lemma {:induction false} CacheIsExactWhen(m: Machine, w: World, t: Input, p: nat, df: ADeckField)
    requires p < PARTS
    ensures var c, bs := Found(w, t, p, df), TickSends(m, w, t, p, df);
            HeldAfter(m, true, w, t, p, df) == HeldAfter(m, false, w, t, p, df)
            <==> !c.valid || c.held == c.sent || bs == [] || !AllAre(bs, c.sent)
  {
    hide HeldAfter, Found, TickSends, ReceiveAll, AllAre;
    HeldIs(m, true, w, t, p, df);
    HeldIs(m, false, w, t, p, df);
    SameHeld(Found(w, t, p, df), TickSends(m, w, t, p, df));
  }

  lemma {:induction false} SameHeld(c: Cell, bs: seq<Bits>)
    ensures ReceiveAll(true, c, bs).held == ReceiveAll(false, c, bs).held
            <==> !c.valid || c.held == c.sent || bs == [] || !AllAre(bs, c.sent)
  {
    hide ReceiveAll;
    ReceivedCached(c, bs);
    ReceivedBare(c, bs);
  }

  lemma {:induction false} DeckMatchesAt(w: Pair, p: nat, df: ADeckField)
    requires p < PARTS && DeckMatches(w, p)
    ensures Matches(w, Deck(p, df))
  {
  }

  /** Turned A -> B -> A inside one fade, a switch lands on the engine that was playing.
      The asked and the running engine are then what they were, so the deck is not
      forgotten: were such a landing to overwrite a field, the next tick through the cache
      would leave it as the full push does if and only if it sends the field nothing, or
      something else than before. Hence the condition in DeckProcessed. */
  lemma {:induction false} CancelledLanding(m: Machine, w: World, j: Inst, t: Input, p: nat, df: ADeckField)
    requires p < PARTS && DeckSettled(w, p) && w.law.c.valid[Slot(Deck(p, df))] && !IsEngine(Deck(p, df))
    requires SwitchOf(w.i, p).switching && SwitchOf(w.i, p).pending == Running(w.i, p)
    requires SwitchOf(j, p) == SwitchOf(w.i, p).(switching := false)
    requires AskedKey(InputOf(t, p)) == EnginesOf(w.law, p).asked
    ensures var v, was := w.(i := j), Get(w.i, Deck(p, df));
            var bs := TickSends(m, v, t, p, df);
            HeldAfter(m, true, v, t, p, df) == HeldAfter(m, false, v, t, p, df)
            <==> Get(j, Deck(p, df)) == was || bs == [] || !AllAre(bs, was)
  {
    hide HeldAfter, TickSends, Get, Slot, DeckMatches, AllAre;
    var v := w.(i := j);
    DeckMatchesAt(PairOf(w), p, df);
    NoticedCell(w.law, j, p, AskedKey(InputOf(t, p)), p, df);
    CacheIsExactWhen(m, v, t, p, df);
  }
}
