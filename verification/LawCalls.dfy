/**
  The calls that are not cached, and what a tick reports: whoever listens to the sound
  engine hears each of them once a tick, in one order, with its own knob's value, and
  nothing of the cached setters' business.
 */
module LawCalls {
  import opened Options
  import opened Params
  import opened LawCache
  import opened LawEdges
  import opened LawTick
  import opened LawRefines
  import opened LawCells
  import opened LawFaces

  /** A listener: it hears every uncached call, and neither setters nor the hook. */
  ghost predicate Hears(m: Machine, obs: Dsp -> seq<Action>) {
    && (forall i: Inst, a: Action :: obs(m.act(i, a)) == obs(i.dsp) + [a])
    && (forall i: Inst, f: Field :: obs(m.react(i, f)) == obs(i.dsp))
    && (forall i: Inst, p: nat, eng: int :: obs(m.hook(i, p, eng)) == obs(i.dsp))
  }

  // ---- what a tick calls, by name -------------------------------------------------------

  function CallOf(x: Context, p: nat, call: Call, e: Expr): Action { Action(call, p, Value(x, p, e)) }

  /** REC is wanted on a deck that runs the sampler. */
  predicate WantsRec(w: World, t: Input, p: nat) {
    InputOf(t, p).recOn && Running(w.i, p) == ENGINE_SAMPLER
  }

  /** Whether deck p records when its block of a tick comes to look. */
  predicate Records(m: Machine, on: bool, w: World, t: Input, p: nat)
    requires p < PARTS
  {
    var x := ContextOf(m, on, w, t);
    var w0 := Shuffled(x, w);
    if p == 0 then RecordsAt(x, w0, 0) else RecordsAt(x, DeckTick(x, w0, 0).w, 1)
  }

  function Shuffled(x: Context, w: World): World {
    WithPair(w, DoOp(x, PairOf(w), CachedAt(Global(G_SHUFFLE), 0, Raw(SHUFFLE))))
  }

  predicate RecordsAt(x: Context, w: World, p: nat)
    requires p < PARTS
  {
    var w0 := Pair(Noticed(w.law, p, AskedKey(InputOf(x.t, p)), Running(w.i, p)), w.i);
    x.m.recording(BeforeRecord(x, w0, p).i.dsp, p)
  }

  /** The calls of a deck: RATE, SMOOTH, REC where it differs, STEPS, and a new phrase
      where the SONG knob has moved a rung, with a punch on a sampler. */
  function DeckCalls(x: Context, w: World, p: nat, records: bool): seq<Action> {
    var want := WantsRec(w, x.t, p);
    [CallOf(x, p, SetRate, Modded(RATE)), CallOf(x, p, SetSmooth, Modded(SMOOTH))]
    + (if want != records then [Action(SamplerRecord, p, if want then 1 else 0)] else [])
    + [CallOf(x, p, SetStep, Steps)]
    + (if SongOf(w.law, x.t, p).changed then [Action(NewPhrase, p, 0)] else [])
    + (if SongOf(w.law, x.t, p).changed && Running(w.i, p) == ENGINE_SAMPLER then [Action(SamplerPunch, p, 0)] else [])
  }

  /** The calls of the centre: SYNC by COUPLE's half, SETTLE on entering DRIFT's stop,
      DRIFT, TIDE and the tempo. */
  function CentreCalls(x: Context, settle: bool): seq<Action> {
    [CallOf(x, 0, SetSync, InGrid)]
    + (if settle then [Action(Settle, 0, 0)] else [])
    + [CallOf(x, 0, SetDrift, DriftAmount), CallOf(x, 0, SetTide, Modded(TIDE)), CallOf(x, 0, SetTempoBpm, Bpm)]
  }

  // ---- lists of calls ----------------------------------------------------------------------

  function Called(x: Context, p: nat, ops: seq<DeckOp>): seq<Action>
    decreases |ops|
  {
    if ops == [] then []
    else (if ops[0].Direct? then [CallOf(x, p, ops[0].call, ops[0].e)] else []) + Called(x, p, ops[1..])
  }

  function CalledAt(x: Context, ops: seq<Op>): seq<Action>
    decreases |ops|
  {
    if ops == [] then []
    else (if ops[0].DirectAt? then [CallOf(x, ops[0].p, ops[0].call, ops[0].e)] else []) + CalledAt(x, ops[1..])
  }

  lemma {:induction false} PutUnheard(m: Machine, obs: Dsp -> seq<Action>, on: bool, w: Pair, f: AField, b: Bits)
    requires Hears(m, obs)
    ensures obs(Put(m, on, w, f, b).i.dsp) == obs(w.i.dsp)
  {
    hide Slot;
  }

  lemma {:induction false} DeckOpsHeard(x: Context, obs: Dsp -> seq<Action>, w: Pair, p: nat, ops: seq<DeckOp>)
    requires Hears(x.m, obs) && p < PARTS
    ensures obs(DoDeckOps(x, w, p, ops).i.dsp) == obs(w.i.dsp) + Called(x, p, ops)
    decreases |ops|
  {
    hide Put, Value;
    if ops != [] {
      var op := ops[0];
      if op.Cached? {
        PutUnheard(x.m, obs, x.on, w, Deck(p, op.df), Value(x, p, op.e));
      }
      DeckOpsHeard(x, obs, DoDeckOp(x, w, p, op), p, ops[1..]);
    }
  }

  lemma {:induction false} OpsHeard(x: Context, obs: Dsp -> seq<Action>, w: Pair, ops: seq<Op>)
    requires Hears(x.m, obs)
    ensures obs(DoOps(x, w, ops).i.dsp) == obs(w.i.dsp) + CalledAt(x, ops)
    decreases |ops|
  {
    hide Put, Value;
    if ops != [] {
      var op := ops[0];
      if op.CachedAt? {
        PutUnheard(x.m, obs, x.on, w, op.f, Value(x, op.p, op.e));
      }
      OpsHeard(x, obs, DoOp(x, w, op), ops[1..]);
    }
  }

  lemma {:induction false} CalledConcat(x: Context, p: nat, a: seq<DeckOp>, b: seq<DeckOp>)
    ensures Called(x, p, a + b) == Called(x, p, a) + Called(x, p, b)
    decreases |a|
  {
    hide CallOf;
    if a == [] {
      assert a + b == b;
    } else {
      assert (a + b)[0] == a[0] && (a + b)[1..] == a[1..] + b;
      CalledConcat(x, p, a[1..], b);
    }
  }

  lemma {:induction false} CalledAtConcat(x: Context, a: seq<Op>, b: seq<Op>)
    ensures CalledAt(x, a + b) == CalledAt(x, a) + CalledAt(x, b)
    decreases |a|
  {
    hide CallOf;
    if a == [] {
      assert a + b == b;
    } else {
      assert (a + b)[0] == a[0] && (a + b)[1..] == a[1..] + b;
      CalledAtConcat(x, a[1..], b);
    }
  }

  lemma {:induction false} NothingCalled(x: Context, p: nat, ops: seq<DeckOp>)
    requires forall i | 0 <= i < |ops| :: ops[i].Cached?
    ensures Called(x, p, ops) == []
    decreases |ops|
  {
    if ops != [] {
      NothingCalled(x, p, ops[1..]);
    }
  }

  lemma {:induction false} NothingCalledAt(x: Context, ops: seq<Op>)
    requires forall i | 0 <= i < |ops| :: ops[i].CachedAt?
    ensures CalledAt(x, ops) == []
    decreases |ops|
  {
    if ops != [] {
      NothingCalledAt(x, ops[1..]);
    }
  }

  lemma {:induction false} OneCalled(x: Context, p: nat, op: DeckOp, ops: seq<DeckOp>)
    requires op.Direct?
    ensures Called(x, p, [op] + ops) == [CallOf(x, p, op.call, op.e)] + Called(x, p, ops)
  {
    assert ([op] + ops)[1..] == ops;
  }

  // ---- the pieces ------------------------------------------------------------------------------

  lemma {:induction false} VoiceCalls(x: Context, p: nat)
    ensures Called(x, p, VoiceOps())
            == [CallOf(x, p, SetRate, Modded(RATE)), CallOf(x, p, SetSmooth, Modded(SMOOTH))]
  {
    hide CallOf, Called;
    var ops := VoiceOps();
    OneCalled(x, p, ops[0], ops[1..3]);
    OneCalled(x, p, ops[3], ops[4..]);
    NothingCalled(x, p, ops[1..3]);
    NothingCalled(x, p, ops[4..]);
    CalledConcat(x, p, [ops[0]] + ops[1..3], [ops[3]] + ops[4..]);
    assert ops == ([ops[0]] + ops[1..3]) + ([ops[3]] + ops[4..]);
  }

  lemma {:induction false} PreCalls(x: Context, p: nat, engine: int)
    ensures Called(x, p, PreOps(engine)) == Called(x, p, VoiceOps())
  {
    hide Called, VoiceOps;
    NothingCalled(x, p, DetuneOps(engine));
    NothingCalled(x, p, FxOps());
    CalledConcat(x, p, VoiceOps() + DetuneOps(engine), FxOps());
    CalledConcat(x, p, VoiceOps(), DetuneOps(engine));
  }

  lemma {:induction false} SurfaceCalls(x: Context, p: nat, engine: int)
    ensures Called(x, p, SurfaceOps(engine)) == [CallOf(x, p, SetStep, Steps)]
  {
    hide Called, CallOf;
    var faces, scan, bases := FaceOps(engine), ScanOps(engine), BaseOps(engine);
    CalledConcat(x, p, faces + scan, bases);
    CalledConcat(x, p, faces, scan);
    NothingCalled(x, p, faces);
    NothingCalled(x, p, scan);
    assert bases == bases[..5] + ([bases[5]] + []);
    CalledConcat(x, p, bases[..5], [bases[5]] + []);
    NothingCalled(x, p, bases[..5]);
    OneCalled(x, p, bases[5], []);
    NothingCalled(x, p, []);
  }

  lemma {:induction false} SongCalls(x: Context, p: nat, changed: bool, rung: int, engine: int)
    ensures Called(x, p, SongOps(changed, rung, engine))
            == (if changed then [Action(NewPhrase, p, 0)] else [])
             + (if changed && engine == ENGINE_SAMPLER then [Action(SamplerPunch, p, 0)] else [])
  {
    hide Called;
    CalledConcat(x, p, PhraseOps(changed, engine), LadderOps(rung));
    NothingCalled(x, p, LadderOps(rung));
    NothingCalled(x, p, []);
    if changed {
      var phrase, punch := Direct(NewPhrase, Known(0)), Direct(SamplerPunch, Known(0));
      OneCalled(x, p, punch, []);
      OneCalled(x, p, phrase, [punch]);
      OneCalled(x, p, phrase, []);
      assert [phrase, punch] == [phrase] + [punch] && [punch] + [] == [punch] && [phrase] + [] == [phrase];
    }
  }

  lemma {:induction false} CentreOpsCall(x: Context, settle: bool)
    ensures CalledAt(x, CentreOps(settle)) == CentreCalls(x, settle)
  {
    hide CalledAt, CallOf, MorphOps, SettleOps, DriftOps, RoomOps, KeyOps;
    var morph, settled, drift, room, key := MorphOps(), SettleOps(settle), DriftOps(), RoomOps(), KeyOps();
    CalledAtConcat(x, morph + settled + drift + room, key);
    CalledAtConcat(x, morph + settled + drift, room);
    CalledAtConcat(x, morph + settled, drift);
    CalledAtConcat(x, morph, settled);
    MorphCalls(x);
    SettleCalls(x, settle);
    DriftCalls(x);
    RoomIsCached();
    NothingCalledAt(x, room);
    KeyCalls(x);
  }

  lemma {:induction false} OneCalledAt(x: Context, a: seq<Op>, op: Op, b: seq<Op>)
    requires op.DirectAt?
    requires (forall i | 0 <= i < |a| :: a[i].CachedAt?) && (forall i | 0 <= i < |b| :: b[i].CachedAt?)
    ensures CalledAt(x, a + [op] + b) == [CallOf(x, op.p, op.call, op.e)]
  {
    hide CallOf;
    CalledAtConcat(x, a + [op], b);
    CalledAtConcat(x, a, [op]);
    NothingCalledAt(x, a);
    NothingCalledAt(x, b);
    assert [op][1..] == [];
  }

  lemma {:induction false} MorphCalls(x: Context)
    ensures CalledAt(x, MorphOps()) == [CallOf(x, 0, SetSync, InGrid)]
  {
    hide CalledAt, CallOf;
    var ops := MorphOps();
    OneCalledAt(x, ops[..1], ops[1], ops[2..]);
    assert ops == ops[..1] + [ops[1]] + ops[2..];
  }

  lemma {:induction false} SettleCalls(x: Context, settle: bool)
    ensures CalledAt(x, SettleOps(settle)) == if settle then [Action(Settle, 0, 0)] else []
  {
    hide CalledAt;
    NothingCalledAt(x, []);
    if settle {
      OneCalledAt(x, [], DirectAt(Settle, 0, Known(0)), []);
      assert SettleOps(settle) == [] + [DirectAt(Settle, 0, Known(0))] + [];
    }
  }

  lemma {:induction false} DriftCalls(x: Context)
    ensures CalledAt(x, DriftOps()) == [CallOf(x, 0, SetDrift, DriftAmount), CallOf(x, 0, SetTide, Modded(TIDE))]
  {
    hide CalledAt, CallOf;
    var ops := DriftOps();
    OneCalledAt(x, [], ops[0], []);
    OneCalledAt(x, [], ops[1], ops[2..]);
    CalledAtConcat(x, [] + [ops[0]] + [], [] + [ops[1]] + ops[2..]);
    assert ops == ([] + [ops[0]] + []) + ([] + [ops[1]] + ops[2..]);
  }

  lemma {:induction false} RoomIsCached()
    ensures forall i | 0 <= i < |RoomOps()| :: RoomOps()[i].CachedAt?
  {
  }

  lemma {:induction false} KeyCalls(x: Context)
    ensures CalledAt(x, KeyOps()) == [CallOf(x, 0, SetTempoBpm, Bpm)]
  {
    hide CalledAt, CallOf;
    var ops := KeyOps();
    OneCalledAt(x, ops[..3], ops[3], ops[4..]);
    assert ops == ops[..3] + [ops[3]] + ops[4..];
  }

  lemma {:induction false} LayerCalls(x: Context, k: nat)
    requires k <= |MOD_LAYER|
    ensures CalledAt(x, LayerOps(k)) == []
    decreases k
  {
    hide MOD_LAYER;
    if k > 0 {
      LayerCalls(x, k - 1);
      CalledAtConcat(x, LayerOps(k - 1), RowOps(k - 1));
      NothingCalledAt(x, RowOps(k - 1));
    }
  }

  // ---- a block, a tick ---------------------------------------------------------------------------

  lemma {:induction false} HeadHeard(x: Context, obs: Dsp -> seq<Action>, w: Pair, p: nat)
    requires Hears(x.m, obs) && p < PARTS
    ensures var (head, started) := DeckHead(x, w, p);
            var want := InputOf(x.t, p).recOn && Running(w.i, p) == ENGINE_SAMPLER;
            var records := x.m.recording(BeforeRecord(x, w, p).i.dsp, p);
            && obs(head.i.dsp) == obs(w.i.dsp) + Called(x, p, VoiceOps())
                                + (if want != records then [Action(SamplerRecord, p, if want then 1 else 0)] else [])
            && (started <==> want && !records) && Running(head.i, p) == Running(w.i, p)
  {
    hide DoDeckOps, PreOps, VoiceOps, EngineOps, SamplerOps, EngineOf, Called, SwitchOf;
    var d := InputOf(x.t, p);
    var pre, eng, smp := PreOps(Running(w.i, p)), EngineOps(EngineOf(d)), SamplerOps();
    DeckOpsHeard(x, obs, w, p, pre);
    PreCalls(x, p, Running(w.i, p));
    DeckOpsCell(x, w, p, pre, p, Plain(0));
    var w1 := DoDeckOps(x, w, p, pre);
    DeckOpsHeard(x, obs, w1, p, eng);
    EngineIsCached(EngineOf(d));
    NothingCalled(x, p, eng);
    DeckOpsCell(x, w1, p, eng, p, Plain(0));
    var w2 := DoDeckOps(x, w1, p, eng);
    var w3 := w2.(i := w2.i.(dsp := x.m.hook(w2.i, p, d.eng)));
    AsideCell(w2, w3, p, Plain(0));
    DeckOpsHeard(x, obs, w3, p, smp);
    NothingCalled(x, p, smp);
    DeckOpsCell(x, w3, p, smp, p, Plain(0));
    AsideCell(BeforeRecord(x, w, p), DeckHead(x, w, p).0, p, Plain(0));
  }

  lemma {:induction false} EngineIsCached(id: int)
    ensures forall i | 0 <= i < |EngineOps(id)| :: EngineOps(id)[i].Cached?
    ensures forall i | 0 <= i < |SamplerOps()| :: SamplerOps()[i].Cached?
  {
  }

  lemma {:induction false} TailHeard(x: Context, obs: Dsp -> seq<Action>, w: Pair, p: nat, newPhrase: bool, rung: int)
    requires Hears(x.m, obs) && p < PARTS
    ensures obs(DeckTail(x, w, p, newPhrase, rung).i.dsp)
            == obs(w.i.dsp) + [CallOf(x, p, SetStep, Steps)]
             + (if newPhrase then [Action(NewPhrase, p, 0)] else [])
             + (if newPhrase && Running(w.i, p) == ENGINE_SAMPLER then [Action(SamplerPunch, p, 0)] else [])
  {
    hide DoDeckOps, SurfaceOps, SongOps, Called, CallOf, SwitchOf;
    var e := Running(w.i, p);
    DeckOpsHeard(x, obs, w, p, SurfaceOps(e));
    SurfaceCalls(x, p, e);
    DeckOpsCell(x, w, p, SurfaceOps(e), p, Plain(0));
    var w1 := DoDeckOps(x, w, p, SurfaceOps(e));
    DeckOpsHeard(x, obs, w1, p, SongOps(newPhrase, rung, e));
    SongCalls(x, p, newPhrase, rung, e);
  }

  /** What a deck's block reports of its view and of REC. */
  predicate Reports(r: DeckReport, w: World, t: Input, p: nat, records: bool) {
    var d := InputOf(t, p);
    && r.view == DeckView(Running(w.i, p) == EngineAt(d.eng, d.testTone), Running(w.i, p) == ENGINE_BBD, d.song)
    && (r.recStarted <==> WantsRec(w, t, p) && !records)
  }

  lemma {:induction false} BlockHeard(x: Context, obs: Dsp -> seq<Action>, w: World, p: nat)
    requires Hears(x.m, obs) && p < PARTS
    ensures var r, records := DeckTick(x, w, p), RecordsAt(x, w, p);
            obs(r.w.i.dsp) == obs(w.i.dsp) + DeckCalls(x, w, p, records) && Reports(r.report, w, x.t, p, records)
  {
    hide Noticed, DeckHead, DeckTail, DeckStep, EngineOf, EngineAt, CallOf, Called, SongOf, SwitchOf, BeforeRecord;
    var d := InputOf(x.t, p);
    var w0 := Pair(Noticed(w.law, p, AskedKey(d), Running(w.i, p)), w.i);
    var head := DeckHead(x, w0, p).0;
    HeadHeard(x, obs, w0, p);
    VoiceCalls(x, p);
    EngineOfSlot(d);
    BlockSong(x, w, p, Running(head.i, p));
    var (edges, fired) := DeckStep(EdgesOf(w.law.edges, p), ViewOf(d, Running(head.i, p)));
    TailHeard(x, obs, head, p, fired.newPhrase, edges.song.rung);
  }

  lemma {:induction false} CentreHeard(x: Context, obs: Dsp -> seq<Action>, w: World)
    requires Hears(x.m, obs)
    ensures var (w', settle) := CentreTick(x, w);
            obs(w'.i.dsp) == obs(w.i.dsp) + CentreCalls(x, settle)
            && settle == DriftTick(w.law.edges.drift, x.t.driftInZone).settle
  {
    hide DoOps, LayerOps, CentreOps, CalledAt, CentreCalls, MOD_LAYER;
    var settle := DriftTick(w.law.edges.drift, x.t.driftInZone).settle;
    var layer := LayerOps(|MOD_LAYER|);
    OpsHeard(x, obs, PairOf(w), layer);
    LayerCalls(x, |MOD_LAYER|);
    OpsHeard(x, obs, DoOps(x, PairOf(w), layer), CentreOps(settle));
    CentreOpsCall(x, settle);
  }

  /** The calls of a deck depend on nothing the other deck's block moves. */
  lemma {:induction false} SameCalls(x: Context, w: World, v: World, p: nat, records: bool)
    requires EdgesOf(v.law.edges, p) == EdgesOf(w.law.edges, p) && Running(v.i, p) == Running(w.i, p)
    ensures DeckCalls(x, v, p, records) == DeckCalls(x, w, p, records)
    ensures forall r :: Reports(r, v, x.t, p, records) == Reports(r, w, x.t, p, records)
  {
  }

  /** A tick makes each uncached call once, deck A's, deck B's and the centre's, with the
      value of its own knob; and reports the engine each deck runs against the one it is
      asked for, and a recording where one has started. */
  lemma {:induction false} TickCalls(m: Machine, on: bool, w: World, t: Input, obs: Dsp -> seq<Action>)
    requires Hears(m, obs)
    ensures var r, x := Tick(m, on, w, t), ContextOf(m, on, w, t);
            var a, b := Records(m, on, w, t, 0), Records(m, on, w, t, 1);
            && obs(r.w.i.dsp) == obs(w.i.dsp) + DeckCalls(x, w, 0, a) + DeckCalls(x, w, 1, b)
                                + CentreCalls(x, r.report.settle)
            && Reports(r.report.deckA, w, t, 0, a) && Reports(r.report.deckB, w, t, 1, b)
            && r.report.zone == t.driftInZone
  {
    hide DoOp, DeckTick, CentreTick, DeckCalls, CentreCalls, RecordsAt, Reports, SwitchOf;
    var x := ContextOf(m, on, w, t);
    var w0 := Shuffled(x, w);
    ShuffleUnheard(x, obs, w);
    BlockHeard(x, obs, w0, 0);
    var w1 := DeckTick(x, w0, 0).w;
    BlockHeard(x, obs, w1, 1);
    var w2 := DeckTick(x, w1, 1).w;
    CentreHeard(x, obs, w2);
    BlockAside(x, w0, 0, 1);
    BlockCell(x, w0, 0, 1, Plain(0));
    SameCalls(x, w, w0, 0, RecordsAt(x, w0, 0));
    SameCalls(x, w, w1, 1, RecordsAt(x, w1, 1));
  }

  lemma {:induction false} ShuffleUnheard(x: Context, obs: Dsp -> seq<Action>, w: World)
    requires Hears(x.m, obs)
    ensures var v := Shuffled(x, w);
            && obs(v.i.dsp) == obs(w.i.dsp) && v.law.edges == w.law.edges
            && Running(v.i, 0) == Running(w.i, 0) && Running(v.i, 1) == Running(w.i, 1)
  {
    hide Put, Value;
    PutUnheard(x.m, obs, x.on, PairOf(w), Global(G_SHUFFLE), Value(x, 0, Raw(SHUFFLE)));
    PutRunning(x.m, x.on, PairOf(w), Global(G_SHUFFLE), Value(x, 0, Raw(SHUFFLE)), 0);
    PutRunning(x.m, x.on, PairOf(w), Global(G_SHUFFLE), Value(x, 0, Raw(SHUFFLE)), 1);
  }

  // ---- the ENG knob ---------------------------------------------------------------------------------

  /** The law asks for the engine its slot stands for; and it takes an ENG turn for one
      exactly when the slot or the test-tone option moves; and always after the engines
      have been forgotten. */
  lemma {:induction false} EngineIsAskedBySlot(d: DeckInput, e: DeckInput)
    ensures EngineOf(d) == EngineAt(d.eng, d.testTone)
    ensures AskedKey(d) == AskedKey(e) <==> d.eng == e.eng && d.testTone == e.testTone
    ensures d.eng >= 0 ==> AskedKey(d) != NONE
  {
  }
}
