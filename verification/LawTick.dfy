/**
  One control tick on values: the calls it makes, in their order, through the
  cache or past it; and runs of ticks with everything that may happen between.
 */
module LawTick {
  import opened Params
  import opened LawCache
  import opened LawEdges

  const ENGINE_TEST_TONE: int := 0
  const ENGINE_SYNTH: int := 1
  const ENGINE_SAMPLER: int := 2
  const ENGINE_WAVE: int := 3
  const ENGINE_BODY: int := 4
  const ENGINE_BBD: int := 5
  const ENGINE_FEED: int := 6

  const LANE_SOURCE: nat := 0
  const LANE_SIZE: nat := 1
  const LANE_PITCH: nat := 2
  const LANE_MOTION: nat := 3
  const FXT_FLUX_TIME: nat := 1
  const FXT_FLUX_FB: nat := 4

  /** The engine the ENG knob's position asks for. */
  function EngineOf(d: DeckInput): int {
    if d.eng == 0 then ENGINE_SYNTH
    else if d.eng == 1 then ENGINE_WAVE
    else if d.eng == 2 then ENGINE_BODY
    else if d.eng == 3 then ENGINE_FEED
    else if d.eng == 4 then ENGINE_BBD
    else if d.testTone then ENGINE_TEST_TONE else ENGINE_SAMPLER
  }

  /** What picks that engine: the knob's position and the test-tone option. */
  function AskedKey(d: DeckInput): int {
    d.eng * 2 + if d.testTone then 1 else 0
  }

  /** The SONG ladder: (form, song) by rung. */
  const LADDER: seq<(int, int)> := [
    (0, 6), (1, 6), (0, 0), (1, 0), (0, 1), (1, 1), (2, 0),
    (2, 1), (2, 2), (3, 1), (3, 3), (3, 4), (4, 4), (4, 5)
  ]

  function LadderAt(rung: int): (int, int) {
    LADDER[if rung < 0 then 0 else if rung >= SONG_LADDER_COUNT then SONG_LADDER_COUNT - 1 else rung]
  }

  /** Every rung is a legal pair, the first does not alternate, no two are the same, and
      beyond either end the ladder stays on its last rung. */
  lemma {:induction false} LadderIsSound(i: int, j: int)
    ensures 0 <= LadderAt(i).0 < 5 && 0 <= LadderAt(i).1 < 7
    ensures |LADDER| == SONG_LADDER_COUNT && LadderAt(0).1 == 6
    ensures 0 <= i < j < SONG_LADDER_COUNT ==> LadderAt(i) != LadderAt(j)
    ensures i < 0 ==> LadderAt(i) == LadderAt(0)
    ensures i >= SONG_LADDER_COUNT ==> LadderAt(i) == LadderAt(SONG_LADDER_COUNT - 1)
  {
  }

  function Flag(b: bool): Expr { Known(if b then 1 else 0) }

  // ---- the calls of a tick ----------------------------------------------------------

  /** A call of one deck's block. */
  datatype DeckOp = Cached(df: ADeckField, e: Expr) | Direct(call: Call, e: Expr)

  /** A call of the centre's block. */
  datatype Op = CachedAt(f: AField, p: nat, e: Expr) | DirectAt(call: Call, p: nat, e: Expr)

  /** The voice's knobs. */
  function VoiceOps(): seq<DeckOp> {
    [Direct(SetRate, Modded(RATE)), Cached(Plain(D_SHAPE), Modded(SHAPE)), Cached(Plain(D_DENSITY), Modded(DENSITY)),
     Direct(SetSmooth, Modded(SMOOTH)), Cached(Plain(D_RANGE), Modded(RANGE)), Cached(Plain(D_DEPTH), Raw(MOD)),
     Cached(Plain(D_TUNE), Modded(TUNE)), Cached(Plain(D_ATTACK), Modded(ATTACK)),
     Cached(Plain(D_DECAY), Modded(DECAY)), Cached(Plain(D_RESONANCE), Modded(RES)),
     Cached(Plain(D_FILT), Raw(FILT)), Cached(Plain(D_COLOR), Modded(COLOR)), Cached(Plain(D_SUB), Modded(SUB))]
  }

  /** Not on FEED, where the knob means SPREAD. */
  function DetuneOps(engine: int): seq<DeckOp> {
    if engine != ENGINE_FEED then [Cached(Plain(D_DETUNE), DetuneSquared)] else []
  }

  /** The effects, the level and the pan. */
  function FxOps(): seq<DeckOp> {
    [Cached(Plain(D_FLUX_MIX), Raw(FLUX)), Cached(Plain(D_FLUX_RATE), Rounded(FLUXRATE)),
     Cached(FxBase(FXT_FLUX_FB), Raw(FLUXFB)), Cached(FxBase(FXT_FLUX_TIME), Half),
     Cached(Plain(D_LINK), Modded(LINK)), Cached(FxOn(0), FluxEngaged), Cached(FxOn(1), GritEngaged),
     Cached(Plain(D_LEVEL), PartLevel), Cached(Plain(D_COMP), CompAmount), Cached(Plain(D_PAN), Modded(PAN))]
  }

  /** Up to the engine dispatch; engine is the one running. */
  function PreOps(engine: int): seq<DeckOp> {
    VoiceOps() + DetuneOps(engine) + FxOps()
  }

  /** The dispatch; the host's hook follows it. */
  function EngineOps(id: int): seq<DeckOp> {
    [Cached(Plain(D_ENGINE), Known(id)), Cached(Plain(D_EXCITE), ExciteSources)]
  }

  function SamplerOps(): seq<DeckOp> {
    [Cached(Plain(D_SPEED_MODE), TapeMode), Cached(Plain(D_REVERSE), Reverse), Cached(Plain(D_FEEDBACK), Feedback)]
  }

  /** The faces that mean something else on some engines. */
  function FaceOps(engine: int): seq<DeckOp> {
    [Cached(Plain(D_OVERLAP), Modded(DENSITY)), Cached(TargetBase(LANE_SOURCE), Raw(SOURCE)),
     Cached(TargetBase(LANE_PITCH), if engine == ENGINE_BBD then Raw(STAGES) else Half),
     Cached(Plain(D_VARIATION), if engine == ENGINE_SAMPLER then Constant(0) else Modded(MELODY))]
  }

  /** SCAN is the sampler's alone. */
  function ScanOps(engine: int): seq<DeckOp> {
    if engine == ENGINE_SAMPLER then [Cached(Plain(D_SCAN), Modded(MELODY))] else []
  }

  function BaseOps(engine: int): seq<DeckOp> {
    [Cached(TargetBase(LANE_SIZE),
            if engine == ENGINE_SAMPLER then Modded(SUB) else if engine == ENGINE_FEED then Modded(DETUNE) else Half),
     Cached(TargetBase(LANE_MOTION), Raw(DEPTH)), Cached(TargetActive(LANE_PITCH), Flag(engine != ENGINE_SAMPLER)),
     Cached(Plain(D_GRIT_MODE), GritMode), Cached(Plain(D_GRIT_MIX), GritMix), Direct(SetStep, Steps)]
  }

  function SurfaceOps(engine: int): seq<DeckOp> {
    FaceOps(engine) + ScanOps(engine) + BaseOps(engine)
  }

  /** A change of rung re-rolls the phrase, and makes a sampler start over. */
  function PhraseOps(changed: bool, engine: int): seq<DeckOp> {
    if !changed then []
    else if engine != ENGINE_SAMPLER then [Direct(NewPhrase, Known(0))]
    else [Direct(NewPhrase, Known(0)), Direct(SamplerPunch, Known(0))]
  }

  function LadderOps(rung: int): seq<DeckOp> {
    [Cached(Plain(D_FORM), Known(LadderAt(rung).0)), Cached(Plain(D_SONG), Known(LadderAt(rung).1))]
  }

  function SongOps(changed: bool, rung: int, engine: int): seq<DeckOp> {
    PhraseOps(changed, engine) + LadderOps(rung)
  }

  /** The engine-backed depths of a row of the MOD layer, the k-th. */
  function TargetOps(t: ModTarget, k: nat): seq<Op> {
    match t.kind
    case HOST => []
    case TDEPTH => [CachedAt(Deck(t.part, TargetDepth(t.slot)), t.part, RowDepth(k))]
    case FXDEPTH => [CachedAt(Deck(t.part, FxDepth(t.slot)), t.part, RowDepth(k)),
                     CachedAt(Deck(t.part, FxActive(t.slot)), t.part, RowActive(k))]
  }

  function RowOps(k: nat): seq<Op>
    requires k < |MOD_LAYER|
  {
    TargetOps(MOD_LAYER[k], k)
  }

  function LayerOps(k: nat): seq<Op>
    requires k <= |MOD_LAYER|
  {
    if k == 0 then [] else LayerOps(k - 1) + RowOps(k - 1)
  }

  function MorphOps(): seq<Op> {
    [CachedAt(Global(G_MORPH), 0, Modded(MORPH)), DirectAt(SetSync, 0, InGrid),
     CachedAt(Global(G_COUPLE), 0, CoupleAmount)]
  }

  function SettleOps(settle: bool): seq<Op> {
    if settle then [DirectAt(Settle, 0, Known(0))] else []
  }

  function DriftOps(): seq<Op> {
    [DirectAt(SetDrift, 0, DriftAmount), DirectAt(SetTide, 0, Modded(TIDE)),
     CachedAt(Global(G_CHOKE), 0, Raw(CHOKE)), CachedAt(Global(G_PULL), 0, Raw(PULL))]
  }

  function RoomOps(): seq<Op> {
    [CachedAt(Global(G_REV_SIZE), 0, Modded(REV_SIZE)), CachedAt(Global(G_REV_DECAY), 0, Modded(REV_DECAY)),
     CachedAt(Global(G_REV_TONE), 0, Modded(REV_TONE)), CachedAt(Global(G_REV_DIFF), 0, Modded(REV_DIFF)),
     CachedAt(Deck(0, Plain(D_REV_MIX)), 0, Raw(REV_MIX)), CachedAt(Deck(1, Plain(D_REV_MIX)), 1, Raw(REV_MIX)),
     CachedAt(Global(G_MASTER_DRIVE), 0, Constant(40)), CachedAt(Global(G_REV_SMEAR), 0, Constant(30)),
     CachedAt(Global(G_REV_MOD), 0, Raw(REV_MOD))]
  }

  function KeyOps(): seq<Op> {
    [CachedAt(Global(G_SCALE), 0, Rounded(SCALE)),
     CachedAt(Deck(0, Plain(D_ROOT)), 0, Rounded(ROOT)), CachedAt(Deck(1, Plain(D_ROOT)), 1, Rounded(ROOT)),
     DirectAt(SetTempoBpm, 0, Bpm), CachedAt(Global(G_PACE), 0, Raw(PACE))]
  }

  function CentreOps(settle: bool): seq<Op> {
    MorphOps() + SettleOps(settle) + DriftOps() + RoomOps() + KeyOps()
  }

  // ---- making the calls ----------------------------------------------------------------

  /** What is fixed for a whole tick. */
  datatype Context = Context(m: Machine, on: bool, t: Input, frame: Frame)

  function Value(x: Context, p: nat, e: Expr): Bits {
    if e.Known? then e.b else x.m.eval(e, p, x.t, x.frame)
  }

  function Act(m: Machine, w: Pair, call: Call, p: nat, b: Bits): Pair {
    w.(i := w.i.(dsp := m.act(w.i, Action(call, p, b))))
  }

  function DoDeckOp(x: Context, w: Pair, p: nat, op: DeckOp): Pair
    requires p < PARTS
  {
    match op
    case Cached(df, e) => Put(x.m, x.on, w, Deck(p, df), Value(x, p, e))
    case Direct(call, e) => Act(x.m, w, call, p, Value(x, p, e))
  }

  function DoDeckOps(x: Context, w: Pair, p: nat, ops: seq<DeckOp>): Pair
    requires p < PARTS
    decreases |ops|
  {
    if ops == [] then w else DoDeckOps(x, DoDeckOp(x, w, p, ops[0]), p, ops[1..])
  }

  function DoOp(x: Context, w: Pair, op: Op): Pair {
    match op
    case CachedAt(f, p, e) => Put(x.m, x.on, w, f, Value(x, p, e))
    case DirectAt(call, p, e) => Act(x.m, w, call, p, Value(x, p, e))
  }

  function DoOps(x: Context, w: Pair, ops: seq<Op>): Pair
    decreases |ops|
  {
    if ops == [] then w else DoOps(x, DoOp(x, w, ops[0]), ops[1..])
  }

  // ---- the law ---------------------------------------------------------------------------

  const NONE: int := -1

  /** The engine a deck asked for on the tick before, and the one it ran at its end. */
  datatype Engines = Engines(asked: int, ran: int)

  datatype Law = Law(c: Cache, engA: Engines, engB: Engines, edges: Edges)

  datatype World = World(law: Law, i: Inst)

  function EnginesOf(l: Law, p: nat): Engines { if p == 0 then l.engA else l.engB }

  function EdgesOf(e: Edges, p: nat): DeckEdges { if p == 0 then e.deckA else e.deckB }

  function WithEngines(l: Law, p: nat, e: Engines): Law { if p == 0 then l.(engA := e) else l.(engB := e) }

  function WithEdges(e: Edges, p: nat, d: DeckEdges): Edges { if p == 0 then e.(deckA := d) else e.(deckB := d) }

  function PairOf(w: World): Pair { Pair(w.law.c, w.i) }

  /** An engine change since the last tick, asked for or landed, forgets the deck. */
  function Noticed(l: Law, p: nat, asked: int, running: int): Cache
    requires p < PARTS
  {
    var e := EnginesOf(l, p);
    if asked != e.asked || running != e.ran then ForgetDeck(l.c, p) else l.c
  }

  /** REC is a state, not an edge: the call is made only where it differs. */
  function Record(m: Machine, w: Pair, p: nat, wanted: bool): (Pair, bool) {
    var want := wanted && Running(w.i, p) == ENGINE_SAMPLER;
    if want != m.recording(w.i.dsp, p) then (Act(m, w, SamplerRecord, p, if want then 1 else 0), want) else (w, false)
  }

  /** What one deck's block reports. */
  datatype DeckReport = DeckReport(view: DeckView, fired: DeckFired, recStarted: bool)

  datatype DeckResult = DeckResult(w: World, report: DeckReport)

  /** One deck's block up to the point where REC looks. */
  function BeforeRecord(x: Context, w: Pair, p: nat): Pair
    requires p < PARTS
  {
    var d := InputOf(x.t, p);
    var w1 := DoDeckOps(x, w, p, PreOps(Running(w.i, p)));
    var w2 := DoDeckOps(x, w1, p, EngineOps(EngineOf(d)));
    var w3 := w2.(i := w2.i.(dsp := x.m.hook(w2.i, p, d.eng)));
    DoDeckOps(x, w3, p, SamplerOps())
  }

  /** And up to the point where its detectors do. */
  function DeckHead(x: Context, w: Pair, p: nat): (Pair, bool)
    requires p < PARTS
  {
    Record(x.m, BeforeRecord(x, w, p), p, InputOf(x.t, p).recOn)
  }

  function ViewOf(d: DeckInput, running: int): DeckView {
    DeckView(running == EngineOf(d), running == ENGINE_BBD, d.song)
  }

  /** The rest of it. */
  function DeckTail(x: Context, w: Pair, p: nat, newPhrase: bool, rung: int): Pair
    requires p < PARTS
  {
    var w1 := DoDeckOps(x, w, p, SurfaceOps(Running(w.i, p)));
    DoDeckOps(x, w1, p, SongOps(newPhrase, rung, Running(w1.i, p)))
  }

  function DeckTick(x: Context, w: World, p: nat): DeckResult
    requires p < PARTS
  {
    var d := InputOf(x.t, p);
    var (head, rec) := DeckHead(x, Pair(Noticed(w.law, p, AskedKey(d), Running(w.i, p)), w.i), p);
    var view := ViewOf(d, Running(head.i, p));
    var (edges, fired) := DeckStep(EdgesOf(w.law.edges, p), view);
    var tail := DeckTail(x, head, p, fired.newPhrase, edges.song.rung);
    var law := WithEngines(w.law, p, Engines(AskedKey(d), Running(tail.i, p)));
    DeckResult(World(law.(c := tail.c, edges := WithEdges(law.edges, p, edges)), tail.i),
               DeckReport(view, fired, rec))
  }

  /** What a tick reports: both decks, the DRIFT zone it saw, whether it settled. */
  datatype Report = Report(deckA: DeckReport, deckB: DeckReport, zone: bool, settle: bool)

  datatype TickResult = TickResult(w: World, report: Report)

  function WithPair(w: World, q: Pair): World { World(w.law.(c := q.c), q.i) }

  function CentreTick(x: Context, w: World): (World, bool) {
    var r := DriftTick(w.law.edges.drift, x.t.driftInZone);
    var q := DoOps(x, DoOps(x, PairOf(w), LayerOps(|MOD_LAYER|)), CentreOps(r.settle));
    var w1 := WithPair(w, q);
    (w1.(law := w1.law.(edges := w1.law.edges.(drift := r.state))), r.settle)
  }

  function Tick(m: Machine, on: bool, w: World, t: Input): TickResult {
    var x := Context(m, on, t, m.frame(w.i.dsp));
    var w0 := WithPair(w, DoOp(x, PairOf(w), CachedAt(Global(G_SHUFFLE), 0, Raw(SHUFFLE))));
    var a := DeckTick(x, w0, 0);
    var b := DeckTick(x, a.w, 1);
    var (w1, settle) := CentreTick(x, b.w);
    TickResult(w1, Report(a.report, b.report, t.driftInZone, settle))
  }

  // ---- the forget points -------------------------------------------------------------------

  function OnInstrumentInit(l: Law): Law {
    l.(c := ForgetAll(l.c), engA := Engines(NONE, NONE), engB := Engines(NONE, NONE))
  }

  function RearmSong(d: DeckEdges): DeckEdges { d.(song := d.song.(seeded := false)) }

  function RearmBbd(d: DeckEdges): DeckEdges { d.(bbd := d.bbd.(seeded := false), restoring := true) }

  function OnReset(l: Law): Law {
    var e := l.edges;
    OnInstrumentInit(l.(edges := Edges(RearmSong(e.deckA), RearmSong(e.deckB), e.drift.(seeded := false))))
  }

  function OnRestore(l: Law): Law {
    var e := l.edges;
    OnReset(l.(edges := e.(deckA := RearmBbd(e.deckA), deckB := RearmBbd(e.deckB))))
  }

  /** A new law's detectors of one deck. */
  function NewDetectors(): DeckEdges {
    DeckEdges(Bbd(false, false), false, Song(0, false))
  }

  function NewLaw(): Law {
    Law(ColdCache(), Engines(NONE, NONE), Engines(NONE, NONE),
        Edges(NewDetectors(), NewDetectors(), Drift(false, false)))
  }

  // ---- runs -----------------------------------------------------------------------------------

  /** A tick; audio processed between ticks; the three forget points, the last
      with the instrument's own initialisation before it. */
  datatype Event =
    | Ticked(t: Input)
    | Processed(process: Inst -> Inst)
    | WasReset
    | WasRestored
    | Reinitialised(init: Inst -> Inst)

  function StepEvent(m: Machine, on: bool, w: World, e: Event): (World, seq<Report>) {
    match e
    case Ticked(t) => var r := Tick(m, on, w, t); (r.w, [r.report])
    case Processed(process) => (w.(i := process(w.i)), [])
    case WasReset => (w.(law := OnReset(w.law)), [])
    case WasRestored => (w.(law := OnRestore(w.law)), [])
    case Reinitialised(init) => (World(OnInstrumentInit(w.law), init(w.i)), [])
  }

  function Run(m: Machine, on: bool, w: World, es: seq<Event>): (World, seq<Report>)
    decreases |es|
  {
    if es == [] then (w, [])
    else
      var (w1, now) := StepEvent(m, on, w, es[0]);
      var (w2, later) := Run(m, on, w1, es[1..]);
      (w2, now + later)
  }
}
