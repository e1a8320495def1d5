/**
  The sent-value cache between the control law and the instrument: the fields a
  setter stores into, the cache's slots, and what it takes for a skipped call to
  have changed nothing. Values are opaque bit patterns.
 */
module LawCache {
  import opened Params

  type Bits = int

  // ---- fields and slots ------------------------------------------------------------

  const G_SHUFFLE := 0
  const G_MORPH := 1
  const G_COUPLE := 2
  const G_CHOKE := 3
  const G_PULL := 4
  const G_REV_SIZE := 5
  const G_REV_DECAY := 6
  const G_REV_TONE := 7
  const G_REV_DIFF := 8
  const G_MASTER_DRIVE := 9
  const G_REV_SMEAR := 10
  const G_REV_MOD := 11
  const G_SCALE := 12
  const G_PACE := 13
  const G_COUNT := 14

  const D_SHAPE := 0
  const D_DENSITY := 1
  const D_RANGE := 2
  const D_DEPTH := 3
  const D_TUNE := 4
  const D_ATTACK := 5
  const D_DECAY := 6
  const D_RESONANCE := 7
  const D_FILT := 8
  const D_COLOR := 9
  const D_SUB := 10
  const D_DETUNE := 11
  const D_FLUX_MIX := 12
  const D_FLUX_RATE := 13
  const D_LINK := 14
  const D_LEVEL := 15
  const D_COMP := 16
  const D_PAN := 17
  const D_ENGINE := 18
  const D_EXCITE := 19
  const D_SPEED_MODE := 20
  const D_REVERSE := 21
  const D_FEEDBACK := 22
  const D_OVERLAP := 23
  const D_VARIATION := 24
  const D_SCAN := 25
  const D_GRIT_MODE := 26
  const D_GRIT_MIX := 27
  const D_FORM := 28
  const D_SONG := 29
  const D_REV_MIX := 30
  const D_ROOT := 31
  const D_FX_ON := 32
  const D_TBASE := D_FX_ON + 2
  const D_TACTIVE := D_TBASE + LANE_COUNT
  const D_TDEPTH := D_TACTIVE + LANE_COUNT
  const D_FXBASE := D_TDEPTH + LANE_COUNT
  const D_FXDEPTH := D_FXBASE + FXT_COUNT
  const D_FXACTIVE := D_FXDEPTH + FXT_COUNT
  const D_COUNT := D_FXACTIVE + FXT_COUNT

  const SLOTS: nat := G_COUNT + PARTS * D_COUNT

  /** What one setter of a deck stores into. */
  datatype DeckField =
    | Plain(d: nat)
    | FxOn(block: nat)
    | TargetBase(lane: nat) | TargetActive(lane: nat) | TargetDepth(lane: nat)
    | FxBase(fx: nat) | FxDepth(fx: nat) | FxActive(fx: nat)

  datatype Field = Global(g: nat) | Deck(p: nat, df: DeckField)

  predicate DeckFieldExists(df: DeckField) {
    match df
    case Plain(d) => d < D_FX_ON
    case FxOn(b) => b < 2
    case TargetBase(s) => s < LANE_COUNT
    case TargetActive(s) => s < LANE_COUNT
    case TargetDepth(s) => s < LANE_COUNT
    case FxBase(i) => i < FXT_COUNT
    case FxDepth(i) => i < FXT_COUNT
    case FxActive(i) => i < FXT_COUNT
  }

  predicate Exists(f: Field) {
    match f
    case Global(g) => g < G_COUNT
    case Deck(p, df) => p < PARTS && DeckFieldExists(df)
  }

  type ADeckField = df: DeckField | DeckFieldExists(df) witness Plain(0)
  type AField = f: Field | Exists(f) witness Global(0)

  function DeckSlot(df: ADeckField): (d: nat)
    ensures d < D_COUNT
  {
    match df
    case Plain(d) => d
    case FxOn(b) => D_FX_ON + b
    case TargetBase(s) => D_TBASE + s
    case TargetActive(s) => D_TACTIVE + s
    case TargetDepth(s) => D_TDEPTH + s
    case FxBase(i) => D_FXBASE + i
    case FxDepth(i) => D_FXDEPTH + i
    case FxActive(i) => D_FXACTIVE + i
  }

  function Slot(f: AField): (k: nat)
    ensures k < SLOTS
  {
    match f
    case Global(g) => g
    case Deck(p, df) => G_COUNT + p * D_COUNT + DeckSlot(df)
  }

  /** One slot per instrument field. */
  lemma {:induction false} SlotsAreInjective(e: AField, f: AField)
    ensures Slot(e) == Slot(f) ==> e == f
  {
    hide DeckSlot;
    if e.Deck? && f.Deck? {
      DeckSlotsAreInjective(e.df, f.df);
      RowsDoNotMeet(e.p, DeckSlot(e.df), f.p, DeckSlot(f.df));
    }
  }

  lemma {:induction false} RowsDoNotMeet(p: nat, d: nat, q: nat, e: nat)
    requires p < PARTS && q < PARTS && d < D_COUNT && e < D_COUNT
    ensures p * D_COUNT + d == q * D_COUNT + e ==> p == q && d == e
  {
  }

  lemma {:induction false} DeckSlotsAreInjective(e: ADeckField, f: ADeckField)
    ensures DeckSlot(e) == DeckSlot(f) ==> e == f
  {
  }

  // ---- the instrument ----------------------------------------------------------------

  /** A deck's engine switch: the one running, and the one a pending switch lands
      on inside a later process(). */
  datatype Switch = Switch(running: int, switching: bool, pending: int)

  /** The sound engine behind the fields. */
  type Dsp(!new)

  datatype Inst = Inst(fields: map<Field, Bits>, deckA: Switch, deckB: Switch, dsp: Dsp)

  function SwitchOf(i: Inst, p: nat): Switch {
    if p == 0 then i.deckA else i.deckB
  }

  function Running(i: Inst, p: nat): int {
    SwitchOf(i, p).running
  }

  /** The engine a deck will run once its switch has landed. */
  function Target(s: Switch): int {
    if s.switching then s.pending else s.running
  }

  predicate IsEngine(f: Field) {
    f.Deck? && f.df == Plain(D_ENGINE)
  }

  function Get(i: Inst, f: AField): Bits {
    if IsEngine(f) then Target(SwitchOf(i, f.p))
    else if f in i.fields then i.fields[f] else 0
  }

  function Store(i: Inst, f: AField, b: Bits): Inst {
    if IsEngine(f) then
      var s := SwitchOf(i, f.p).(switching := true, pending := b);
      if f.p == 0 then i.(deckA := s) else i.(deckB := s)
    else
      i.(fields := i.fields[f := b])
  }

  lemma {:induction false} StoreGet(i: Inst, f: AField, b: Bits, g: AField)
    ensures Get(Store(i, f, b), g) == if g == f then b else Get(i, g)
  {
  }

  // ---- what the law sends ---------------------------------------------------------------

  /** The knobs the law reads, per deck or for the centre. */
  datatype Knob =
    | RATE | SHAPE | DENSITY | SMOOTH | RANGE | MOD | TUNE | ATTACK | DECAY | RES | FILT | COLOR | SUB | DETUNE
    | FLUX | FLUXRATE | FLUXFB | LINK | GRIT | COMP | PAN | SOURCE | STAGES | MELODY | DEPTH | STEPS | REV_MIX | ROOT
    | SHUFFLE | MORPH | COUPLE | DRIFT | TIDE | CHOKE | PULL | REV_SIZE | REV_DECAY | REV_TONE | REV_DIFF
    | REV_MOD | SCALE | TEMPO | PACE

  /** A value the law computes: a knob as it stands, with its modulation, or put
      through one of the law's own curves. Only Known values decide anything. */
  datatype Expr =
    | Known(b: Bits) | Half | Constant(n: nat)
    | Raw(k: Knob) | Modded(k: Knob) | Rounded(k: Knob)
    | DetuneSquared | PartLevel | CompAmount | FluxEngaged | GritEngaged | GritMode | GritMix
    | ExciteSources | TapeMode | Reverse | Feedback | Steps
    | RowDepth(row: nat) | RowActive(row: nat)
    | InGrid | CoupleAmount | DriftAmount | Bpm

  /** The calls that are not cached. */
  datatype Call = SetRate | SetSmooth | SetStep | SetSync | SetTide | SetTempoBpm | SetDrift
                | Settle | NewPhrase | SamplerPunch | SamplerRecord

  datatype Action = Action(call: Call, p: nat, b: Bits)

  datatype DeckInput = DeckInput(eng: int, testTone: bool, recOn: bool, song: real)

  /** What a tick is given: the knobs and options as bits, and the readings of them
      that branch. */
  datatype Input = Input(knobs: seq<Bits>, deckA: DeckInput, deckB: DeckInput, driftInZone: bool)

  function InputOf(t: Input, p: nat): DeckInput {
    if p == 0 then t.deckA else t.deckB
  }

  /** The lane outputs, read once at the top of a tick. */
  type Frame = seq<Bits>

  /** How the sound engine takes a field's change, a call that is not cached, the
      host's hook; what the law reads back of it; the law's value arithmetic. */
  datatype Machine = Machine(
    react: (Inst, Field) -> Dsp,
    act: (Inst, Action) -> Dsp,
    hook: (Inst, nat, int) -> Dsp,
    frame: Dsp -> Frame,
    recording: (Dsp, nat) -> bool,
    eval: (Expr, nat, Input, Frame) -> Bits)

  /** A setter is an idempotent store: called with the value the field holds it
      changes nothing. */
  function Set(m: Machine, i: Inst, f: AField, b: Bits): Inst {
    if Get(i, f) == b then i else Store(i, f, b).(dsp := m.react(Store(i, f, b), f))
  }

  lemma {:induction false} SetGet(m: Machine, i: Inst, f: AField, b: Bits, g: AField)
    ensures Get(Set(m, i, f, b), g) == if g == f then b else Get(i, g)
  {
    StoreGet(i, f, b, g);
  }

  // ---- the cache --------------------------------------------------------------------------

  datatype CacheData = Cache(valid: seq<bool>, sent: seq<Bits>)

  type Cache = c: CacheData | |c.valid| == SLOTS && |c.sent| == SLOTS witness ColdCache()

  function ColdCache(): (c: CacheData)
    ensures |c.valid| == SLOTS && |c.sent| == SLOTS
  {
    Cache(seq(SLOTS, _ => false), seq(SLOTS, _ => 0))
  }

  /** Whether a value has to be sent. */
  predicate Fresh(on: bool, c: Cache, k: nat, b: Bits)
    requires k < SLOTS
  {
    !(on && c.valid[k] && c.sent[k] == b)
  }

  function Sent(c: Cache, k: nat, b: Bits): Cache
    requires k < SLOTS
  {
    c.(valid := c.valid[k := true], sent := c.sent[k := b])
  }

  function ForgetAll(c: Cache): Cache {
    c.(valid := seq(SLOTS, _ => false))
  }

  function ForgetDeck(c: Cache, p: nat): Cache
    requires p < PARTS
  {
    c.(valid := seq(SLOTS, k requires 0 <= k < SLOTS =>
                    c.valid[k] && !(G_COUNT + p * D_COUNT <= k < G_COUNT + (p + 1) * D_COUNT)))
  }

  /** The cache and the instrument behind it. */
  datatype Pair = Pair(c: Cache, i: Inst)

  /** A cached setter call. */
  function Put(m: Machine, on: bool, w: Pair, f: AField, b: Bits): Pair {
    if Fresh(on, w.c, Slot(f), b) then Pair(Sent(w.c, Slot(f), b), Set(m, w.i, f, b)) else w
  }

  // ---- what makes a skip safe --------------------------------------------------------------

  /** A value marked as sent is the one the field holds. */
  predicate Matches(w: Pair, f: AField) {
    w.c.valid[Slot(f)] ==> w.c.sent[Slot(f)] == Get(w.i, f)
  }

  predicate GlobalsMatch(w: Pair) {
    forall g: nat | g < G_COUNT :: Matches(w, Global(g))
  }

  ghost predicate DeckMatches(w: Pair, p: nat)
    requires p < PARTS
  {
    forall df: ADeckField :: Matches(w, Deck(p, df))
  }

  /** Without the cache every call reaches the instrument. */
  lemma {:induction false} PutUncached(m: Machine, w: Pair, f: AField, b: Bits)
    ensures Put(m, false, w, f, b).i == Set(m, w.i, f, b)
  {
  }

  /** With it, a skipped call is one that would have changed nothing. */
  lemma {:induction false} PutCached(m: Machine, w: Pair, f: AField, b: Bits)
    requires Matches(w, f)
    ensures Put(m, true, w, f, b).i == Set(m, w.i, f, b)
  {
  }

  /** No call spoils what the cache knows of any field: slots are not shared. */
  lemma {:induction false} PutKeepsMatches(m: Machine, w: Pair, f: AField, b: Bits, g: AField)
    requires Matches(w, f) && Matches(w, g)
    ensures Matches(Put(m, true, w, f, b), g)
  {
    hide Slot, Set;
    SlotsAreInjective(f, g);
    SetGet(m, w.i, f, b, g);
  }

  lemma {:induction false} PutKeepsAll(m: Machine, w: Pair, f: AField, b: Bits)
    requires Matches(w, f)
    ensures GlobalsMatch(w) ==> GlobalsMatch(Put(m, true, w, f, b))
    ensures forall p: nat | p < PARTS :: DeckMatches(w, p) ==> DeckMatches(Put(m, true, w, f, b), p)
  {
    hide Slot, Put, Matches;
    forall g: AField | Matches(w, g) ensures Matches(Put(m, true, w, f, b), g) {
      PutKeepsMatches(m, w, f, b, g);
    }
  }

  lemma {:induction false} ForgetDeckSlots(c: Cache, p: nat, f: AField)
    requires p < PARTS
    ensures ForgetDeck(c, p).valid[Slot(f)] == (c.valid[Slot(f)] && !(f.Deck? && f.p == p))
  {
  }
}
