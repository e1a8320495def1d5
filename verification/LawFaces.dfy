/**
  What every field of the instrument holds after a tick: the knob its face belongs
  to, and the fields that keep what they had. The tables below are written by field;
  the order and the grouping of the law's calls do not appear in them.
 */
module LawFaces {
  import opened Options
  import opened Params
  import opened LawCache
  import opened LawEdges
  import opened LawTick
  import opened LawRefines
  import opened LawCells

  // ---- the tables ---------------------------------------------------------------------

  /** The engine an ENG slot stands for, by its number. */
  function EngineAt(slot: int, testTone: bool): int {
    match slot
    case 0 => 1 // SYNTH
    case 1 => 3 // WAVE
    case 2 => 4 // BODY
    case 3 => 6 // FEED
    case 4 => 5 // BBD
    case _ => if testTone then 0 else 2 // the test tone, SAMPLER
  }

  /** What a deck shows while a tick looks at it: the engine it runs, the one its knobs
      ask for, the SONG rung it stands on. */
  datatype Showing = Showing(engine: int, asked: int, rung: int)

  /** The plain fields of a deck. */
  function PlainFace(d: nat, s: Showing): Option<Expr> {
    if d == D_SHAPE then Some(Modded(SHAPE))
    else if d == D_DENSITY then Some(Modded(DENSITY))
    else if d == D_RANGE then Some(Modded(RANGE))
    else if d == D_DEPTH then Some(Raw(MOD))
    else if d == D_TUNE then Some(Modded(TUNE))
    else if d == D_ATTACK then Some(Modded(ATTACK))
    else if d == D_DECAY then Some(Modded(DECAY))
    else if d == D_RESONANCE then Some(Modded(RES))
    else if d == D_FILT then Some(Raw(FILT))
    else if d == D_COLOR then Some(Modded(COLOR))
    else if d == D_SUB then Some(Modded(SUB))
    else if d == D_DETUNE then if s.engine == ENGINE_FEED then None else Some(DetuneSquared)
    else if d == D_FLUX_MIX then Some(Raw(FLUX))
    else if d == D_FLUX_RATE then Some(Rounded(FLUXRATE))
    else if d == D_LINK then Some(Modded(LINK))
    else if d == D_LEVEL then Some(PartLevel)
    else if d == D_COMP then Some(CompAmount)
    else if d == D_PAN then Some(Modded(PAN))
    else if d == D_ENGINE then Some(Known(s.asked))
    else if d == D_EXCITE then Some(ExciteSources)
    else if d == D_SPEED_MODE then Some(TapeMode)
    else if d == D_REVERSE then Some(Reverse)
    else if d == D_FEEDBACK then Some(Feedback)
    else if d == D_OVERLAP then Some(Modded(DENSITY))
    else if d == D_VARIATION then Some(if s.engine == ENGINE_SAMPLER then Constant(0) else Modded(MELODY))
    else if d == D_SCAN then if s.engine == ENGINE_SAMPLER then Some(Modded(MELODY)) else None
    else if d == D_GRIT_MODE then Some(GritMode)
    else if d == D_GRIT_MIX then Some(GritMix)
    else if d == D_FORM then Some(Known(LadderAt(s.rung).0))
    else if d == D_SONG then Some(Known(LadderAt(s.rung).1))
    else if d == D_REV_MIX then Some(Raw(REV_MIX))
    else if d == D_ROOT then Some(Rounded(ROOT))
    else None
  }

  /** The value of a depth parameter of the MOD layer. */
  function DepthRow(param: nat): nat
    requires param >= MODD_SOURCE_A
  {
    param - MODD_SOURCE_A
  }

  /** The depth a lane target or an effect target takes its depth from: TIMB the source
      lane, FILT the size lane, DPTH the motion lane; FLUX its mix, FB, SEND. */
  function LaneDepth(lane: nat, p: nat): Option<nat> {
    match lane
    case 0 => Some(DepthRow(MODD_SOURCE_A + p))
    case 1 => Some(DepthRow(MODD_FILT_A + p))
    case 3 => Some(DepthRow(MODD_DEPTH_A + p))
    case _ => None
  }

  function EffectDepth(fx: nat, p: nat): Option<nat> {
    match fx
    case 2 => Some(DepthRow(MODD_FLUX_A + p))
    case 3 => Some(DepthRow(MODD_REV_MIX_A + p))
    case 4 => Some(DepthRow(MODD_FLUXFB_A + p))
    case _ => None
  }

  /** Every field of deck p: what a tick puts there, or None where it leaves it. */
  function FaceOf(df: DeckField, p: nat, s: Showing): Option<Expr> {
    match df
    case Plain(d) => PlainFace(d, s)
    case FxOn(block) => Some(if block == 0 then FluxEngaged else GritEngaged)
    case TargetBase(lane) =>
      (match lane
       case 0 => Some(Raw(SOURCE))
       case 1 =>
         if s.engine == ENGINE_SAMPLER then Some(Modded(SUB))
         else if s.engine == ENGINE_FEED then Some(Modded(DETUNE))
         else Some(Half)
       case 2 => Some(if s.engine == ENGINE_BBD then Raw(STAGES) else Half)
       case 3 => Some(Raw(DEPTH))
       case _ => None)
    case TargetActive(lane) => if lane == 2 then Some(Known(if s.engine == ENGINE_SAMPLER then 0 else 1)) else None
    case TargetDepth(lane) =>
      var row := LaneDepth(lane, p);
      if row.Some? then Some(RowDepth(row.value)) else None
    case FxBase(fx) =>
      if fx == 4 then Some(Raw(FLUXFB)) else if fx == 1 then Some(Half) else None
    case FxDepth(fx) =>
      var row := EffectDepth(fx, p);
      if row.Some? then Some(RowDepth(row.value)) else None
    case FxActive(fx) =>
      var row := EffectDepth(fx, p);
      if row.Some? then Some(RowActive(row.value)) else None
  }

  /** The instrument's own fields. */
  function GlobalFace(g: nat): Expr
    requires g < G_COUNT
  {
    if g == G_SHUFFLE then Raw(SHUFFLE)
    else if g == G_MORPH then Modded(MORPH)
    else if g == G_COUPLE then CoupleAmount
    else if g == G_CHOKE then Raw(CHOKE)
    else if g == G_PULL then Raw(PULL)
    else if g == G_REV_SIZE then Modded(REV_SIZE)
    else if g == G_REV_DECAY then Modded(REV_DECAY)
    else if g == G_REV_TONE then Modded(REV_TONE)
    else if g == G_REV_DIFF then Modded(REV_DIFF)
    else if g == G_MASTER_DRIVE then Constant(40)
    else if g == G_REV_SMEAR then Constant(30)
    else if g == G_REV_MOD then Raw(REV_MOD)
    else if g == G_SCALE then Rounded(SCALE)
    else Raw(PACE)
  }

  function Shown(w: World, t: Input, p: nat): Showing {
    var d := if p == 0 then t.deckA else t.deckB;
    Showing(Running(w.i, p), EngineAt(d.eng, d.testTone), SongOf(w.law, t, p).state.rung)
  }

  // ---- the pieces of a deck's block ---------------------------------------------------

  /** No two calls of a list write the same field. */
  predicate Distinct(ops: seq<DeckOp>) {
    forall i, j | 0 <= i < j < |ops| :: ops[i].Cached? && ops[j].Cached? ==> ops[i].df != ops[j].df
  }

  /** In such a list a field is sent what its one call sends it. */
  lemma {:induction false} SendsAtIndex(x: Context, p: nat, ops: seq<DeckOp>, k: nat, df: DeckField)
    requires Distinct(ops) && k < |ops| && Writes(ops[k], df)
    ensures Sends(x, p, ops, df) == [Value(x, p, ops[k].e)]
  {
    hide Value;
    SendsOnce(x, p, ops, k, df);
  }

  predicate Wanted(x: Context, p: nat, ops: seq<DeckOp>, df: DeckField, e: Option<Expr>) {
    Sends(x, p, ops, df) == match e case None => [] case Some(v) => [Value(x, p, v)]
  }

  predicate OfVoice(df: DeckField) {
    df.Plain? && df.d <= D_SUB
  }

  function VoiceIndex(df: DeckField): nat {
    if df.Plain? then if df.d <= D_DENSITY then df.d + 1 else df.d + 2 else 0
  }

  lemma {:induction false} VoiceIs()
    ensures Distinct(VoiceOps()) && |VoiceOps()| == 13
    ensures forall i | 0 <= i < 13 :: VoiceOps()[i].Cached? ==> OfVoice(VoiceOps()[i].df)
  {
  }

  lemma {:induction false} VoiceAt(df: ADeckField, p: nat, s: Showing)
    requires OfVoice(df)
    ensures VoiceIndex(df) < 13 == |VoiceOps()|
    ensures FaceOf(df, p, s).Some? && VoiceOps()[VoiceIndex(df)] == Cached(df, FaceOf(df, p, s).value)
  {
  }

  lemma {:induction false} VoiceSends(x: Context, p: nat, df: ADeckField, s: Showing)
    ensures Wanted(x, p, VoiceOps(), df, if OfVoice(df) then FaceOf(df, p, s) else None)
  {
    hide Sends, Value, FaceOf, VoiceOps, VoiceIndex;
    VoiceIs();
    if OfVoice(df) {
      VoiceAt(df, p, s);
      SendsAtIndex(x, p, VoiceOps(), VoiceIndex(df), df);
    } else {
      SendsNothing(x, p, VoiceOps(), df);
    }
  }

  predicate OfFx(df: DeckField) {
    || df == Plain(D_FLUX_MIX) || df == Plain(D_FLUX_RATE) || df == Plain(D_LINK)
    || df == Plain(D_LEVEL) || df == Plain(D_COMP) || df == Plain(D_PAN)
    || df == FxBase(FXT_FLUX_FB) || df == FxBase(FXT_FLUX_TIME) || df.FxOn?
  }

  function FxIndex(df: DeckField): nat {
    if df == Plain(D_FLUX_MIX) then 0 else if df == Plain(D_FLUX_RATE) then 1
    else if df == FxBase(FXT_FLUX_FB) then 2 else if df == FxBase(FXT_FLUX_TIME) then 3
    else if df == Plain(D_LINK) then 4 else if df == FxOn(0) then 5 else if df == FxOn(1) then 6
    else if df == Plain(D_LEVEL) then 7 else if df == Plain(D_COMP) then 8 else 9
  }

  lemma {:induction false} FxIs()
    ensures Distinct(FxOps()) && |FxOps()| == 10
    ensures forall i | 0 <= i < 10 :: FxOps()[i].Cached? ==> OfFx(FxOps()[i].df)
  {
  }

  lemma {:induction false} FxAt(df: ADeckField, p: nat, s: Showing)
    requires OfFx(df)
    ensures FxIndex(df) < 10 == |FxOps()|
    ensures FaceOf(df, p, s).Some? && FxOps()[FxIndex(df)] == Cached(df, FaceOf(df, p, s).value)
  {
  }

  lemma {:induction false} FxSends(x: Context, p: nat, df: ADeckField, s: Showing)
    ensures Wanted(x, p, FxOps(), df, if OfFx(df) then FaceOf(df, p, s) else None)
  {
    hide Sends, Value, FaceOf, FxOps, FxIndex;
    FxIs();
    if OfFx(df) {
      FxAt(df, p, s);
      SendsAtIndex(x, p, FxOps(), FxIndex(df), df);
    } else {
      SendsNothing(x, p, FxOps(), df);
    }
  }

  predicate OfSampler(df: DeckField) {
    df == Plain(D_SPEED_MODE) || df == Plain(D_REVERSE) || df == Plain(D_FEEDBACK)
  }

  function SamplerIndex(df: DeckField): nat {
    if df == Plain(D_SPEED_MODE) then 0 else if df == Plain(D_REVERSE) then 1 else 2
  }

  lemma {:induction false} SamplerIs()
    ensures Distinct(SamplerOps()) && |SamplerOps()| == 3
    ensures forall i | 0 <= i < 3 :: SamplerOps()[i].Cached? ==> OfSampler(SamplerOps()[i].df)
  {
  }

  lemma {:induction false} SamplerAt(df: ADeckField, p: nat, s: Showing)
    requires OfSampler(df)
    ensures SamplerIndex(df) < 3 == |SamplerOps()|
    ensures FaceOf(df, p, s).Some? && SamplerOps()[SamplerIndex(df)] == Cached(df, FaceOf(df, p, s).value)
  {
  }

  lemma {:induction false} SamplerSends(x: Context, p: nat, df: ADeckField, s: Showing)
    ensures Wanted(x, p, SamplerOps(), df, if OfSampler(df) then FaceOf(df, p, s) else None)
  {
    hide Sends, Value, FaceOf, SamplerOps, SamplerIndex;
    SamplerIs();
    if OfSampler(df) {
      SamplerAt(df, p, s);
      SendsAtIndex(x, p, SamplerOps(), SamplerIndex(df), df);
    } else {
      SendsNothing(x, p, SamplerOps(), df);
    }
  }

  predicate OfFaces(df: DeckField) {
    df == Plain(D_OVERLAP) || df == TargetBase(LANE_SOURCE) || df == TargetBase(LANE_PITCH) || df == Plain(D_VARIATION)
  }

  function FacesIndex(df: DeckField): nat {
    if df == Plain(D_OVERLAP) then 0 else if df == TargetBase(LANE_SOURCE) then 1
    else if df == TargetBase(LANE_PITCH) then 2 else 3
  }

  lemma {:induction false} FacesIs(engine: int)
    ensures Distinct(FaceOps(engine)) && |FaceOps(engine)| == 4
    ensures forall i | 0 <= i < 4 :: FaceOps(engine)[i].Cached? ==> OfFaces(FaceOps(engine)[i].df)
  {
  }

  lemma {:induction false} FacesAt(engine: int, df: ADeckField, p: nat, s: Showing)
    requires OfFaces(df) && engine == s.engine
    ensures FacesIndex(df) < 4 == |FaceOps(engine)|
    ensures FaceOf(df, p, s).Some? && FaceOps(engine)[FacesIndex(df)] == Cached(df, FaceOf(df, p, s).value)
  {
  }

  lemma {:induction false} FacesSends(x: Context, p: nat, engine: int, df: ADeckField, s: Showing)
    requires engine == s.engine
    ensures Wanted(x, p, FaceOps(engine), df, if OfFaces(df) then FaceOf(df, p, s) else None)
  {
    hide Sends, Value, FaceOf, FaceOps, FacesIndex;
    FacesIs(engine);
    if OfFaces(df) {
      FacesAt(engine, df, p, s);
      SendsAtIndex(x, p, FaceOps(engine), FacesIndex(df), df);
    } else {
      SendsNothing(x, p, FaceOps(engine), df);
    }
  }

  predicate OfBase(df: DeckField) {
    || df == TargetBase(LANE_SIZE) || df == TargetBase(LANE_MOTION) || df == TargetActive(LANE_PITCH)
    || df == Plain(D_GRIT_MODE) || df == Plain(D_GRIT_MIX)
  }

  function BaseIndex(df: DeckField): nat {
    if df == TargetBase(LANE_SIZE) then 0 else if df == TargetBase(LANE_MOTION) then 1
    else if df == TargetActive(LANE_PITCH) then 2 else if df == Plain(D_GRIT_MODE) then 3 else 4
  }

  lemma {:induction false} BaseIs(engine: int)
    ensures Distinct(BaseOps(engine)) && |BaseOps(engine)| == 6
    ensures forall i | 0 <= i < 6 :: BaseOps(engine)[i].Cached? ==> OfBase(BaseOps(engine)[i].df)
  {
  }

  lemma {:induction false} BaseAt(engine: int, df: ADeckField, p: nat, s: Showing)
    requires OfBase(df) && engine == s.engine
    ensures BaseIndex(df) < 6 == |BaseOps(engine)|
    ensures FaceOf(df, p, s).Some? && BaseOps(engine)[BaseIndex(df)] == Cached(df, FaceOf(df, p, s).value)
  {
  }

  lemma {:induction false} BaseSends(x: Context, p: nat, engine: int, df: ADeckField, s: Showing)
    requires engine == s.engine
    ensures Wanted(x, p, BaseOps(engine), df, if OfBase(df) then FaceOf(df, p, s) else None)
  {
    hide Sends, Value, FaceOf, BaseOps, BaseIndex;
    BaseIs(engine);
    if OfBase(df) {
      BaseAt(engine, df, p, s);
      SendsAtIndex(x, p, BaseOps(engine), BaseIndex(df), df);
    } else {
      SendsNothing(x, p, BaseOps(engine), df);
    }
  }

  predicate OfRung(df: DeckField) {
    df == Plain(D_FORM) || df == Plain(D_SONG)
  }

  function RungIndex(df: DeckField): nat {
    if df == Plain(D_FORM) then 0 else 1
  }

  lemma {:induction false} RungIs(rung: int)
    ensures Distinct(LadderOps(rung)) && |LadderOps(rung)| == 2
    ensures forall i | 0 <= i < 2 :: LadderOps(rung)[i].Cached? ==> OfRung(LadderOps(rung)[i].df)
  {
  }

  lemma {:induction false} RungAt(rung: int, df: ADeckField, p: nat, s: Showing)
    requires OfRung(df) && rung == s.rung
    ensures RungIndex(df) < 2 == |LadderOps(rung)|
    ensures FaceOf(df, p, s).Some? && LadderOps(rung)[RungIndex(df)] == Cached(df, FaceOf(df, p, s).value)
  {
  }

  lemma {:induction false} RungSends(x: Context, p: nat, rung: int, df: ADeckField, s: Showing)
    requires rung == s.rung
    ensures Wanted(x, p, LadderOps(rung), df, if OfRung(df) then FaceOf(df, p, s) else None)
  {
    hide Sends, Value, FaceOf, LadderOps, RungIndex;
    RungIs(rung);
    if OfRung(df) {
      RungAt(rung, df, p, s);
      SendsAtIndex(x, p, LadderOps(rung), RungIndex(df), df);
    } else {
      SendsNothing(x, p, LadderOps(rung), df);
    }
  }

  // The pieces of one call or two.

  lemma {:induction false} DetuneSends(x: Context, p: nat, df: ADeckField, s: Showing)
    ensures Wanted(x, p, DetuneOps(s.engine), df, if df == Plain(D_DETUNE) then FaceOf(df, p, s) else None)
  {
    hide Value;
    if df == Plain(D_DETUNE) && s.engine != ENGINE_FEED {
      SendsOnce(x, p, DetuneOps(s.engine), 0, df);
    } else {
      SendsNothing(x, p, DetuneOps(s.engine), df);
    }
  }

  lemma {:induction false} ScanSends(x: Context, p: nat, df: ADeckField, s: Showing)
    ensures Wanted(x, p, ScanOps(s.engine), df, if df == Plain(D_SCAN) then FaceOf(df, p, s) else None)
  {
    hide Value;
    if df == Plain(D_SCAN) && s.engine == ENGINE_SAMPLER {
      SendsOnce(x, p, ScanOps(s.engine), 0, df);
    } else {
      SendsNothing(x, p, ScanOps(s.engine), df);
    }
  }

  predicate OfEngine(df: DeckField) { df == Plain(D_ENGINE) || df == Plain(D_EXCITE) }

  lemma {:induction false} EngineSends(x: Context, p: nat, df: ADeckField, s: Showing)
    ensures Wanted(x, p, EngineOps(s.asked), df, if OfEngine(df) then FaceOf(df, p, s) else None)
  {
    hide Value;
    if OfEngine(df) {
      SendsOnce(x, p, EngineOps(s.asked), if df == Plain(D_ENGINE) then 0 else 1, df);
    } else {
      SendsNothing(x, p, EngineOps(s.asked), df);
    }
  }

  lemma {:induction false} PhraseSends(x: Context, p: nat, changed: bool, engine: int, df: ADeckField)
    ensures Sends(x, p, PhraseOps(changed, engine), df) == []
  {
    SendsNothing(x, p, PhraseOps(changed, engine), df);
  }

  // ---- a deck's block -------------------------------------------------------------------

  predicate OfPre(df: DeckField) { OfVoice(df) || df == Plain(D_DETUNE) || OfFx(df) }

  predicate OfSurface(df: DeckField) { OfFaces(df) || df == Plain(D_SCAN) || OfBase(df) }

  lemma {:induction false} PreSends(x: Context, p: nat, df: ADeckField, s: Showing)
    ensures Wanted(x, p, PreOps(s.engine), df, if OfPre(df) then FaceOf(df, p, s) else None)
  {
    hide Sends, Value, FaceOf, VoiceOps, DetuneOps, FxOps;
    var voice, detune, fx := VoiceOps(), DetuneOps(s.engine), FxOps();
    SendsConcat(x, p, voice + detune, fx, df);
    SendsConcat(x, p, voice, detune, df);
    VoiceSends(x, p, df, s);
    DetuneSends(x, p, df, s);
    FxSends(x, p, df, s);
  }

  lemma {:induction false} SurfaceSends(x: Context, p: nat, df: ADeckField, s: Showing)
    ensures Wanted(x, p, SurfaceOps(s.engine), df, if OfSurface(df) then FaceOf(df, p, s) else None)
  {
    hide Sends, Value, FaceOf, FaceOps, ScanOps, BaseOps;
    var faces, scan, bases := FaceOps(s.engine), ScanOps(s.engine), BaseOps(s.engine);
    SendsConcat(x, p, faces + scan, bases, df);
    SendsConcat(x, p, faces, scan, df);
    FacesSends(x, p, s.engine, df, s);
    ScanSends(x, p, df, s);
    BaseSends(x, p, s.engine, df, s);
  }

  lemma {:induction false} SongSends(x: Context, p: nat, changed: bool, df: ADeckField, s: Showing)
    ensures Wanted(x, p, SongOps(changed, s.rung, s.engine), df, if OfRung(df) then FaceOf(df, p, s) else None)
  {
    hide Sends, Value, FaceOf, PhraseOps, LadderOps;
    SendsConcat(x, p, PhraseOps(changed, s.engine), LadderOps(s.rung), df);
    PhraseSends(x, p, changed, s.engine, df);
    RungSends(x, p, s.rung, df, s);
  }

  lemma {:induction false} EngineOfSlot(d: DeckInput)
    ensures EngineOf(d) == EngineAt(d.eng, d.testTone)
  {
  }

  function Asked(x: Context, p: nat, e: Option<Expr>): seq<Bits> {
    match e case None => [] case Some(v) => [Value(x, p, v)]
  }

  /** A deck's block sends its fields their faces, once each, and leaves the rest to
      the centre's. */
  lemma {:induction false} BlockSendsFaces(x: Context, w: World, p: nat, df: ADeckField)
    ensures BlockSends(x, w, p, df) == if BlockOnly(df) then Asked(x, p, FaceOf(df, p, Shown(w, x.t, p))) else []
  {
    hide Sends, Value, FaceOf, PreOps, EngineOps, SamplerOps, SurfaceOps, SongOps, SongOf, EngineOf, EngineAt,
         BlockOnly, OfPre, OfEngine, OfSampler, OfSurface, OfRung;
    var s, changed := Shown(w, x.t, p), SongOf(w.law, x.t, p).changed;
    EngineOfSlot(InputOf(x.t, p));
    PreSends(x, p, df, s);
    EngineSends(x, p, df, s);
    SamplerSends(x, p, df, s);
    SurfaceSends(x, p, df, s);
    SongSends(x, p, changed, df, s);
    OnePiece(df);
    NoPiece(df, p, s);
  }

  /** Every such field belongs to one piece at most, and one that belongs to none has no face. */
  lemma {:induction false} OnePiece(df: ADeckField)
    ensures OfPre(df) ==> !OfEngine(df) && !OfSampler(df) && !OfSurface(df) && !OfRung(df) && BlockOnly(df)
    ensures OfEngine(df) ==> !OfSampler(df) && !OfSurface(df) && !OfRung(df) && BlockOnly(df)
    ensures OfSampler(df) ==> !OfSurface(df) && !OfRung(df) && BlockOnly(df)
    ensures OfSurface(df) ==> !OfRung(df) && BlockOnly(df)
    ensures OfRung(df) ==> BlockOnly(df)
  {
  }

  lemma {:induction false} NoPiece(df: ADeckField, p: nat, s: Showing)
    ensures BlockOnly(df) && !OfPre(df) && !OfEngine(df) && !OfSampler(df) && !OfSurface(df) && !OfRung(df)
            ==> FaceOf(df, p, s).None?
  {
  }

  // ---- the depths of the MOD layer --------------------------------------------------------

  /** The row that writes a field of the instrument. */
  function RowOf(f: Field): Option<nat> {
    match f
    case Global(_) => None
    case Deck(p, df) =>
      match df
      case TargetDepth(lane) => LaneDepth(lane, p)
      case FxDepth(fx) => EffectDepth(fx, p)
      case FxActive(fx) => EffectDepth(fx, p)
      case _ => None
  }

  /** The engine-backed rows of the layer: lanes, then effects, deck A before deck B. */
  lemma {:induction false} RowsAre(k: nat)
    requires k < MOD_ROWS
    ensures |MOD_LAYER| == MOD_ROWS
    ensures k < 6 ==> MOD_LAYER[k] == TEXTURE_ROWS[k]
    ensures 6 <= k < 12 ==> MOD_LAYER[k] == FX_ROWS[k - 6]
    ensures k >= 12 ==> MOD_LAYER[k].kind == HOST
  {
    hide TEXTURE_ROWS, FX_ROWS, LANE_ROWS, VOICE_ROWS, TONE_ROWS, CENTRE_ROWS;
    GroupsInBlock();
    HostRows();
    RowInGroup(k);
  }

  predicate AllHost(rows: seq<ModTarget>) { forall i | 0 <= i < |rows| :: rows[i].kind == HOST }

  lemma {:induction false} HostRows()
    ensures AllHost(LANE_ROWS) && AllHost(VOICE_ROWS) && AllHost(TONE_ROWS) && AllHost(CENTRE_ROWS)
  {
  }

  predicate RowWants(x: Context, t: ModTarget, k: nat, f: AField) {
    SendsAt(x, TargetOps(t, k), f)
    == if RowOf(f) != Some(k) then [] else [Value(x, f.p, if f.df.FxActive? then RowActive(k) else RowDepth(k))]
  }

  lemma {:induction false} SendsAtOne(x: Context, op: Op, f: Field)
    ensures SendsAt(x, [op], f) == if WritesAt(op, f) then [Value(x, op.p, op.e)] else []
  {
    hide Value;
    assert [op][1..] == [];
  }

  /** The lane or effect a depth is of. */
  function LineOf(f: Field): nat {
    if f.Global? then 0
    else match f.df
      case TargetDepth(lane) => lane
      case FxDepth(fx) => fx
      case FxActive(fx) => fx
      case _ => 0
  }

  lemma {:induction false} LaneRow(x: Context, k: nat, f: AField)
    requires k < 6
    ensures RowWants(x, TEXTURE_ROWS[k], k, f)
  {
    hide Value, SendsAt, LaneDepth, EffectDepth, TEXTURE_ROWS;
    GroupsInBlock();
    var t := TEXTURE_ROWS[k];
    LaneRowIs(k, LineOf(f), if f.Deck? then f.p else 0);
    SendsAtOne(x, CachedAt(Deck(t.part, TargetDepth(t.slot)), t.part, RowDepth(k)), f);
  }

  lemma {:induction false} LaneRowIs(k: nat, lane: nat, p: nat)
    requires k < 6 && p < PARTS
    ensures var t := TEXTURE_ROWS[k];
            t.kind == TDEPTH && (LaneDepth(lane, p) == Some(k) <==> lane == t.slot && p == t.part)
    ensures EffectDepth(lane, p) != Some(k)
  {
  }

  lemma {:induction false} EffectRow(x: Context, k: nat, f: AField)
    requires 6 <= k < 12
    ensures RowWants(x, FX_ROWS[k - 6], k, f)
  {
    hide Value, SendsAt, LaneDepth, EffectDepth, FX_ROWS;
    GroupsInBlock();
    var t := FX_ROWS[k - 6];
    EffectRowIs(k, LineOf(f), if f.Deck? then f.p else 0);
    var depth := CachedAt(Deck(t.part, FxDepth(t.slot)), t.part, RowDepth(k));
    var active := CachedAt(Deck(t.part, FxActive(t.slot)), t.part, RowActive(k));
    SendsAtOne(x, depth, f);
    SendsAtOne(x, active, f);
    SendsAtConcat(x, [depth], [active], f);
    assert TargetOps(t, k) == [depth] + [active];
  }

  lemma {:induction false} EffectRowIs(k: nat, fx: nat, p: nat)
    requires 6 <= k < 12 && p < PARTS
    ensures var t := FX_ROWS[k - 6];
            t.kind == FXDEPTH && (EffectDepth(fx, p) == Some(k) <==> fx == t.slot && p == t.part)
    ensures LaneDepth(fx, p) != Some(k)
  {
  }

  lemma {:induction false} HostRow(x: Context, t: ModTarget, k: nat, f: AField)
    requires k >= 12 && t.kind == HOST
    ensures RowWants(x, t, k, f)
  {
  }

  /** Row k writes exactly the fields that are its. */
  lemma {:induction false} RowSends(x: Context, k: nat, f: AField)
    requires k < MOD_ROWS
    ensures |MOD_LAYER| == MOD_ROWS && RowWants(x, MOD_LAYER[k], k, f)
  {
    hide Value, MOD_LAYER, RowWants;
    RowsAre(k);
    if k < 6 {
      LaneRow(x, k, f);
    } else if k < 12 {
      EffectRow(x, k, f);
    } else {
      HostRow(x, MOD_LAYER[k], k, f);
    }
  }

  lemma {:induction false} SendsAtConcat(x: Context, a: seq<Op>, b: seq<Op>, f: Field)
    ensures SendsAt(x, a + b, f) == SendsAt(x, a, f) + SendsAt(x, b, f)
    decreases |a|
  {
    hide Value, WritesAt;
    if a == [] {
      assert a + b == b;
    } else {
      assert (a + b)[0] == a[0] && (a + b)[1..] == a[1..] + b;
      SendsAtConcat(x, a[1..], b, f);
      Associate(if WritesAt(a[0], f) then [Value(x, a[0].p, a[0].e)] else [], SendsAt(x, a[1..], f), SendsAt(x, b, f));
    }
  }

  /** The first k rows of the layer send a field its depth once its row is among them. */
  lemma {:induction false} LayerSends(x: Context, k: nat, f: AField)
    requires k <= MOD_ROWS
    ensures |MOD_LAYER| == MOD_ROWS
    ensures SendsAt(x, LayerOps(k), f) ==
            if RowOf(f).None? || RowOf(f).value >= k then []
            else [Value(x, f.p, if f.df.FxActive? then RowActive(RowOf(f).value) else RowDepth(RowOf(f).value))]
    decreases k
  {
    hide Value, MOD_LAYER, RowOf, TargetOps, SendsAt;
    RowsAre(0);
    RowOfDeck(f);
    if k == 0 {
      SendsAtNothing(x, LayerOps(0), f);
    } else {
      LayerSends(x, k - 1, f);
      RowSends(x, k - 1, f);
      SendsAtConcat(x, LayerOps(k - 1), RowOps(k - 1), f);
    }
  }

  lemma {:induction false} RowOfDeck(f: AField)
    ensures RowOf(f).Some? ==> f.Deck?
  {
  }

  /** A depth's face is the row that writes it. */
  lemma {:induction false} DepthFace(p: nat, df: ADeckField, s: Showing)
    ensures var row := RowOf(Deck(p, df));
            && (row.Some? ==> !BlockOnly(df))
            && (row.Some? && df.FxActive? ==> FaceOf(df, p, s) == Some(RowActive(row.value)))
            && (row.Some? && !df.FxActive? ==> FaceOf(df, p, s) == Some(RowDepth(row.value)))
            && (row.Some? && p < PARTS ==> row.value < MOD_ROWS)
            && (row.None? && !BlockOnly(df) && df != Plain(D_REV_MIX) && df != Plain(D_ROOT) ==> FaceOf(df, p, s).None?)
  {
  }

  // ---- the centre's calls -------------------------------------------------------------------

  predicate DistinctAt(ops: seq<Op>) {
    forall i, j | 0 <= i < j < |ops| :: ops[i].CachedAt? && ops[j].CachedAt? ==> ops[i].f != ops[j].f
  }

  lemma {:induction false} SendsAtIndexAt(x: Context, ops: seq<Op>, k: nat, f: Field)
    requires DistinctAt(ops) && k < |ops| && WritesAt(ops[k], f)
    ensures SendsAt(x, ops, f) == [Value(x, ops[k].p, ops[k].e)]
    decreases |ops|
  {
    hide Value;
    if k == 0 {
      SendsAtNothing(x, ops[1..], f);
    } else {
      SendsAtIndexAt(x, ops[1..], k - 1, f);
    }
  }

  /** A field's deck, 0 for one of the instrument's own. */
  function PartOf(f: Field): nat { if f.Global? then 0 else f.p }

  /** What the centre's calls put into a field. */
  function CentreFace(f: AField): Option<Expr> {
    match f
    case Global(g) => if g == G_SHUFFLE then None else Some(GlobalFace(g))
    case Deck(p, df) => if df == Plain(D_REV_MIX) || df == Plain(D_ROOT) then FaceOf(df, p, Showing(0, 0, 0)) else None
  }

  predicate WantedAt(x: Context, ops: seq<Op>, f: Field, e: Option<Expr>) {
    SendsAt(x, ops, f) == match e case None => [] case Some(v) => [Value(x, PartOf(f), v)]
  }

  predicate OfMorph(f: Field) {
    f == Global(G_MORPH) || f == Global(G_COUPLE)
  }

  function MorphIndex(f: Field): nat {
    if f == Global(G_MORPH) then 0 else 2
  }

  lemma {:induction false} MorphIs()
    ensures DistinctAt(MorphOps()) && |MorphOps()| == 3
    ensures forall i | 0 <= i < 3 :: MorphOps()[i].CachedAt? ==> OfMorph(MorphOps()[i].f)
  {
  }

  lemma {:induction false} MorphAt(f: AField)
    requires OfMorph(f)
    ensures MorphIndex(f) < 3 == |MorphOps()|
    ensures CentreFace(f).Some? && MorphOps()[MorphIndex(f)] == CachedAt(f, PartOf(f), CentreFace(f).value)
  {
  }

  lemma {:induction false} MorphSends(x: Context, f: AField)
    ensures WantedAt(x, MorphOps(), f, if OfMorph(f) then CentreFace(f) else None)
  {
    hide SendsAt, Value, CentreFace, MorphOps, MorphIndex;
    MorphIs();
    if OfMorph(f) {
      MorphAt(f);
      SendsAtIndexAt(x, MorphOps(), MorphIndex(f), f);
    } else {
      SendsAtNothing(x, MorphOps(), f);
    }
  }

  predicate OfDrift(f: Field) {
    f == Global(G_CHOKE) || f == Global(G_PULL)
  }

  function DriftIndex(f: Field): nat {
    if f == Global(G_CHOKE) then 2 else 3
  }

  lemma {:induction false} DriftIs()
    ensures DistinctAt(DriftOps()) && |DriftOps()| == 4
    ensures forall i | 0 <= i < 4 :: DriftOps()[i].CachedAt? ==> OfDrift(DriftOps()[i].f)
  {
  }

  lemma {:induction false} DriftAt(f: AField)
    requires OfDrift(f)
    ensures DriftIndex(f) < 4 == |DriftOps()|
    ensures CentreFace(f).Some? && DriftOps()[DriftIndex(f)] == CachedAt(f, PartOf(f), CentreFace(f).value)
  {
  }

  lemma {:induction false} DriftSends(x: Context, f: AField)
    ensures WantedAt(x, DriftOps(), f, if OfDrift(f) then CentreFace(f) else None)
  {
    hide SendsAt, Value, CentreFace, DriftOps, DriftIndex;
    DriftIs();
    if OfDrift(f) {
      DriftAt(f);
      SendsAtIndexAt(x, DriftOps(), DriftIndex(f), f);
    } else {
      SendsAtNothing(x, DriftOps(), f);
    }
  }

  predicate OfRoom(f: Field) {
    || (f.Global? && G_REV_SIZE <= f.g <= G_REV_MOD) || (f.Deck? && f.df == Plain(D_REV_MIX))
  }

  function RoomIndex(f: Field): nat
    requires OfRoom(f)
  {
    if f.Deck? then 4 + f.p else if f.g <= G_REV_DIFF then f.g - G_REV_SIZE else f.g - G_MASTER_DRIVE + 6
  }

  lemma {:induction false} RoomIs()
    ensures DistinctAt(RoomOps()) && |RoomOps()| == 9
    ensures forall i | 0 <= i < 9 :: RoomOps()[i].CachedAt? ==> OfRoom(RoomOps()[i].f)
  {
  }

  lemma {:induction false} RoomAt(f: AField)
    requires OfRoom(f)
    ensures RoomIndex(f) < 9 == |RoomOps()|
    ensures CentreFace(f).Some? && RoomOps()[RoomIndex(f)] == CachedAt(f, PartOf(f), CentreFace(f).value)
  {
  }

  lemma {:induction false} RoomSends(x: Context, f: AField)
    ensures WantedAt(x, RoomOps(), f, if OfRoom(f) then CentreFace(f) else None)
  {
    hide SendsAt, Value, CentreFace, RoomOps, RoomIndex;
    RoomIs();
    if OfRoom(f) {
      RoomAt(f);
      SendsAtIndexAt(x, RoomOps(), RoomIndex(f), f);
    } else {
      SendsAtNothing(x, RoomOps(), f);
    }
  }

  predicate OfKey(f: Field) {
    f == Global(G_SCALE) || f == Global(G_PACE) || (f.Deck? && f.df == Plain(D_ROOT))
  }

  function KeyIndex(f: Field): nat {
    if f.Deck? then 1 + f.p else if f == Global(G_SCALE) then 0 else 4
  }

  lemma {:induction false} KeyIs()
    ensures DistinctAt(KeyOps()) && |KeyOps()| == 5
    ensures forall i | 0 <= i < 5 :: KeyOps()[i].CachedAt? ==> OfKey(KeyOps()[i].f)
  {
  }

  lemma {:induction false} KeyAt(f: AField)
    requires OfKey(f)
    ensures KeyIndex(f) < 5 == |KeyOps()|
    ensures CentreFace(f).Some? && KeyOps()[KeyIndex(f)] == CachedAt(f, PartOf(f), CentreFace(f).value)
  {
  }

  lemma {:induction false} KeySends(x: Context, f: AField)
    ensures WantedAt(x, KeyOps(), f, if OfKey(f) then CentreFace(f) else None)
  {
    hide SendsAt, Value, CentreFace, KeyOps, KeyIndex;
    KeyIs();
    if OfKey(f) {
      KeyAt(f);
      SendsAtIndexAt(x, KeyOps(), KeyIndex(f), f);
    } else {
      SendsAtNothing(x, KeyOps(), f);
    }
  }

  lemma {:induction false} CentreOpsSend(x: Context, settle: bool, f: AField)
    ensures WantedAt(x, CentreOps(settle), f, CentreFace(f))
  {
    hide SendsAt, Value, CentreFace, MorphOps, DriftOps, RoomOps, KeyOps, OfMorph, OfDrift, OfRoom, OfKey;
    var morph, settled, drift, room, key := MorphOps(), SettleOps(settle), DriftOps(), RoomOps(), KeyOps();
    SendsAtConcat(x, morph + settled + drift + room, key, f);
    SendsAtConcat(x, morph + settled + drift, room, f);
    SendsAtConcat(x, morph + settled, drift, f);
    SendsAtConcat(x, morph, settled, f);
    SendsAtNothing(x, settled, f);
    MorphSends(x, f);
    DriftSends(x, f);
    RoomSends(x, f);
    KeySends(x, f);
    OneCentrePiece(f);
  }

  lemma {:induction false} OneCentrePiece(f: AField)
    ensures OfMorph(f) ==> !OfDrift(f) && !OfRoom(f) && !OfKey(f)
    ensures OfDrift(f) ==> !OfRoom(f) && !OfKey(f)
    ensures OfRoom(f) ==> !OfKey(f)
    ensures CentreFace(f).Some? ==> OfMorph(f) || OfDrift(f) || OfRoom(f) || OfKey(f)
  {
  }

  // ---- a tick -----------------------------------------------------------------------------------

  /** What the centre's block sends a deck's field: its depth, its mix, its root. */
  lemma {:induction false} CentreSendsFaces(x: Context, w: World, p: nat, df: ADeckField, s: Showing)
    requires p < PARTS
    ensures CentreSends(x, w, Deck(p, df)) == if BlockOnly(df) then [] else Asked(x, p, FaceOf(df, p, s))
  {
    hide SendsAt, Value, CentreOps, LayerOps, MOD_LAYER, RowOf, FaceOf;
    var f: AField := Deck(p, df);
    var settle := DriftTick(w.law.edges.drift, x.t.driftInZone).settle;
    LayerSends(x, MOD_ROWS, f);
    CentreOpsSend(x, settle, f);
    DepthFace(p, df, s);
    MixAndRoot(p, df, s);
  }

  lemma {:induction false} MixAndRoot(p: nat, df: ADeckField, s: Showing)
    requires p < PARTS
    ensures df == Plain(D_REV_MIX) || df == Plain(D_ROOT) ==>
              !BlockOnly(df) && RowOf(Deck(p, df)).None? && CentreFace(Deck(p, df)) == FaceOf(df, p, s) != None
    ensures !(df == Plain(D_REV_MIX) || df == Plain(D_ROOT)) ==> CentreFace(Deck(p, df)) == None
  {
  }

  /** A tick sends each field of a deck the value of its face, once, and a field that has
      none nothing. */
  lemma {:induction false} EveryFieldIsSentItsFace(m: Machine, w: World, t: Input, p: nat, df: ADeckField)
    requires p < PARTS
    ensures TickSends(m, w, t, p, df) == Asked(ContextOf(m, false, w, t), p, FaceOf(df, p, Shown(w, t, p)))
  {
    hide BlockSends, CentreSends, FaceOf, Value, Shown, BlockOnly;
    var x := ContextOf(m, false, w, t);
    BlockSendsFaces(x, w, p, df);
    CentreSendsFaces(x, w, p, df, Shown(w, t, p));
  }

  lemma {:induction false} FoundHolds(w: World, t: Input, p: nat, df: ADeckField)
    requires p < PARTS
    ensures Found(w, t, p, df).held == Get(w.i, Deck(p, df))
  {
    hide Slot, Noticed, Get;
  }

  /** So after a tick, through the cache from a safe state or past it, each field of a
      deck holds the value of its face, and one that has none what it held. */
  lemma {:induction false} EveryFieldHoldsItsFace(m: Machine, on: bool, w: World, t: Input, p: nat, df: ADeckField)
    requires p < PARTS && (on ==> Safe(w))
    ensures var e := FaceOf(df, p, Shown(w, t, p));
            HeldAfter(m, on, w, t, p, df)
            == if e.None? then Get(w.i, Deck(p, df)) else Value(ContextOf(m, false, w, t), p, e.value)
  {
    hide HeldAfter, Tick, Safe, Found, TickSends, Value, FaceOf, Shown, Get;
    if on { SameAfter(m, w, t, p, df); }
    HeldIs(m, false, w, t, p, df);
    EveryFieldIsSentItsFace(m, w, t, p, df);
    ReceivedBare(Found(w, t, p, df), TickSends(m, w, t, p, df));
    FoundHolds(w, t, p, df);
  }

  lemma {:induction false} SameAfter(m: Machine, w: World, t: Input, p: nat, df: ADeckField)
    requires Safe(w) && p < PARTS
    ensures HeldAfter(m, true, w, t, p, df) == HeldAfter(m, false, w, t, p, df)
  {
    hide Tick, Safe, Get;
    TickSame(m, w, w, t);
  }

  // ---- the instrument's own fields ------------------------------------------------------------

  lemma {:induction false} DeckOpsLeaveGlobals(x: Context, w: Pair, p: nat, ops: seq<DeckOp>, g: nat)
    requires p < PARTS && g < G_COUNT
    ensures Get(DoDeckOps(x, w, p, ops).i, Global(g)) == Get(w.i, Global(g))
    decreases |ops|
  {
    hide Put, Value, Get;
    if ops != [] {
      var op := ops[0];
      match op {
        case Cached(df, e) => PutGet(x, w, Deck(p, df), Value(x, p, e), Global(g));
        case Direct(call, e) => SameFields(w.i, Act(x.m, w, call, p, Value(x, p, e)).i, Global(g));
      }
      DeckOpsLeaveGlobals(x, DoDeckOp(x, w, p, op), p, ops[1..], g);
    }
  }

  lemma {:induction false} PutGet(x: Context, w: Pair, f: AField, b: Bits, g: AField)
    requires f != g
    ensures Get(Put(x.m, x.on, w, f, b).i, g) == Get(w.i, g)
  {
    hide Slot, LawCache.Set, Get;
    SetGet(x.m, w.i, f, b, g);
  }

  lemma {:induction false} HeadLeavesGlobals(x: Context, w: Pair, p: nat, g: nat)
    requires p < PARTS && g < G_COUNT
    ensures Get(DeckHead(x, w, p).0.i, Global(g)) == Get(w.i, Global(g))
  {
    hide DoDeckOps, PreOps, EngineOps, SamplerOps, EngineOf, Get;
    var d := InputOf(x.t, p);
    DeckOpsLeaveGlobals(x, w, p, PreOps(Running(w.i, p)), g);
    var w1 := DoDeckOps(x, w, p, PreOps(Running(w.i, p)));
    DeckOpsLeaveGlobals(x, w1, p, EngineOps(EngineOf(d)), g);
    var w2 := DoDeckOps(x, w1, p, EngineOps(EngineOf(d)));
    var w3 := w2.(i := w2.i.(dsp := x.m.hook(w2.i, p, d.eng)));
    SameFields(w2.i, w3.i, Global(g));
    DeckOpsLeaveGlobals(x, w3, p, SamplerOps(), g);
    SameFields(BeforeRecord(x, w, p).i, DeckHead(x, w, p).0.i, Global(g));
  }

  lemma {:induction false} TailLeavesGlobals(x: Context, w: Pair, p: nat, newPhrase: bool, rung: int, g: nat)
    requires p < PARTS && g < G_COUNT
    ensures Get(DeckTail(x, w, p, newPhrase, rung).i, Global(g)) == Get(w.i, Global(g))
  {
    hide DoDeckOps, SurfaceOps, SongOps, Get;
    DeckOpsLeaveGlobals(x, w, p, SurfaceOps(Running(w.i, p)), g);
    var w1 := DoDeckOps(x, w, p, SurfaceOps(Running(w.i, p)));
    DeckOpsLeaveGlobals(x, w1, p, SongOps(newPhrase, rung, Running(w1.i, p)), g);
  }

  lemma {:induction false} BlockLeavesGlobals(x: Context, w: World, p: nat, g: nat)
    requires p < PARTS && g < G_COUNT
    ensures Get(DeckTick(x, w, p).w.i, Global(g)) == Get(w.i, Global(g))
  {
    hide Noticed, DeckHead, DeckTail, DeckStep, EngineOf, Get;
    var w0 := Pair(Noticed(w.law, p, AskedKey(InputOf(x.t, p)), Running(w.i, p)), w.i);
    var head := DeckHead(x, w0, p).0;
    var (edges, fired) := DeckStep(EdgesOf(w.law.edges, p), ViewOf(InputOf(x.t, p), Running(head.i, p)));
    HeadLeavesGlobals(x, w0, p, g);
    TailLeavesGlobals(x, head, p, fired.newPhrase, edges.song.rung, g);
  }

  function GlobalAfter(m: Machine, on: bool, w: World, t: Input, g: nat): Bits
    requires g < G_COUNT
  {
    Get(Tick(m, on, w, t).w.i, Global(g))
  }

  /** The instrument's own fields too hold the values of their faces, all of them. */
  lemma {:induction false} EveryGlobalHoldsItsFace(m: Machine, on: bool, w: World, t: Input, g: nat)
    requires g < G_COUNT && (on ==> Safe(w))
    ensures GlobalAfter(m, on, w, t, g) == Value(ContextOf(m, false, w, t), 0, GlobalFace(g))
  {
    hide Tick, Safe, Get, Value, GlobalFace;
    if on { TickSame(m, w, w, t); }
    BareGlobal(m, w, t, g);
  }

  lemma {:induction false} BareGlobal(m: Machine, w: World, t: Input, g: nat)
    requires g < G_COUNT
    ensures GlobalAfter(m, false, w, t, g) == Value(ContextOf(m, false, w, t), 0, GlobalFace(g))
  {
    hide DeckTick, CentreTick, Get, Value, GlobalFace, Put, SendsAt, CentreOps, LayerOps, MOD_LAYER, RowOf, ReceiveAll;
    var x := ContextOf(m, false, w, t);
    var w0 := WithPair(w, DoOp(x, PairOf(w), CachedAt(Global(G_SHUFFLE), 0, Raw(SHUFFLE))));
    BarePut(x, PairOf(w), Global(G_SHUFFLE), Value(x, 0, Raw(SHUFFLE)));
    BlockLeavesGlobals(x, w0, 0, g);
    var w1 := DeckTick(x, w0, 0).w;
    BlockLeavesGlobals(x, w1, 1, g);
    var w2 := DeckTick(x, w1, 1).w;
    CentreCell(x, w2, Global(g));
    ReceivedBare(CellOf(PairOf(w2), Global(g)), CentreSends(x, w2, Global(g)));
    LayerSends(x, MOD_ROWS, Global(g));
    CentreOpsSend(x, DriftTick(w2.law.edges.drift, t.driftInZone).settle, Global(g));
    GlobalRow(g);
  }

  lemma {:induction false} GlobalRow(g: nat)
    requires g < G_COUNT
    ensures RowOf(Global(g)).None?
    ensures CentreFace(Global(g)) == if g == G_SHUFFLE then None else Some(GlobalFace(g))
    ensures GlobalFace(G_SHUFFLE) == Raw(SHUFFLE)
  {
  }

  lemma {:induction false} BarePut(x: Context, w: Pair, f: AField, b: Bits)
    requires !x.on
    ensures Get(Put(x.m, x.on, w, f, b).i, f) == b
  {
    hide Slot, LawCache.Set, Get;
    SetGet(x.m, w.i, f, b, f);
  }
}
