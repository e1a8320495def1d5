/**
  The faces that mean something else on some engines, over a tick and over runs: what
  reaches them is decided by the engine the deck runs and by the tick alone, whatever
  an engine visited before has left there.
 */
module LawBases {
  import opened Options
  import opened Params
  import opened LawCache
  import opened LawEdges
  import opened LawTick
  import opened LawRefines
  import opened LawCells
  import opened LawFaces

  /** The fields another engine may have re-pointed. */
  predicate Repointed(df: DeckField) {
    df == TargetBase(LANE_SIZE) || df == TargetBase(LANE_PITCH) || df == TargetActive(LANE_PITCH)
    || df == Plain(D_VARIATION)
  }

  /** What the engine running makes of them. */
  function Meant(df: DeckField, engine: int): Expr
    requires Repointed(df)
  {
    var sampler := engine == ENGINE_SAMPLER;
    if df == TargetBase(LANE_SIZE) then
      if sampler then Modded(SUB) else if engine == ENGINE_FEED then Modded(DETUNE) else Half
    else if df == TargetBase(LANE_PITCH) then
      if engine == ENGINE_BBD then Raw(STAGES) else Half
    else if df == TargetActive(LANE_PITCH) then
      Flag(!sampler)
    else
      if sampler then Constant(0) else Modded(MELODY)
  }

  lemma {:induction false} MeantIsFace(df: DeckField, p: nat, s: Showing)
    requires Repointed(df)
    ensures FaceOf(df, p, s) == Some(Meant(df, s.engine))
  {
  }

  /** Each of these fields is sent exactly one value a tick: what the engine the deck
      runs means by it. */
  lemma {:induction false} SentOnce(m: Machine, w: World, t: Input, p: nat, df: DeckField)
    requires p < PARTS && Repointed(df)
    ensures TickSends(m, w, t, p, df) == [Value(ContextOf(m, false, w, t), p, Meant(df, Running(w.i, p)))]
  {
    hide TickSends, Value, Meant, FaceOf;
    EveryFieldIsSentItsFace(m, w, t, p, df);
    MeantIsFace(df, p, Shown(w, t, p));
  }

  /** After every tick, cached or not, a deck's lane bases are those of the engine it
      runs: nothing an earlier engine was given can stay behind. */
  lemma {:induction false} NoBaseLeftBehind(m: Machine, on: bool, w: World, t: Input, p: nat, df: ADeckField)
    requires (on ==> Safe(w)) && p < PARTS && Repointed(df)
    ensures HeldAfter(m, on, w, t, p, df) == Value(ContextOf(m, false, w, t), p, Meant(df, Running(w.i, p)))
  {
    hide HeldAfter, Safe, Value, Meant, FaceOf;
    EveryFieldHoldsItsFace(m, on, w, t, p, df);
    MeantIsFace(df, p, Shown(w, t, p));
  }

  /** Over every run, whatever ticks, landings, resets and restores it holds: after the
      next tick every field of a deck that has a face holds its value. */
  lemma {:induction false} EveryRunEndsOnItsFaces(m: Machine, w: World, es: seq<Event>, t: Input,
                                                  p: nat, df: ADeckField)
    requires Safe(w) && RunOk(es) && p < PARTS
    ensures var v := Run(m, true, w, es).0;
            var e := FaceOf(df, p, Shown(v, t, p));
            e.Some? ==> HeldAfter(m, true, v, t, p, df) == Value(ContextOf(m, false, v, t), p, e.value)
  {
    hide HeldAfter, Safe, Value, FaceOf, Run, Shown;
    CacheIsInvisible(m, w, w, es);
    EveryFieldHoldsItsFace(m, true, Run(m, true, w, es).0, t, p, df);
  }

  /** SHAPE, for one, is sent its knob once a tick. */
  lemma {:induction false} ShapeSends(m: Machine, w: World, t: Input, p: nat)
    requires p < PARTS
    ensures TickSends(m, w, t, p, Plain(D_SHAPE)) == [Value(ContextOf(m, false, w, t), p, Modded(SHAPE))]
  {
    hide TickSends, Value;
    EveryFieldIsSentItsFace(m, w, t, p, Plain(D_SHAPE));
  }

  /** So with its knob where it was, an overwritten SHAPE would stay overwritten: the
      cached tick skips the call that the other makes. */
  lemma {:induction false} UnseenOverwriteStays(m: Machine, w: World, j: Inst, t: Input, p: nat)
    requires p < PARTS && DeckSettled(w, p)
    requires var f: AField := Deck(p, Plain(D_SHAPE)); w.law.c.valid[Slot(f)] && Get(j, f) != Get(w.i, f)
    requires SwitchOf(w.i, p).switching && SwitchOf(w.i, p).pending == Running(w.i, p)
    requires SwitchOf(j, p) == SwitchOf(w.i, p).(switching := false)
    requires AskedKey(InputOf(t, p)) == EnginesOf(w.law, p).asked
    requires Value(ContextOf(m, false, w.(i := j), t), p, Modded(SHAPE)) == Get(w.i, Deck(p, Plain(D_SHAPE)))
    ensures HeldAfter(m, true, w.(i := j), t, p, Plain(D_SHAPE)) == Get(j, Deck(p, Plain(D_SHAPE)))
    ensures HeldAfter(m, false, w.(i := j), t, p, Plain(D_SHAPE)) == Get(w.i, Deck(p, Plain(D_SHAPE)))
  {
    hide HeldAfter, TickSends, Get, Slot, DeckMatches, Value;
    var v, df := w.(i := j), Plain(D_SHAPE);
    DeckMatchesAt(PairOf(w), p, df);
    NoticedCell(w.law, j, p, AskedKey(InputOf(t, p)), p, df);
    ShapeSends(m, v, t, p);
    HeldIs(m, true, v, t, p, df);
    HeldIs(m, false, v, t, p, df);
    ReceivedCached(Found(v, t, p, df), TickSends(m, v, t, p, df));
    ReceivedBare(Found(v, t, p, df), TickSends(m, v, t, p, df));
  }
}
