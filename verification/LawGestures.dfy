/**
  Restores are never taken for gestures, over whole runs: what the detectors of
  the control law fire in a run of ticks, audio blocks and re-initialisations
  that follows a restore or a reset.
 */
module LawGestures {
  import opened Params
  import opened LawCache
  import opened LawEdges
  import opened LawTick

  /** No reset and no restore: nothing re-arms a detector. */
  predicate Unarmed(es: seq<Event>) {
    forall k | 0 <= k < |es| :: !es[k].WasReset? && !es[k].WasRestored?
  }

  function ReportOf(r: Report, p: nat): DeckReport { if p == 0 then r.deckA else r.deckB }

  function Views(reports: seq<Report>, p: nat): (views: seq<DeckView>)
    ensures |views| == |reports|
  {
    seq(|reports|, i requires 0 <= i < |reports| => ReportOf(reports[i], p).view)
  }

  function Zones(reports: seq<Report>): (zones: seq<bool>)
    ensures |zones| == |reports|
  {
    seq(|reports|, i requires 0 <= i < |reports| => reports[i].zone)
  }

  /** A tick's detectors see what the tick reports they saw. */
  lemma {:induction false} TickEdges(m: Machine, on: bool, w: World, t: Input, p: nat)
    requires p < PARTS
    ensures var r := Tick(m, on, w, t);
            && (EdgesOf(r.w.law.edges, p), ReportOf(r.report, p).fired)
               == DeckStep(EdgesOf(w.law.edges, p), ReportOf(r.report, p).view)
            && r.w.law.edges.drift == DriftTick(w.law.edges.drift, r.report.zone).state
            && r.report.settle == DriftTick(w.law.edges.drift, r.report.zone).settle
  {
    hide DoOp, DoOps, DeckHead, DeckTail, DeckStep, Noticed, LayerOps, CentreOps;
  }

  /** The events of a run of reports are those of the detectors run over what the
      reports say was seen. */
  predicate Explained(e: Edges, reports: seq<Report>, p: nat) {
    forall i | 0 <= i < |reports| :: ExplainedAt(e, reports, p, i)
  }

  predicate ExplainedAt(e: Edges, reports: seq<Report>, p: nat, i: nat)
    requires i < |reports|
  {
    && ReportOf(reports[i], p).fired == DeckRun(EdgesOf(e, p), Views(reports, p))[i]
    && reports[i].settle == DriftRun(e.drift, Zones(reports))[i]
  }

  lemma {:induction false} ExplainedFrom(e: Edges, e': Edges, r: Report, later: seq<Report>, p: nat)
    requires Explained(e', later, p)
    requires (EdgesOf(e', p), ReportOf(r, p).fired) == DeckStep(EdgesOf(e, p), ReportOf(r, p).view)
    requires e'.drift == DriftTick(e.drift, r.zone).state && r.settle == DriftTick(e.drift, r.zone).settle
    ensures Explained(e, [r] + later, p)
  {
    hide DeckStep, DriftTick, EdgesOf;
    var all := [r] + later;
    assert Views(all, p)[1..] == Views(later, p) && Zones(all)[1..] == Zones(later);
    forall i | 0 <= i < |all|
      ensures ExplainedAt(e, all, p, i)
    {
      if i > 0 {
        assert ExplainedAt(e', later, p, i - 1) && all[i] == later[i - 1];
      }
    }
  }

  lemma {:induction false} RunEdges(m: Machine, on: bool, w: World, es: seq<Event>, p: nat)
    requires Unarmed(es) && p < PARTS
    ensures Explained(w.law.edges, Run(m, on, w, es).1, p)
    decreases |es|
  {
    hide Tick, ExplainedAt, DeckStep, DriftTick, OnInstrumentInit;
    if es != [] {
      var (w1, now) := StepEvent(m, on, w, es[0]);
      var (w2, later) := Run(m, on, w1, es[1..]);
      assert Unarmed(es[1..]) by {
        assert forall k | 0 <= k < |es[1..]| :: es[1..][k] == es[k + 1];
      }
      RunEdges(m, on, w1, es[1..], p);
      if es[0].Ticked? {
        TickEdges(m, on, w, es[0].t, p);
        ExplainedFrom(w.law.edges, w1.law.edges, now[0], later, p);
      } else {
        InitKeepsEdges(w.law);
        assert now + later == later;
      }
    }
  }

  lemma {:induction false} InitKeepsEdges(l: Law)
    ensures OnInstrumentInit(l).edges == l.edges
  {
  }

  // ---- the BBD edge, resets allowed -----------------------------------------------------

  /** No restore. */
  predicate Unrestored(es: seq<Event>) {
    forall k | 0 <= k < |es| :: !es[k].WasRestored?
  }

  /** Only a tick or a restore moves a deck's BBD detector or its hold. */
  lemma {:induction false} BbdStays(l: Law, p: nat)
    ensures EdgesOf(OnReset(l).edges, p).bbd == EdgesOf(l.edges, p).bbd
    ensures EdgesOf(OnReset(l).edges, p).restoring == EdgesOf(l.edges, p).restoring
    ensures OnInstrumentInit(l).edges == l.edges
  {
  }

  lemma {:induction false} BbdStep(d: DeckEdges, v: DeckView)
    ensures var (next, fired) := DeckStep(d, v);
            var (alone, edge) := BbdPhase(DeckEdges(d.bbd, d.restoring, Song(0, false)), v);
            next.bbd == alone.bbd && next.restoring == alone.restoring && fired.bbdEdge == edge
  {
    hide SongTick;
  }

  /** The BBD edges of a run, resets or not, are those of the detector alone. */
  lemma {:induction false} RunBbdEdges(m: Machine, on: bool, w: World, es: seq<Event>, p: nat, i: nat)
    requires Unrestored(es) && p < PARTS && i < |Run(m, on, w, es).1|
    ensures var d, reports := EdgesOf(w.law.edges, p), Run(m, on, w, es).1;
            ReportOf(reports[i], p).fired.bbdEdge == BbdRun(d.bbd, d.restoring, Views(reports, p))[i]
    decreases |es|
  {
    hide Tick, DeckStep, BbdPhase, OnInstrumentInit, OnReset;
    var (w1, now) := StepEvent(m, on, w, es[0]);
    var later := Run(m, on, w1, es[1..]).1;
    assert Unrestored(es[1..]) by {
      assert forall k | 0 <= k < |es[1..]| :: es[1..][k] == es[k + 1];
    }
    BbdStays(w.law, p);
    if es[0].Ticked? {
      TickEdges(m, on, w, es[0].t, p);
      BbdStep(EdgesOf(w.law.edges, p), ReportOf(now[0], p).view);
      assert Views(now + later, p)[1..] == Views(later, p);
      if i > 0 {
        RunBbdEdges(m, on, w1, es[1..], p, i - 1);
      }
    } else {
      assert now + later == later;
      RunBbdEdges(m, on, w1, es[1..], p, i);
    }
  }

  /** After a restore, whatever resets and re-initialisations follow, no BBD edge fires up
      to and including the tick on which the deck first runs the engine asked for, however
      late the switch lands; from then on one fires on each observed entry and on nothing
      else. */
  lemma {:induction false} RestoreFiresNoBbdEdge(m: Machine, on: bool, w: World, es: seq<Event>, p: nat, i: nat)
    requires Unrestored(es) && p < PARTS
    requires i < |Run(m, on, w.(law := OnRestore(w.law)), es).1|
    ensures var reports := Run(m, on, w.(law := OnRestore(w.law)), es).1;
            var views := Views(reports, p);
            ReportOf(reports[i], p).fired.bbdEdge <==>
            i > 0 && LandedBefore(views, i) && views[i].bbdPart && !views[i - 1].bbdPart
  {
    hide Run, BbdRun;
    RestoreRearms(w.law, p);
    var w0 := w.(law := OnRestore(w.law));
    RunBbdEdges(m, on, w0, es, p, i);
    RestoredBbdEdges(EdgesOf(w0.law.edges, p).bbd, Views(Run(m, on, w0, es).1, p), i);
  }

  lemma {:induction false} RestoreRearms(l: Law, p: nat)
    ensures EdgesOf(OnRestore(l).edges, p).restoring
    ensures !EdgesOf(OnRestore(l).edges, p).song.seeded && !EdgesOf(OnReset(l).edges, p).song.seeded
    ensures !OnRestore(l).edges.drift.seeded && !OnReset(l).edges.drift.seeded
  {
  }

  /** After either re-arm the first tick adopts SONG and DRIFT as it finds them;
      from then on a phrase is re-rolled exactly on a change of rung, and DRIFT
      settles exactly on an entry into its zone. */
  lemma {:induction false} RearmedFirstTickIsQuiet(m: Machine, on: bool, w: World, restored: bool,
                                                   es: seq<Event>, p: nat, i: nat)
    requires Unarmed(es) && p < PARTS
    requires var law := if restored then OnRestore(w.law) else OnReset(w.law); i < |Run(m, on, w.(law := law), es).1|
    ensures var law := if restored then OnRestore(w.law) else OnReset(w.law);
            var reports := Run(m, on, w.(law := law), es).1;
            var rungs := Rungs(EdgesOf(law.edges, p).song, Views(reports, p));
            && (ReportOf(reports[i], p).fired.newPhrase <==> i > 0 && rungs[i] != rungs[i - 1])
            && (reports[i].settle <==> i > 0 && reports[i].zone && !reports[i - 1].zone)
  {
    hide Run, DeckRun, DriftRun, Rungs, OnRestore, OnReset;
    RestoreRearms(w.law, p);
    var w0 := w.(law := if restored then OnRestore(w.law) else OnReset(w.law));
    var reports := Run(m, on, w0, es).1;
    RunEdges(m, on, w0, es, p);
    assert ExplainedAt(w0.law.edges, reports, p, i);
    RearmedPhrases(EdgesOf(w0.law.edges, p), Views(reports, p), i);
    RearmedDrift(w0.law.edges.drift, Zones(reports), i);
  }

  /** Nor does a new law take what it finds for a gesture: over every run its first tick
      fires nothing, and from then on each detector does exactly on its own change. */
  lemma {:induction false} NewLawsFirstTickIsQuiet(m: Machine, on: bool, start: Inst, es: seq<Event>, p: nat, i: nat)
    requires Unarmed(es) && p < PARTS && i < |Run(m, on, World(NewLaw(), start), es).1|
    ensures var reports := Run(m, on, World(NewLaw(), start), es).1;
            var views, rungs := Views(reports, p), Rungs(Song(0, false), Views(reports, p));
            && (ReportOf(reports[i], p).fired.bbdEdge <==> i > 0 && views[i].bbdPart && !views[i - 1].bbdPart)
            && (ReportOf(reports[i], p).fired.newPhrase <==> i > 0 && rungs[i] != rungs[i - 1])
            && (reports[i].settle <==> i > 0 && reports[i].zone && !reports[i - 1].zone)
  {
    hide Run, DeckRun, DriftRun, Rungs, BbdRun;
    var w0 := World(NewLaw(), start);
    var reports := Run(m, on, w0, es).1;
    NewEdges(p);
    RunEdges(m, on, w0, es, p);
    assert ExplainedAt(w0.law.edges, reports, p, i);
    RunBbdEdges(m, on, w0, es, p, i);
    NewBbdEdges(EdgesOf(w0.law.edges, p).bbd, Views(reports, p), i);
    RearmedPhrases(EdgesOf(w0.law.edges, p), Views(reports, p), i);
    RearmedDrift(w0.law.edges.drift, Zones(reports), i);
  }

  lemma {:induction false} NewEdges(p: nat)
    ensures var d := EdgesOf(NewLaw().edges, p); !d.bbd.seeded && !d.restoring && d.song == Song(0, false)
    ensures !NewLaw().edges.drift.seeded
  {
  }
}
