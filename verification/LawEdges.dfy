/**
  The three edge detectors of the shared control law: entry into the BBD engine,
  a change of SONG rung, DRIFT parking at its left stop. Each adopts what it sees
  first, and first after a re-arm, as its baseline, so that a restored patch is
  never taken for a gesture.
 */
module LawEdges {

  // ---- entry into the BBD engine --------------------------------------------------

  datatype Bbd = Bbd(wasBbd: bool, seeded: bool)

  datatype BbdResult = BbdResult(state: Bbd, entered: bool)

  function BbdTick(s: Bbd, bbdPart: bool): BbdResult {
    BbdResult(Bbd(bbdPart, true), s.seeded && bbdPart && !s.wasBbd)
  }

  class BbdEdgeState {
    var wasBbd: bool
    var seeded: bool

    ghost function Model(): Bbd
      reads this
    {
      Bbd(wasBbd, seeded)
    }

    constructor ()
      ensures Model() == Bbd(false, false)
    {
      wasBbd, seeded := false, false;
    }

    method Tick(bbdPart: bool) returns (entered: bool)
      modifies this
      ensures Model() == BbdTick(old(Model()), bbdPart).state
      ensures entered == BbdTick(old(Model()), bbdPart).entered
    {
      if !seeded {
        wasBbd := bbdPart;
        seeded := true;
      }
      entered := bbdPart && !wasBbd;
      wasBbd := bbdPart;
    }

    method Rearm()
      modifies this
      ensures Model() == old(Model()).(seeded := false)
    {
      seeded := false;
    }
  }

  // ---- the SONG ladder ---------------------------------------------------------------

  const EPS: real := 0.0001
  const NO_RUNG: int := -1000

  function Clamp01(x: real): real {
    if x < 0.0 then 0.0 else if x > 1.0 then 1.0 else x
  }

  function Nearest(norm: real, count: int): (r: int)
    requires count >= 2
    ensures 0 <= r <= count - 1
  {
    var nearest := (Clamp01(norm) * (count - 1) as real + 0.5).Floor;
    if nearest < 0 then 0 else if nearest > count - 1 then count - 1 else nearest
  }

  /** The pot snaps to the nearest rung once it is a full step from the held one. */
  function HystStep(cur: int, norm: real, count: int): int {
    if count < 2 then 0
    else
      var x := Clamp01(norm) * (count - 1) as real;
      if x >= cur as real + 1.0 - EPS || x <= cur as real - 1.0 + EPS then Nearest(norm, count) else cur
  }

  datatype Song = Song(rung: int, seeded: bool)

  datatype SongResult = SongResult(state: Song, changed: bool)

  function SongTick(s: Song, norm: real, count: int): SongResult {
    var next := HystStep(if s.seeded then s.rung else NO_RUNG, norm, count);
    SongResult(Song(next, true), s.seeded && next != s.rung)
  }

  class SongRungState {
    var rung: int
    var seeded: bool

    ghost function Model(): Song
      reads this
    {
      Song(rung, seeded)
    }

    constructor ()
      ensures Model() == Song(0, false)
    {
      rung, seeded := 0, false;
    }

    method Tick(norm: real, count: int) returns (changed: bool)
      modifies this
      ensures Model() == SongTick(old(Model()), norm, count).state
      ensures changed == SongTick(old(Model()), norm, count).changed
    {
      if !seeded {
        rung := HystStep(NO_RUNG, norm, count);
        seeded := true;
        return false;
      }
      var next := HystStep(rung, norm, count);
      changed := next != rung;
      rung := next;
    }

    method Rearm()
      modifies this
      ensures Model() == old(Model()).(seeded := false)
    {
      seeded := false;
    }
  }

  // ---- DRIFT parked at its stop -----------------------------------------------------------

  datatype Drift = Drift(inZone: bool, seeded: bool)

  datatype DriftResult = DriftResult(state: Drift, settle: bool)

  function DriftTick(s: Drift, zoneNow: bool): DriftResult {
    DriftResult(Drift(zoneNow, true), s.seeded && zoneNow && !s.inZone)
  }

  class DriftSettleState {
    var inZone: bool
    var seeded: bool

    ghost function Model(): Drift
      reads this
    {
      Drift(inZone, seeded)
    }

    constructor ()
      ensures Model() == Drift(false, false)
    {
      inZone, seeded := false, false;
    }

    method Tick(zoneNow: bool) returns (entered: bool)
      modifies this
      ensures Model() == DriftTick(old(Model()), zoneNow).state
      ensures entered == DriftTick(old(Model()), zoneNow).settle
    {
      if !seeded {
        inZone := zoneNow;
        seeded := true;
        return false;
      }
      entered := zoneNow && !inZone;
      inZone := zoneNow;
    }

    method Rearm()
      modifies this
      ensures Model() == old(Model()).(seeded := false)
    {
      seeded := false;
    }
  }

  // ---- the detectors of the whole law -------------------------------------------------------

  const SONG_LADDER_COUNT: int := 14

  /** One deck's detectors; restoring holds the BBD detector at its baseline until
      the restored engine runs. */
  datatype DeckEdges = DeckEdges(bbd: Bbd, restoring: bool, song: Song)

  datatype Edges = Edges(deckA: DeckEdges, deckB: DeckEdges, drift: Drift)

  /** What one tick shows one deck's detectors: whether the deck runs the engine
      its ENG knob asks for, whether that is the BBD, where the SONG knob is. */
  datatype DeckView = DeckView(landed: bool, bbdPart: bool, song: real)

  datatype DeckFired = DeckFired(bbdEdge: bool, newPhrase: bool)

  function BbdPhase(d: DeckEdges, v: DeckView): (DeckEdges, bool) {
    var held := if d.restoring then d.(bbd := d.bbd.(seeded := false), restoring := !v.landed) else d;
    var r := BbdTick(held.bbd, v.bbdPart);
    (held.(bbd := r.state), r.entered)
  }

  function DeckStep(d: DeckEdges, v: DeckView): (DeckEdges, DeckFired) {
    var (held, edge) := BbdPhase(d, v);
    var r := SongTick(held.song, v.song, SONG_LADDER_COUNT);
    (held.(song := r.state), DeckFired(edge, r.changed))
  }

  /** The events of a run of ticks. */
  function DeckRun(d: DeckEdges, views: seq<DeckView>): (fired: seq<DeckFired>)
    ensures |fired| == |views|
    decreases |views|
  {
    if views == [] then [] else
    var (next, fired) := DeckStep(d, views[0]);
    [fired] + DeckRun(next, views[1..])
  }

  function DriftRun(s: Drift, zones: seq<bool>): (fired: seq<bool>)
    ensures |fired| == |zones|
    decreases |zones|
  {
    if zones == [] then [] else [DriftTick(s, zones[0]).settle] + DriftRun(DriftTick(s, zones[0]).state, zones[1..])
  }

  /** The rungs a deck stands on, tick by tick. */
  function Rungs(s: Song, views: seq<DeckView>): (rungs: seq<int>)
    ensures |rungs| == |views|
    decreases |views|
  {
    if views == [] then []
    else
      var next := SongTick(s, views[0].song, SONG_LADDER_COUNT).state;
      [next.rung] + Rungs(next, views[1..])
  }

  predicate LandedBefore(views: seq<DeckView>, i: nat)
    requires i <= |views|
  {
    exists j | 0 <= j < i :: views[j].landed
  }

  /** The BBD detector alone, which nothing but a restore re-arms. */
  function BbdRun(bbd: Bbd, restoring: bool, views: seq<DeckView>): (edges: seq<bool>)
    ensures |edges| == |views|
    decreases |views|
  {
    if views == [] then []
    else
      var (next, edge) := BbdPhase(DeckEdges(bbd, restoring, Song(0, false)), views[0]);
      [edge] + BbdRun(next.bbd, next.restoring, views[1..])
  }

  /** While no restore is pending, an edge is exactly an observed entry. */
  lemma {:induction false} SeededBbdEdges(bbd: Bbd, views: seq<DeckView>, i: nat)
    requires bbd.seeded && i < |views|
    ensures BbdRun(bbd, false, views)[i] <==>
            views[i].bbdPart && !(if i == 0 then bbd.wasBbd else views[i - 1].bbdPart)
    decreases |views|
  {
    if i > 0 {
      SeededBbdEdges(Bbd(views[0].bbdPart, true), views[1..], i - 1);
    }
  }

  /** A new detector adopts what it sees first, and then an edge is exactly an entry. */
  lemma {:induction false} NewBbdEdges(bbd: Bbd, views: seq<DeckView>, i: nat)
    requires !bbd.seeded && i < |views|
    ensures BbdRun(bbd, false, views)[i] <==> i > 0 && views[i].bbdPart && !views[i - 1].bbdPart
  {
    if i > 0 {
      SeededBbdEdges(Bbd(views[0].bbdPart, true), views[1..], i - 1);
    }
  }

  /** After a restore no BBD edge fires up to and including the tick on which the
      deck first runs the engine asked for, however late that is; from then on one
      fires on each observed entry and on nothing else. */
  lemma {:induction false} RestoredBbdEdges(bbd: Bbd, views: seq<DeckView>, i: nat)
    requires i < |views|
    ensures BbdRun(bbd, true, views)[i] <==>
            i > 0 && LandedBefore(views, i) && views[i].bbdPart && !views[i - 1].bbdPart
    decreases |views|
  {
    var next, rest := Bbd(views[0].bbdPart, true), views[1..];
    if i > 0 {
      LandedShift(views, i);
      if views[0].landed {
        SeededBbdEdges(next, rest, i - 1);
      } else {
        RestoredBbdEdges(next, rest, i - 1);
      }
    }
  }

  lemma {:induction false} LandedShift(views: seq<DeckView>, i: nat)
    requires 0 < i <= |views|
    ensures LandedBefore(views, i) <==> views[0].landed || LandedBefore(views[1..], i - 1)
  {
    var rest := views[1..];
    if j :| 0 <= j < i && views[j].landed {
      assert j > 0 ==> rest[j - 1].landed;
    }
    if j :| 0 <= j < i - 1 && rest[j].landed {
      assert views[j + 1].landed;
    }
  }

  /** Re-armed or fresh, the song detector adopts the first rung and then re-rolls
      the phrase exactly when the rung changes. */
  lemma {:induction false} RearmedPhrases(d: DeckEdges, views: seq<DeckView>, i: nat)
    requires !d.song.seeded && i < |views|
    ensures DeckRun(d, views)[i].newPhrase <==>
            i > 0 && Rungs(d.song, views)[i] != Rungs(d.song, views)[i - 1]
  {
    if i > 0 {
      SeededPhrases(DeckStep(d, views[0]).0, views[1..], i - 1);
    }
  }

  lemma {:induction false} SeededPhrases(d: DeckEdges, views: seq<DeckView>, i: nat)
    requires d.song.seeded && i < |views|
    ensures DeckRun(d, views)[i].newPhrase <==>
            Rungs(d.song, views)[i] != (if i == 0 then d.song.rung else Rungs(d.song, views)[i - 1])
    decreases |views|
  {
    if i > 0 {
      SeededPhrases(DeckStep(d, views[0]).0, views[1..], i - 1);
    }
  }

  /** Re-armed or fresh, DRIFT settles exactly on each observed entry into its zone. */
  lemma {:induction false} RearmedDrift(s: Drift, zones: seq<bool>, i: nat)
    requires !s.seeded && i < |zones|
    ensures DriftRun(s, zones)[i] <==> i > 0 && zones[i] && !zones[i - 1]
  {
    if i > 0 {
      SeededDrift(DriftTick(s, zones[0]).state, zones[1..], i - 1);
    }
  }

  lemma {:induction false} SeededDrift(s: Drift, zones: seq<bool>, i: nat)
    requires s.seeded && i < |zones|
    ensures DriftRun(s, zones)[i] <==> zones[i] && !(if i == 0 then s.inZone else zones[i - 1])
    decreases |zones|
  {
    if i > 0 {
      SeededDrift(DriftTick(s, zones[0]).state, zones[1..], i - 1);
    }
  }

  // ---- the ladder's hysteresis -----------------------------------------------------------------

  /** A baseline is the nearest rung, whatever was held before. */
  lemma {:induction false} BaselineIsNearest(norm: real, count: int)
    requires count >= 2
    ensures HystStep(NO_RUNG, norm, count) == Nearest(norm, count)
  {
    ClampedSpan(norm, count - 1);
  }

  lemma {:induction false} ClampedSpan(norm: real, n: int)
    requires n >= 0
    ensures 0.0 <= Clamp01(norm) * n as real <= n as real
  {
    var x := Clamp01(norm);
    assert 0.0 <= x <= 1.0;
    assert 0.0 <= x * n as real;
    assert (1.0 - x) * n as real >= 0.0;
  }

  function Away(x: real, n: int): real { if x < n as real then n as real - x else x - n as real }

  /** The nearest rung is no further from the pot than any other. */
  lemma {:induction false} NearestIsNearest(norm: real, count: int, other: int)
    requires count >= 2 && 0 <= other < count
    ensures var x := Clamp01(norm) * (count - 1) as real; Away(x, Nearest(norm, count)) <= Away(x, other)
  {
    hide Clamp01;
    ClampedSpan(norm, count - 1);
    NoNearer(Clamp01(norm) * (count - 1) as real, count - 1, Nearest(norm, count), other);
  }

  lemma {:induction false} NoNearer(x: real, top: int, n: int, other: int)
    requires 0.0 <= x <= top as real
    requires var f := (x + 0.5).Floor; n == if f < 0 then 0 else if f > top then top else f
    ensures Away(x, n) <= Away(x, other)
  {
    var f := (x + 0.5).Floor;
    HalfOff(x, f);
    NotBeyond(f, top);
    NotBeyond(0, f);
    Steps(n, other);
  }

  lemma {:induction false} HalfOff(x: real, f: int)
    requires f == (x + 0.5).Floor
    ensures f as real <= x + 0.5 < f as real + 1.0
  {
  }

  lemma {:induction false} NotBeyond(a: int, b: int)
    ensures a as real <= b as real + 0.5 ==> a <= b
  {
    if a > b {
      assert (a - b) as real >= 1.0;
    }
  }

  lemma {:induction false} Steps(n: int, other: int)
    ensures n == other || n as real + 1.0 <= other as real || other as real + 1.0 <= n as real
  {
  }

  /** The rung moves exactly when the pot is a full step from it, less a ten-thousandth
      for rounding, and then to the nearest one in a single turn. */
  lemma {:induction false} FullStepMoves(cur: int, norm: real, count: int)
    requires count >= 2 && 0 <= cur < count
    ensures var x := Clamp01(norm) * (count - 1) as real;
            && (HystStep(cur, norm, count) != cur <==> Away(x, cur) >= 0.9999)
            && (Away(x, cur) >= 0.9999 ==> HystStep(cur, norm, count) == Nearest(norm, count))
  {
    ClampedSpan(norm, count - 1);
  }

  /** A pot turned to an end, or past it, lands on that end in one move. */
  lemma {:induction false} EndsLand(cur: int, norm: real, count: int)
    requires count >= 2 && 0 <= cur < count
    ensures norm <= 0.0 ==> HystStep(cur, norm, count) == 0
    ensures norm >= 1.0 ==> HystStep(cur, norm, count) == count - 1
  {
    DetentLands(cur, 0, count);
    DetentLands(cur, count - 1, count);
    assert norm <= 0.0 ==> Clamp01(norm) == Clamp01(0.0);
    assert norm >= 1.0 ==> Clamp01(norm) == Clamp01(1.0);
  }

  /** A pot on a detent lands on that detent's rung, whatever rung is held. */
  lemma {:induction false} DetentLands(cur: int, rung: int, count: int)
    requires count >= 2 && 0 <= rung < count
    ensures HystStep(cur, rung as real / (count - 1) as real, count) == rung
  {
    var norm := rung as real / (count - 1) as real;
    assert norm * (count - 1) as real == rung as real;
    assert 0.0 <= norm <= 1.0;
    assert Nearest(norm, count) == rung;
  }

  /** A pot within a step of the held rung never fires: it may sit on a seam. */
  lemma {:induction false} SeamHolds(d: DeckEdges, views: seq<DeckView>, i: nat)
    requires d.song.seeded && i < |views|
    requires forall j | 0 <= j <= i ::
               var x := Clamp01(views[j].song) * (SONG_LADDER_COUNT - 1) as real;
               d.song.rung as real - 1.0 + EPS < x < d.song.rung as real + 1.0 - EPS
    ensures !DeckRun(d, views)[i].newPhrase && Rungs(d.song, views)[i] == d.song.rung
    decreases |views|
  {
    if i > 0 {
      SeamHolds(DeckStep(d, views[0]).0, views[1..], i - 1);
    }
  }
}
