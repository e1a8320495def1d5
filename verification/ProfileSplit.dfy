/**
  How the callback profile splits a block's cycles: every deck call and every mix
  of the block is a row of stamps, every segment a few stretches between columns of
  such a row, summed over the block modulo 2^32.
 */
module ProfileSplit {
  import opened ProfileWords

  // ---- rows, stretches, sums -----------------------------------------------------------

  /** A deck call's 21 inner stamps, then the stamps it starts and ends at. */
  const START: nat := 21
  const END: nat := 22
  const DECK_COLUMNS: nat := 23

  /** The mix's four inner stamps, then the stamps it starts and ends at. */
  const MIX_START: nat := 4
  const MIX_END: nat := 5
  const MIX_COLUMNS: nat := 6

  /** Stamps, or the true times they stand for. */
  type Row = seq<int>

  /** From one column to another. */
  datatype Stretch = Stretch(from: nat, to: nat)

  type Segment = seq<Stretch>

  predicate Fits(g: Segment, columns: nat) {
    forall k | 0 <= k < |g| :: g[k].from < columns && g[k].to < columns
  }

  predicate Rows(rows: seq<Row>, columns: nat) {
    forall i | 0 <= i < |rows| :: |rows[i]| == columns
  }

  /** A stretch of one row, not yet wrapped. */
  function Delta(row: Row, x: Stretch): int
    requires x.from < |row| && x.to < |row|
  {
    row[x.to] - row[x.from]
  }

  /** A segment's share of one row. */
  function Share(row: Row, g: Segment): int
    requires Fits(g, |row|)
  {
    if g == [] then 0 else Delta(row, g[0]) + Share(row, g[1..])
  }

  /** And of the first n rows. */
  function Total(rows: seq<Row>, columns: nat, g: Segment, n: nat): int
    requires Rows(rows, columns) && Fits(g, columns) && n <= |rows|
  {
    if n == 0 then 0 else Total(rows, columns, g, n - 1) + Share(rows[n - 1], g)
  }

  // ---- the tables -----------------------------------------------------------------------------

  const SEG_MOD: nat := 0
  const SEG_ENG: nat := 1
  const SEG_SMOOTH: nat := 2
  const SEG_GRIT: nat := 3
  const SEG_FLUX: nat := 4
  const SEG_COMP: nat := 5
  const SEG_SEND: nat := 6
  const SEG_COUNT: nat := 7

  const DSEG_PRE: nat := 7
  const DSEG_LANES: nat := 8
  const DSEG_FIRE: nat := 9
  const DSEG_TICK: nat := 10
  const DSEG_TRIG: nat := 11

  const LSEG_PITCH: nat := 12
  const LSEG_RING: nat := 13
  const LSEG_TEX: nat := 14

  const PSEG_CALL: nat := 15
  const PSEG_HEAD: nat := 16
  const PSEG_SEARCH: nat := 17
  const PSEG_TAIL: nat := 18

  const GSEG_PRE: nat := 19
  const GSEG_SW: nat := 20
  const GSEG_ST1: nat := 21
  const GSEG_ST2: nat := 22
  const GSEG_MIX: nat := 23

  const DECK_SEGMENTS: nat := 24

  /** A deck's segments, all families in one table. */
  function DeckSegment(s: nat): (g: Segment)
    requires s < DECK_SEGMENTS
    ensures Fits(g, DECK_COLUMNS)
  {
    match s
    case 0 => [Stretch(START, 0)]
    case 1 => [Stretch(0, 1)]
    case 2 => [Stretch(1, 2)]
    case 3 => [Stretch(2, 3)]
    case 4 => [Stretch(3, 4)]
    case 5 => [Stretch(4, 5)]
    case 6 => [Stretch(5, END)]
    case 7 => [Stretch(START, 6)]
    case 8 => [Stretch(6, 7)]
    case 9 => [Stretch(7, 8)]
    case 10 => [Stretch(8, 9)]
    case 11 => [Stretch(9, 0)]
    case 12 => [Stretch(6, 10)]
    case 13 => [Stretch(10, 11)]
    case 14 => [Stretch(11, 7)]
    case 15 => [Stretch(6, 12)]
    case 16 => [Stretch(12, 13)]
    case 17 => [Stretch(13, 14)]
    case 18 => [Stretch(14, 10)]
    case 19 => [Stretch(2, 15)]
    case 20 => [Stretch(15, 16)]
    case 21 => [Stretch(16, 17), Stretch(18, 19)]
    case 22 => [Stretch(17, 18), Stretch(19, 20)]
    case 23 => [Stretch(20, 3)]
  }

  const MIX_SEGMENTS: nat := 5

  function MixSegment(s: nat): (g: Segment)
    requires s < MIX_SEGMENTS
    ensures Fits(g, MIX_COLUMNS)
  {
    match s
    case 0 => [Stretch(MIX_START, 0)]
    case 1 => [Stretch(0, 1)]
    case 2 => [Stretch(1, 2)]
    case 3 => [Stretch(2, 3)]
    case 4 => [Stretch(3, MIX_END)]
  }

  datatype Table = DeckTable | MixTable

  function Columns(t: Table): nat { if t.DeckTable? then DECK_COLUMNS else MIX_COLUMNS }

  function Count(t: Table): nat { if t.DeckTable? then DECK_SEGMENTS else MIX_SEGMENTS }

  function SegmentOf(t: Table, s: nat): (g: Segment)
    requires s < Count(t)
    ensures Fits(g, Columns(t))
  {
    if t.DeckTable? then DeckSegment(s) else MixSegment(s)
  }

  /** The whole of a row. */
  function Whole(t: Table): (g: Segment)
    ensures Fits(g, Columns(t))
  {
    if t.DeckTable? then [Stretch(START, END)] else [Stretch(MIX_START, MIX_END)]
  }

  /** The families: count segments from first on, and what they are the parts of. */
  datatype Family = Family(t: Table, first: nat, count: nat, parent: Segment)

  const DECK_FAMILY := Family(DeckTable, 0, 7, Whole(DeckTable))
  const MOD_FAMILY := Family(DeckTable, DSEG_PRE, 5, DeckSegment(SEG_MOD))
  const LANES_FAMILY := Family(DeckTable, LSEG_PITCH, 3, DeckSegment(DSEG_LANES))
  const PITCH_FAMILY := Family(DeckTable, PSEG_CALL, 4, DeckSegment(LSEG_PITCH))
  const GRIT_FAMILY := Family(DeckTable, GSEG_PRE, 5, DeckSegment(SEG_GRIT))
  const MIX_FAMILY := Family(MixTable, 0, 5, Whole(MixTable))

  predicate FamilyFits(f: Family) {
    f.first + f.count <= Count(f.t) && Fits(f.parent, Columns(f.t))
  }

  // ---- parts and parents -------------------------------------------------------------------------

  function SumShares(row: Row, t: Table, first: nat, count: nat): int
    requires |row| == Columns(t) && first + count <= Count(t)
    decreases count
  {
    if count == 0 then 0 else Share(row, SegmentOf(t, first)) + SumShares(row, t, first + 1, count - 1)
  }

  function SumTotals(rows: seq<Row>, t: Table, first: nat, count: nat, n: nat): int
    requires Rows(rows, Columns(t)) && n <= |rows| && first + count <= Count(t)
    decreases count
  {
    if count == 0 then 0
    else Total(rows, Columns(t), SegmentOf(t, first), n) + SumTotals(rows, t, first + 1, count - 1, n)
  }

  /** On every row the parts' shares sum to the parent's. */
  ghost predicate Splits(f: Family)
    requires FamilyFits(f)
  {
    forall row: Row | |row| == Columns(f.t) :: SumShares(row, f.t, f.first, f.count) == Share(row, f.parent)
  }

  /** Then their totals sum to the parent's total, over any rows. */
  lemma {:induction false} SplitsConserve(rows: seq<Row>, f: Family, n: nat)
    requires FamilyFits(f) && Rows(rows, Columns(f.t)) && n <= |rows| && Splits(f)
    ensures SumTotals(rows, f.t, f.first, f.count, n) == Total(rows, Columns(f.t), f.parent, n)
    decreases n
  {
    hide Share, SegmentOf;
    if n == 0 {
      NoRows(rows, f.t, f.first, f.count);
    } else {
      SplitsConserve(rows, f, n - 1);
      OneMoreRow(rows, f.t, f.first, f.count, n);
    }
  }

  lemma {:induction false} NoRows(rows: seq<Row>, t: Table, first: nat, count: nat)
    requires Rows(rows, Columns(t)) && first + count <= Count(t)
    ensures SumTotals(rows, t, first, count, 0) == 0
    decreases count
  {
    hide SegmentOf;
    if count > 0 {
      NoRows(rows, t, first + 1, count - 1);
    }
  }

  lemma {:induction false} OneMoreRow(rows: seq<Row>, t: Table, first: nat, count: nat, n: nat)
    requires Rows(rows, Columns(t)) && 0 < n <= |rows| && first + count <= Count(t)
    ensures SumTotals(rows, t, first, count, n)
            == SumTotals(rows, t, first, count, n - 1) + SumShares(rows[n - 1], t, first, count)
    decreases count
  {
    hide Share, SegmentOf;
    if count > 0 {
      OneMoreRow(rows, t, first + 1, count - 1, n);
    }
  }

  lemma {:induction false} ShareOf(row: Row, a: Stretch)
    requires a.from < |row| && a.to < |row|
    ensures Share(row, [a]) == Delta(row, a)
  {
    assert [a][1..] == [];
  }

  lemma {:induction false} ShareOfTwo(row: Row, a: Stretch, b: Stretch)
    requires a.from < |row| && a.to < |row| && b.from < |row| && b.to < |row|
    ensures Share(row, [a, b]) == Delta(row, a) + Delta(row, b)
  {
    assert [a, b][1..] == [b];
    ShareOf(row, b);
  }

  /** What each segment of a deck's row comes to. */
  lemma {:induction false} DeckShare(row: Row, s: nat)
    requires |row| == DECK_COLUMNS && s < DECK_SEGMENTS
    ensures var g := DeckSegment(s);
            Share(row, g) == Delta(row, g[0]) + if |g| == 2 then Delta(row, g[1]) else 0
  {
    var g := DeckSegment(s);
    if s == GSEG_ST1 || s == GSEG_ST2 {
      ShareOfTwo(row, g[0], g[1]);
    } else {
      ShareOf(row, g[0]);
    }
  }

  lemma {:induction false} SharesStep(row: Row, t: Table, first: nat, count: nat)
    requires |row| == Columns(t) && first + count <= Count(t) && count > 0
    ensures SumShares(row, t, first, count)
            == (if count == 1 then 0 else SumShares(row, t, first + 1, count - 1)) + Share(row, SegmentOf(t, first))
  {
  }

  /** The seven segments of a deck split its whole. */
  lemma {:induction false} DeckSplits()
    ensures FamilyFits(DECK_FAMILY) && Splits(DECK_FAMILY)
  {
    hide Share, SumShares;
    forall row: Row | |row| == DECK_COLUMNS
      ensures SumShares(row, DeckTable, 0, 7) == Share(row, Whole(DeckTable))
    {
      ShareOf(row, Stretch(START, END));
      DeckShares(row, 0, 7);
      DeckShares(row, 1, 6);
      DeckShares(row, 2, 5);
      DeckShares(row, 3, 4);
      DeckShares(row, 4, 3);
      DeckShares(row, 5, 2);
      DeckShares(row, 6, 1);
    }
  }

  lemma {:induction false} DeckShares(row: Row, s: nat, count: nat)
    requires |row| == DECK_COLUMNS && s + count <= DECK_SEGMENTS && count > 0
    ensures SumShares(row, DeckTable, s, count)
            == Share(row, DeckSegment(s)) + if count == 1 then 0 else SumShares(row, DeckTable, s + 1, count - 1)
    ensures var g := DeckSegment(s);
            Share(row, g) == Delta(row, g[0]) + if |g| == 2 then Delta(row, g[1]) else 0
  {
    hide Share, DeckSegment;
    DeckShare(row, s);
    SharesStep(row, DeckTable, s, count);
  }

  /** The five parts of the modulation half split it, the three of the lanes the
      lanes, the four of the pitch lane the pitch lane. */
  lemma {:induction false} ModSplits()
    ensures FamilyFits(MOD_FAMILY) && Splits(MOD_FAMILY)
  {
    hide Share, SumShares;
    forall row: Row | |row| == DECK_COLUMNS
      ensures SumShares(row, DeckTable, DSEG_PRE, 5) == Share(row, DeckSegment(SEG_MOD))
    {
      DeckShare(row, SEG_MOD);
      DeckShares(row, 7, 5);
      DeckShares(row, 8, 4);
      DeckShares(row, 9, 3);
      DeckShares(row, 10, 2);
      DeckShares(row, 11, 1);
    }
  }

  lemma {:induction false} LanesSplits()
    ensures FamilyFits(LANES_FAMILY) && Splits(LANES_FAMILY)
  {
    hide Share, SumShares;
    forall row: Row | |row| == DECK_COLUMNS
      ensures SumShares(row, DeckTable, LSEG_PITCH, 3) == Share(row, DeckSegment(DSEG_LANES))
    {
      DeckShare(row, DSEG_LANES);
      DeckShares(row, 12, 3);
      DeckShares(row, 13, 2);
      DeckShares(row, 14, 1);
    }
  }

  lemma {:induction false} PitchSplits()
    ensures FamilyFits(PITCH_FAMILY) && Splits(PITCH_FAMILY)
  {
    hide Share, SumShares;
    forall row: Row | |row| == DECK_COLUMNS
      ensures SumShares(row, DeckTable, PSEG_CALL, 4) == Share(row, DeckSegment(LSEG_PITCH))
    {
      DeckShare(row, LSEG_PITCH);
      DeckShares(row, 15, 4);
      DeckShares(row, 16, 3);
      DeckShares(row, 17, 2);
      DeckShares(row, 18, 1);
    }
  }

  /** GRIT's five parts split GRIT, its two stages being two stretches each. */
  lemma {:induction false} GritSplits()
    ensures FamilyFits(GRIT_FAMILY) && Splits(GRIT_FAMILY)
  {
    hide Share, SumShares;
    forall row: Row | |row| == DECK_COLUMNS
      ensures SumShares(row, DeckTable, GSEG_PRE, 5) == Share(row, DeckSegment(SEG_GRIT))
    {
      DeckShare(row, SEG_GRIT);
      DeckShares(row, 19, 5);
      DeckShares(row, 20, 4);
      DeckShares(row, 21, 3);
      DeckShares(row, 22, 2);
      DeckShares(row, 23, 1);
    }
  }

  /** The mix's five parts split the mix. */
  lemma {:induction false} MixSplits()
    ensures FamilyFits(MIX_FAMILY) && Splits(MIX_FAMILY)
  {
    hide Share, SumShares;
    forall row: Row | |row| == MIX_COLUMNS
      ensures SumShares(row, MixTable, 0, 5) == Share(row, Whole(MixTable))
    {
      ShareOf(row, Stretch(MIX_START, MIX_END));
      MixShares(row, 0, 5);
      MixShares(row, 1, 4);
      MixShares(row, 2, 3);
      MixShares(row, 3, 2);
      MixShares(row, 4, 1);
    }
  }

  lemma {:induction false} MixShares(row: Row, s: nat, count: nat)
    requires |row| == MIX_COLUMNS && s + count <= MIX_SEGMENTS && count > 0
    ensures SumShares(row, MixTable, s, count)
            == Share(row, MixSegment(s)) + if count == 1 then 0 else SumShares(row, MixTable, s + 1, count - 1)
    ensures var g := MixSegment(s); Share(row, g) == Delta(row, g[0])
  {
    hide Share;
    ShareOf(row, MixSegment(s)[0]);
    SharesStep(row, MixTable, s, count);
  }

  // ---- what the wrapped totals are worth ----------------------------------------------------------

  /** row holds the stamps of the times in time. */
  predicate StampsOf(row: Row, time: Row) {
    |row| == |time| && forall k | 0 <= k < |row| :: row[k] == Wrap(time[k])
  }

  predicate AllStampsOf(rows: seq<Row>, times: seq<Row>) {
    |rows| == |times| && forall i | 0 <= i < |rows| :: StampsOf(rows[i], times[i])
  }

  lemma {:induction false} ShareOfStamps(row: Row, time: Row, g: Segment)
    requires StampsOf(row, time) && Fits(g, |row|)
    ensures Wrap(Share(row, g)) == Wrap(Share(time, g))
  {
    if g != [] {
      ShareOfStamps(row, time, g[1..]);
      WrapSub(time[g[0].to], time[g[0].from]);
      WrapAdd(Delta(row, g[0]), Share(row, g[1..]));
      WrapAdd(Delta(time, g[0]), Share(time, g[1..]));
    }
  }

  lemma {:induction false} TotalOfStamps(rows: seq<Row>, times: seq<Row>, columns: nat, g: Segment, n: nat)
    requires AllStampsOf(rows, times) && Rows(rows, columns) && Rows(times, columns) && Fits(g, columns) && n <= |rows|
    ensures Wrap(Total(rows, columns, g, n)) == Wrap(Total(times, columns, g, n))
  {
    hide Share;
    if n > 0 {
      TotalOfStamps(rows, times, columns, g, n - 1);
      assert StampsOf(rows[n - 1], times[n - 1]);
      ShareOfStamps(rows[n - 1], times[n - 1], g);
      WrapAdd(Total(rows, columns, g, n - 1), Share(rows[n - 1], g));
      WrapAdd(Total(times, columns, g, n - 1), Share(times[n - 1], g));
    }
  }

  /** A total of wrapped stamps is the true one, however often the counter wrapped
      while the block ran, as long as the total itself fits 32 bits. */
  lemma {:induction false} TotalIsTrue(rows: seq<Row>, times: seq<Row>, columns: nat, g: Segment, n: nat)
    requires AllStampsOf(rows, times) && Rows(rows, columns) && Rows(times, columns) && Fits(g, columns) && n <= |rows|
    ensures 0 <= Total(times, columns, g, n) < M <==> Wrap(Total(rows, columns, g, n)) == Total(times, columns, g, n)
  {
    TotalOfStamps(rows, times, columns, g, n);
    if 0 <= Total(times, columns, g, n) < M {
      WrapSmall(Total(times, columns, g, n));
    }
  }
}
