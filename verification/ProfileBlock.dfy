/**
  The profile of one block: the stamps of its samples summed, segment by segment,
  into the figures of the deck that had priority and of the other one, and the
  worst sample found and broken down.
 */
module ProfileBlock {
  import opened ProfileWords
  import opened ProfileSplit

  const PART_SLOTS: nat := 21
  const MIX_SLOTS: nat := 4

  /** The stamps of a block of n samples. */
  datatype Stamps = Stamps(ts: seq<Word>, d1: seq<Word>, d2: seq<Word>,
                           p1: seq<seq<Word>>, p2: seq<seq<Word>>, ms: seq<seq<Word>>)

  predicate Complete(x: Stamps, n: nat) {
    && n > 0
    && |x.ts| == n + 1 && |x.d1| == n && |x.d2| == n && |x.p1| == n && |x.p2| == n && |x.ms| == n
    && Rows(x.p1, PART_SLOTS) && Rows(x.p2, PART_SLOTS) && Rows(x.ms, MIX_SLOTS)
  }

  /** The priority deck runs from the sample's top, the yielding one from the
      priority deck's end, the mix from the yielding deck's end to the next top. */
  function PriRow(x: Stamps, n: nat, i: nat): (row: Row)
    requires Complete(x, n) && i < n
    ensures |row| == DECK_COLUMNS
  {
    x.p1[i] + [x.ts[i], x.d1[i]]
  }

  function YldRow(x: Stamps, n: nat, i: nat): (row: Row)
    requires Complete(x, n) && i < n
    ensures |row| == DECK_COLUMNS
  {
    x.p2[i] + [x.d1[i], x.d2[i]]
  }

  function MixRow(x: Stamps, n: nat, i: nat): (row: Row)
    requires Complete(x, n) && i < n
    ensures |row| == MIX_COLUMNS
  {
    x.ms[i] + [x.d2[i], x.ts[i + 1]]
  }

  function PriRows(x: Stamps, n: nat): (rows: seq<Row>)
    requires Complete(x, n)
    ensures |rows| == n && Rows(rows, DECK_COLUMNS)
  {
    seq(n, i requires 0 <= i < n => PriRow(x, n, i))
  }

  function YldRows(x: Stamps, n: nat): (rows: seq<Row>)
    requires Complete(x, n)
    ensures |rows| == n && Rows(rows, DECK_COLUMNS)
  {
    seq(n, i requires 0 <= i < n => YldRow(x, n, i))
  }

  function MixRows(x: Stamps, n: nat): (rows: seq<Row>)
    requires Complete(x, n)
    ensures |rows| == n && Rows(rows, MIX_COLUMNS)
  {
    seq(n, i requires 0 <= i < n => MixRow(x, n, i))
  }

  /** Sample i's whole cost. */
  function Cost(x: Stamps, n: nat, i: nat): Word
    requires Complete(x, n) && i < n
  {
    Sub(x.ts[i + 1], x.ts[i])
  }

  // ---- summing ---------------------------------------------------------------------------

  /** acc holds the wrapped totals of every segment of the table. */
  ghost predicate Holds(acc: seq<Word>, rows: seq<Row>, t: Table, n: nat)
    requires Rows(rows, Columns(t)) && n <= |rows|
  {
    |acc| == Count(t)
    && forall s | 0 <= s < |acc| :: acc[s] == Wrap(Total(rows, Columns(t), SegmentOf(t, s), n))
  }

  method AddSegment(before: Word, row: Row, g: Segment) returns (after: Word)
    requires Fits(g, |row|)
    ensures after == Wrap(before + Share(row, g))
  {
    after := before;
    WrapSmall(before);
    for k := 0 to |g|
      invariant Wrap(after + Share(row, g[k..])) == Wrap(before + Share(row, g))
    {
      ghost var was, rest := after, Share(row, g[k + 1..]);
      assert g[k..][1..] == g[k + 1..] && g[k..][0] == g[k];
      after := Add(after, Sub(row[g[k].to], row[g[k].from]));
      AddDelta(was, row[g[k].to], row[g[k].from], rest);
    }
    WrapSmall(after);
  }

  lemma {:induction false} AddDelta(x: int, to: int, from: int, rest: int)
    ensures Wrap(Add(x, Sub(to, from)) + rest) == Wrap(x + (to - from) + rest)
  {
    WrapAdd(x, to - from);
    WrapAdd(x + (to - from), rest);
    WrapAdd(x, Sub(to, from));
    WrapAdd(Add(x, Sub(to, from)), rest);
    WrapSmall(Sub(to, from));
    WrapSmall(Add(x, Sub(to, from)));
  }

  method AddRow(acc: array<Word>, row: Row, t: Table)
    requires acc.Length == Count(t) && |row| == Columns(t)
    modifies acc
    ensures forall s | 0 <= s < acc.Length :: acc[s] == Wrap(old(acc[s]) + Share(row, SegmentOf(t, s)))
  {
    hide SegmentOf, Share;
    for s := 0 to acc.Length
      invariant forall k | 0 <= k < s :: acc[k] == Wrap(old(acc[k]) + Share(row, SegmentOf(t, k)))
      invariant forall k | s <= k < acc.Length :: acc[k] == old(acc[k])
    {
      acc[s] := AddSegment(acc[s], row, SegmentOf(t, s));
    }
  }

  /** One sample more. */
  method AddSample(acc: array<Word>, ghost rows: seq<Row>, row: Row, t: Table, ghost i: nat)
    requires acc.Length == Count(t) && Rows(rows, Columns(t)) && i < |rows| && row == rows[i]
    requires Holds(acc[..], rows, t, i)
    modifies acc
    ensures Holds(acc[..], rows, t, i + 1)
  {
    hide SegmentOf, Share;
    ghost var was := acc[..];
    AddRow(acc, row, t);
    forall s | 0 <= s < acc.Length
      ensures acc[s] == Wrap(Total(rows, Columns(t), SegmentOf(t, s), i + 1))
    {
      var total, share := Total(rows, Columns(t), SegmentOf(t, s), i), Share(row, SegmentOf(t, s));
      WrapAdd(total, share);
      WrapAdd(was[s], share);
      WrapSmall(was[s]);
    }
  }

  // ---- the worst sample ----------------------------------------------------------------------

  /** The most expensive sample, the first of equals. */
  predicate IsWorst(x: Stamps, n: nat, max: Word, at: nat)
    requires Complete(x, n)
  {
    && at < n && max == Cost(x, n, at)
    && (forall i: nat | i < n :: Cost(x, n, i) <= max)
    && (forall i: nat | i < at :: Cost(x, n, i) < max)
  }

  method FindWorst(x: Stamps, n: nat) returns (max: Word, at: nat)
    requires Complete(x, n)
    ensures IsWorst(x, n, max, at)
  {
    hide Sub;
    max, at := 0, 0;
    for i := 0 to n
      invariant at < n && (i > 0 ==> at < i && max == Cost(x, n, at))
      invariant i == 0 ==> max == 0 && at == 0
      invariant forall k: nat | k < i :: Cost(x, n, k) <= max
      invariant forall k: nat | k < at :: Cost(x, n, k) < max
    {
      var d := Sub(x.ts[i + 1], x.ts[i]);
      assert d == Cost(x, n, i);
      if d > max {
        max, at := d, i;
      }
    }
  }

  // ---- the block's figures --------------------------------------------------------------------

  /** What a deck's worst sample splits into: modulation half, lanes, control tick,
      engine, FX. */
  function WorstSplit(row: Row): seq<Word>
    requires |row| == DECK_COLUMNS
  {
    [Sub(row[0], row[START]), Sub(row[7], row[6]), Sub(row[9], row[8]), Sub(row[1], row[0]), Sub(row[END], row[1])]
  }

  class Profile {
    var proc: Word
    const deck: array<Word>
    var mix: Word
    const segA: array<Word>
    const segB: array<Word>
    const mseg: array<Word>
    var maxs: Word
    var maxi: nat
    var med: Word
    var worstA: seq<Word>
    var worstB: seq<Word>
    var wmix: Word
    var wlast: bool

    ghost predicate Valid() {
      && deck.Length == 2 && segA.Length == DECK_SEGMENTS && segB.Length == DECK_SEGMENTS && mseg.Length == MIX_SEGMENTS
      && deck != segA && deck != segB && deck != mseg && segA != segB && segA != mseg && segB != mseg
    }

    ghost function Seg(p: nat): seq<Word>
      requires Valid()
      reads segA, segB
    {
      if p == 0 then segA[..] else segB[..]
    }

    constructor ()
      ensures Valid() && fresh(deck) && fresh(segA) && fresh(segB) && fresh(mseg)
    {
      deck := new Word[2](_ => 0);
      segA := new Word[DECK_SEGMENTS](_ => 0);
      segB := new Word[DECK_SEGMENTS](_ => 0);
      mseg := new Word[MIX_SEGMENTS](_ => 0);
      proc, mix, maxs, maxi, med, worstA, worstB, wmix, wlast := 0, 0, 0, 0, 0, [], [], 0, false;
    }

    /** The segment totals, the priority deck's into deck pri. */
    method PublishSegments(pri: nat, sa: array<Word>, sb: array<Word>, sm: array<Word>)
      requires Valid() && pri < 2
      requires sa.Length == DECK_SEGMENTS && sb.Length == DECK_SEGMENTS && sm.Length == MIX_SEGMENTS
      requires {sa, sb, sm} !! {segA, segB, mseg, deck}
      modifies segA, segB, mseg
      ensures Seg(pri) == sa[..] && Seg(1 - pri) == sb[..] && mseg[..] == sm[..]
    {
      var own, other := if pri == 0 then segA else segB, if pri == 0 then segB else segA;
      for s := 0 to DECK_SEGMENTS
        invariant own[..s] == sa[..s] && other[..s] == sb[..s]
      {
        own[s] := sa[s];
        other[s] := sb[s];
      }
      for s := 0 to MIX_SEGMENTS
        invariant own[..] == sa[..] && other[..] == sb[..] && mseg[..s] == sm[..s]
      {
        mseg[s] := sm[s];
      }
    }

    /** The samples of a block summed into the three tables and the three totals. */
    method SumBlock(x: Stamps, n: nat)
      returns (sa: array<Word>, sb: array<Word>, sm: array<Word>, a: Word, b: Word, m: Word)
      requires Complete(x, n)
      ensures fresh(sa) && fresh(sb) && fresh(sm)
      ensures sa.Length == DECK_SEGMENTS && sb.Length == DECK_SEGMENTS && sm.Length == MIX_SEGMENTS
      ensures Holds(sa[..], PriRows(x, n), DeckTable, n) && Holds(sb[..], YldRows(x, n), DeckTable, n)
      ensures Holds(sm[..], MixRows(x, n), MixTable, n)
      ensures a == Wrap(Total(PriRows(x, n), DECK_COLUMNS, Whole(DeckTable), n))
      ensures b == Wrap(Total(YldRows(x, n), DECK_COLUMNS, Whole(DeckTable), n))
      ensures m == Wrap(Total(MixRows(x, n), MIX_COLUMNS, Whole(MixTable), n))
    {
      hide Share, SegmentOf, Whole, Holds, PriRow, YldRow, MixRow;
      sa := new Word[DECK_SEGMENTS](_ => 0);
      sb := new Word[DECK_SEGMENTS](_ => 0);
      sm := new Word[MIX_SEGMENTS](_ => 0);
      a, b, m := 0, 0, 0;
      ghost var pr, yr, mr := PriRows(x, n), YldRows(x, n), MixRows(x, n);
      HoldsNothing(sa[..], pr, DeckTable);
      HoldsNothing(sb[..], yr, DeckTable);
      HoldsNothing(sm[..], mr, MixTable);
      for i := 0 to n
        invariant Holds(sa[..], pr, DeckTable, i) && Holds(sb[..], yr, DeckTable, i) && Holds(sm[..], mr, MixTable, i)
        invariant a == Wrap(Total(pr, DECK_COLUMNS, Whole(DeckTable), i))
        invariant b == Wrap(Total(yr, DECK_COLUMNS, Whole(DeckTable), i))
        invariant m == Wrap(Total(mr, MIX_COLUMNS, Whole(MixTable), i))
      {
        a := AddWhole(a, pr, PriRow(x, n, i), DeckTable, i);
        b := AddWhole(b, yr, YldRow(x, n, i), DeckTable, i);
        m := AddWhole(m, mr, MixRow(x, n, i), MixTable, i);
        AddSample(sa, pr, PriRow(x, n, i), DeckTable, i);
        AddSample(sb, yr, YldRow(x, n, i), DeckTable, i);
        AddSample(sm, mr, MixRow(x, n, i), MixTable, i);
      }
    }

    /** One block's figures. */
    method ProbeBlock(x: Stamps, n: nat, pri: nat)
      requires Valid() && Complete(x, n) && pri < 2
      modifies this, deck, segA, segB, mseg
      ensures proc == Sub(x.ts[n], x.ts[0])
      ensures Holds(Seg(pri), PriRows(x, n), DeckTable, n) && Holds(Seg(1 - pri), YldRows(x, n), DeckTable, n)
      ensures Holds(mseg[..], MixRows(x, n), MixTable, n)
      ensures deck[pri] == Wrap(Total(PriRows(x, n), DECK_COLUMNS, Whole(DeckTable), n))
      ensures deck[1 - pri] == Wrap(Total(YldRows(x, n), DECK_COLUMNS, Whole(DeckTable), n))
      ensures mix == Wrap(Total(MixRows(x, n), MIX_COLUMNS, Whole(MixTable), n))
      ensures IsWorst(x, n, maxs, maxi) && wlast == (maxi == n - 1)
      ensures (if pri == 0 then worstA else worstB) == WorstSplit(PriRow(x, n, maxi))
      ensures (if pri == 0 then worstB else worstA) == WorstSplit(YldRow(x, n, maxi))
      ensures wmix == Sub(x.ts[maxi + 1], x.d2[maxi])
      ensures med == if n > 1 then Sub(proc, maxs) / (n - 1) else proc
    {
      hide Holds, Total, Whole, IsWorst, Cost, PriRow, YldRow;
      proc := Sub(x.ts[n], x.ts[0]);
      var sa, sb, sm, a, b, m := SumBlock(x, n);
      PublishSegments(pri, sa, sb, sm);
      deck[pri] := a;
      deck[1 - pri] := b;
      mix := m;
      var mx, mi := FindWorst(x, n);
      WorstIsInBlock(x, n, mx, mi);
      BreakDown(x, n, pri, mx, mi);
      med := Mean(Sub(proc, mx), n, proc);
    }

    method BreakDown(x: Stamps, n: nat, pri: nat, mx: Word, mi: nat)
      requires Complete(x, n) && pri < 2 && mi < n
      modifies this`maxs, this`maxi, this`worstA, this`worstB, this`wmix, this`wlast
      ensures maxs == mx && maxi == mi && wlast == (mi == n - 1) && wmix == Sub(x.ts[mi + 1], x.d2[mi])
      ensures (if pri == 0 then worstA else worstB) == WorstSplit(PriRow(x, n, mi))
      ensures (if pri == 0 then worstB else worstA) == WorstSplit(YldRow(x, n, mi))
    {
      hide PriRow, YldRow;
      maxs, maxi := mx, mi;
      if pri == 0 {
        worstA, worstB := WorstSplit(PriRow(x, n, mi)), WorstSplit(YldRow(x, n, mi));
      } else {
        worstB, worstA := WorstSplit(PriRow(x, n, mi)), WorstSplit(YldRow(x, n, mi));
      }
      wmix := Sub(x.ts[mi + 1], x.d2[mi]);
      wlast := mi == n - 1;
    }
  }

  method Mean(rest: Word, n: nat, proc: Word) returns (mean: Word)
    requires n > 0
    ensures mean == if n > 1 then rest / (n - 1) else proc
  {
    if n > 1 {
      QuotientSmall(rest, n - 1);
      mean := rest / (n - 1);
    } else {
      mean := proc;
    }
  }

  lemma {:induction false} QuotientSmall(x: Word, n: nat)
    requires n > 0
    ensures 0 <= x / n < M
  {
    if x / n > x { assert x / n * n > x * n - n; }
  }

  lemma {:induction false} WorstIsInBlock(x: Stamps, n: nat, max: Word, at: nat)
    requires Complete(x, n) && IsWorst(x, n, max, at)
    ensures at < n
  {
  }

  lemma {:induction false} HoldsNothing(acc: seq<Word>, rows: seq<Row>, t: Table)
    requires Rows(rows, Columns(t)) && |acc| == Count(t) && forall s | 0 <= s < |acc| :: acc[s] == 0
    ensures Holds(acc, rows, t, 0)
  {
    WrapSmall(0);
  }

  method AddWhole(sum: Word, ghost rows: seq<Row>, row: Row, t: Table, ghost i: nat) returns (after: Word)
    requires Rows(rows, Columns(t)) && i < |rows| && row == rows[i]
    requires sum == Wrap(Total(rows, Columns(t), Whole(t), i))
    ensures after == Wrap(Total(rows, Columns(t), Whole(t), i + 1))
  {
    hide Whole, Share;
    after := AddSegment(sum, row, Whole(t));
    WrapAdd(Total(rows, Columns(t), Whole(t), i), Share(row, Whole(t)));
    WrapAdd(sum, Share(row, Whole(t)));
    WrapSmall(sum);
  }

  // ---- conservation -----------------------------------------------------------------------------

  function SumWords(acc: seq<Word>, first: nat, count: nat): int
    requires first + count <= |acc|
    decreases count
  {
    if count == 0 then 0 else acc[first] + SumWords(acc, first + 1, count - 1)
  }

  lemma {:induction false} SumWordsIsTotals(acc: seq<Word>, rows: seq<Row>, t: Table, n: nat, first: nat, count: nat)
    requires Rows(rows, Columns(t)) && n <= |rows| && Holds(acc, rows, t, n) && first + count <= Count(t)
    ensures Wrap(SumWords(acc, first, count)) == Wrap(SumTotals(rows, t, first, count, n))
    decreases count
  {
    hide Total, SegmentOf, Holds;
    HoldsAll(acc, rows, t, n);
    if count > 0 {
      HoldsAt(acc, rows, t, n, first);
      SumWordsIsTotals(acc, rows, t, n, first + 1, count - 1);
      WrapAdd(acc[first], SumWords(acc, first + 1, count - 1));
      WrapSmall(acc[first]);
      WrapAdd(Total(rows, Columns(t), SegmentOf(t, first), n), SumTotals(rows, t, first + 1, count - 1, n));
    }
  }

  lemma {:induction false} HoldsAll(acc: seq<Word>, rows: seq<Row>, t: Table, n: nat)
    requires Rows(rows, Columns(t)) && n <= |rows| && Holds(acc, rows, t, n)
    ensures |acc| == Count(t)
  {
  }

  lemma {:induction false} HoldsAt(acc: seq<Word>, rows: seq<Row>, t: Table, n: nat, s: nat)
    requires Rows(rows, Columns(t)) && n <= |rows| && Holds(acc, rows, t, n) && s < Count(t)
    ensures |acc| == Count(t) && acc[s] == Wrap(Total(rows, Columns(t), SegmentOf(t, s), n))
  {
  }

  /** A family's published words sum, modulo 2^32, to the published word of what they
      are the parts of, for any stamps. */
  lemma {:induction false} FamilyConserves(acc: seq<Word>, rows: seq<Row>, f: Family, n: nat)
    requires FamilyFits(f) && Splits(f)
    requires Rows(rows, Columns(f.t)) && n <= |rows| && Holds(acc, rows, f.t, n)
    ensures f.first + f.count <= |acc|
    ensures Wrap(SumWords(acc, f.first, f.count)) == Wrap(Total(rows, Columns(f.t), f.parent, n))
  {
    hide Total, Holds, Splits;
    HoldsAll(acc, rows, f.t, n);
    SumWordsIsTotals(acc, rows, f.t, n, f.first, f.count);
    SplitsConserve(rows, f, n);
  }

  /** A deck's figures conserve its cycles at every level of the split. */
  lemma {:induction false} DeckConserves(acc: seq<Word>, rows: seq<Row>, n: nat)
    requires Rows(rows, DECK_COLUMNS) && n <= |rows| && Holds(acc, rows, DeckTable, n)
    ensures |acc| == DECK_SEGMENTS
    ensures Wrap(SumWords(acc, 0, 7)) == Wrap(Total(rows, DECK_COLUMNS, Whole(DeckTable), n))
    ensures Wrap(SumWords(acc, DSEG_PRE, 5)) == acc[SEG_MOD]
    ensures Wrap(SumWords(acc, LSEG_PITCH, 3)) == acc[DSEG_LANES]
    ensures Wrap(SumWords(acc, PSEG_CALL, 4)) == acc[LSEG_PITCH]
    ensures Wrap(SumWords(acc, GSEG_PRE, 5)) == acc[SEG_GRIT]
  {
    hide Total, Holds, Splits, SumWords, DeckSegment;
    HoldsAll(acc, rows, DeckTable, n);
    DeckSplits();
    FamilyConserves(acc, rows, DECK_FAMILY, n);
    ModSplits();
    FamilyConserves(acc, rows, MOD_FAMILY, n);
    HoldsAt(acc, rows, DeckTable, n, SEG_MOD);
    LanesSplits();
    FamilyConserves(acc, rows, LANES_FAMILY, n);
    HoldsAt(acc, rows, DeckTable, n, DSEG_LANES);
    PitchSplits();
    FamilyConserves(acc, rows, PITCH_FAMILY, n);
    HoldsAt(acc, rows, DeckTable, n, LSEG_PITCH);
    GritSplits();
    FamilyConserves(acc, rows, GRIT_FAMILY, n);
    HoldsAt(acc, rows, DeckTable, n, SEG_GRIT);
  }

  /** The mix's five parts sum to the mix. */
  lemma {:induction false} MixConserves(acc: seq<Word>, rows: seq<Row>, n: nat)
    requires Rows(rows, MIX_COLUMNS) && n <= |rows| && Holds(acc, rows, MixTable, n)
    ensures |acc| == MIX_SEGMENTS
    ensures Wrap(SumWords(acc, 0, 5)) == Wrap(Total(rows, MIX_COLUMNS, Whole(MixTable), n))
  {
    hide Total, Holds, Splits, SumWords;
    HoldsAll(acc, rows, MixTable, n);
    MixSplits();
    FamilyConserves(acc, rows, MIX_FAMILY, n);
  }

  /** The two decks and the mix, not yet wrapped, telescope to the block. */
  lemma {:induction false} BlockTelescopes(x: Stamps, n: nat, k: nat)
    requires Complete(x, n) && k <= n
    ensures Total(PriRows(x, n), DECK_COLUMNS, Whole(DeckTable), k)
            + Total(YldRows(x, n), DECK_COLUMNS, Whole(DeckTable), k)
            + Total(MixRows(x, n), MIX_COLUMNS, Whole(MixTable), k) == x.ts[k] as int - x.ts[0] as int
    decreases k
  {
    hide Share;
    if k > 0 {
      BlockTelescopes(x, n, k - 1);
      ShareOf(PriRow(x, n, k - 1), Stretch(START, END));
      ShareOf(YldRow(x, n, k - 1), Stretch(START, END));
      ShareOf(MixRow(x, n, k - 1), Stretch(MIX_START, MIX_END));
    }
  }

  /** Deck A, deck B and the mix sum to process(), for any stamps and either
      priority. */
  lemma {:induction false} BlockConserves(x: Stamps, n: nat, a: Word, b: Word, m: Word)
    requires Complete(x, n)
    requires a == Wrap(Total(PriRows(x, n), DECK_COLUMNS, Whole(DeckTable), n))
    requires b == Wrap(Total(YldRows(x, n), DECK_COLUMNS, Whole(DeckTable), n))
    requires m == Wrap(Total(MixRows(x, n), MIX_COLUMNS, Whole(MixTable), n))
    ensures Wrap(a + b + m) == Sub(x.ts[n], x.ts[0])
  {
    hide Total, Whole;
    BlockTelescopes(x, n, n);
    var ta, tb, tm := Total(PriRows(x, n), DECK_COLUMNS, Whole(DeckTable), n),
                      Total(YldRows(x, n), DECK_COLUMNS, Whole(DeckTable), n),
                      Total(MixRows(x, n), MIX_COLUMNS, Whole(MixTable), n);
    WrapAdd(ta, tb);
    WrapAdd(ta + tb, tm);
    WrapAdd(a + b, tm);
    WrapAdd(a + b, m);
    WrapSmall(m);
  }
}
