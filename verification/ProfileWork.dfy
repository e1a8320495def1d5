/**
  What the profile's figures mean. A block is work: each deck call passes through 22
  stretches of code, the mix through five, each taking its cycles, and the stamps are a
  32-bit counter read between them in the order the engine passes its marks. Every
  published figure is the work of the stretches that bear its name, and of no others.
 */
module ProfileWork {
  import opened ProfileWords
  import opened ProfileSplit
  import opened ProfileBlock

  const DECK_WORK: nat := 22
  const MIX_WORK: nat := 5

  /** Which stretch of a deck call ends at a stamp, counted in the order of time; the
      call starts at place 0. */
  function Place(column: nat): (k: nat)
    requires column < DECK_COLUMNS
    ensures k <= DECK_WORK
  {
    match column
    case 21 => 0
    case 6 => 1
    case 12 => 2
    case 13 => 3
    case 14 => 4
    case 10 => 5
    case 11 => 6
    case 7 => 7
    case 8 => 8
    case 9 => 9
    case 0 => 10
    case 1 => 11
    case 2 => 12
    case 15 => 13
    case 16 => 14
    case 17 => 15
    case 18 => 16
    case 19 => 17
    case 20 => 18
    case 3 => 19
    case 4 => 20
    case 5 => 21
    case 22 => 22
  }

  /** The figures that bear the name of stretch k of a deck call. */
  function Named(k: nat): set<nat>
    requires k < DECK_WORK
  {
    match k
    case 0 => {SEG_MOD, DSEG_PRE}                            // the Instrument's own work ahead of the deck
    case 1 => {SEG_MOD, DSEG_LANES, LSEG_PITCH, PSEG_CALL}   // the call into the lanes
    case 2 => {SEG_MOD, DSEG_LANES, LSEG_PITCH, PSEG_HEAD}   // counters, phase, wrap events
    case 3 => {SEG_MOD, DSEG_LANES, LSEG_PITCH, PSEG_SEARCH} // the step search
    case 4 => {SEG_MOD, DSEG_LANES, LSEG_PITCH, PSEG_TAIL}   // slew, RANGE, the output stores
    case 5 => {SEG_MOD, DSEG_LANES, LSEG_RING}               // the step clock and the onset ring
    case 6 => {SEG_MOD, DSEG_LANES, LSEG_TEX}                // the texture lanes
    case 7 => {SEG_MOD, DSEG_FIRE}                           // engine fade, swap, fire bookkeeping
    case 8 => {SEG_MOD, DSEG_TICK}                           // the control tick
    case 9 => {SEG_MOD, DSEG_TRIG}                           // the fire trigger, the gate edge
    case 10 => {SEG_ENG}                                     // the engine
    case 11 => {SEG_SMOOTH}                                  // the target smoothers
    case 12 => {SEG_GRIT, GSEG_PRE}                          // the FX setters, the call into GRIT
    case 13 => {SEG_GRIT, GSEG_SW}                           // its switch
    case 14 => {SEG_GRIT, GSEG_ST1}                          // stage 1, left
    case 15 => {SEG_GRIT, GSEG_ST2}                          // stage 2, left
    case 16 => {SEG_GRIT, GSEG_ST1}                          // stage 1, right
    case 17 => {SEG_GRIT, GSEG_ST2}                          // stage 2, right
    case 18 => {SEG_GRIT, GSEG_MIX}                          // the dry / wet fade
    case 19 => {SEG_FLUX}
    case 20 => {SEG_COMP}                                    // the tap, the FX mix and COMP
    case 21 => {SEG_SEND}                                    // the send law
  }

  /** The cycles of the first k stretches. */
  function Elapsed(work: seq<nat>, k: nat): nat
    requires k <= |work|
  {
    if k == 0 then 0 else Elapsed(work, k - 1) + work[k - 1]
  }

  /** And of those of them that bear the name of figure s. */
  function ChargedTo(work: seq<nat>, s: nat, k: nat): nat
    requires k <= |work| == DECK_WORK
  {
    if k == 0 then 0 else ChargedTo(work, s, k - 1) + if s in Named(k - 1) then work[k - 1] else 0
  }

  function Charge(work: seq<nat>, s: nat): nat
    requires |work| == DECK_WORK
  {
    ChargedTo(work, s, DECK_WORK)
  }

  /** One sample: the priority deck's work, the yielding one's, the mix's. */
  datatype Sample = Sample(pri: seq<nat>, yld: seq<nat>, mix: seq<nat>)

  predicate IsSample(w: Sample) { |w.pri| == DECK_WORK && |w.yld| == DECK_WORK && |w.mix| == MIX_WORK }

  type Work = w: Sample | IsSample(w) witness Sample(seq(DECK_WORK, _ => 0), seq(DECK_WORK, _ => 0), [0, 0, 0, 0, 0])

  function Cycles(w: Work): nat { Elapsed(w.pri, DECK_WORK) + Elapsed(w.yld, DECK_WORK) + Elapsed(w.mix, MIX_WORK) }

  /** The counter's true value at the top of sample i. */
  function Top(start: int, work: seq<Work>, i: nat): int
    requires i <= |work|
  {
    if i == 0 then start else Top(start, work, i - 1) + Cycles(work[i - 1])
  }

  /** row is what the counter reads during a deck call that starts at a time. */
  predicate Reads(row: Row, at: int, work: seq<nat>)
    requires |work| == DECK_WORK
  {
    |row| == DECK_COLUMNS && forall c | 0 <= c < DECK_COLUMNS :: row[c] == Wrap(at + Elapsed(work, Place(c)))
  }

  predicate MixReads(row: Row, at: int, work: seq<nat>)
    requires |work| == MIX_WORK
  {
    && |row| == MIX_COLUMNS
    && row[MIX_START] == Wrap(at) && row[MIX_END] == Wrap(at + Elapsed(work, MIX_WORK))
    && forall c | 0 <= c < MIX_SLOTS :: row[c] == Wrap(at + Elapsed(work, c + 1))
  }

  /** Sample i's stamps: the decks one after the other, then the mix. */
  predicate SampleRecorded(x: Stamps, n: nat, i: nat, top: int, w: Work)
    requires Complete(x, n) && i < n
  {
    var second, mix := top + Elapsed(w.pri, DECK_WORK), top + Elapsed(w.pri, DECK_WORK) + Elapsed(w.yld, DECK_WORK);
    && Reads(x.p1[i] + [x.ts[i], x.d1[i]], top, w.pri)
    && Reads(x.p2[i] + [x.d1[i], x.d2[i]], second, w.yld)
    && MixReads(x.ms[i] + [x.d2[i], x.ts[i + 1]], mix, w.mix)
  }

  /** The stamps of a block are the counter's, read as its work is done. */
  predicate Recorded(x: Stamps, n: nat, start: int, work: seq<Work>) {
    && Complete(x, n) && |work| == n
    && (forall i | 0 <= i <= n :: x.ts[i] == Wrap(Top(start, work, i)))
    && forall i | 0 <= i < n :: SampleRecorded(x, n, i, Top(start, work, i), work[i])
  }

  lemma {:induction false} Sizes(x: Stamps, n: nat, start: int, work: seq<Work>)
    requires Recorded(x, n, start, work)
    ensures Complete(x, n) && |work| == n
  {
  }

  // ---- one row ---------------------------------------------------------------------------

  predicate Over(x: Stretch, k: nat)
    requires x.from < DECK_COLUMNS && x.to < DECK_COLUMNS
  {
    Place(x.from) <= k < Place(x.to)
  }

  /** The table's segment s, one stretch or two of them in the order of time, passes
      over stretch k exactly if k bears its name. */
  predicate Matches(s: nat, k: nat)
    requires s < DECK_SEGMENTS && k < DECK_WORK
  {
    var g := DeckSegment(s);
    && 0 < |g| <= 2
    && (s in Named(k) <==> Over(g[0], k) || (|g| == 2 && Over(g[1], k)))
    && Place(g[0].from) <= Place(g[0].to)
    && (|g| == 2 ==> Place(g[0].to) <= Place(g[1].from) <= Place(g[1].to))
  }

  lemma {:induction false} TableNames(s: nat, k: nat)
    requires s < DECK_SEGMENTS && k < DECK_WORK
    ensures Matches(s, k)
  {
    hide Matches;
    if s < DSEG_PRE {
      DeckNames(s, k);
    } else if s < LSEG_PITCH {
      ModNames(s, k);
    } else if s < GSEG_PRE {
      LaneNames(s, k);
    } else {
      GritNames(s, k);
    }
  }

  lemma {:induction false} DeckNames(s: nat, k: nat)
    requires s < DSEG_PRE && k < DECK_WORK
    ensures Matches(s, k)
  {
  }

  lemma {:induction false} ModNames(s: nat, k: nat)
    requires DSEG_PRE <= s < LSEG_PITCH && k < DECK_WORK
    ensures Matches(s, k)
  {
  }

  lemma {:induction false} LaneNames(s: nat, k: nat)
    requires LSEG_PITCH <= s < GSEG_PRE && k < DECK_WORK
    ensures Matches(s, k)
  {
  }

  lemma {:induction false} GritNames(s: nat, k: nat)
    requires GSEG_PRE <= s < DECK_SEGMENTS && k < DECK_WORK
    ensures Matches(s, k)
  {
  }

  /** What the first k stretches hold between two places. */
  function Cut(work: seq<nat>, k: nat, lo: nat, hi: nat): int
    requires k <= |work|
  {
    Elapsed(work, if k < hi then k else hi) - Elapsed(work, if k < lo then k else lo)
  }

  lemma {:induction false} ChargeOfSpans(work: seq<nat>, s: nat, k: nat, lo: nat, hi: nat, lo2: nat, hi2: nat)
    requires k <= |work| == DECK_WORK && lo <= hi <= lo2 <= hi2
    requires forall j: nat | j < DECK_WORK :: s in Named(j) <==> lo <= j < hi || lo2 <= j < hi2
    ensures ChargedTo(work, s, k) == Cut(work, k, lo, hi) + Cut(work, k, lo2, hi2)
    decreases k
  {
    hide Named;
    if k > 0 {
      ChargeOfSpans(work, s, k - 1, lo, hi, lo2, hi2);
    }
  }

  /** Of the true times the table's segment s is the work charged to s. */
  lemma {:induction false} ShareOfTimes(time: Row, at: int, work: seq<nat>, s: nat)
    requires |work| == DECK_WORK && |time| == DECK_COLUMNS && s < DECK_SEGMENTS
    requires forall c | 0 <= c < DECK_COLUMNS :: time[c] == at + Elapsed(work, Place(c))
    ensures Share(time, DeckSegment(s)) == Charge(work, s)
  {
    hide DeckSegment, Named, Place, Elapsed, ChargedTo, Share;
    var g := DeckSegment(s);
    DeckShare(time, s);
    TableNames(s, 0);
    forall j: nat | j < DECK_WORK
      ensures s in Named(j) <==> Over(g[0], j) || (|g| == 2 && Over(g[1], j))
    {
      TableNames(s, j);
    }
    var lo, hi := Place(g[0].from), Place(g[0].to);
    if |g| == 2 {
      ChargeOfSpans(work, s, DECK_WORK, lo, hi, Place(g[1].from), Place(g[1].to));
    } else {
      ChargeOfSpans(work, s, DECK_WORK, lo, hi, hi, hi);
    }
  }

  /** And so of what the counter reads. */
  lemma {:induction false} ShareOfReads(row: Row, at: int, work: seq<nat>, s: nat)
    requires |work| == DECK_WORK && Reads(row, at, work) && s < DECK_SEGMENTS
    ensures Wrap(Share(row, DeckSegment(s))) == Wrap(Charge(work, s))
  {
    hide DeckSegment, Named, Place, Elapsed, ChargedTo, Share, Wrap;
    var time := seq(DECK_COLUMNS, c requires 0 <= c < DECK_COLUMNS => at + Elapsed(work, Place(c)));
    ShareOfStamps(row, time, DeckSegment(s));
    ShareOfTimes(time, at, work, s);
  }

  /** A deck call as a whole is all its work. */
  lemma {:induction false} WholeOfReads(row: Row, at: int, work: seq<nat>)
    requires |work| == DECK_WORK && Reads(row, at, work)
    ensures Wrap(Share(row, Whole(DeckTable))) == Wrap(Elapsed(work, DECK_WORK))
  {
    hide Elapsed, Share, Wrap;
    assert row[START] == Wrap(at + Elapsed(work, Place(START)));
    assert row[END] == Wrap(at + Elapsed(work, Place(END)));
    NothingYet(work);
    ShareOf(row, Stretch(START, END));
    WrapSub(at + Elapsed(work, DECK_WORK), at);
  }

  lemma {:induction false} NothingYet(work: seq<nat>)
    ensures Elapsed(work, 0) == 0
  {
  }

  /** The mix's segment s is its stretch s, and the whole of it all its work. */
  lemma {:induction false} ShareOfMix(row: Row, at: int, work: seq<nat>, s: nat)
    requires |work| == MIX_WORK && MixReads(row, at, work) && s < MIX_SEGMENTS
    ensures Wrap(Share(row, MixSegment(s))) == Wrap(work[s])
    ensures Wrap(Share(row, Whole(MixTable))) == Wrap(Elapsed(work, MIX_WORK))
  {
    hide Share, Wrap, Elapsed;
    ShareOf(row, MixSegment(s)[0]);
    ShareOf(row, Stretch(MIX_START, MIX_END));
    WrapSub(at + Elapsed(work, MIX_WORK), at);
    NextElapsed(work, s);
    NothingYet(work);
    var lo, hi := MixSegment(s)[0].from, MixSegment(s)[0].to;
    assert row[lo] == Wrap(at + Elapsed(work, s)) && row[hi] == Wrap(at + Elapsed(work, s + 1));
    WrapSub(at + Elapsed(work, s + 1), at + Elapsed(work, s));
  }

  lemma {:induction false} NextElapsed(work: seq<nat>, k: nat)
    requires k < |work|
    ensures Elapsed(work, k + 1) == Elapsed(work, k) + work[k]
  {
  }

  // ---- a block ------------------------------------------------------------------------------

  /** The deck call that runs first, or the other one. */
  datatype Turn = Priority | Yielding

  function WorkOf(w: Work, p: Turn): (r: seq<nat>)
    ensures |r| == DECK_WORK
  {
    if p.Priority? then w.pri else w.yld
  }

  function RowsOf(x: Stamps, n: nat, p: Turn): (rows: seq<Row>)
    requires Complete(x, n)
    ensures |rows| == n && Rows(rows, DECK_COLUMNS)
  {
    if p.Priority? then PriRows(x, n) else YldRows(x, n)
  }

  /** The work of a block's samples that is charged to figure s of a deck, to segment s
      of the mix, and all of a deck's. */
  function BlockCharge(work: seq<Work>, p: Turn, s: nat, n: nat): nat
    requires n <= |work|
  {
    if n == 0 then 0 else BlockCharge(work, p, s, n - 1) + Charge(WorkOf(work[n - 1], p), s)
  }

  function MixCharge(work: seq<Work>, s: nat, n: nat): nat
    requires n <= |work| && s < MIX_WORK
  {
    if n == 0 then 0 else MixCharge(work, s, n - 1) + work[n - 1].mix[s]
  }

  function BlockWork(work: seq<Work>, p: Turn, n: nat): nat
    requires n <= |work|
  {
    if n == 0 then 0 else BlockWork(work, p, n - 1) + Elapsed(WorkOf(work[n - 1], p), DECK_WORK)
  }

  /** When a turn of sample i starts. */
  function Starts(start: int, work: seq<Work>, p: Turn, i: nat): int
    requires i < |work|
  {
    Top(start, work, i) + if p.Priority? then 0 else Elapsed(work[i].pri, DECK_WORK)
  }

  lemma {:induction false} Readings(x: Stamps, n: nat, start: int, work: seq<Work>, p: Turn, i: nat)
    requires Recorded(x, n, start, work) && i < n
    ensures Reads(RowsOf(x, n, p)[i], Starts(start, work, p, i), WorkOf(work[i], p))
    ensures MixReads(MixRows(x, n)[i], Starts(start, work, Yielding, i) + Elapsed(work[i].yld, DECK_WORK), work[i].mix)
  {
    hide Reads, MixReads, Elapsed, Top;
    assert SampleRecorded(x, n, i, Top(start, work, i), work[i]);
  }

  /** The totals of the table over a block are its charges. */
  lemma {:induction false} TotalIsCharge(x: Stamps, n: nat, start: int, work: seq<Work>, p: Turn, s: nat, k: nat)
    requires Recorded(x, n, start, work) && s < DECK_SEGMENTS && k <= n
    ensures Wrap(Total(RowsOf(x, n, p), DECK_COLUMNS, DeckSegment(s), k)) == Wrap(BlockCharge(work, p, s, k))
    ensures Wrap(Total(RowsOf(x, n, p), DECK_COLUMNS, Whole(DeckTable), k)) == Wrap(BlockWork(work, p, k))
    decreases k
  {
    hide Recorded, RowsOf, DeckSegment, Charge, Share, Reads, Wrap, Starts, Elapsed, WorkOf, Whole;
    Sizes(x, n, start, work);
    if k > 0 {
      var rows, w := RowsOf(x, n, p), WorkOf(work[k - 1], p);
      TotalIsCharge(x, n, start, work, p, s, k - 1);
      Readings(x, n, start, work, p, k - 1);
      ShareOfReads(rows[k - 1], Starts(start, work, p, k - 1), w, s);
      WholeOfReads(rows[k - 1], Starts(start, work, p, k - 1), w);
      WrapAdd(Total(rows, DECK_COLUMNS, DeckSegment(s), k - 1), Share(rows[k - 1], DeckSegment(s)));
      WrapAdd(BlockCharge(work, p, s, k - 1), Charge(w, s));
      WrapAdd(Total(rows, DECK_COLUMNS, Whole(DeckTable), k - 1), Share(rows[k - 1], Whole(DeckTable)));
      WrapAdd(BlockWork(work, p, k - 1), Elapsed(w, DECK_WORK));
    }
  }

  lemma {:induction false} MixTotalIsCharge(x: Stamps, n: nat, start: int, work: seq<Work>, s: nat, k: nat)
    requires Recorded(x, n, start, work) && s < MIX_SEGMENTS && k <= n
    ensures Wrap(Total(MixRows(x, n), MIX_COLUMNS, MixSegment(s), k)) == Wrap(MixCharge(work, s, k))
    decreases k
  {
    hide Recorded, MixSegment, Share, MixReads, Wrap, Starts, Elapsed;
    Sizes(x, n, start, work);
    if k > 0 {
      var row, w := MixRows(x, n)[k - 1], work[k - 1];
      MixTotalIsCharge(x, n, start, work, s, k - 1);
      Readings(x, n, start, work, Yielding, k - 1);
      ShareOfMix(row, Starts(start, work, Yielding, k - 1) + Elapsed(w.yld, DECK_WORK), w.mix, s);
      WrapAdd(Total(MixRows(x, n), MIX_COLUMNS, MixSegment(s), k - 1), Share(row, MixSegment(s)));
      WrapAdd(MixCharge(work, s, k - 1), w.mix[s]);
    }
  }

  /** Every published word of a block is the work its name stands for, modulo 2^32. */
  lemma {:induction false} FiguresAreTheirWork(x: Stamps, n: nat, start: int, work: seq<Work>, p: Turn,
                                               acc: seq<Word>, mix: seq<Word>)
    requires Recorded(x, n, start, work)
    requires Holds(acc, RowsOf(x, n, p), DeckTable, n) && Holds(mix, MixRows(x, n), MixTable, n)
    ensures |acc| == DECK_SEGMENTS && forall s | 0 <= s < DECK_SEGMENTS :: acc[s] == Wrap(BlockCharge(work, p, s, n))
    ensures |mix| == MIX_SEGMENTS && forall s | 0 <= s < MIX_SEGMENTS :: mix[s] == Wrap(MixCharge(work, s, n))
    ensures Wrap(Total(RowsOf(x, n, p), DECK_COLUMNS, Whole(DeckTable), n)) == Wrap(BlockWork(work, p, n))
  {
    hide DeckSegment, MixSegment, RowsOf, Total, Wrap, BlockCharge, BlockWork, MixCharge;
    TotalIsCharge(x, n, start, work, p, 0, n);
    forall s | 0 <= s < DECK_SEGMENTS
      ensures acc[s] == Wrap(BlockCharge(work, p, s, n))
    {
      TotalIsCharge(x, n, start, work, p, s, n);
    }
    forall s | 0 <= s < MIX_SEGMENTS
      ensures mix[s] == Wrap(MixCharge(work, s, n))
    {
      MixTotalIsCharge(x, n, start, work, s, n);
    }
  }

  // ---- the worst sample ------------------------------------------------------------------------

  /** The cost of a sample is all its work. */
  lemma {:induction false} CostIsCycles(x: Stamps, n: nat, start: int, work: seq<Work>, i: nat)
    requires Recorded(x, n, start, work) && i < n
    ensures Cost(x, n, i) == Wrap(Cycles(work[i]))
  {
    hide Reads, MixReads, Cycles, Wrap;
    WrapSub(Top(start, work, i + 1), Top(start, work, i));
  }

  /** What a deck's worst sample is broken down to: the modulation half, the lanes, the
      control tick, the engine, and the five parts of the FX together. */
  function Breakdown(work: seq<nat>): seq<Word>
    requires |work| == DECK_WORK
  {
    [Wrap(Charge(work, SEG_MOD)), Wrap(Charge(work, DSEG_LANES)), Wrap(Charge(work, DSEG_TICK)),
     Wrap(Charge(work, SEG_ENG)),
     Wrap(Charge(work, SEG_SMOOTH) + Charge(work, SEG_GRIT) + Charge(work, SEG_FLUX)
          + Charge(work, SEG_COMP) + Charge(work, SEG_SEND))]
  }

  lemma {:induction false} WorstIsItsWork(x: Stamps, n: nat, start: int, work: seq<Work>, p: Turn, i: nat)
    requires Recorded(x, n, start, work) && i < n
    ensures WorstSplit(RowsOf(x, n, p)[i]) == Breakdown(WorkOf(work[i], p))
    ensures Sub(x.ts[i + 1], x.d2[i]) == Wrap(Elapsed(work[i].mix, MIX_WORK))
  {
    hide Recorded, Reads, MixReads, Breakdown, WorstSplit, Elapsed, Top, Wrap;
    Sizes(x, n, start, work);
    Readings(x, n, start, work, p, i);
    SplitIsItsWork(RowsOf(x, n, p)[i], Starts(start, work, p, i), WorkOf(work[i], p));
    var row, at := MixRows(x, n)[i], Starts(start, work, Yielding, i) + Elapsed(work[i].yld, DECK_WORK);
    ShareOfMix(row, at, work[i].mix, 0);
    ShareOf(row, Stretch(MIX_START, MIX_END));
  }

  lemma {:induction false} SplitIsItsWork(row: Row, at: int, work: seq<nat>)
    requires |work| == DECK_WORK && Reads(row, at, work)
    ensures |row| == DECK_COLUMNS && WorstSplit(row) == Breakdown(work)
  {
    hide Charge, Share, Wrap;
    ShareOfReads(row, at, work, SEG_MOD);
    ShareOf(row, Stretch(START, 0));
    ShareOfReads(row, at, work, DSEG_LANES);
    ShareOf(row, Stretch(6, 7));
    ShareOfReads(row, at, work, DSEG_TICK);
    ShareOf(row, Stretch(8, 9));
    ShareOfReads(row, at, work, SEG_ENG);
    ShareOf(row, Stretch(0, 1));
    FxIsItsWork(row, at, work);
  }

  lemma {:induction false} FxIsItsWork(row: Row, at: int, work: seq<nat>)
    requires |work| == DECK_WORK && Reads(row, at, work)
    ensures |row| == DECK_COLUMNS
    ensures Sub(row[END], row[1])
            == Wrap(Charge(work, SEG_SMOOTH) + Charge(work, SEG_GRIT) + Charge(work, SEG_FLUX)
                    + Charge(work, SEG_COMP) + Charge(work, SEG_SEND))
  {
    hide Charge, Share, Wrap;
    ShareOfReads(row, at, work, SEG_SMOOTH);
    ShareOfReads(row, at, work, SEG_GRIT);
    ShareOfReads(row, at, work, SEG_FLUX);
    ShareOfReads(row, at, work, SEG_COMP);
    ShareOfReads(row, at, work, SEG_SEND);
    ShareOf(row, Stretch(1, 2));
    ShareOf(row, Stretch(2, 3));
    ShareOf(row, Stretch(3, 4));
    ShareOf(row, Stretch(4, 5));
    ShareOf(row, Stretch(5, END));
    var a, b, c, d, e := Charge(work, SEG_SMOOTH), Charge(work, SEG_GRIT), Charge(work, SEG_FLUX),
                         Charge(work, SEG_COMP), Charge(work, SEG_SEND);
    SameSum(row[2] - row[1], a, row[3] - row[2], b);
    SameSum(row[3] - row[1], a + b, row[4] - row[3], c);
    SameSum(row[4] - row[1], a + b + c, row[5] - row[4], d);
    SameSum(row[5] - row[1], a + b + c + d, row[END] - row[5], e);
  }

  lemma {:induction false} SameSum(x: int, a: int, y: int, b: int)
    requires Wrap(x) == Wrap(a) && Wrap(y) == Wrap(b)
    ensures Wrap(x + y) == Wrap(a + b)
  {
    WrapAdd(x, y);
    WrapAdd(a, b);
  }
}
