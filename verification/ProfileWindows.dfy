/**
  What the audio interrupt keeps of its warm blocks: a histogram of their cost, and
  the means and the worst of every window of a thousand, published whole when the
  window ends.
 */
module ProfileWindows {
  import opened ProfileWords

  const HIST_LO: nat := 850000
  const HIST_STEP: nat := 10000
  const HIST: nat := 23
  const WIN_BLOCKS: nat := 1000

  /** One block: the callback's cycles, and every quantity a window averages. */
  datatype Block = Block(cb: Word, parts: seq<Word>)

  // ---- the histogram ------------------------------------------------------------------

  function Bin(cb: Word): (b: nat)
    ensures b < HIST
  {
    var b := if cb < HIST_LO then 0 else 1 + (cb - HIST_LO) / HIST_STEP;
    if b > HIST - 1 then HIST - 1 else b
  }

  /** Bin 0 is below the range, the last bin at and above its end, every other one
      HIST_STEP wide. */
  lemma {:induction false} BinIs(cb: Word, b: nat)
    requires b < HIST
    ensures Bin(cb) == b <==> InRange(cb, b)
  {
  }

  /** Bin b's own range of costs. */
  predicate InRange(cb: Word, b: nat) {
    (b > 0 ==> cb >= 850000 + (b - 1) * 10000) && (b < 22 ==> cb < 850000 + b * 10000)
  }

  function InBin(log: seq<Block>, b: nat): nat
    decreases |log|
  {
    if log == [] then 0
    else InBin(log[..|log| - 1], b) + if Bin(log[|log| - 1].cb) == b then 1 else 0
  }

  function InBinsBelow(log: seq<Block>, b: nat): nat
    decreases b
  {
    if b == 0 then 0 else InBinsBelow(log, b - 1) + InBin(log, b - 1)
  }

  /** How many blocks cost what bin b is for. */
  function Costing(log: seq<Block>, b: nat): nat {
    if log == [] then 0 else (if InRange(log[0].cb, b) then 1 else 0) + Costing(log[1..], b)
  }

  /** A bin counts exactly those. */
  lemma {:induction false} BinCounts(log: seq<Block>, b: nat)
    requires b < HIST
    ensures InBin(log, b) == Costing(log, b)
    decreases |log|
  {
    hide Bin, InRange;
    if log != [] {
      var n := |log| - 1;
      BinCounts(log[..n], b);
      BinIs(log[n].cb, b);
      assert log == log[..n] + [log[n]];
      OneMoreCosting(log[..n], log[n], b);
    }
  }

  lemma {:induction false} OneMoreCosting(log: seq<Block>, last: Block, b: nat)
    ensures Costing(log + [last], b) == Costing(log, b) + if InRange(last.cb, b) then 1 else 0
    decreases |log|
  {
    hide InRange;
    if log == [] {
      assert ([] + [last])[1..] == [];
    } else {
      assert (log + [last])[1..] == log[1..] + [last];
      OneMoreCosting(log[1..], last, b);
    }
  }

  /** Every block is in one bin. */
  lemma {:induction false} HistogramIsComplete(log: seq<Block>)
    ensures InBinsBelow(log, HIST) == |log|
    decreases |log|
  {
    if log == [] {
      NoneBelow(log, HIST);
    } else {
      var rest, last := log[..|log| - 1], log[|log| - 1];
      HistogramIsComplete(rest);
      OneMoreBelow(log, HIST);
    }
  }

  lemma {:induction false} NoneBelow(log: seq<Block>, b: nat)
    requires log == []
    ensures InBinsBelow(log, b) == 0
    decreases b
  {
    if b > 0 { NoneBelow(log, b - 1); }
  }

  lemma {:induction false} OneMoreBelow(log: seq<Block>, b: nat)
    requires log != []
    ensures InBinsBelow(log, b) == InBinsBelow(log[..|log| - 1], b) + if Bin(log[|log| - 1].cb) < b then 1 else 0
    decreases b
  {
    hide Bin;
    if b > 0 { OneMoreBelow(log, b - 1); }
  }

  // ---- the windows ------------------------------------------------------------------------

  /** What part s of the blocks comes to. */
  function PartSum(log: seq<Block>, s: nat): nat
    requires forall i | 0 <= i < |log| :: s < |log[i].parts|
    decreases |log|
  {
    if log == [] then 0 else PartSum(log[..|log| - 1], s) + log[|log| - 1].parts[s]
  }

  function MaxCb(log: seq<Block>): Word
    decreases |log|
  {
    if log == [] then 0
    else
      var m := MaxCb(log[..|log| - 1]);
      if log[|log| - 1].cb > m then log[|log| - 1].cb else m
  }

  /** The worst of the blocks is one of them, and no other costs more. */
  lemma {:induction false} WorstIsWorst(log: seq<Block>)
    ensures forall i | 0 <= i < |log| :: log[i].cb <= MaxCb(log)
    ensures log != [] ==> exists i | 0 <= i < |log| :: log[i].cb == MaxCb(log)
    decreases |log|
  {
    if log != [] {
      var n := |log| - 1;
      WorstIsWorst(log[..n]);
      assert forall i | 0 <= i < n :: log[..n][i] == log[i];
      if log[n].cb <= MaxCb(log[..n]) && n > 0 {
        var i :| 0 <= i < n && log[..n][i].cb == MaxCb(log[..n]);
        assert log[i].cb == MaxCb(log);
      } else {
        assert log[n].cb == MaxCb(log);
      }
    }
  }

  predicate Wide(log: seq<Block>, k: nat) { forall i | 0 <= i < |log| :: |log[i].parts| == k }

  /** The blocks of window w, and of the one not yet complete. */
  function WindowBlocks(log: seq<Block>, w: nat): seq<Block>
    requires (w + 1) * WIN_BLOCKS <= |log|
  {
    log[w * WIN_BLOCKS..(w + 1) * WIN_BLOCKS]
  }

  function OpenBlocks(log: seq<Block>): seq<Block> {
    log[|log| / WIN_BLOCKS * WIN_BLOCKS..]
  }

  datatype Win = Win(means: seq<Word>, max: Word)

  lemma {:induction false} MeanIsWord(log: seq<Block>, s: nat)
    requires |log| <= WIN_BLOCKS && forall i | 0 <= i < |log| :: s < |log[i].parts|
    ensures PartSum(log, s) <= |log| * (M - 1)
    ensures PartSum(log, s) / WIN_BLOCKS < M
    decreases |log|
  {
    if log != [] {
      MeanIsWord(log[..|log| - 1], s);
    }
  }

  function MeanPart(blocks: seq<Block>, s: nat): Word
    requires |blocks| == WIN_BLOCKS && forall i | 0 <= i < |blocks| :: s < |blocks[i].parts|
  {
    MeanIsWord(blocks, s);
    PartSum(blocks, s) / WIN_BLOCKS
  }

  /** The means and the worst of a thousand blocks. */
  function WindowOf(blocks: seq<Block>, k: nat): Win
    requires |blocks| == WIN_BLOCKS && Wide(blocks, k)
  {
    Win(seq(k, s requires 0 <= s < k => MeanPart(blocks, s)), MaxCb(blocks))
  }

  /** A block more: in the open window, or the one that completes it. */
  lemma {:induction false} LogGrows(log: seq<Block>, b: Block)
    ensures var open, w := OpenBlocks(log) + [b], |log| / WIN_BLOCKS;
            && |OpenBlocks(log)| == |log| % WIN_BLOCKS
            && (|open| < WIN_BLOCKS ==> OpenBlocks(log + [b]) == open && |log + [b]| / WIN_BLOCKS == w)
            && (|open| == WIN_BLOCKS ==> OpenBlocks(log + [b]) == [] && |log + [b]| / WIN_BLOCKS == w + 1
                                         && WindowBlocks(log + [b], w) == open)
  {
    var n, w := |log|, |log| / WIN_BLOCKS;
    assert n == w * WIN_BLOCKS + n % WIN_BLOCKS;
    if n % WIN_BLOCKS + 1 < WIN_BLOCKS {
      assert (n + 1) / WIN_BLOCKS == w;
      assert (log + [b])[w * WIN_BLOCKS..] == log[w * WIN_BLOCKS..] + [b];
    } else {
      assert (n + 1) / WIN_BLOCKS == w + 1;
      assert (log + [b])[w * WIN_BLOCKS..(w + 1) * WIN_BLOCKS] == log[w * WIN_BLOCKS..] + [b];
    }
  }

  lemma {:induction false} WindowsStay(log: seq<Block>, b: Block, w: nat)
    requires (w + 1) * WIN_BLOCKS <= |log|
    ensures WindowBlocks(log + [b], w) == WindowBlocks(log, w)
  {
  }

  lemma {:induction false} Snoc(log: seq<Block>, b: Block)
    ensures (log + [b])[..|log + [b]| - 1] == log && (log + [b])[|log + [b]| - 1] == b
  {
  }

  /** The interrupt's side. */
  class Meter {
    const k: nat
    var n: Word
    const hist: array<Word>
    const wsum: array<nat>
    var wn: nat
    var wmax: Word
    var pub: Win
    var winN: Word

    ghost predicate Shaped() { hist.Length == HIST && wsum.Length == k && hist as object != wsum }

    /** The counts are those of the warm blocks in log. */
    ghost predicate Counted(log: seq<Block>)
      requires Shaped()
      reads this`n, hist
    {
      n == Wrap(|log|) && forall b | 0 <= b < HIST :: hist[b] == Wrap(InBin(log, b))
    }

    /** The open window has summed the blocks in open. */
    ghost predicate Summed(open: seq<Block>)
      requires Shaped()
      reads this`wn, this`wmax, wsum
    {
      && wn == |open| && Wide(open, k) && wmax == MaxCb(open)
      && forall s | 0 <= s < k :: wsum[s] == PartSum(open, s)
    }

    /** The last complete window of log is the one published. */
    ghost predicate Published(log: seq<Block>)
      reads this`winN, this`pub
    {
      && Wide(log, k) && winN == Wrap(|log| / WIN_BLOCKS)
      && (|log| >= WIN_BLOCKS ==> pub == WindowOf(WindowBlocks(log, |log| / WIN_BLOCKS - 1), k))
    }

    ghost predicate Valid(log: seq<Block>)
      reads this, hist, wsum
    {
      Shaped() && Counted(log) && Summed(OpenBlocks(log)) && Published(log)
    }

    constructor (k: nat)
      ensures Valid([]) && fresh(hist) && fresh(wsum) && this.k == k
    {
      this.k := k;
      n, wn, wmax, winN := 0, 0, 0, 0;
      pub := Win([], 0);
      hist := new Word[HIST](_ => 0);
      wsum := new nat[k](_ => 0);
    }

    method Count(ghost log: seq<Block>, b: Block)
      requires Shaped() && Counted(log)
      modifies this`n, hist
      ensures Counted(log + [b])
    {
      hide Bin;
      n := Add(n, 1);
      WrapAdd(|log|, 1);
      WrapSmall(1);
      var at := Bin(b.cb);
      ghost var was := hist[..];
      hist[at] := Add(hist[at], 1);
      Snoc(log, b);
      forall c | 0 <= c < HIST
        ensures hist[c] == Wrap(InBin(log + [b], c))
      {
        WrapAdd(InBin(log, c), 1);
      }
    }

    method Sum(ghost open: seq<Block>, b: Block)
      requires Shaped() && Summed(open) && |b.parts| == k
      modifies this`wn, this`wmax, wsum
      ensures Summed(open + [b])
    {
      Snoc(open, b);
      for s := 0 to k
        invariant wn == |open| && wmax == MaxCb(open)
        invariant forall j | 0 <= j < s :: wsum[j] == PartSum(open + [b], j)
        invariant forall j | s <= j < k :: wsum[j] == PartSum(open, j)
      {
        wsum[s] := wsum[s] + b.parts[s];
      }
      if b.cb > wmax {
        wmax := b.cb;
      }
      wn := wn + 1;
    }

    /** The window is complete: published whole, and opened anew. */
    method Publish(ghost open: seq<Block>)
      requires Shaped() && Summed(open) && |open| == WIN_BLOCKS
      modifies this`wn, this`wmax, this`pub, this`winN, wsum
      ensures Summed([]) && pub == WindowOf(open, k) && winN == Add(old(winN), 1)
    {
      var means := [];
      for s := 0 to k
        invariant wmax == MaxCb(open) && winN == old(winN)
        invariant |means| == s && forall j | 0 <= j < s :: means[j] == MeanPart(open, j)
        invariant forall j | 0 <= j < s :: wsum[j] == 0
        invariant forall j | s <= j < k :: wsum[j] == PartSum(open, j)
      {
        MeanIsWord(open, s);
        means := means + [wsum[s] / WIN_BLOCKS];
        wsum[s] := 0;
      }
      assert means == WindowOf(open, k).means;
      pub := Win(means, wmax);
      wmax := 0;
      wn := 0;
      winN := Add(winN, 1);
    }

    /** The end of a block; a cold one leaves no trace. */
    method BlockEnd(ghost log: seq<Block>, b: Block, warm: bool)
      requires Valid(log) && |b.parts| == k
      modifies this, hist, wsum
      ensures Valid(if warm then log + [b] else log)
    {
      hide MaxCb, PartSum, InBin, WindowOf, OpenBlocks, WindowBlocks, Wrap;
      if !warm { return; }
      LogGrows(log, b);
      Count(log, b);
      Sum(OpenBlocks(log), b);
      if wn == WIN_BLOCKS {
        Publish(OpenBlocks(log) + [b]);
        WrapOne(|log| / WIN_BLOCKS);
      } else if |log| >= WIN_BLOCKS {
        WindowsStay(log, b, |log| / WIN_BLOCKS - 1);
      }
    }
  }

  // ---- rounding ---------------------------------------------------------------------------------

  function SumOf(xs: seq<nat>): nat { if xs == [] then 0 else xs[0] + SumOf(xs[1..]) }

  function MeansOf(xs: seq<nat>): (ms: seq<nat>)
    ensures |ms| == |xs|
  {
    if xs == [] then [] else [xs[0] / WIN_BLOCKS] + MeansOf(xs[1..])
  }

  /** The means of a window's parts sum to the mean of the whole, less at most one
      cycle a part but the first. */
  lemma {:induction false} MeansNearlyConserve(xs: seq<nat>)
    ensures SumOf(MeansOf(xs)) <= SumOf(xs) / WIN_BLOCKS
    ensures xs != [] ==> SumOf(xs) / WIN_BLOCKS <= SumOf(MeansOf(xs)) + |xs| - 1
  {
    if xs != [] {
      MeansNearlyConserve(xs[1..]);
      var x, y := xs[0], SumOf(xs[1..]);
      TwoFloors(x, y);
      assert MeansOf(xs)[1..] == MeansOf(xs[1..]);
      if |xs| == 1 { assert y == 0; }
    }
  }

  lemma {:induction false} TwoFloors(x: nat, y: nat)
    ensures x / WIN_BLOCKS + y / WIN_BLOCKS <= (x + y) / WIN_BLOCKS <= x / WIN_BLOCKS + y / WIN_BLOCKS + 1
  {
  }

  lemma {:induction false} SumOfSnoc(xs: seq<nat>, x: nat)
    ensures SumOf(xs + [x]) == SumOf(xs) + x
    decreases |xs|
  {
    if xs == [] {
      assert ([] + [x])[1..] == [];
    } else {
      assert (xs + [x])[1..] == xs[1..] + [x];
      SumOfSnoc(xs[1..], x);
    }
  }

  /** What each block has of part s. */
  function Column(log: seq<Block>, s: nat): seq<nat>
    requires forall i | 0 <= i < |log| :: s < |log[i].parts|
  {
    seq(|log|, i requires 0 <= i < |log| => log[i].parts[s])
  }

  lemma {:induction false} PartSumIs(log: seq<Block>, s: nat)
    requires forall i | 0 <= i < |log| :: s < |log[i].parts|
    ensures PartSum(log, s) == SumOf(Column(log, s))
    decreases |log|
  {
    if log != [] {
      var n := |log| - 1;
      PartSumIs(log[..n], s);
      assert Column(log, s) == Column(log[..n], s) + [log[n].parts[s]];
      SumOfSnoc(Column(log[..n], s), log[n].parts[s]);
    }
  }

  /** A published mean is the thousandth part of what its blocks spent, cut off. */
  lemma {:induction false} MeanIsThousandth(blocks: seq<Block>, k: nat, s: nat)
    requires |blocks| == WIN_BLOCKS && Wide(blocks, k) && s < k
    ensures var mean := WindowOf(blocks, k).means[s];
            1000 * mean <= SumOf(Column(blocks, s)) < 1000 * (mean + 1)
  {
    PartSumIs(blocks, s);
  }

  function PartsOf(b: Block, qs: seq<nat>): seq<nat>
    requires forall j | 0 <= j < |qs| :: qs[j] < |b.parts|
  {
    seq(|qs|, j requires 0 <= j < |qs| => b.parts[qs[j]])
  }

  function SumsOf(log: seq<Block>, k: nat, qs: seq<nat>): seq<nat>
    requires Wide(log, k) && forall j | 0 <= j < |qs| :: qs[j] < k
  {
    seq(|qs|, j requires 0 <= j < |qs| => PartSum(log, qs[j]))
  }

  /** Part p is, in every block, what the parts in qs are together. */
  predicate Splits(log: seq<Block>, k: nat, p: nat, qs: seq<nat>) {
    && Wide(log, k) && p < k && (forall j | 0 <= j < |qs| :: qs[j] < k)
    && forall i | 0 <= i < |log| :: log[i].parts[p] == SumOf(PartsOf(log[i], qs))
  }

  lemma {:induction false} SplitSums(log: seq<Block>, k: nat, p: nat, qs: seq<nat>)
    requires Splits(log, k, p, qs)
    ensures PartSum(log, p) == SumOf(SumsOf(log, k, qs))
    decreases |log|
  {
    if log == [] {
      Zeros(SumsOf(log, k, qs));
    } else {
      var n := |log| - 1;
      assert Splits(log[..n], k, p, qs);
      SplitSums(log[..n], k, p, qs);
      SumOfAdded(SumsOf(log[..n], k, qs), PartsOf(log[n], qs), SumsOf(log, k, qs));
    }
  }

  lemma {:induction false} Zeros(xs: seq<nat>)
    requires forall i | 0 <= i < |xs| :: xs[i] == 0
    ensures SumOf(xs) == 0
  {
    if xs != [] { Zeros(xs[1..]); }
  }

  lemma {:induction false} SumOfAdded(xs: seq<nat>, ys: seq<nat>, zs: seq<nat>)
    requires |xs| == |ys| == |zs| && forall i | 0 <= i < |xs| :: zs[i] == xs[i] + ys[i]
    ensures SumOf(zs) == SumOf(xs) + SumOf(ys)
  {
    if xs != [] { SumOfAdded(xs[1..], ys[1..], zs[1..]); }
  }

  lemma {:induction false} MeansOfAt(xs: seq<nat>, j: nat)
    requires j < |xs|
    ensures MeansOf(xs)[j] == xs[j] / WIN_BLOCKS
  {
    if j > 0 { MeansOfAt(xs[1..], j - 1); }
  }

  /** Where parts split a figure in every block of a window, their published means fall
      short of the figure's by at most one cycle for each of them but the first. */
  lemma {:induction false} WindowNearlyConserves(blocks: seq<Block>, k: nat, p: nat, qs: seq<nat>)
    requires |blocks| == WIN_BLOCKS && Splits(blocks, k, p, qs) && qs != []
    ensures var means := WindowOf(blocks, k).means;
            var parts := seq(|qs|, j requires 0 <= j < |qs| => means[qs[j]] as nat);
            SumOf(parts) <= means[p] <= SumOf(parts) + |qs| - 1
  {
    hide PartSum;
    SplitSums(blocks, k, p, qs);
    var sums, means := SumsOf(blocks, k, qs), WindowOf(blocks, k).means;
    var parts := seq(|qs|, j requires 0 <= j < |qs| => means[qs[j]] as nat);
    forall j | 0 <= j < |qs|
      ensures MeansOf(sums)[j] == parts[j]
    {
      MeansOfAt(sums, j);
    }
    assert MeansOf(sums) == parts;
    MeansNearlyConserve(sums);
  }
}
