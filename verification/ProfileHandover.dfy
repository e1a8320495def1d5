/**
  What the foreground reads of what the audio interrupt writes. The interrupt may
  run, whole, between any two of the foreground's reads; nothing else is assumed of
  when it runs.
 */
module ProfileHandover {
  import opened ProfileWords

  // ---- the published window: an epoch re-read ---------------------------------------------

  /** What is published after the interrupts of a gap. */
  function After(pub: Fields, gap: seq<Fields>): Fields {
    if gap == [] then pub else gap[|gap| - 1]
  }

  /** And by the time gap j is over. */
  function PubAt(pub: Fields, gaps: seq<seq<Fields>>, j: nat): Fields
    requires j < |gaps|
  {
    After(if j == 0 then pub else PubAt(pub, gaps, j - 1), gaps[j])
  }

  /** How many windows the first n gaps publish. */
  function Windows(gaps: seq<seq<Fields>>, n: nat): nat
    requires n <= |gaps|
  {
    if n == 0 then 0 else Windows(gaps, n - 1) + |gaps[n - 1]|
  }

  class Board {
    const k: nat
    var pub: Fields
    var winN: Word

    /** The interrupt's windows so far. */
    ghost var epoch: nat

    ghost predicate Valid()
      reads this
    {
      |pub| == k && winN == Wrap(epoch)
    }

    constructor (k: nat)
      ensures Valid() && this.k == k && epoch == 0
    {
      this.k := k;
      pub := seq(k, _ => 0);
      winN, epoch := 0, 0;
    }

    /** The interrupt, as often as it runs in one gap. */
    method Interrupts(gap: seq<Fields>)
      requires Valid() && AllWide(gap, k)
      modifies this
      ensures Valid() && pub == After(old(pub), gap) && epoch == old(epoch) + |gap|
    {
      for i := 0 to |gap|
        invariant Valid() && pub == After(old(pub), gap[..i]) && epoch == old(epoch) + i
      {
        WrapAdd(epoch, 1);
        WrapSmall(1);
        pub := gap[i];
        winN := Add(winN, 1);
        epoch := epoch + 1;
      }
      assert gap[..|gap|] == gap;
    }

    /** One pass of the foreground's loop: the epoch, the fields one by one, the
        epoch again. */
    method ReadOnce(gaps: seq<seq<Fields>>) returns (wn: Word, copy: Fields, stable: bool)
      requires Valid() && |gaps| == k + 1 && forall j | 0 <= j <= k :: AllWide(gaps[j], k)
      modifies this
      ensures Valid() && wn == old(winN) && |copy| == k && epoch == old(epoch) + Windows(gaps, k + 1)
      ensures pub == PubAt(old(pub), gaps, k)
      ensures forall j | 0 <= j < k :: |PubAt(old(pub), gaps, j)| == k && copy[j] == PubAt(old(pub), gaps, j)[j]
      ensures stable <==> Windows(gaps, k + 1) % M == 0
    {
      hide Wrap, After, AllWide;
      ghost var pub0, epoch0 := pub, epoch;
      wn := winN;
      copy := [];
      for j := 0 to k
        invariant Valid() && |copy| == j && epoch == epoch0 + Windows(gaps, j)
        invariant pub == if j == 0 then pub0 else PubAt(pub0, gaps, j - 1)
        invariant forall i | 0 <= i < j :: |PubAt(pub0, gaps, i)| == k && copy[i] == PubAt(pub0, gaps, i)[i]
      {
        Interrupts(gaps[j]);
        copy := copy + [pub[j]];
      }
      Interrupts(gaps[k]);
      stable := wn == winN;
      SameEpoch(epoch0, Windows(gaps, k + 1));
    }

    /** The loop, for as many passes as it takes: it leaves with the fields of one
        window, the one published when it leaves, unless 2^32 windows were published
        within a single pass. */
    method ReadWindow(passes: seq<seq<seq<Fields>>>) returns (done: bool, wn: Word, copy: Fields)
      requires Valid()
      requires forall i | 0 <= i < |passes| ::
                 |passes[i]| == k + 1 && Windows(passes[i], k + 1) < M
                 && forall j | 0 <= j <= k :: AllWide(passes[i][j], k)
      modifies this
      ensures Valid()
      ensures done ==> copy == pub && wn == winN == Wrap(epoch)
      ensures !done ==> forall i | 0 <= i < |passes| :: Windows(passes[i], k + 1) > 0
    {
      done, wn, copy := false, 0, [];
      for i := 0 to |passes|
        invariant Valid()
        invariant forall p | 0 <= p < i :: Windows(passes[p], k + 1) > 0
      {
        ghost var pub0 := pub;
        var stable;
        wn, copy, stable := ReadOnce(passes[i]);
        if stable {
          QuietPass(pub0, passes[i], k);
          assert copy == pub;
          return true, wn, copy;
        }
      }
    }
  }

  lemma {:induction false} SameEpoch(e: nat, n: nat)
    ensures Wrap(e) == Wrap(e + n) <==> n % M == 0
  {
    var q := n / M;
    assert n == q * M + n % M;
    if n % M == 0 {
      SameResidue(e + n, e, q);
    } else if Wrap(e) == Wrap(e + n) {
      var a, b := e / M, (e + n) / M;
      assert n == (b - a) * M;
      SameResidue(n, 0, b - a);
    }
  }

  /** A pass in which nothing is published copies what stands. */
  lemma {:induction false} QuietPass(pub: Fields, gaps: seq<seq<Fields>>, k: nat)
    requires |gaps| == k + 1 && Windows(gaps, k + 1) % M == 0 && Windows(gaps, k + 1) < M
    ensures forall j | 0 <= j <= k :: PubAt(pub, gaps, j) == pub
  {
    assert Windows(gaps, k + 1) == 0;
    forall j | 0 <= j <= k
      ensures PubAt(pub, gaps, j) == pub
    {
      NothingBefore(pub, gaps, k + 1, j);
    }
  }

  lemma {:induction false} NothingBefore(pub: Fields, gaps: seq<seq<Fields>>, n: nat, j: nat)
    requires j < n <= |gaps| && Windows(gaps, n) == 0
    ensures PubAt(pub, gaps, j) == pub
    decreases n
  {
    if j < n - 1 {
      NothingBefore(pub, gaps, n - 1, j);
    } else {
      if j > 0 { NothingBefore(pub, gaps, n - 1, j - 1); }
    }
  }

  /** The bound is exact: with 2^32 windows in one pass the epochs agree and the copy
      is torn, its first field from one window and its second from another. */
  lemma {:induction false} TornAtTheBound(a: Word, b: Word)
    requires a != b
    ensures var pub, gaps := [a, a], [[], seq(M, _ => [b, b]), []];
            && Windows(gaps, 3) == M
            && [PubAt(pub, gaps, 0)[0], PubAt(pub, gaps, 1)[1]] == [a, b]
            && PubAt(pub, gaps, 2) == [b, b]
  {
    var pub, gaps := [a, a], [[], seq(M, _ => [b, b]), []];
    assert Windows(gaps, 1) == 0;
    assert Windows(gaps, 2) == M;
    assert Windows(gaps, 3) == M;
    assert PubAt(pub, gaps, 0) == pub;
    assert PubAt(pub, gaps, 1) == [b, b];
  }
}
