/**
  The ring of notable blocks: the interrupt writes entries, the foreground prints
  those it has not printed, field by field, and reports how many it has lost. Both
  counters wrap at 2^32; the ring's 64 slots divide it.
 */
module ProfileRing {
  import opened ProfileWords

  const RING: nat := 64

  type Rec = Fields

  /** The newest entry of a log in the slot that entry e went into. */
  function Newest(log: seq<Rec>, e: nat): Rec
    requires e < |log|
  {
    log[e + (|log| - 1 - e) / RING * RING]
  }

  /** It is e itself until 64 more have been written. */
  lemma {:induction false} NewestIs(log: seq<Rec>, e: nat)
    requires e < |log|
    ensures var n := e + (|log| - 1 - e) / RING * RING;
            n < |log| <= n + 64 && n % 64 == e % 64 && (|log| <= e + RING ==> n == e)
  {
    var q := (|log| - 1 - e) / RING;
    SameSlot(e + q * RING, e, q);
  }

  lemma {:induction false} SlotOf(e: nat)
    ensures Wrap(e) % RING == e % RING
  {
    var q := e / M;
    assert e == q * M + Wrap(e);
    assert M == 67108864 * RING;
    SameSlot(e, Wrap(e), q * 67108864);
  }

  lemma {:induction false} SameSlot(x: nat, y: nat, q: nat)
    requires x == y + q * RING
    ensures x % RING == y % RING
  {
  }

  class Ring {
    const k: nat
    const slots: array<Rec>
    var w: Word
    var r: Word

    ghost predicate Shaped() { slots.Length == RING }

    /** Of all entries ever written, log, the slots hold the last 64. */
    ghost predicate Keeps(log: seq<Rec>)
      requires Shaped()
      reads this`w, slots
    {
      && AllWide(log, k) && w == Wrap(|log|)
      && forall e: nat | e < |log| <= e + RING :: slots[e % RING] == log[e]
    }

    constructor (k: nat)
      ensures Shaped() && fresh(slots) && Keeps([]) && r == 0 && this.k == k
    {
      this.k := k;
      slots := new Rec[RING](_ => seq(k, _ => 0));
      w, r := 0, 0;
    }

    /** The interrupt: the entry first, the counter after it. */
    method Write(ghost log: seq<Rec>, rec: Rec)
      requires Shaped() && Keeps(log) && |rec| == k
      modifies this`w, slots
      ensures Keeps(log + [rec])
    {
      SlotOf(|log|);
      slots[w % RING] := rec;
      forall e: nat | e < |log| <= e + RING - 1
        ensures slots[e % RING] == log[e]
      {
        OtherSlot(e, |log|);
      }
      WrapAdd(|log|, 1);
      WrapSmall(1);
      w := Add(w, 1);
    }

    method Writes(ghost log: seq<Rec>, gap: seq<Rec>)
      requires Shaped() && Keeps(log) && AllWide(gap, k)
      modifies this`w, slots
      ensures Keeps(log + gap)
    {
      hide Keeps;
      assert log + gap[..0] == log;
      for i := 0 to |gap|
        invariant Keeps(log + gap[..i])
      {
        assert log + gap[..i] + [gap[i]] == log + gap[..i + 1];
        Write(log + gap[..i], gap[i]);
      }
      assert gap[..|gap|] == gap;
    }

    /** One entry copied field by field; e is its index among all ever written. Each field
        is that of the newest entry in the slot when it is read: e's, until overtaken. */
    method Copy(ghost log: seq<Rec>, ghost e: nat, at: Word, gaps: seq<seq<Rec>>) returns (copy: Rec)
      requires Shaped() && Keeps(log) && e < |log| && at == Wrap(e)
      requires |gaps| == k && forall f | 0 <= f < k :: AllWide(gaps[f], k)
      modifies this`w, slots
      ensures Keeps(log + Joined(gaps, k))
      ensures |copy| == k && CopiedFrom(copy, log, e, gaps)
      ensures |log + Joined(gaps, k)| <= e + RING ==> copy == log[e]
    {
      hide Keeps, Newest;
      SlotOf(e);
      copy := [];
      assert log + Joined(gaps, 0) == log;
      Kept(log, e);
      for f := 0 to k
        invariant Keeps(log + Joined(gaps, f)) && |copy| == f
        invariant |log + Joined(gaps, f)| <= e + RING ==> |log[e]| == k && copy == log[e][..f]
        invariant forall g | 0 <= g < f :: CopiedField(copy, log, e, gaps, g)
      {
        Writes(log + Joined(gaps, f), gaps[f]);
        assert log + Joined(gaps, f) + gaps[f] == log + Joined(gaps, f + 1);
        Kept(log + Joined(gaps, f + 1), e);
        var rec := slots[at % RING];
        InSlot(log + Joined(gaps, f + 1), e);
        ghost var before := copy;
        copy := copy + [if f < |rec| then rec[f] else 0];
        assert forall g | 0 <= g < f :: CopiedField(before, log, e, gaps, g) ==> CopiedField(copy, log, e, gaps, g);
      }
    }

    /** A slot holds the newest entry that went into it. */
    lemma InSlot(log: seq<Rec>, e: nat)
      requires Shaped() && Keeps(log) && e < |log|
      ensures slots[e % RING] == Newest(log, e) && |Newest(log, e)| == k
    {
      NewestIs(log, e);
    }

    /** Field f was copied from the newest entry in e's slot when f gaps and one had passed. */
    ghost predicate CopiedField(copy: Rec, log: seq<Rec>, e: nat, gaps: seq<seq<Rec>>, f: nat)
      requires e < |log| && f < |gaps|
    {
      var rec := Newest(log + Joined(gaps, f + 1), e);
      f < |copy| && f < |rec| && copy[f] == rec[f]
    }

    ghost predicate CopiedFrom(copy: Rec, log: seq<Rec>, e: nat, gaps: seq<seq<Rec>>)
      requires e < |log|
    {
      forall f | 0 <= f < |gaps| :: CopiedField(copy, log, e, gaps, f)
    }

    lemma Kept(log: seq<Rec>, e: nat)
      requires Shaped() && Keeps(log) && e < |log|
      ensures |log[e]| == k && (|log| <= e + RING ==> slots[e % RING] == log[e])
    {
    }

    lemma CountIs(log: seq<Rec>)
      requires Shaped() && Keeps(log)
      ensures w == Wrap(|log|)
    {
    }

    /** What the ring no longer holds is skipped, and counted. */
    method Skip(now: Word, ghost n: nat, ghost seen: nat) returns (lost: nat)
      requires r == Wrap(seen) && now == Wrap(n) && seen <= n < seen + M
      modifies this`r
      ensures lost == (if n - seen > RING then n - seen - RING else 0) && r == Wrap(seen + lost)
    {
      WrapSub(n, seen);
      WrapSmall(n - seen);
      lost := 0;
      if Sub(now, r) > RING {
        lost := Sub(now, r) - RING;
        WrapSub(n, RING);
        WrapSmall(RING);
        r := Sub(now, RING);
      }
    }

    /** The report: seen is how many entries it had dealt with before. Printed and
        lost entries together are all written since; an entry is printed as it was
        written unless 64 more had been written by the time its copy was done. */
    method Report(ghost log: seq<Rec>, ghost seen: nat, sched: seq<seq<seq<Rec>>>)
      returns (lost: nat, printed: seq<Rec>)
      requires Shaped() && Keeps(log) && r == Wrap(seen) && seen <= |log| < seen + M
      requires |sched| == RING && Scheduled(sched, k)
      modifies this`w, this`r, slots
      ensures lost + |printed| == |log| - seen && |printed| <= RING && r == Wrap(|log|)
      ensures lost > 0 ==> |printed| == RING
      ensures Exact(log, printed, sched)
    {
      hide Keeps, Wrap, Scheduled, LogAfter, ExactAt;
      CountIs(log);
      var now := w;
      lost := Skip(now, |log|, seen);
      ghost var first := seen + lost;
      printed := [];
      LogAfterNone(log, sched, k);
      while r != now
        invariant 0 <= |printed| <= |log| - first <= RING && r == Wrap(first + |printed|)
        invariant Keeps(LogAfter(log, sched, k, |printed|))
        invariant forall j | 0 <= j < |printed| :: ExactAt(log, printed[j], sched, first + j, j)
        decreases |log| - first - |printed|
      {
        NotDone(first + |printed|, |log|);
        var copy := CopyNext(log, sched, first, |printed|);
        printed := printed + [copy];
      }
      Done(first + |printed|, |log|);
    }

    method CopyNext(ghost log: seq<Rec>, sched: seq<seq<seq<Rec>>>, ghost first: nat, j: nat) returns (copy: Rec)
      requires Shaped() && Scheduled(sched, k) && j < |sched| && first + j < |log| && r == Wrap(first + j)
      requires Keeps(LogAfter(log, sched, k, j))
      modifies this`w, this`r, slots
      ensures Keeps(LogAfter(log, sched, k, j + 1)) && ExactAt(log, copy, sched, first + j, j)
      ensures r == Wrap(first + j + 1)
    {
      hide Keeps, Wrap;
      LogGrows(log, sched, k, j);
      copy := Copy(LogAfter(log, sched, k, j), first + j, r, sched[j]);
      WrapOne(first + j);
      r := Add(r, 1);
    }

    /** Entry e, copied as the j-th: field by field the newest in its slot, and e whole if
        it was still in the ring at the end of that. */
    ghost predicate ExactAt(log: seq<Rec>, copy: Rec, sched: seq<seq<seq<Rec>>>, e: nat, j: nat)
      requires Scheduled(sched, k) && j < |sched| && e < |log|
    {
      LogGrows(log, sched, k, j);
      && CopiedFrom(copy, LogAfter(log, sched, k, j), e, sched[j])
      && (|LogAfter(log, sched, k, j + 1)| <= e + RING ==> copy == log[e])
    }

    ghost predicate Exact(log: seq<Rec>, printed: seq<Rec>, sched: seq<seq<seq<Rec>>>)
      requires Scheduled(sched, k) && |printed| <= |sched| && |printed| <= |log|
    {
      forall j | 0 <= j < |printed| :: ExactAt(log, printed[j], sched, |log| - |printed| + j, j)
    }
  }

  lemma {:induction false} LogAfterNone(log: seq<Rec>, sched: seq<seq<seq<Rec>>>, k: nat)
    requires Scheduled(sched, k)
    ensures LogAfter(log, sched, k, 0) == log
  {
  }

  lemma {:induction false} NotDone(x: nat, y: nat)
    requires x <= y && Wrap(x) != Wrap(y)
    ensures x < y
  {
  }

  lemma {:induction false} Done(x: nat, y: nat)
    requires x <= y < x + M && Wrap(x) == Wrap(y)
    ensures x == y
  {
    var a, b := x / M, y / M;
    assert x == a * M + Wrap(x) && y == b * M + Wrap(y);
  }

  lemma {:induction false} OtherSlot(e: nat, n: nat)
    requires e < n <= e + RING - 1
    ensures e % RING != n % RING
  {
    var a, b := e / RING, n / RING;
    assert e == a * RING + e % RING && n == b * RING + n % RING;
  }

  /** All that n gaps wrote. */
  function Joined(gaps: seq<seq<Rec>>, n: nat): seq<Rec>
    requires n <= |gaps|
  {
    if n == 0 then [] else Joined(gaps, n - 1) + gaps[n - 1]
  }

  /** What the interrupt writes while each of the entries is copied. */
  predicate Scheduled(sched: seq<seq<seq<Rec>>>, k: nat) {
    forall j | 0 <= j < |sched| :: |sched[j]| == k && forall f | 0 <= f < k :: AllWide(sched[j][f], k)
  }

  /** The log once the first n entries have been copied. */
  function LogAfter(log: seq<Rec>, sched: seq<seq<seq<Rec>>>, k: nat, n: nat): seq<Rec>
    requires Scheduled(sched, k) && n <= |sched|
  {
    if n == 0 then log else LogAfter(log, sched, k, n - 1) + Joined(sched[n - 1], k)
  }

  lemma {:induction false} LogGrows(log: seq<Rec>, sched: seq<seq<seq<Rec>>>, k: nat, n: nat)
    requires Scheduled(sched, k) && n <= |sched|
    ensures log <= LogAfter(log, sched, k, n)
  {
    if n > 0 { LogGrows(log, sched, k, n - 1); }
  }
}
