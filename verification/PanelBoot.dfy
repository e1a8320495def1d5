/**
  Writing a whole panel at boot: the boot take, which writes the ENGINE rows first,
  the single pass of a boot patch, and the mute that covers the take.
 */
module PanelBoot {
  import opened Options
  import opened Params
  import opened PanelKnobs

  // ---- one pass in row order ------------------------------------------------------------

  function Write(rs: Ranges, r: Row, ks: Knobs): Knobs {
    if Sends(r) && 0 <= KnobTarget(r, ks) < NUM_PARAMS then
      ks[KnobTarget(r, ks) := KnobFromPot(rs, KnobTarget(r, ks), r.v.value)]
    else ks
  }

  /** The knobs after the first n rows. */
  function Single(rs: Ranges, rows: seq<Row>, ks: Knobs, n: nat): Knobs
    requires n <= |rows|
  {
    if n == 0 then ks else Write(rs, rows[n - 1], Single(rs, rows, ks, n - 1))
  }

  /** A deck's ENGINE row comes before its rows with an alternate. */
  predicate EnginesFirst(rows: seq<Row>) {
    forall i, j | 0 <= i < |rows| && 0 <= j < |rows| ::
      (Sends(rows[i]) && Sends(rows[j]) && RowOk(rows[j]) && rows[j].alt >= 0
       && rows[i].param == EngineOf(rows[j].param)) ==> i < j
  }

  /** Then the single pass comes to what writing the panel should come to. */
  lemma {:induction false} SingleLands(rs: Ranges, rows: seq<Row>, ks: Knobs, n: nat)
    requires PanelOk(rows) && EnginesFirst(rows) && n <= |rows|
    ensures Landed(rs, rows[..n], ks, Single(rs, rows, ks, n))
    decreases n
  {
    hide Single, Landed, PanelOk, EnginesFirst;
    if n == 0 {
      NothingLands(rs, rows[..0], ks);
      SingleNone(rs, rows, ks);
    } else {
      SingleLands(rs, rows, ks, n - 1);
      SingleStep(rs, rows, ks, n);
      OneMoreLands(rs, rows, n, ks, Single(rs, rows, ks, n - 1));
    }
  }

  lemma {:induction false} SingleNone(rs: Ranges, rows: seq<Row>, ks: Knobs)
    ensures Single(rs, rows, ks, 0) == ks
  {
  }

  lemma {:induction false} SingleStep(rs: Ranges, rows: seq<Row>, ks: Knobs, n: nat)
    requires 0 < n <= |rows|
    ensures Single(rs, rows, ks, n) == Write(rs, rows[n - 1], Single(rs, rows, ks, n - 1))
  {
  }

  lemma {:induction false} NothingLands(rs: Ranges, rows: seq<Row>, ks: Knobs)
    requires rows == []
    ensures Landed(rs, rows, ks, ks)
  {
  }

  /** Writing one row more moves no earlier row's target and overwrites none. */
  lemma {:induction false} EarlierStays(rs: Ranges, rows: seq<Row>, n: nat, k: Knobs, i: nat)
    requires PanelOk(rows) && EnginesFirst(rows) && i < n - 1 < |rows| && Sends(rows[i])
    ensures var k' := Write(rs, rows[n - 1], k);
            KnobTarget(rows[i], k') == KnobTarget(rows[i], k) && k'[KnobTarget(rows[i], k)] == k[KnobTarget(rows[i], k)]
  {
    var r, last := rows[i], rows[n - 1];
    var t := KnobTarget(last, k);
    assert RowOk(r) && RowOk(last);
    assert MayWrite(r, KnobTarget(r, k));
    assert MayWrite(r, r.param) && !MayWrite(last, r.param);
    if Sends(last) {
      assert MayWrite(last, t);
      assert t != KnobTarget(r, k);
      if r.alt >= 0 {
        assert t == EngineOf(r.param) ==> last.param == t;
      }
    }
  }

  /** The row just written is where its target is. */
  lemma {:induction false} LastLands(rs: Ranges, r: Row, k: Knobs)
    requires RowOk(r) && Sends(r)
    ensures KnobTarget(r, Write(rs, r, k)) == KnobTarget(r, k) && LandedRow(rs, r, Write(rs, r, k))
  {
  }

  lemma {:induction false} OneMoreLands(rs: Ranges, rows: seq<Row>, n: nat, before: Knobs, k: Knobs)
    requires PanelOk(rows) && EnginesFirst(rows) && 0 < n <= |rows|
    requires Landed(rs, rows[..n - 1], before, k)
    ensures Landed(rs, rows[..n], before, Write(rs, rows[n - 1], k))
  {
    hide PanelOk, EnginesFirst, KnobTarget, KnobFromPot, Write;
    var k' := Write(rs, rows[n - 1], k);
    forall i | 0 <= i < n && RowOk(rows[i]) && Sends(rows[i])
      ensures LandedRow(rs, rows[i], k')
    {
      if i < n - 1 {
        EarlierStays(rs, rows, n, k, i);
        assert rows[..n - 1][i] == rows[i];
        assert LandedRow(rs, rows[i], k);
      } else {
        LastLands(rs, rows[i], k);
      }
    }
    forall x | 0 <= x < NUM_PARAMS && Untouched(rows[..n], k', x)
      ensures k'[x] == before[x]
    {
      UntouchedBefore(rs, rows, n, k, x);
    }
  }

  lemma {:induction false} UntouchedBefore(rs: Ranges, rows: seq<Row>, n: nat, k: Knobs, x: nat)
    requires PanelOk(rows) && EnginesFirst(rows) && 0 < n <= |rows| && x < NUM_PARAMS
    requires Untouched(rows[..n], Write(rs, rows[n - 1], k), x)
    ensures Untouched(rows[..n - 1], k, x) && Write(rs, rows[n - 1], k)[x] == k[x]
  {
    hide EnginesFirst, KnobTarget, KnobFromPot;
    var k' := Write(rs, rows[n - 1], k);
    var last := rows[..n][n - 1];
    assert last == rows[n - 1] && RowOk(last);
    if Sends(last) {
      LastLands(rs, last, k);
    }
    forall i | 0 <= i < n - 1
      ensures !(RowOk(rows[i]) && Sends(rows[i]) && KnobTarget(rows[i], k) == x)
    {
      if Sends(rows[i]) {
        EarlierStays(rs, rows, n, k, i);
        assert rows[..n][i] == rows[i];
      }
    }
  }

  // ---- the boot take ------------------------------------------------------------------------

  function Only(rows: seq<Row>, engines: bool): seq<Row> {
    if rows == [] then []
    else Only(rows[..|rows| - 1], engines)
         + if IsEngine(rows[|rows| - 1].param) == engines then [rows[|rows| - 1]] else []
  }

  /** The order the take writes in. */
  function Ordered(rows: seq<Row>): seq<Row> { Only(rows, true) + Only(rows, false) }

  function Take(rs: Ranges, rows: seq<Row>, ks: Knobs): Knobs {
    Single(rs, Ordered(rows), ks, |Ordered(rows)|)
  }

  lemma {:induction false} OnlyAre(rows: seq<Row>, engines: bool)
    ensures forall i | 0 <= i < |Only(rows, engines)| :: IsEngine(Only(rows, engines)[i].param) == engines
  {
    if rows != [] {
      OnlyAre(rows[..|rows| - 1], engines);
    }
  }

  lemma {:induction false} OrderedIsPermutation(rows: seq<Row>)
    ensures multiset(Ordered(rows)) == multiset(rows)
  {
    if rows != [] {
      var rest, last := rows[..|rows| - 1], rows[|rows| - 1];
      OrderedIsPermutation(rest);
      assert rows == rest + [last];
    }
  }

  lemma {:induction false} OrderedHasEnginesFirst(rows: seq<Row>)
    ensures EnginesFirst(Ordered(rows))
  {
    OnlyAre(rows, true);
    OnlyAre(rows, false);
    var all := Ordered(rows);
    forall i, j | 0 <= i < |all| && 0 <= j < |all| && Sends(all[i]) && Sends(all[j]) && RowOk(all[j]) && all[j].alt >= 0
                  && all[i].param == EngineOf(all[j].param)
      ensures i < j
    {
      assert IsEngine(all[i].param) && !IsEngine(all[j].param);
    }
  }

  /** The take writes what the panel shows: every row where its deck's final ENGINE
      value sends it. */
  lemma {:induction false} TakeLands(rs: Ranges, rows: seq<Row>, ks: Knobs)
    requires PanelOk(rows)
    ensures Landed(rs, rows, ks, Take(rs, rows, ks))
  {
    hide PanelOk, Landed, EnginesFirst, Single, Only;
    var all := Ordered(rows);
    OrderedIsPermutation(rows);
    PanelInAnyOrder(rows, all);
    OrderedHasEnginesFirst(rows);
    SingleLands(rs, all, ks, |all|);
    assert all[..|all|] == all;
    LandedInAnyOrder(rs, all, rows, ks, Take(rs, rows, ks));
  }

  /** So it does not matter in which order the table lists the rows. */
  lemma {:induction false} TakeInAnyOrder(rs: Ranges, rows: seq<Row>, other: seq<Row>, ks: Knobs)
    requires PanelOk(rows) && multiset(rows) == multiset(other)
    ensures Take(rs, rows, ks) == Take(rs, other, ks)
  {
    hide PanelOk, Landed, Take;
    PanelInAnyOrder(rows, other);
    TakeLands(rs, rows, ks);
    TakeLands(rs, other, ks);
    LandedInAnyOrder(rs, other, rows, ks, Take(rs, other, ks));
    LandedIsUnique(rs, rows, ks, Take(rs, rows, ks), Take(rs, other, ks));
  }

  // ---- exactly when the single pass agrees -----------------------------------------------

  /** Where row i is written in the pass. */
  function Written(rs: Ranges, rows: seq<Row>, ks: Knobs, i: nat): int
    requires i < |rows|
  {
    KnobTarget(rows[i], Single(rs, rows, ks, i))
  }

  /** What the pass writes there stays. */
  lemma {:induction false} SingleAt(rs: Ranges, rows: seq<Row>, ks: Knobs, n: nat, i: nat)
    requires PanelOk(rows) && i < n <= |rows| && Sends(rows[i])
    ensures 0 <= Written(rs, rows, ks, i) < NUM_PARAMS
    ensures var t := Written(rs, rows, ks, i); Single(rs, rows, ks, n)[t] == KnobFromPot(rs, t, rows[i].v.value)
    decreases n
  {
    hide KnobFromPot, OnBbd, Single;
    assert RowOk(rows[i]);
    SingleStep(rs, rows, ks, n);
    if i < n - 1 {
      SingleAt(rs, rows, ks, n - 1, i);
      var t, k := Written(rs, rows, ks, i), Single(rs, rows, ks, n - 1);
      assert RowOk(rows[n - 1]) && MayWrite(rows[i], t);
      assert Sends(rows[n - 1]) ==> MayWrite(rows[n - 1], KnobTarget(rows[n - 1], k));
    }
  }

  /** An id no row is written to keeps what it had. */
  lemma {:induction false} SingleElse(rs: Ranges, rows: seq<Row>, ks: Knobs, n: nat, x: nat)
    requires n <= |rows| && x < NUM_PARAMS
    requires forall i | 0 <= i < n :: Sends(rows[i]) ==> Written(rs, rows, ks, i) != x
    ensures Single(rs, rows, ks, n)[x] == ks[x]
    decreases n
  {
    hide KnobFromPot, KnobTarget, Single;
    if n == 0 {
      SingleNone(rs, rows, ks);
    } else {
      SingleElse(rs, rows, ks, n - 1, x);
      SingleStep(rs, rows, ks, n);
      assert Written(rs, rows, ks, n - 1) == KnobTarget(rows[n - 1], Single(rs, rows, ks, n - 1));
    }
  }

  /** A deck's ENGINE row that sends. */
  predicate SendsEngine(rows: seq<Row>, j: nat, e: int)
    requires j < |rows|
  {
    Sends(rows[j]) && rows[j].param == e
  }

  /** Only the ENGINE row writes the ENGINE knob. */
  lemma {:induction false} EngineBefore(rs: Ranges, rows: seq<Row>, ks: Knobs, n: nat, e: nat)
    requires PanelOk(rows) && n <= |rows| && IsEngine(e) && forall j | 0 <= j < n :: !SendsEngine(rows, j, e)
    ensures Single(rs, rows, ks, n)[e] == ks[e]
  {
    hide KnobFromPot, Single, OnBbd;
    forall i | 0 <= i < n && Sends(rows[i])
      ensures Written(rs, rows, ks, i) != e
    {
      assert RowOk(rows[i]) && !SendsEngine(rows, i, e);
    }
    SingleElse(rs, rows, ks, n, e);
  }

  lemma {:induction false} EngineAfter(rs: Ranges, rows: seq<Row>, ks: Knobs, n: nat, j: nat, e: nat)
    requires PanelOk(rows) && j < n <= |rows| && IsEngine(e) && SendsEngine(rows, j, e)
    ensures Single(rs, rows, ks, n)[e] == KnobFromPot(rs, e, rows[j].v.value)
  {
    hide KnobFromPot, Single, OnBbd;
    assert RowOk(rows[j]) && Written(rs, rows, ks, j) == e;
    SingleAt(rs, rows, ks, n, j);
  }

  /** A row's two values are in its two ids already. */
  predicate AlreadyThere(rs: Ranges, r: Row, ks: Knobs)
    requires RowOk(r) && Sends(r) && r.alt >= 0
  {
    ks[r.param] == KnobFromPot(rs, r.param, r.v.value) && ks[r.alt] == KnobFromPot(rs, r.alt, r.v.value)
  }

  /** Row i has an alternate, and its deck's ENGINE row comes after it. */
  predicate IsAhead(rows: seq<Row>, i: nat, j: nat)
    requires i < |rows| && j < |rows|
  {
    && i < j && RowOk(rows[i]) && Sends(rows[i]) && rows[i].alt >= 0 && rows[i].alt != rows[i].param
    && SendsEngine(rows, j, EngineOf(rows[i].param))
  }

  /** Then the ENGINE row does not change whether the deck is on the BBD, or it does
      not matter. */
  predicate IsHarmless(rs: Ranges, rows: seq<Row>, ks: Knobs, i: nat, j: nat)
    requires i < |rows| && j < |rows| && IsAhead(rows, i, j)
  {
    var e := EngineOf(rows[i].param);
    (OnBbd(ks[e]) <==> OnBbd(KnobFromPot(rs, e, rows[j].v.value))) || AlreadyThere(rs, rows[i], ks)
  }

  ghost predicate AllHarmless(rs: Ranges, rows: seq<Row>, ks: Knobs) {
    forall i: nat, j: nat | i < |rows| && j < |rows| && IsAhead(rows, i, j) :: IsHarmless(rs, rows, ks, i, j)
  }

  /** Where row i is written in the pass and where it belongs in the end are the same,
      or a later ENGINE row has moved it from one of its ids to the other. */
  lemma {:induction false} Moved(rs: Ranges, rows: seq<Row>, ks: Knobs, i: nat) returns (j: nat)
    requires PanelOk(rows) && i < |rows| && Sends(rows[i])
    requires Written(rs, rows, ks, i) != KnobTarget(rows[i], Single(rs, rows, ks, |rows|))
    ensures j < |rows| && IsAhead(rows, i, j)
    ensures var e := EngineOf(rows[i].param);
            OnBbd(ks[e]) != OnBbd(KnobFromPot(rs, e, rows[j].v.value))
  {
    hide KnobFromPot, Single, OnBbd;
    assert RowOk(rows[i]);
    var e := EngineOf(rows[i].param);
    if k :| 0 <= k < i && SendsEngine(rows, k, e) {
      EngineAfter(rs, rows, ks, i, k, e);
      EngineAfter(rs, rows, ks, |rows|, k, e);
      assert false;
    }
    EngineBefore(rs, rows, ks, i, e);
    assert !SendsEngine(rows, i, e);
    if k :| i < k < |rows| && SendsEngine(rows, k, e) {
      j := k;
      EngineAfter(rs, rows, ks, |rows|, k, e);
    } else {
      EngineBefore(rs, rows, ks, |rows|, e);
      assert false;
    }
  }

  /** The other way round: a late ENGINE row that changes whether the deck is on the BBD
      moves the row. */
  lemma {:induction false} LateMoves(rs: Ranges, rows: seq<Row>, ks: Knobs, i: nat, j: nat)
    requires PanelOk(rows) && i < |rows| && j < |rows| && IsAhead(rows, i, j)
    requires var e := EngineOf(rows[i].param); OnBbd(ks[e]) != OnBbd(KnobFromPot(rs, e, rows[j].v.value))
    ensures Written(rs, rows, ks, i) != KnobTarget(rows[i], Single(rs, rows, ks, |rows|))
  {
    hide KnobFromPot, Single, OnBbd;
    var e := EngineOf(rows[i].param);
    forall k | 0 <= k < i
      ensures !SendsEngine(rows, k, e)
    {
      assert MayWrite(rows[j], e);
      assert SendsEngine(rows, k, e) ==> MayWrite(rows[k], e);
    }
    EngineBefore(rs, rows, ks, i, e);
    EngineAfter(rs, rows, ks, |rows|, j, e);
  }

  /** Only row i may write its two ids: the one it is not written to keeps what it had. */
  lemma {:induction false} OtherIdKeeps(rs: Ranges, rows: seq<Row>, ks: Knobs, i: nat, x: nat)
    requires PanelOk(rows) && i < |rows| && Sends(rows[i]) && x < NUM_PARAMS && MayWrite(rows[i], x)
    requires Written(rs, rows, ks, i) != x
    ensures Single(rs, rows, ks, |rows|)[x] == ks[x]
  {
    hide KnobFromPot, Single, OnBbd;
    forall k | 0 <= k < |rows| && Sends(rows[k])
      ensures Written(rs, rows, ks, k) != x
    {
      assert RowOk(rows[k]) && MayWrite(rows[k], Written(rs, rows, ks, k));
    }
    SingleElse(rs, rows, ks, |rows|, x);
  }

  lemma {:induction false} HarmlessLands(rs: Ranges, rows: seq<Row>, ks: Knobs)
    requires PanelOk(rows) && AllHarmless(rs, rows, ks)
    ensures Landed(rs, rows, ks, Single(rs, rows, ks, |rows|))
  {
    hide KnobFromPot, Single, OnBbd, AllHarmless, PanelOk;
    var after := Single(rs, rows, ks, |rows|);
    forall i | 0 <= i < |rows| && RowOk(rows[i]) && Sends(rows[i])
      ensures LandedRow(rs, rows[i], after)
    {
      RowLands(rs, rows, ks, i);
    }
    forall x | 0 <= x < NUM_PARAMS && Untouched(rows, after, x)
      ensures after[x] == ks[x]
    {
      if i :| 0 <= i < |rows| && Sends(rows[i]) && Written(rs, rows, ks, i) == x {
        PanelRowOk(rows, i);
        assert KnobTarget(rows[i], after) != x;
        RowStays(rs, rows, ks, i);
      } else {
        SingleElse(rs, rows, ks, |rows|, x);
      }
    }
  }

  lemma {:induction false} PanelRowOk(rows: seq<Row>, i: nat)
    requires PanelOk(rows) && i < |rows|
    ensures RowOk(rows[i])
  {
  }

  /** A moved row's values are in both its ids. */
  lemma {:induction false} RowStays(rs: Ranges, rows: seq<Row>, ks: Knobs, i: nat)
    requires PanelOk(rows) && AllHarmless(rs, rows, ks) && i < |rows| && Sends(rows[i])
    requires Written(rs, rows, ks, i) != KnobTarget(rows[i], Single(rs, rows, ks, |rows|))
    ensures RowOk(rows[i]) && rows[i].alt >= 0 && AlreadyThere(rs, rows[i], ks)
    ensures 0 <= Written(rs, rows, ks, i) < NUM_PARAMS
    ensures Single(rs, rows, ks, |rows|)[Written(rs, rows, ks, i)] == ks[Written(rs, rows, ks, i)]
  {
    hide KnobFromPot, Single, OnBbd, PanelOk;
    PanelRowOk(rows, i);
    var j := Moved(rs, rows, ks, i);
    assert IsHarmless(rs, rows, ks, i, j);
    SingleAt(rs, rows, ks, |rows|, i);
  }

  lemma {:induction false} RowLands(rs: Ranges, rows: seq<Row>, ks: Knobs, i: nat)
    requires PanelOk(rows) && AllHarmless(rs, rows, ks) && i < |rows| && RowOk(rows[i]) && Sends(rows[i])
    ensures LandedRow(rs, rows[i], Single(rs, rows, ks, |rows|))
  {
    hide KnobFromPot, Single, OnBbd, PanelOk, AllHarmless;
    var t := KnobTarget(rows[i], Single(rs, rows, ks, |rows|));
    if Written(rs, rows, ks, i) == t {
      SingleAt(rs, rows, ks, |rows|, i);
    } else {
      RowStays(rs, rows, ks, i);
      OtherIdKeeps(rs, rows, ks, i, t);
    }
  }

  /** Landed after a late ENGINE row that moved row i, its values must have been there. */
  lemma {:induction false} LandedIsHarmless(rs: Ranges, rows: seq<Row>, ks: Knobs, i: nat, j: nat)
    requires PanelOk(rows) && Landed(rs, rows, ks, Single(rs, rows, ks, |rows|))
    requires i < |rows| && j < |rows| && IsAhead(rows, i, j)
    ensures IsHarmless(rs, rows, ks, i, j)
  {
    hide KnobFromPot, Single, OnBbd, PanelOk;
    var e := EngineOf(rows[i].param);
    if OnBbd(ks[e]) != OnBbd(KnobFromPot(rs, e, rows[j].v.value)) {
      var after := Single(rs, rows, ks, |rows|);
      var from, to := Written(rs, rows, ks, i), KnobTarget(rows[i], after);
      LateMoves(rs, rows, ks, i, j);
      SingleAt(rs, rows, ks, |rows|, i);
      OtherIdKeeps(rs, rows, ks, i, to);
      assert LandedRow(rs, rows[i], after);
      OthersLeave(rs, rows, after, i, from);
      assert after[from] == ks[from];
    }
  }

  lemma {:induction false} OthersLeave(rs: Ranges, rows: seq<Row>, after: Knobs, i: nat, x: nat)
    requires PanelOk(rows) && i < |rows| && Sends(rows[i]) && MayWrite(rows[i], x) && KnobTarget(rows[i], after) != x
    ensures Untouched(rows, after, x)
  {
    hide OnBbd;
    forall k | 0 <= k < |rows| && RowOk(rows[k]) && Sends(rows[k])
      ensures KnobTarget(rows[k], after) != x
    {
      assert MayWrite(rows[k], KnobTarget(rows[k], after));
    }
  }

  /** The single pass comes to what the take does if and only if every ENGINE row that
      comes after a row of its deck with an alternate is harmless. */
  lemma {:induction false} SinglePassExactly(rs: Ranges, rows: seq<Row>, ks: Knobs)
    requires PanelOk(rows)
    ensures Single(rs, rows, ks, |rows|) == Take(rs, rows, ks) <==> AllHarmless(rs, rows, ks)
  {
    hide PanelOk, Landed, Take, Single, IsHarmless;
    TakeLands(rs, rows, ks);
    if AllHarmless(rs, rows, ks) {
      HarmlessLands(rs, rows, ks);
      LandedIsUnique(rs, rows, ks, Take(rs, rows, ks), Single(rs, rows, ks, |rows|));
    } else if Single(rs, rows, ks, |rows|) == Take(rs, rows, ks) {
      forall i: nat, j: nat | i < |rows| && j < |rows| && IsAhead(rows, i, j)
        ensures IsHarmless(rs, rows, ks, i, j)
      {
        LandedIsHarmless(rs, rows, ks, i, j);
      }
    }
  }

  /** So it does where every ENGINE row precedes its deck's rows with an alternate. */
  lemma {:induction false} SinglePassAgrees(rs: Ranges, rows: seq<Row>, ks: Knobs)
    requires PanelOk(rows) && EnginesFirst(rows)
    ensures Single(rs, rows, ks, |rows|) == Take(rs, rows, ks)
  {
    hide PanelOk, Take, Single, IsHarmless;
    SinglePassExactly(rs, rows, ks);
    assert forall i: nat, j: nat | i < |rows| && j < |rows| :: !IsAhead(rows, i, j);
  }

  /** And of an ATTACK row ahead of the ENGINE row that puts the deck on the BBD only
      where both knobs hold its value already: else it is written to ATTACK, and STAGES
      keeps what it had. */
  lemma {:induction false} SinglePassCanMiss(rs: Ranges, ks: Knobs, v: real, e: real)
    requires !OnBbd(ks[ENGINE_A]) && OnBbd(KnobFromPot(rs, ENGINE_A, e))
    ensures var rows := [Row(ATTACK_A, STAGES_A, Some(v)), Row(ENGINE_A, -1, Some(e))];
            && PanelOk(rows)
            && Single(rs, rows, ks, 2)[STAGES_A] == ks[STAGES_A]
            && Take(rs, rows, ks)[STAGES_A] == KnobFromPot(rs, STAGES_A, v)
            && Take(rs, rows, ks)[ATTACK_A] == ks[ATTACK_A]
            && (Single(rs, rows, ks, 2) == Take(rs, rows, ks) <==>
                ks[ATTACK_A] == KnobFromPot(rs, ATTACK_A, v) && ks[STAGES_A] == KnobFromPot(rs, STAGES_A, v))
  {
    hide KnobFromPot, OnBbd, Take, Single;
    var rows := [Row(ATTACK_A, STAGES_A, Some(v)), Row(ENGINE_A, -1, Some(e))];
    SinglePassExactly(rs, rows, ks);
    assert forall i: nat, j: nat | i < 2 && j < 2 && IsAhead(rows, i, j) :: i == 0 && j == 1;
    assert IsAhead(rows, 0, 1);
    assert IsHarmless(rs, rows, ks, 0, 1) <==> AlreadyThere(rs, rows[0], ks);
    EngineBefore(rs, rows, ks, 0, ENGINE_A);
    assert Written(rs, rows, ks, 0) == ATTACK_A;
    OtherIdKeeps(rs, rows, ks, 0, STAGES_A);
    TakeLands(rs, rows, ks);
    var after := Take(rs, rows, ks);
    assert LandedRow(rs, rows[0], after) && LandedRow(rs, rows[1], after);
    OthersLeave(rs, rows, after, 0, ATTACK_A);
  }
}
