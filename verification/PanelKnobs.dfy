/**
  The panel's pots and the knob vector: where a pot writes, what it writes, and the
  two ways a whole panel is written at once.
 */
module PanelKnobs {
  import opened Options
  import opened Params

  const ENGINE_SLOT_BBD: int := 4

  /** A pot's row with its reading, normalised; None when there is none. alt is the
      id it writes instead of param while its deck is on the BBD. */
  datatype Row = Row(param: int, alt: int, v: Option<real>)

  /** The ids index the knob vector, an alternate only on a row of a deck's own
      block, and no alternate is an ENGINE knob. */
  predicate RowOk(r: Row) {
    && -1 <= r.param < NUM_PARAMS && -1 <= r.alt < NUM_PARAMS
    && (r.alt >= 0 ==> 0 <= r.param < 2 * PART_STRIDE && !IsEngine(r.param) && !IsEngine(r.alt))
  }

  predicate IsEngine(param: int) { param == ENGINE_A || param == ENGINE_B }

  /** A parameter's range, in which some knobs snap to whole values. */
  datatype Range = Range(lo: real, hi: real, snap: bool)

  type Ranges = rs: seq<Range> | |rs| == NUM_PARAMS witness seq(NUM_PARAMS, _ => Range(0.0, 1.0, false))

  type Knobs = ks: seq<real> | |ks| == NUM_PARAMS witness seq(NUM_PARAMS, _ => 0.0)

  /** Halves away from zero. */
  function Round(x: real): int {
    if x >= 0.0 then (x + 0.5).Floor else -((-x + 0.5).Floor)
  }

  /** Where in a range a pot's travel is. */
  function AtTravel(r: Range, v: real): real { r.lo + v * (r.hi - r.lo) }

  function KnobFromPot(rs: Ranges, param: int, v: real): real {
    if param < 0 || param >= NUM_PARAMS then 0.0
    else
      var x := AtTravel(rs[param], v);
      if rs[param].snap then Round(x) as real else x
  }

  /** Rounded, a value is at most a half away, and a half goes away from zero. */
  lemma {:induction false} RoundIsNearest(x: real)
    ensures Round(x) as real - 0.5 <= x <= Round(x) as real + 0.5
    ensures x == Round(x) as real + 0.5 ==> x < 0.0
    ensures x == Round(x) as real - 0.5 ==> x > 0.0
  {
  }

  /** A pot's travel is its knob's range, end to end and in proportion; a knob that
      snaps goes to the nearest whole value. */
  lemma {:induction false} PotSpansRange(rs: Ranges, param: nat, v: real)
    requires param < NUM_PARAMS
    ensures var r, x, at := rs[param], KnobFromPot(rs, param, v), AtTravel(rs[param], v);
            && x == (if r.snap then Round(at) as real else at)
            && at - r.lo == v * (r.hi - r.lo)
    ensures AtTravel(rs[param], 0.0) == rs[param].lo && AtTravel(rs[param], 1.0) == rs[param].hi
    ensures KnobFromPot(rs, -1, v) == 0.0
  {
    hide Round;
  }

  function EngineOf(param: int): nat { if param < PART_STRIDE then ENGINE_A else ENGINE_B }

  /** Whether a deck's ENGINE knob is on the BBD. */
  predicate OnBbd(engine: real) { Round(engine) == ENGINE_SLOT_BBD }

  /** The id a row writes under these knobs. */
  function KnobTarget(r: Row, ks: Knobs): int {
    if r.alt < 0 then r.param else if OnBbd(ks[EngineOf(r.param)]) then r.alt else r.param
  }

  /** A row writes its alternate exactly while its own deck's ENGINE knob rounds to 4. */
  lemma {:induction false} TargetFollowsOwnDeck(r: Row, ks: Knobs)
    requires RowOk(r)
    ensures var engine := ks[if r.param < 20 then 17 else 37];
            KnobTarget(r, ks) == if r.alt >= 0 && 3.5 <= engine < 4.5 then r.alt else r.param
  {
    hide Round;
    RoundsToFour(ks[if r.param < 20 then 17 else 37]);
  }

  lemma {:induction false} RoundsToFour(x: real)
    ensures Round(x) == 4 <==> 3.5 <= x < 4.5
  {
  }

  predicate Sends(r: Row) { r.param >= 0 && r.v.Some? }

  // ---- what writing a panel should come to ------------------------------------------------

  /** The ids a row may write. */
  predicate MayWrite(r: Row, x: int) { r.param >= 0 && (x == r.param || (r.alt >= 0 && x == r.alt)) }

  /** A panel: no id on two rows. */
  ghost predicate PanelOk(rows: seq<Row>) {
    && (forall i | 0 <= i < |rows| :: RowOk(rows[i]))
    && (forall i, j, x: int | 0 <= i < j < |rows| && MayWrite(rows[i], x) :: !MayWrite(rows[j], x))
  }

  /** Every row's value stands where its row writes under the knobs as they now are;
      an id no row writes is as it was. */
  ghost predicate Landed(rs: Ranges, rows: seq<Row>, before: Knobs, after: Knobs) {
    && (forall i | 0 <= i < |rows| && RowOk(rows[i]) && Sends(rows[i]) :: LandedRow(rs, rows[i], after))
    && (forall x | 0 <= x < NUM_PARAMS && Untouched(rows, after, x) :: after[x] == before[x])
  }

  predicate LandedRow(rs: Ranges, r: Row, ks: Knobs)
    requires RowOk(r) && Sends(r)
  {
    ks[KnobTarget(r, ks)] == KnobFromPot(rs, KnobTarget(r, ks), r.v.value)
  }

  predicate Untouched(rows: seq<Row>, ks: Knobs, x: int) {
    forall i | 0 <= i < |rows| :: !(RowOk(rows[i]) && Sends(rows[i]) && KnobTarget(rows[i], ks) == x)
  }

  /** Knobs that decide every row's target alike. */
  predicate SameEngines(a: Knobs, b: Knobs) {
    OnBbd(a[ENGINE_A]) == OnBbd(b[ENGINE_A]) && OnBbd(a[ENGINE_B]) == OnBbd(b[ENGINE_B])
  }

  lemma {:induction false} SameTargets(r: Row, a: Knobs, b: Knobs)
    requires SameEngines(a, b)
    ensures KnobTarget(r, a) == KnobTarget(r, b)
  {
  }

  /** The ENGINE knobs themselves land by rows that have no alternate, so two vectors
      a panel has landed in agree on them. */
  lemma {:induction false} LandedEngine(rs: Ranges, rows: seq<Row>, before: Knobs, a: Knobs, b: Knobs, x: nat)
    requires PanelOk(rows) && Landed(rs, rows, before, a) && Landed(rs, rows, before, b)
    requires IsEngine(x)
    ensures a[x] == b[x]
  {
    if i :| 0 <= i < |rows| && Sends(rows[i]) && rows[i].param == x {
      assert LandedRow(rs, rows[i], a) && LandedRow(rs, rows[i], b);
    } else {
      assert Untouched(rows, a, x) && Untouched(rows, b, x);
    }
  }

  /** What writing a panel comes to is one vector. */
  lemma {:induction false} LandedIsUnique(rs: Ranges, rows: seq<Row>, before: Knobs, a: Knobs, b: Knobs)
    requires PanelOk(rows) && Landed(rs, rows, before, a) && Landed(rs, rows, before, b)
    ensures a == b
  {
    LandedEngine(rs, rows, before, a, b, ENGINE_A);
    LandedEngine(rs, rows, before, a, b, ENGINE_B);
    forall x | 0 <= x < NUM_PARAMS
      ensures a[x] == b[x]
    {
      if i :| 0 <= i < |rows| && Sends(rows[i]) && KnobTarget(rows[i], a) == x {
        SameTargets(rows[i], a, b);
        assert LandedRow(rs, rows[i], a) && LandedRow(rs, rows[i], b);
      } else {
        forall i | 0 <= i < |rows| ensures KnobTarget(rows[i], a) == KnobTarget(rows[i], b) {
          SameTargets(rows[i], a, b);
        }
        assert Untouched(rows, a, x) && Untouched(rows, b, x);
      }
    }
  }

  /** And it does not depend on the order of the rows. */
  lemma {:induction false} LandedInAnyOrder(rs: Ranges, rows: seq<Row>, other: seq<Row>, before: Knobs, after: Knobs)
    requires multiset(rows) == multiset(other) && PanelOk(rows) && Landed(rs, rows, before, after)
    ensures Landed(rs, other, before, after)
  {
    forall i | 0 <= i < |other|
      ensures other[i] in rows
    {
      assert other[i] in multiset(other);
    }
    forall i | 0 <= i < |rows|
      ensures rows[i] in other
    {
      assert rows[i] in multiset(rows);
    }
    forall i | 0 <= i < |other| && RowOk(other[i]) && Sends(other[i])
      ensures LandedRow(rs, other[i], after)
    {
      var j :| 0 <= j < |rows| && rows[j] == other[i];
    }
    forall x | 0 <= x < NUM_PARAMS && Untouched(other, after, x)
      ensures after[x] == before[x]
    {
      forall i | 0 <= i < |rows|
        ensures !(RowOk(rows[i]) && Sends(rows[i]) && KnobTarget(rows[i], after) == x)
      {
        var j :| 0 <= j < |other| && other[j] == rows[i];
      }
      assert Untouched(rows, after, x);
    }
  }

  // ---- panels in another order ---------------------------------------------------------------

  /** How many rows may write x. */
  function Writers(rows: seq<Row>, x: int): nat {
    if rows == [] then 0 else (if MayWrite(rows[0], x) then 1 else 0) + Writers(rows[1..], x)
  }

  lemma {:induction false} WritersConcat(a: seq<Row>, b: seq<Row>, x: int)
    ensures Writers(a + b, x) == Writers(a, x) + Writers(b, x)
  {
    if a == [] {
      assert a + b == b;
    } else {
      assert (a + b)[1..] == a[1..] + b;
      WritersConcat(a[1..], b, x);
    }
  }

  lemma {:induction false} NoWriter(rows: seq<Row>, x: int)
    ensures Writers(rows, x) == 0 <==> forall i | 0 <= i < |rows| :: !MayWrite(rows[i], x)
  {
    if rows != [] {
      NoWriter(rows[1..], x);
      assert forall i | 0 < i < |rows| :: rows[i] == rows[1..][i - 1];
      assert forall i | 0 <= i < |rows[1..]| :: rows[1..][i] == rows[i + 1];
    }
  }

  lemma {:induction false} OneWriter(rows: seq<Row>, x: int)
    requires forall i, j | 0 <= i < j < |rows| && MayWrite(rows[i], x) :: !MayWrite(rows[j], x)
    ensures Writers(rows, x) <= 1
  {
    if rows != [] {
      var rest := rows[1..];
      assert forall i | 0 <= i < |rest| :: rest[i] == rows[i + 1];
      OneWriter(rest, x);
      NoWriter(rest, x);
    }
  }

  lemma {:induction false} NotTwoWriters(rows: seq<Row>, i: nat, j: nat, x: int)
    requires i < j < |rows| && Writers(rows, x) <= 1 && MayWrite(rows[i], x)
    ensures !MayWrite(rows[j], x)
  {
    assert rows == rows[..j] + rows[j..];
    WritersConcat(rows[..j], rows[j..], x);
    NoWriter(rows[..j], x);
    assert rows[..j][i] == rows[i] && rows[j..][0] == rows[j];
  }

  lemma {:induction false} WritersOfMultiset(a: seq<Row>, b: seq<Row>, x: int)
    requires multiset(a) == multiset(b)
    ensures Writers(a, x) == Writers(b, x)
    decreases |a|
  {
    if a == [] {
      assert |multiset(a)| == |a| && |multiset(b)| == |b|;
    } else {
      assert a[0] in multiset(b);
      var j :| 0 <= j < |b| && b[j] == a[0];
      var rest := b[..j] + b[j + 1..];
      WithoutOne(a, b, j);
      assert b == b[..j] + ([b[j]] + b[j + 1..]);
      WritersOfMultiset(a[1..], rest, x);
      WritersConcat(b[..j], b[j + 1..], x);
      WritersConcat(b[..j], [b[j]] + b[j + 1..], x);
      assert ([b[j]] + b[j + 1..])[1..] == b[j + 1..];
    }
  }

  lemma {:induction false} WithoutOne(a: seq<Row>, b: seq<Row>, j: nat)
    requires multiset(a) == multiset(b) && a != [] && j < |b| && b[j] == a[0]
    ensures multiset(a[1..]) == multiset(b[..j] + b[j + 1..])
  {
    var p, q, x := b[..j], b[j + 1..], a[0];
    assert a == [] + [x] + a[1..] && b == p + [x] + q && [] + a[1..] == a[1..];
    InMiddle([], x, a[1..]);
    InMiddle(p, x, q);
  }

  lemma {:induction false} InMiddle(p: seq<Row>, x: Row, q: seq<Row>)
    ensures multiset(p + q) == multiset(p + [x] + q) - multiset{x}
  {
    assert multiset(p + [x] + q) == multiset(p) + multiset{x} + multiset(q);
    assert multiset(p + q) == multiset(p) + multiset(q);
  }

  /** Whether a panel is one does not depend on the order of its rows. */
  lemma {:induction false} PanelInAnyOrder(rows: seq<Row>, other: seq<Row>)
    requires multiset(rows) == multiset(other) && PanelOk(rows)
    ensures PanelOk(other)
  {
    forall i | 0 <= i < |other|
      ensures RowOk(other[i])
    {
      assert other[i] in multiset(other);
      var j :| 0 <= j < |rows| && rows[j] == other[i];
    }
    forall i, j, x: int | 0 <= i < j < |other| && MayWrite(other[i], x)
      ensures !MayWrite(other[j], x)
    {
      OneWriter(rows, x);
      WritersOfMultiset(rows, other, x);
      NotTwoWriters(other, i, j, x);
    }
  }
}
