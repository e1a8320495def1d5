/**
  The boot take and the boot patch in the form the firmware runs them, writing the
  knob vector in place, and the gate that mutes the output until the take is done.
 */
module BootTake {
  import opened RealLemmas
  import opened Options
  import opened Params
  import opened PanelKnobs
  import opened PanelBoot

  const MAX_ROWS: nat := 80

  /** A row of the panel's table; sense is the pin that reads it, -1 if not recorded. */
  datatype Entry = Entry(param: int, alt: int, sense: int)

  datatype Span = Span(zero: nat, rail: nat, valid: bool)

  predicate EntryOk(e: Entry) { RowOk(Row(e.param, e.alt, None)) }

  function Hysteresis(sense: int): nat {
    if sense == 0 then 64 else if 1 <= sense < 4 then 32 else 16
  }

  /** What a fresh pot filter makes of a reading: the stops snap, the rest is the
      place in the span. */
  function FreshValue(raw: nat, span: Span, band: nat): Option<real> {
    if !span.valid || span.rail <= span.zero then None
    else if raw <= span.zero + band then Some(0.0)
    else if raw >= span.rail - band then Some(1.0)
    else
      var v := (raw as real - span.zero as real) / (span.rail as real - span.zero as real);
      Some(if v < 0.0 then 0.0 else if v > 1.0 then 1.0 else v)
  }

  function RowOf(e: Entry, seen: bool, raw: nat, span: Span): Row {
    Row(e.param, e.alt, if seen then FreshValue(raw, span, Hysteresis(e.sense)) else None)
  }

  /** Without a span there is no value; with one the stops snap within the pin's band,
      and between them the value is the place in the span. */
  lemma {:induction false} StopsSnap(e: Entry, raw: nat, span: Span)
    ensures var band := if e.sense == 0 then 64 else if 1 <= e.sense <= 3 then 32 else 16;
            var v := RowOf(e, true, raw, span).v;
            && (v.Some? <==> span.valid && span.zero < span.rail)
            && (v.Some? && raw <= span.zero + band ==> v.value == 0.0)
            && (v.Some? && raw > span.zero + band && raw >= span.rail - band ==> v.value == 1.0)
            && (v.Some? && span.zero + band < raw < span.rail - band ==>
                  v.value * (span.rail - span.zero) as real == (raw - span.zero) as real)
    ensures RowOf(e, false, raw, span).v.None?
  {
    if span.valid && span.zero < span.rail {
      InSpan(raw, span);
    }
  }

  lemma {:induction false} InSpan(raw: nat, span: Span)
    requires span.zero < span.rail
    ensures var v := (raw as real - span.zero as real) / (span.rail as real - span.zero as real);
            && v * (span.rail - span.zero) as real == (raw as real - span.zero as real)
            && (span.zero <= raw <= span.rail ==> 0.0 <= v <= 1.0)
  {
    var d := (span.rail - span.zero) as real;
    assert d == span.rail as real - span.zero as real;
    if span.zero <= raw <= span.rail {
      DivBounds(raw as real - span.zero as real, d, 0.0, 1.0);
    }
  }

  /** A pot turned further never reads less. */
  lemma {:induction false} FreshRises(a: nat, b: nat, span: Span, band: nat)
    requires a <= b && span.valid && span.zero < span.rail
    ensures FreshValue(a, span, band).Some? && FreshValue(b, span, band).Some?
    ensures 0.0 <= FreshValue(a, span, band).value <= FreshValue(b, span, band).value <= 1.0
  {
    InOrder(a as real - span.zero as real, b as real - span.zero as real, span.rail as real - span.zero as real);
  }

  lemma {:induction false} InOrder(a: real, b: real, d: real)
    requires a <= b && d > 0.0
    ensures a / d <= b / d
  {
    var x, y := a / d, b / d;
    assert x * d == a && y * d == b;
    ScaleLe(x, y, d);
  }

  /** One row written in place. */
  method WriteRow(rs: Ranges, r: Row, knobs: array<real>)
    requires knobs.Length == NUM_PARAMS && RowOk(r)
    modifies knobs
    ensures knobs[..] == Write(rs, r, old(knobs[..]))
  {
    if r.param >= 0 && r.v.Some? {
      var target := r.param;
      if r.alt >= 0 && OnBbd(knobs[EngineOf(r.param)]) {
        target := r.alt;
      }
      knobs[target] := KnobFromPot(rs, target, r.v.value);
    }
  }

  lemma {:induction false} SingleAppend(rs: Ranges, rows: seq<Row>, r: Row, ks: Knobs)
    ensures Single(rs, rows + [r], ks, |rows| + 1) == Write(rs, r, Single(rs, rows, ks, |rows|))
  {
    SinglePrefix(rs, rows, [r], ks, |rows|);
  }

  lemma {:induction false} SinglePrefix(rs: Ranges, rows: seq<Row>, more: seq<Row>, ks: Knobs, n: nat)
    requires n <= |rows|
    ensures Single(rs, rows + more, ks, n) == Single(rs, rows, ks, n)
  {
    hide Write;
    if n > 0 {
      SinglePrefix(rs, rows, more, ks, n - 1);
    }
  }

  class Take {
    const raw: array<nat>
    const seen: array<bool>
    var done: bool

    ghost predicate Valid() { raw.Length == MAX_ROWS && seen.Length == MAX_ROWS }

    constructor ()
      ensures Valid() && fresh(raw) && fresh(seen) && !done
      ensures forall r | 0 <= r < MAX_ROWS :: !seen[r]
    {
      raw := new nat[MAX_ROWS](_ => 0);
      seen := new bool[MAX_ROWS](_ => false);
      done := false;
    }

    method Collect(row: int, reading: nat)
      requires Valid()
      modifies raw, seen
      ensures raw[..] == if done || row < 0 || row >= MAX_ROWS then old(raw[..]) else old(raw[..])[row := reading]
      ensures seen[..] == if done || row < 0 || row >= MAX_ROWS then old(seen[..]) else old(seen[..])[row := true]
    {
      if done || row < 0 || row >= MAX_ROWS {
        return;
      }
      raw[row] := reading;
      seen[row] := true;
    }

    method Ready(t: seq<Entry>) returns (ready: bool)
      requires Valid()
      ensures ready <==> |t| <= MAX_ROWS && forall r | 0 <= r < |t| :: seen[r]
    {
      if |t| > MAX_ROWS {
        return false;
      }
      for r := 0 to |t|
        invariant forall k | 0 <= k < r :: seen[k]
      {
        if !seen[r] {
          return false;
        }
      }
      return true;
    }

    /** The rows of the table with what was collected for them. */
    ghost function Rows(t: seq<Entry>, span: Span): (rows: seq<Row>)
      requires Valid() && |t| <= MAX_ROWS
      reads raw, seen
      ensures |rows| == |t|
    {
      seq(|t|, r requires 0 <= r < |t| reads raw, seen => RowOf(t[r], seen[r], raw[r], span))
    }

    /** One pass over the table, over the ENGINE rows or over the others. */
    method Pass(t: seq<Entry>, span: Span, rs: Ranges, knobs: array<real>, engines: bool,
                ghost before: seq<Row>, ghost ks: Knobs)
      requires Valid() && |t| <= MAX_ROWS && knobs.Length == NUM_PARAMS && forall r | 0 <= r < |t| :: EntryOk(t[r])
      requires knobs[..] == Single(rs, before, ks, |before|)
      modifies knobs
      ensures var rows := before + Only(Rows(t, span), engines); knobs[..] == Single(rs, rows, ks, |rows|)
    {
      hide Single, Write, RowOf, KnobFromPot;
      ghost var rows := Rows(t, span);
      assert before + Only(rows[..0], engines) == before;
      for r := 0 to |t|
        invariant knobs[..] == Single(rs, before + Only(rows[..r], engines), ks, |before + Only(rows[..r], engines)|)
      {
        assert rows[..r + 1][..r] == rows[..r];
        if IsEngine(t[r].param) == engines {
          RowIsOk(t[r], seen[r], raw[r], span);
          SingleAppend(rs, before + Only(rows[..r], engines), rows[r], ks);
          assert before + Only(rows[..r], engines) + [rows[r]] == before + Only(rows[..r + 1], engines) by {
            RowIsOk(t[r], seen[r], raw[r], span);
          }
          WriteRow(rs, RowOf(t[r], seen[r], raw[r], span), knobs);
        } else {
          RowIsOk(t[r], seen[r], raw[r], span);
          assert Only(rows[..r + 1], engines) == Only(rows[..r], engines);
        }
      }
      assert rows[..|t|] == rows;
    }

    /** Every row once, the ENGINE rows first; nothing without a valid span. */
    method Apply(t: seq<Entry>, span: Span, rs: Ranges, knobs: array<real>)
      requires Valid() && knobs.Length == NUM_PARAMS && forall r | 0 <= r < |t| :: EntryOk(t[r])
      modifies this, knobs
      ensures old(done) || !span.valid || |t| > MAX_ROWS ==> knobs[..] == old(knobs[..]) && done == old(done)
      ensures !old(done) && span.valid && |t| <= MAX_ROWS ==>
                done && knobs[..] == PanelBoot.Take(rs, old(Rows(t, span)), old(knobs[..]))
    {
      hide Single, Only;
      if done || !span.valid || |t| > MAX_ROWS {
        return;
      }
      ghost var ks := knobs[..];
      SingleNone(rs, [], ks);
      Pass(t, span, rs, knobs, true, [], ks);
      assert [] + Only(Rows(t, span), true) == Only(Rows(t, span), true);
      Pass(t, span, rs, knobs, false, Only(Rows(t, span), true), ks);
      done := true;
    }
  }

  lemma {:induction false} RowIsOk(e: Entry, seen: bool, raw: nat, span: Span)
    requires EntryOk(e)
    ensures RowOk(RowOf(e, seen, raw, span)) && RowOf(e, seen, raw, span).param == e.param
  {
  }

  /** The boot patch: the rows in row order, one value each; -1 when the counts
      differ. */
  method ApplyBootPatch(t: seq<Entry>, values: seq<real>, rs: Ranges, knobs: array<real>) returns (written: int)
    requires knobs.Length == NUM_PARAMS && forall r | 0 <= r < |t| :: EntryOk(t[r])
    modifies knobs
    ensures |values| != |t| ==> written == -1 && knobs[..] == old(knobs[..])
    ensures |values| == |t| ==>
              && knobs[..] == Single(rs, PatchRows(t, values), old(knobs[..]), |t|)
              && written == SendingRows(t)
  {
    hide Single, Write, KnobFromPot;
    if |values| != |t| {
      return -1;
    }
    written := 0;
    ghost var ks, rows := knobs[..], PatchRows(t, values);
    SingleNone(rs, rows, ks);
    assert t[..0] == [];
    for r := 0 to |t|
      invariant knobs[..] == Single(rs, rows, ks, r) && written == SendingRows(t[..r])
    {
      assert t[..r + 1][..r] == t[..r];
      SingleStep(rs, rows, ks, r + 1);
      if t[r].param >= 0 {
        WriteRow(rs, Row(t[r].param, t[r].alt, Some(values[r])), knobs);
        written := written + 1;
      } else {
        NotWritten(rs, rows[r], Single(rs, rows, ks, r));
      }
    }
    assert t[..|t|] == t;
  }

  lemma {:induction false} NotWritten(rs: Ranges, r: Row, ks: Knobs)
    requires r.param < 0
    ensures Write(rs, r, ks) == ks
  {
  }

  function PatchRows(t: seq<Entry>, values: seq<real>): (rows: seq<Row>)
    requires |values| == |t|
    ensures |rows| == |t|
  {
    seq(|t|, r requires 0 <= r < |t| => Row(t[r].param, t[r].alt, Some(values[r])))
  }

  function SendingRows(t: seq<Entry>): nat {
    if t == [] then 0 else SendingRows(t[..|t| - 1]) + if t[|t| - 1].param >= 0 then 1 else 0
  }

  /** The count of written rows is that of the rows with a parameter. */
  lemma {:induction false} SendingRowsAre(t: seq<Entry>)
    ensures SendingRows(t) == |set r: nat | r < |t| && t[r].param >= 0|
    decreases |t|
  {
    var all := set r: nat | r < |t| && t[r].param >= 0;
    if t == [] {
      assert all == {};
    } else {
      var n := |t| - 1;
      SendingRowsAre(t[..n]);
      var rest := set r: nat | r < |t[..n]| && t[..n][r].param >= 0;
      assert all == rest + if t[n].param >= 0 then {n} else {};
    }
  }
}
