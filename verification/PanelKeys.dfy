/**
  The MOD latch on the panel: the depth twin of a face, looked up in an inverted
  table; where a pot writes while the latch is on; what the keys do.
 */
module PanelKeys {
  import opened Params
  import opened PanelKnobs

  // ---- the depth table --------------------------------------------------------------

  /** The depth of the first of the first n rows whose face is param. */
  function FirstDepth(param: int, n: nat): (depth: int)
    requires n <= |MOD_LAYER|
    ensures depth >= -1
  {
    if n == 0 then -1
    else if FirstDepth(param, n - 1) >= 0 then FirstDepth(param, n - 1)
    else if MOD_LAYER[n - 1].sound == param then MOD_LAYER[n - 1].depth else -1
  }

  function DepthOf(param: int): int { FirstDepth(param, |MOD_LAYER|) }

  method MakeDepthTable() returns (depth: array<int>)
    ensures fresh(depth) && depth.Length == NUM_PARAMS
    ensures forall p | 0 <= p < NUM_PARAMS :: depth[p] == DepthOf(p)
  {
    hide MOD_LAYER;
    depth := new int[NUM_PARAMS](_ => -1);
    for k := 0 to |MOD_LAYER|
      invariant forall p | 0 <= p < NUM_PARAMS :: depth[p] == FirstDepth(p, k)
    {
      var m := MOD_LAYER[k];
      if depth[m.sound] < 0 {
        depth[m.sound] := m.depth;
      }
    }
  }

  /** The table holds the first match, and -1 where there is none. */
  lemma {:induction false} FirstMatch(param: int, n: nat)
    requires n <= |MOD_LAYER|
    ensures FirstDepth(param, n) < 0 <==> forall k | 0 <= k < n :: MOD_LAYER[k].sound != param
    ensures FirstDepth(param, n) >= 0 ==>
              exists k | 0 <= k < n :: MOD_LAYER[k].sound == param && MOD_LAYER[k].depth == FirstDepth(param, n)
                                       && forall j | 0 <= j < k :: MOD_LAYER[j].sound != param
  {
    hide MOD_LAYER;
    if n > 0 {
      FirstMatch(param, n - 1);
      if FirstDepth(param, n - 1) < 0 && MOD_LAYER[n - 1].sound == param {
        assert FirstDepth(param, n) == MOD_LAYER[n - 1].depth;
      }
    }
  }

  /** The depth parameter that bears a face's name. */
  function Namesake(param: int): int {
    if RATE_A <= param < RATE_B then DeckNamesake(param, 0)
    else if RATE_B <= param < MORPH then DeckNamesake(param - PART_STRIDE, 1)
    else match param
      case 40 => MODD_MORPH
      case 45 => MODD_REV_SIZE
      case 46 => MODD_REV_DECAY
      case 47 => MODD_REV_TONE
      case 48 => MODD_REV_DIFF
      case 50 => MODD_FILT_A
      case 51 => MODD_FILT_B
      case 52 => MODD_TIDE
      case 55 => MODD_FLUXFB_A
      case 56 => MODD_FLUXFB_B
      case 57 => MODD_COLOR_A
      case 58 => MODD_COLOR_B
      case 59 => MODD_LINK_A
      case 60 => MODD_LINK_B
      case 65 => MODD_REV_MIX_A
      case 66 => MODD_REV_MIX_B
      case 69 => MODD_DEPTH_A
      case 70 => MODD_DEPTH_B
      case 72 => MODD_PAN_A
      case 73 => MODD_PAN_B
      case _ => -1
  }

  /** Of deck A's face at its place in the deck block, or of deck B's. */
  function DeckNamesake(param: int, b: nat): int {
    match param
    case 0 => MODD_RATE_A + b
    case 1 => MODD_SHAPE_A + b
    case 2 => MODD_DENSITY_A + b
    case 3 => MODD_SMOOTH_A + b
    case 4 => MODD_RANGE_A + b
    case 5 => MODD_MELODY_A + b
    case 7 => MODD_TUNE_A + b
    case 8 => MODD_ATTACK_A + b
    case 9 => MODD_DECAY_A + b
    case 10 => MODD_RES_A + b
    case 11 => MODD_SUB_A + b
    case 12 => MODD_SOURCE_A + b
    case 13 => MODD_FLUX_A + b
    case 15 => MODD_COMP_A + b
    case 18 => MODD_DETUNE_A + b
    case _ => -1
  }

  predicate AllNamesakes(rows: seq<ModTarget>) {
    forall i | 0 <= i < |rows| :: Namesake(rows[i].sound) == rows[i].depth
  }

  lemma {:induction false} GroupNamesakes()
    ensures AllNamesakes(TEXTURE_ROWS) && AllNamesakes(FX_ROWS) && AllNamesakes(LANE_ROWS)
    ensures AllNamesakes(VOICE_ROWS) && AllNamesakes(TONE_ROWS) && AllNamesakes(CENTRE_ROWS)
  {
  }

  lemma {:induction false} RowIsNamesake(k: nat)
    requires k < MOD_ROWS
    ensures |MOD_LAYER| == MOD_ROWS && Namesake(MOD_LAYER[k].sound) == MOD_LAYER[k].depth
  {
    hide Namesake, TEXTURE_ROWS, FX_ROWS, LANE_ROWS, VOICE_ROWS, TONE_ROWS, CENTRE_ROWS;
    GroupsInBlock();
    GroupNamesakes();
    RowInGroup(k);
  }

  /** Names are not shared. */
  lemma {:induction false} NamesakesDiffer(p: int, q: int)
    requires Namesake(p) == Namesake(q) >= 0
    ensures p == q
  {
  }

  lemma {:induction false} NamesakeIsDepth(p: int)
    ensures Namesake(p) == -1 || MODD_SOURCE_A <= Namesake(p) < NUM_PARAMS == MODD_SOURCE_A + MOD_ROWS
  {
  }

  /** The table of depths pairs every face with its namesake, and knows no other face. */
  lemma {:induction false} TwinsAreNamesakes(param: int)
    ensures DepthOf(param) == Namesake(param)
  {
    hide MOD_LAYER, Namesake;
    DepthBlock(0);
    FirstMatch(param, MOD_ROWS);
    NamesakeIsDepth(param);
    if DepthOf(param) >= 0 {
      var k :| 0 <= k < MOD_ROWS && MOD_LAYER[k].sound == param && MOD_LAYER[k].depth == DepthOf(param);
      RowIsNamesake(k);
    } else if Namesake(param) >= 0 {
      var k := Namesake(param) - MODD_SOURCE_A;
      RowIsNamesake(k);
      DepthBlock(k);
      NamesakesDiffer(MOD_LAYER[k].sound, param);
    }
  }

  // ---- where a pot writes ---------------------------------------------------------------

  predicate Latched(ks: Knobs) { ks[MODBTN] >= 0.5 }

  function PotTarget(r: Row, ks: Knobs): int {
    var target := KnobTarget(r, ks);
    if r.param < 0 || !Latched(ks) then target
    else if DepthOf(r.param) < 0 then target
    else if target == r.param then DepthOf(r.param) else -1
  }

  /** With the latch on, a pot that has a depth twin leaves the sound alone: it writes
      its twin, or nothing while its alternate is the one on show. */
  lemma {:induction false} LatchedPotLeavesSound(r: Row, ks: Knobs)
    requires RowOk(r) && r.param >= 0 && Latched(ks) && DepthOf(r.param) >= 0
    ensures PotTarget(r, ks) == -1 || MODD_SOURCE_A <= PotTarget(r, ks) < NUM_PARAMS
    ensures PotTarget(r, ks) == -1 <==> KnobTarget(r, ks) != r.param
  {
    hide MOD_LAYER;
    DepthBlock(0);
    FirstMatch(r.param, |MOD_LAYER|);
    var k :| 0 <= k < |MOD_LAYER| && MOD_LAYER[k].depth == DepthOf(r.param);
    DepthBlock(k);
  }

  /** Where a pot writes: with the latch off where its row does; with it on its face's
      namesake, nothing while its alternate is the one on show, and where its row does
      if the face has no depth. */
  lemma {:induction false} PotWrites(r: Row, ks: Knobs)
    requires RowOk(r) && r.param >= 0
    ensures ks[MODBTN] < 0.5 || Namesake(r.param) == -1 ==> PotTarget(r, ks) == KnobTarget(r, ks)
    ensures ks[MODBTN] >= 0.5 && Namesake(r.param) != -1 ==>
              PotTarget(r, ks) == if KnobTarget(r, ks) == r.param then Namesake(r.param) else -1
  {
    hide MOD_LAYER, Namesake, KnobTarget;
    TwinsAreNamesakes(r.param);
    NamesakeIsDepth(r.param);
  }

  /** No two faces share a twin, so no two pots write one. */
  lemma {:induction false} TwinsAreDistinct(p: int, q: int)
    requires DepthOf(p) >= 0 && DepthOf(p) == DepthOf(q)
    ensures p == q
  {
    hide MOD_LAYER;
    DepthBlock(0);
    FirstMatch(p, |MOD_LAYER|);
    FirstMatch(q, |MOD_LAYER|);
    var i :| 0 <= i < |MOD_LAYER| && MOD_LAYER[i].sound == p && MOD_LAYER[i].depth == DepthOf(p);
    var j :| 0 <= j < |MOD_LAYER| && MOD_LAYER[j].sound == q && MOD_LAYER[j].depth == DepthOf(q);
    DepthBlock(i);
    DepthBlock(j);
  }

  // ---- the keys ------------------------------------------------------------------------------

  const MAX_KEYS: nat := 4

  datatype KeyFn = RecA | RecB | Mod | Shift

  datatype KeyResult = KeyResult(modChanged: bool, modCleared: bool)

  /** A set of keys, one bit per key. */
  type Keys = bs: seq<bool> | |bs| == MAX_KEYS witness [false, false, false, false]

  function ClearValue(t: ModTarget, init: Knobs): real {
    if t.kind == TDEPTH then init[t.depth] else 0.0
  }

  /** The first n depth twins cleared. */
  function Cleared(ks: Knobs, init: Knobs, n: nat): Knobs
    requires n <= |MOD_LAYER|
  {
    if n == 0 then ks
    else Cleared(ks, init, n - 1)[MOD_LAYER[n - 1].depth := ClearValue(MOD_LAYER[n - 1], init)]
  }

  method ClearModLayer(knobs: array<real>, init: Knobs)
    requires knobs.Length == NUM_PARAMS
    modifies knobs
    ensures knobs[..] == Cleared(old(knobs[..]), init, |MOD_LAYER|)
  {
    hide MOD_LAYER;
    for k := 0 to |MOD_LAYER|
      invariant knobs[..] == Cleared(old(knobs[..]), init, k)
    {
      knobs[MOD_LAYER[k].depth] := ClearValue(MOD_LAYER[k], init);
    }
  }

  /** Clearing puts every depth at 0, the texture depths at their init positions, and
      touches nothing else. */
  lemma {:induction false} ClearedIs(ks: Knobs, init: Knobs, n: nat, x: nat)
    requires n <= MOD_ROWS && x < NUM_PARAMS
    ensures |MOD_LAYER| == MOD_ROWS
    ensures Cleared(ks, init, n)[x] ==
            if MODD_SOURCE_A <= x < MODD_SOURCE_A + n then ClearValue(MOD_LAYER[x - MODD_SOURCE_A], init) else ks[x]
  {
    hide MOD_LAYER, ClearValue;
    DepthBlock(0);
    if n > 0 {
      ClearedIs(ks, init, n - 1, x);
      DepthBlock(n - 1);
    }
  }

  function Toggled(x: real): real { if x < 0.5 then 1.0 else 0.0 }

  /** One pressed key. */
  function Press(ks: Knobs, init: Knobs, fn: KeyFn, shift: bool): Knobs {
    match fn
    case RecA => ks[REC_A := Toggled(ks[REC_A])]
    case RecB => ks[REC_B := Toggled(ks[REC_B])]
    case Mod => if shift then Cleared(ks, init, |MOD_LAYER|) else ks[MODBTN := Toggled(ks[MODBTN])]
    case Shift => ks
  }

  predicate ShiftHeld(held: Keys, fns: seq<KeyFn>)
    requires |fns| <= MAX_KEYS
  {
    exists i | 0 <= i < |fns| :: fns[i] == Shift && held[i]
  }

  /** The first n keys of the map. */
  function Pressed(ks: Knobs, init: Knobs, edges: Keys, fns: seq<KeyFn>, shift: bool, n: nat): Knobs
    requires n <= |fns| <= MAX_KEYS
  {
    if n == 0 then ks
    else
      var k := Pressed(ks, init, edges, fns, shift, n - 1);
      if edges[n - 1] then Press(k, init, fns[n - 1], shift) else k
  }

  method ApplyKeyEdges(edges: Keys, held: Keys, fns: seq<KeyFn>, init: Knobs, knobs: array<real>)
    returns (r: KeyResult)
    requires knobs.Length == NUM_PARAMS && |fns| <= MAX_KEYS
    modifies knobs
    ensures var shift := ShiftHeld(held, fns);
            && knobs[..] == Pressed(old(knobs[..]), init, edges, fns, shift, |fns|)
            && (r.modCleared <==> shift && exists i | 0 <= i < |fns| :: fns[i] == Mod && edges[i])
            && (r.modChanged <==> !shift && exists i | 0 <= i < |fns| :: fns[i] == Mod && edges[i])
  {
    hide MOD_LAYER, Cleared;
    var shift := false;
    for i := 0 to |fns|
      invariant shift <==> exists k | 0 <= k < i :: fns[k] == Shift && held[k]
    {
      if fns[i] == Shift && held[i] {
        shift := true;
      }
    }
    r := KeyResult(false, false);
    for i := 0 to |fns|
      invariant knobs[..] == Pressed(old(knobs[..]), init, edges, fns, shift, i)
      invariant r.modCleared <==> shift && exists k | 0 <= k < i :: fns[k] == Mod && edges[k]
      invariant r.modChanged <==> !shift && exists k | 0 <= k < i :: fns[k] == Mod && edges[k]
    {
      if edges[i] {
        match fns[i]
        case RecA => knobs[REC_A] := if knobs[REC_A] < 0.5 then 1.0 else 0.0;
        case RecB => knobs[REC_B] := if knobs[REC_B] < 0.5 then 1.0 else 0.0;
        case Mod =>
          if shift {
            ClearModLayer(knobs, init);
            r := r.(modCleared := true);
          } else {
            r := r.(modChanged := true);
            knobs[MODBTN] := if knobs[MODBTN] < 0.5 then 1.0 else 0.0;
          }
        case Shift =>
      }
    }
  }

  /** No key turns a knob of the sound: only REC, the latch and the depths move, and
      with SHIFT held the latch does not. */
  lemma {:induction false} KeysLeaveSound(ks: Knobs, init: Knobs, edges: Keys, fns: seq<KeyFn>, shift: bool,
                                                  n: nat, x: nat)
    requires n <= |fns| <= MAX_KEYS && x < MODD_SOURCE_A && x != REC_A && x != REC_B
    requires x == MODBTN ==> shift
    ensures Pressed(ks, init, edges, fns, shift, n)[x] == ks[x]
  {
    hide MOD_LAYER, Cleared;
    if n > 0 {
      KeysLeaveSound(ks, init, edges, fns, shift, n - 1, x);
      DepthBlock(0);
      ClearedIs(Pressed(ks, init, edges, fns, shift, n - 1), init, MOD_ROWS, x);
    }
  }

  /** How often a key's function is pressed among the first n keys. */
  function Presses(edges: Keys, fns: seq<KeyFn>, fn: KeyFn, n: nat): nat
    requires n <= |fns| <= MAX_KEYS
  {
    if n == 0 then 0 else Presses(edges, fns, fn, n - 1) + if edges[n - 1] && fns[n - 1] == fn then 1 else 0
  }

  /** A toggle pressed n times: as it was, or off and on in turn. */
  predicate Flipped(was: real, now: real, n: nat) {
    if n == 0 then now == was else now == (if (was < 0.5) == (n % 2 == 1) then 1.0 else 0.0)
  }

  /** Each REC key flips its own deck's REC and the MOD key the latch, unless SHIFT is held. */
  lemma {:induction false} KeysFlipTheirOwn(ks: Knobs, init: Knobs, edges: Keys, fns: seq<KeyFn>, shift: bool, n: nat)
    requires n <= |fns| <= MAX_KEYS
    ensures var after := Pressed(ks, init, edges, fns, shift, n);
            && Flipped(ks[REC_A], after[REC_A], Presses(edges, fns, RecA, n))
            && Flipped(ks[REC_B], after[REC_B], Presses(edges, fns, RecB, n))
            && Flipped(ks[MODBTN], after[MODBTN], if shift then 0 else Presses(edges, fns, Mod, n))
  {
    hide MOD_LAYER, Cleared;
    if n > 0 {
      var k := Pressed(ks, init, edges, fns, shift, n - 1);
      KeysFlipTheirOwn(ks, init, edges, fns, shift, n - 1);
      DepthBlock(0);
      ClearedIs(k, init, MOD_ROWS, REC_A);
      ClearedIs(k, init, MOD_ROWS, REC_B);
      ClearedIs(k, init, MOD_ROWS, MODBTN);
    }
  }

  /** SHIFT + MOD leaves every depth but the texture ones at noon, the knob's own
      standstill. */
  lemma {:induction false} ClearedAtNoon(ks: Knobs, init: Knobs, k: nat)
    requires k < MOD_ROWS
    ensures |MOD_LAYER| == MOD_ROWS
    ensures Press(ks, init, Mod, true)[MOD_LAYER[k].depth] ==
            if MOD_LAYER[k].kind == TDEPTH then init[MOD_LAYER[k].depth] else 0.0
  {
    hide MOD_LAYER, Cleared;
    DepthBlock(k);
    ClearedIs(ks, init, MOD_ROWS, MODD_SOURCE_A + k);
  }
}
