/**
  The two ducks of the mix: the CHOKE sidechain, an audio-rate follower on the
  priority deck that pulls down the yielding one, and the bloom duck, a slow ride
  of the dry bus under the room's return.
 */
module MixDucks {
  import opened MixSmooth
  import opened RealLemmas

  // ---- the CHOKE sidechain -----------------------------------------------------------

  const CHOKE_FLOOR: real := 0.15
  const CHOKE_FLOOR_HOT: real := 0.02
  const CHOKE_THRESH: real := 0.015
  const CHOKE_FULL: real := 0.11
  const CHOKE_DEPTH_TOP: real := 1.2

  /** Follower coefficients, per sample: at 100 % depth and at the top. */
  datatype Rates = Rates(atk: real, rel: real, atkHot: real, relHot: real)

  predicate RatesOk(r: Rates) {
    0.0 <= r.atk <= 1.0 && 0.0 <= r.rel <= 1.0 && 0.0 <= r.atkHot <= 1.0 && 0.0 <= r.relHot <= 1.0
  }

  /** What the glided depth decides. */
  datatype Chain = Chain(over: real, depth: real, floor: real, atk: real, rel: real)

  function ChainOf(r: Rates, raw: real): Chain {
    var over := Min(1.0, Max(0.0, (raw - 1.0) / (CHOKE_DEPTH_TOP - 1.0)));
    Chain(over, Min(raw, 1.0), CHOKE_FLOOR + over * (CHOKE_FLOOR_HOT - CHOKE_FLOOR),
          r.atk + over * (r.atkHot - r.atk), r.rel + over * (r.relHot - r.rel))
  }

  datatype Memo = NoMemo | Memo(key: real, chain: Chain)

  datatype Choke = Choke(knob: real, env: real, depth: OnePole, gain: real, memo: Memo)

  function BootChoke(glide: real): Choke {
    Choke(0.0, 0.0, OnePole(0.0, false, glide), 1.0, NoMemo)
  }

  /** Where a knob position sends the depth: the whole of it at half travel. */
  function DepthTarget(knob: real): real { Min(Abs(knob), 0.5) * (CHOKE_DEPTH_TOP / 0.5) }

  /** The duck's share of the window. */
  function Window(env: real): real {
    if env <= CHOKE_THRESH then 0.0 else Min(1.0, (env - CHOKE_THRESH) / (CHOKE_FULL - CHOKE_THRESH))
  }

  function Recalled(r: Rates, c: Choke, raw: real, memoOn: bool): Chain {
    if memoOn && c.memo.Memo? && c.memo.key == raw then c.memo.chain else ChainOf(r, raw)
  }

  /** The follower: quick up, slow down. */
  function Follow(x: Chain, env: real, rect: real): real {
    env + (if rect > env then x.atk else x.rel) * (rect - env)
  }

  function DuckGain(x: Chain, env: real): real {
    1.0 - x.depth * (1.0 - x.floor) * Window(env)
  }

  /** One sample; rect is the priority deck's level after its mix gain. */
  function Duck(r: Rates, c: Choke, rect: real, memoOn: bool): Choke {
    var depth := Glide(c.depth, DepthTarget(c.knob));
    var x := Recalled(r, c, depth.value, memoOn);
    var env := Follow(x, c.env, rect);
    Choke(c.knob, env, depth, DuckGain(x, env), Memo(depth.value, x))
  }

  /** A run: at each sample the knob may have been moved. */
  function DuckRun(r: Rates, c: Choke, xs: seq<(real, real)>, memoOn: bool): (gains: seq<real>)
    ensures |gains| == |xs|
    decreases |xs|
  {
    if xs == [] then []
    else
      var c1 := Duck(r, c.(knob := xs[0].0), xs[0].1, memoOn);
      [c1.gain] + DuckRun(r, c1, xs[1..], memoOn)
  }

  /** What is remembered is what would be computed. */
  predicate MemoOk(r: Rates, c: Choke) {
    c.memo.Memo? ==> c.memo.chain == ChainOf(r, c.memo.key)
  }

  /** Remembering the depth chain changes no gain, whatever the knob does. */
  lemma {:induction false} MemoIsInvisible(r: Rates, c: Choke, d: Choke, xs: seq<(real, real)>)
    requires MemoOk(r, c) && d == c.(memo := d.memo)
    ensures DuckRun(r, c, xs, true) == DuckRun(r, d, xs, false)
    decreases |xs|
  {
    hide ChainOf, Glide;
    if xs != [] {
      var (knob, rect) := (xs[0].0, xs[0].1);
      MemoIsInvisible(r, Duck(r, c.(knob := knob), rect, true), Duck(r, d.(knob := knob), rect, false), xs[1..]);
    }
  }

  predicate ChokeOk(r: Rates, c: Choke) {
    && RatesOk(r) && MemoOk(r, c)
    && -1.0 <= c.knob <= 1.0
    && InHull(c.depth, 0.0, CHOKE_DEPTH_TOP)
    && c.env >= 0.0
  }

  predicate ChainSane(x: Chain) {
    && 0.0 <= x.depth <= 1.0 && CHOKE_FLOOR_HOT <= x.floor <= CHOKE_FLOOR
    && 0.0 <= x.atk <= 1.0 && 0.0 <= x.rel <= 1.0
  }

  lemma {:induction false} ChainRange(r: Rates, raw: real)
    requires RatesOk(r) && 0.0 <= raw <= CHOKE_DEPTH_TOP
    ensures ChainSane(ChainOf(r, raw))
    ensures raw <= 1.0 ==> ChainOf(r, raw) == Chain(0.0, raw, CHOKE_FLOOR, r.atk, r.rel)
  {
    var over := ChainOf(r, raw).over;
    PartWay(CHOKE_FLOOR, CHOKE_FLOOR_HOT, over, CHOKE_FLOOR_HOT, CHOKE_FLOOR);
    PartWay(r.atk, r.atkHot, over, 0.0, 1.0);
    PartWay(r.rel, r.relHot, over, 0.0, 1.0);
    if raw <= 1.0 {
      assert (raw - 1.0) / (CHOKE_DEPTH_TOP - 1.0) <= 0.0;
      assert over == 0.0;
    }
  }

  lemma {:induction false} TargetRange(knob: real)
    requires -1.0 <= knob <= 1.0
    ensures 0.0 <= DepthTarget(knob) <= CHOKE_DEPTH_TOP
    ensures Abs(knob) >= 0.5 ==> DepthTarget(knob) == CHOKE_DEPTH_TOP
    ensures knob == 0.0 ==> DepthTarget(knob) == 0.0
  {
  }

  lemma {:induction false} WindowRange(env: real)
    ensures 0.0 <= Window(env) <= 1.0
    ensures env <= CHOKE_THRESH ==> Window(env) == 0.0
    ensures env >= CHOKE_FULL ==> Window(env) == 1.0
  {
  }

  lemma {:induction false} Product(x: real, y: real, z: real, top: real)
    requires 0.0 <= x <= 1.0 && 0.0 <= y <= top && 0.0 <= z <= 1.0
    ensures 0.0 <= x * y * z <= top
  {
    NonNegative(x, y);
    NonNegative(1.0 - x, y);
    NonNegative(x * y, z);
    NonNegative(x * y, 1.0 - z);
  }

  /** The duck never mutes the yielding deck and never lifts it: its gain lies
      between the overdriven floor and 1, and is 1 while the priority deck is below
      the window or the depth is 0. */
  lemma {:induction false} DuckKeeps(r: Rates, c: Choke, rect: real)
    requires ChokeOk(r, c) && rect >= 0.0
    ensures var d := Duck(r, c, rect, true);
            && ChokeOk(r, d)
            && CHOKE_FLOOR_HOT <= d.gain <= 1.0
            && (d.env <= CHOKE_THRESH || d.depth.value == 0.0 ==> d.gain == 1.0)
            && (d.env >= CHOKE_FULL ==>
                  d.gain == 1.0 - Min(d.depth.value, 1.0) * (1.0 - ChainOf(r, d.depth.value).floor))
            && (c.env <= rect ==> c.env <= d.env <= rect) && (rect <= c.env ==> rect <= d.env <= c.env)
  {
    hide Glide, Window;
    TargetRange(c.knob);
    GlideStaysInHull(c.depth, DepthTarget(c.knob), 0.0, CHOKE_DEPTH_TOP);
    var depth := Glide(c.depth, DepthTarget(c.knob));
    ChainRange(r, depth.value);
    var x := ChainOf(r, depth.value);
    DuckFrom(r, c, rect, depth, x);
  }

  lemma {:induction false} DuckFrom(r: Rates, c: Choke, rect: real, depth: OnePole, x: Chain)
    requires ChokeOk(r, c) && rect >= 0.0 && depth == Glide(c.depth, DepthTarget(c.knob))
    requires x == ChainOf(r, depth.value) && ChainSane(x) && InHull(depth, 0.0, CHOKE_DEPTH_TOP)
    ensures var d := Duck(r, c, rect, true);
            && ChokeOk(r, d)
            && CHOKE_FLOOR_HOT <= d.gain <= 1.0
            && (d.env <= CHOKE_THRESH || d.depth.value == 0.0 ==> d.gain == 1.0)
            && (d.env >= CHOKE_FULL ==> d.gain == 1.0 - x.depth * (1.0 - x.floor))
            && (c.env <= rect ==> c.env <= d.env <= rect) && (rect <= c.env ==> rect <= d.env <= c.env)
  {
    hide Glide, ChainOf, DepthTarget, Follow, DuckGain;
    assert Recalled(r, c, depth.value, true) == x;
    var env := Follow(x, c.env, rect);
    FollowRange(x, c.env, rect);
    DuckGainRange(x, env);
    assert depth.value == 0.0 ==> x.depth == 0.0 by { DepthOf(r, depth.value); }
  }

  lemma {:induction false} FollowRange(x: Chain, env: real, rect: real)
    requires ChainSane(x) && env >= 0.0 && rect >= 0.0
    ensures Min(env, rect) <= Follow(x, env, rect) <= Max(env, rect)
  {
    PartWay(env, rect, if rect > env then x.atk else x.rel, Min(env, rect), Max(env, rect));
  }

  lemma {:induction false} DuckGainRange(x: Chain, env: real)
    requires ChainSane(x)
    ensures var gain := DuckGain(x, env);
            && CHOKE_FLOOR_HOT <= gain <= 1.0
            && (env <= CHOKE_THRESH || x.depth == 0.0 ==> gain == 1.0)
            && (env >= CHOKE_FULL ==> gain == 1.0 - x.depth * (1.0 - x.floor))
  {
    WindowRange(env);
    hide Window;
    var d, y, w := x.depth, 1.0 - x.floor, Window(env);
    Product(d, y, w, 1.0 - CHOKE_FLOOR_HOT);
    ZeroFactors(d, y, w);
    assert DuckGain(x, env) == 1.0 - d * y * w;
  }

  lemma {:induction false} ZeroFactors(d: real, y: real, w: real)
    ensures d == 0.0 || w == 0.0 ==> d * y * w == 0.0
    ensures w == 1.0 ==> d * y * w == d * y
  {
  }

  lemma {:induction false} DepthOf(r: Rates, raw: real)
    ensures ChainOf(r, raw).depth == Min(raw, 1.0)
  {
  }

  /** CHOKE at noon, its glide at rest, is no duck at all, for ever. */
  lemma {:induction false} NoonIsBypass(r: Rates, c: Choke, xs: seq<(real, real)>, i: nat)
    requires ChokeOk(r, c) && c.depth.value == 0.0 && i < |xs|
    requires forall j | 0 <= j <= i :: xs[j].0 == 0.0 && xs[j].1 >= 0.0
    ensures DuckRun(r, c, xs, true)[i] == 1.0
    decreases |xs|
  {
    hide ChainOf, Duck;
    var c0 := c.(knob := xs[0].0);
    DuckKeeps(r, c0, xs[0].1);
    NoonDepth(r, c0, xs[0].1);
    if i > 0 {
      NoonIsBypass(r, Duck(r, c0, xs[0].1, true), xs[1..], i - 1);
    }
  }

  lemma {:induction false} NoonDepth(r: Rates, c: Choke, rect: real)
    requires c.knob == 0.0 && c.depth.value == 0.0
    ensures Duck(r, c, rect, true).depth.value == 0.0
  {
  }

  /** Fully overdriven, on a deck that is properly sounding, the floor is reached. */
  lemma {:induction false} FloorIsReached(r: Rates, c: Choke, rect: real)
    requires ChokeOk(r, c) && Abs(c.knob) >= 0.5 && rect >= 0.0
    requires c.depth.value == CHOKE_DEPTH_TOP && Duck(r, c, rect, true).env >= CHOKE_FULL
    ensures Duck(r, c, rect, true).gain == CHOKE_FLOOR_HOT
  {
    TargetRange(c.knob);
    DuckKeeps(r, c, rect);
    assert Duck(r, c, rect, true).depth.value == CHOKE_DEPTH_TOP;
    assert ChainOf(r, CHOKE_DEPTH_TOP).over == 1.0;
  }

  // ---- the sidechain's curves ---------------------------------------------------------

  /** A share of a span, cut off at its ends. */
  predicate IsShare(x: real, lo: real, hi: real, at: real)
    requires lo < hi
  {
    if at <= lo then x == 0.0 else if at >= hi then x == 1.0 else x * (hi - lo) == at - lo
  }

  /** Half travel of the knob is the whole depth, and the way there is straight. */
  lemma {:induction false} DepthCurve(knob: real)
    ensures 0.0 <= knob <= 0.5 ==> DepthTarget(knob) * 5.0 == 12.0 * knob
    ensures knob >= 0.5 ==> DepthTarget(knob) == 1.2
    ensures DepthTarget(-knob) == DepthTarget(knob)
  {
  }

  /** The gain at a depth and a level: the depth's share up to its whole, of the way
      down to a floor of 0.15 that past a whole depth falls straight to 0.02, over a
      window of levels from 0.015 to 0.11. */
  lemma {:induction false} DuckCurve(r: Rates, raw: real, env: real)
    requires 0.0 <= raw
    ensures exists over, w ::
              && IsShare(over, 1.0, 1.2, raw) && IsShare(w, 0.015, 0.11, env)
              && DuckGain(ChainOf(r, raw), env)
                 == 1.0 - (if raw < 1.0 then raw else 1.0) * (1.0 - (0.15 - 0.13 * over)) * w
  {
    var x := ChainOf(r, raw);
    OverShare(r, raw);
    WindowShare(env);
    assert x.floor == 0.15 - 0.13 * x.over;
    assert IsShare(x.over, 1.0, 1.2, raw) && IsShare(Window(env), 0.015, 0.11, env);
  }

  lemma {:induction false} OverShare(r: Rates, raw: real)
    ensures IsShare(ChainOf(r, raw).over, 1.0, 1.2, raw)
  {
  }

  lemma {:induction false} WindowShare(env: real)
    ensures IsShare(Window(env), 0.015, 0.11, env)
  {
  }

  /** The rates between the two pairs follow the same share. */
  lemma {:induction false} RateCurve(r: Rates, raw: real)
    ensures exists over :: IsShare(over, 1.0, 1.2, raw)
              && ChainOf(r, raw).atk == r.atk + over * (r.atkHot - r.atk)
              && ChainOf(r, raw).rel == r.rel + over * (r.relHot - r.rel)
  {
    OverShare(r, raw);
    assert IsShare(ChainOf(r, raw).over, 1.0, 1.2, raw);
  }

  function FollowTimes(x: Chain, env: real, rect: real, n: nat): real
    decreases n
  {
    if n == 0 then env else FollowTimes(x, Follow(x, env, rect), rect, n - 1)
  }

  /** Towards a steady level the follower goes geometrically: up at the attack rate,
      down at the release rate. */
  lemma {:induction false} FollowerIsGeometric(x: Chain, env: real, rect: real, n: nat)
    requires 0.0 < x.atk < 1.0 && 0.0 < x.rel < 1.0
    ensures FollowTimes(x, env, rect, n)
         == rect + (env - rect) * Power(1.0 - (if env < rect then x.atk else x.rel), n)
    decreases n
  {
    hide Follow;
    var k := 1.0 - (if env < rect then x.atk else x.rel);
    if n > 0 {
      var env1 := Follow(x, env, rect);
      FollowOnce(x, env, rect, k);
      FollowerIsGeometric(x, env1, rect, n - 1);
      Regroup(env - rect, k, Power(k, n - 1));
      if env == rect {
        ZeroTimes(Power(k, n));
        ZeroTimes(Power(1.0 - (if env1 < rect then x.atk else x.rel), n - 1));
      }
    }
  }

  lemma {:induction false} FollowOnce(x: Chain, env: real, rect: real, k: real)
    requires 0.0 < x.atk < 1.0 && 0.0 < x.rel < 1.0 && k == 1.0 - (if env < rect then x.atk else x.rel)
    ensures Follow(x, env, rect) - rect == (env - rect) * k
    ensures (Follow(x, env, rect) < rect <==> env < rect) && (Follow(x, env, rect) == rect <==> env == rect)
  {
    var d, left := env - rect, (env - rect) * k;
    assert Follow(x, env, rect) - rect == left;
    SignStays(d, k);
    assert d < 0.0 <==> left < 0.0;
    assert d > 0.0 <==> left > 0.0;
  }

  // ---- the bloom duck ---------------------------------------------------------------------

  const BLOOM_THRESH: real := 0.30
  const BLOOM_FULL: real := 0.60
  const BLOOM_FLOOR: real := 0.316

  /** The gain is target + residual; only the residual is ridden. */
  datatype Bloom = Bloom(gain: real, target: real, residual: real, armed: bool, keepDown: real, keepUp: real)

  function BootBloom(keepDown: real, keepUp: real): Bloom {
    Bloom(1.0, 1.0, 0.0, false, keepDown, keepUp)
  }

  function BloomTarget(armed: bool, env: real): real {
    if !armed || env <= BLOOM_THRESH then 1.0
    else 1.0 - (1.0 - BLOOM_FLOOR) * Min(1.0, (env - BLOOM_THRESH) / (BLOOM_FULL - BLOOM_THRESH))
  }

  /** The control tick: the residual is re-based when the target moves. */
  function Retarget(b: Bloom, target: real): Bloom {
    if target != b.target then b.(residual := b.residual + b.target - target, target := target) else b
  }

  /** One sample. */
  function RideBloom(b: Bloom): Bloom {
    var residual := b.residual * if b.target < b.gain then b.keepDown else b.keepUp;
    b.(residual := residual, gain := b.target + residual)
  }

  function Unducked(b: Bloom): Bloom { b.(gain := 1.0, target := 1.0, residual := 0.0) }

  predicate BloomOk(b: Bloom) {
    && 0.0 <= b.keepDown <= 1.0 && 0.0 <= b.keepUp <= 1.0
    && b.gain == b.target + b.residual
    && BLOOM_FLOOR <= b.target <= 1.0 && BLOOM_FLOOR <= b.gain <= 1.0
  }

  lemma {:induction false} TargetInRange(armed: bool, env: real)
    ensures BLOOM_FLOOR <= BloomTarget(armed, env) <= 1.0
    ensures armed ==> exists w :: IsShare(w, 0.30, 0.60, env) && BloomTarget(armed, env) == 1.0 - 0.684 * w
    ensures !armed ==> BloomTarget(armed, env) == 1.0
  {
    var w := if env <= BLOOM_THRESH then 0.0
             else Min(1.0, (env - BLOOM_THRESH) / (BLOOM_FULL - BLOOM_THRESH));
    assert IsShare(w, 0.30, 0.60, env) && 0.0 <= w <= 1.0;
    assert armed ==> BloomTarget(armed, env) == 1.0 - 0.684 * w;
  }

  /** Moving the target moves no gain: the residual takes up the difference. */
  lemma {:induction false} RetargetKeepsGain(b: Bloom, target: real)
    requires BloomOk(b) && BLOOM_FLOOR <= target <= 1.0
    ensures BloomOk(Retarget(b, target)) && Retarget(b, target).gain == b.gain && Retarget(b, target).target == target
  {
  }

  /** A sample moves the gain towards the target, never past it. */
  lemma {:induction false} RideApproaches(b: Bloom)
    requires BloomOk(b)
    ensures BloomOk(RideBloom(b))
    ensures b.gain >= b.target ==> b.target <= RideBloom(b).gain <= b.gain
    ensures b.gain <= b.target ==> b.gain <= RideBloom(b).gain <= b.target
  {
    var keep := if b.target < b.gain then b.keepDown else b.keepUp;
    PartWay(b.gain, b.target, 1.0 - keep, Min(b.gain, b.target), Max(b.gain, b.target));
    assert RideBloom(b).gain == b.gain + (1.0 - keep) * (b.target - b.gain);
  }

  function RideTimes(b: Bloom, n: nat): Bloom
    decreases n
  {
    if n == 0 then b else RideTimes(RideBloom(b), n - 1)
  }

  function Keep(b: Bloom): real { if b.target < b.gain then b.keepDown else b.keepUp }

  lemma {:induction false} RideOnce(b: Bloom)
    requires BloomOk(b) && b.keepDown > 0.0 && b.keepUp > 0.0
    ensures var b1 := RideBloom(b);
            && BloomOk(b1) && b1.keepDown == b.keepDown && b1.keepUp == b.keepUp && b1.target == b.target
            && b1.residual == b.residual * Keep(b)
            && (b.residual != 0.0 ==> Keep(b1) == Keep(b)) && (b.residual == 0.0 ==> b1.residual == 0.0)
  {
    RideApproaches(b);
    SignStays(b.residual, Keep(b));
  }

  /** With the target still the residual is a pure geometric decay, at the one rate
      its sign picks: nothing is re-added, so nothing stalls. */
  lemma {:induction false} ResidualDecays(b: Bloom, n: nat)
    requires BloomOk(b) && b.keepDown > 0.0 && b.keepUp > 0.0
    ensures RideTimes(b, n).residual == b.residual * Power(Keep(b), n) && RideTimes(b, n).target == b.target
    decreases n
  {
    hide BloomOk, RideBloom, Keep;
    if n > 0 {
      var b1 := RideBloom(b);
      RideOnce(b);
      ResidualDecays(b1, n - 1);
      Regroup(b.residual, Keep(b), Power(Keep(b), n - 1));
      if b.residual == 0.0 {
        ZeroTimes(Power(Keep(b1), n - 1));
        ZeroTimes(Power(Keep(b), n));
      }
    }
  }

  lemma {:induction false} SignStays(x: real, k: real)
    requires k > 0.0
    ensures (x > 0.0 <==> x * k > 0.0) && (x < 0.0 <==> x * k < 0.0) && (x == 0.0 ==> x * k == 0.0)
  {
    if x < 0.0 { assert (-x) * k > 0.0; }
  }

  lemma {:induction false} ZeroTimes(x: real)
    ensures 0.0 * x == 0.0
  {
  }
}
