/**
  The lamps' duty: a perceptual intensity put through a gamma curve onto a raster of
  steps, by comparing against thresholds computed once per step count instead of
  raising to a power per lamp.
 */
module LedDuty {
  import opened RealLemmas

  const LED_STEPS: nat := 8
  const MAX_STEPS: nat := 256

  /** The curve, rising from and into 0..1, and its inverse there. */
  datatype Curve = Curve(f: real -> real, g: real -> real)

  predicate Unit(x: real) { 0.0 <= x <= 1.0 }

  ghost predicate CurveOk(c: Curve) {
    && (forall x: real | Unit(x) :: Unit(c.f(x)))
    && (forall y: real | Unit(y) :: Unit(c.g(y)) && c.f(c.g(y)) == y)
    && (forall x: real, y: real | Unit(x) && Unit(y) && x < y :: c.f(x) < c.f(y))
  }

  /** Where step k begins: half a step below it on the raster. */
  function Mark(k: nat, n: nat): real
    requires n >= 2
  {
    (k as real - 0.5) / (n - 1) as real
  }

  /** The nearest step, halves up. */
  function Nearest(y: real, n: nat): int
    requires n >= 2
  {
    (y * (n - 1) as real + 0.5).Floor
  }

  /** No step is nearer, and a half is rounded up. */
  lemma {:induction false} NearestIsNearest(y: real, n: nat)
    requires n >= 2
    ensures var x := y * (n - 1) as real; Nearest(y, n) as real - 0.5 <= x < Nearest(y, n) as real + 0.5
  {
  }

  /** The power law: the curve's value rounded onto the raster, lifted to one step. */
  function PowerLaw(c: Curve, intensity: real, steps: nat): int
    requires steps >= 2
  {
    if intensity <= 0.0 then 0
    else
      var q := Nearest(c.f(if intensity < 1.0 then intensity else 1.0), if steps < MAX_STEPS then steps else MAX_STEPS);
      if q < 1 then 1 else q
  }

  // ---- the tables -------------------------------------------------------------------

  class GammaTable {
    const c: Curve
    const t: array<real>
    var steps: nat

    /** Built for steps, and only read below it. */
    ghost predicate Valid()
      reads this, t
    {
      t.Length == MAX_STEPS && steps <= MAX_STEPS
      && (steps >= 2 ==> forall k | 1 <= k < steps :: t[k] == c.g(Mark(k, steps)))
    }

    constructor (c: Curve)
      ensures Valid() && fresh(t) && this.c == c && steps == 0
    {
      this.c := c;
      t := new real[MAX_STEPS](_ => 0.0);
      steps := 0;
    }

    method Build(n: nat)
      requires Valid() && 2 <= n <= MAX_STEPS
      modifies this, t
      ensures Valid() && steps == n
    {
      for k := 1 to n
        invariant forall j | 1 <= j < k :: t[j] == c.g(Mark(j, n))
      {
        t[k] := c.g(Mark(k, n));
      }
      steps := n;
    }
  }

  /** The shipped table, and one other rebuilt when another count is asked for. */
  class Tables {
    const c: Curve
    const shipped: GammaTable
    const other: GammaTable

    ghost predicate Valid()
      reads this, shipped, shipped.t, other, other.t
    {
      && shipped != other && shipped.t != other.t && shipped.c == c && other.c == c
      && shipped.Valid() && other.Valid() && shipped.steps == LED_STEPS
    }

    constructor (c: Curve)
      ensures Valid() && fresh(shipped) && fresh(shipped.t) && fresh(other) && fresh(other.t) && this.c == c
    {
      this.c := c;
      shipped := new GammaTable(c);
      other := new GammaTable(c);
      new;
      shipped.Build(LED_STEPS);
    }

    method Get(steps: nat) returns (g: GammaTable)
      requires Valid() && 2 <= steps <= MAX_STEPS
      modifies other, other.t
      ensures Valid() && g.Valid() && g.steps == steps && g.c == c && (g == shipped || g == other)
    {
      if steps == LED_STEPS {
        return shipped;
      }
      if other.steps != steps {
        other.Build(steps);
      }
      return other;
    }

    /** The scan: the last threshold reached. */
    method Duty(intensity: real, steps: nat) returns (q: int)
      requires Valid() && steps >= 2 && CurveOk(c)
      modifies other, other.t
      ensures Valid() && q == PowerLaw(c, intensity, steps)
    {
      hide CurveOk, Nearest, Mark;
      if intensity <= 0.0 {
        return 0;
      }
      var v := if intensity < 1.0 then intensity else 1.0;
      var n := if steps < MAX_STEPS then steps else MAX_STEPS;
      var g := Get(n);
      q := 1;
      var k := 2;
      while k < n && v >= g.t[k]
        invariant 2 <= k && q == k - 1 && (k <= n || n == 2)
        invariant q == 1 || Nearest(c.f(v), n) >= q
        invariant Valid() && g.Valid() && g.steps == n && g.c == c
        decreases n - k
      {
        Threshold(c, v, k, n);
        q := k;
        k := k + 1;
      }
      if k < n {
        Threshold(c, v, k, n);
      }
      TopStep(c, v, n);
    }
  }

  // ---- why the scan is the power law ----------------------------------------------------

  lemma {:induction false} CurveAt(c: Curve, x: real)
    requires CurveOk(c) && Unit(x)
    ensures Unit(c.f(x))
  {
  }

  lemma {:induction false} InverseAt(c: Curve, y: real)
    requires CurveOk(c) && Unit(y)
    ensures Unit(c.g(y)) && c.f(c.g(y)) == y
  {
  }

  lemma {:induction false} Rises(c: Curve, x: real, y: real)
    requires CurveOk(c) && Unit(x) && Unit(y)
    ensures x < y ==> c.f(x) < c.f(y)
  {
  }

  lemma {:induction false} MarkInUnit(k: nat, n: nat)
    requires 1 <= k < n
    ensures Unit(Mark(k, n))
  {
    var m, d := Mark(k, n), (n - 1) as real;
    assert m * d == k as real - 0.5;
    ScaleLe(0.0, m, d);
    ScaleLe(m, 1.0, d);
  }

  /** A value is at or past the threshold of step k exactly when it rounds to k or
      more. */
  lemma {:induction false} Threshold(c: Curve, v: real, k: nat, n: nat)
    requires CurveOk(c) && Unit(v) && 1 <= k < n && n >= 2
    ensures v >= c.g(Mark(k, n)) <==> Nearest(c.f(v), n) >= k
  {
    hide CurveOk, Mark, Nearest;
    var m := Mark(k, n);
    MarkInUnit(k, n);
    InverseAt(c, m);
    Rises(c, v, c.g(m));
    Rises(c, c.g(m), v);
    RoundsTo(c.f(v), k, n);
  }

  lemma {:induction false} RoundsTo(y: real, k: nat, n: nat)
    requires n >= 2
    ensures y >= Mark(k, n) <==> Nearest(y, n) >= k
  {
    var m, d := Mark(k, n), (n - 1) as real;
    assert m * d == k as real - 0.5;
    ScaleLe(m, y, d);
  }

  /** Nothing rounds past the last step. */
  lemma {:induction false} TopStep(c: Curve, v: real, n: nat)
    requires CurveOk(c) && Unit(v) && n >= 2
    ensures 0 <= Nearest(c.f(v), n) <= n - 1
  {
    hide CurveOk;
    CurveAt(c, v);
    ScaleLe(c.f(v), 1.0, (n - 1) as real);
    ScaleLe(0.0, c.f(v), (n - 1) as real);
  }

  /** A brighter intensity never gets a smaller duty, and any but none is visible. */
  lemma {:induction false} DutyIsMonotone(c: Curve, x: real, y: real, steps: nat)
    requires CurveOk(c) && x <= y && steps >= 2
    ensures PowerLaw(c, x, steps) <= PowerLaw(c, y, steps)
    ensures y > 0.0 ==> 1 <= PowerLaw(c, y, steps) <= (if steps < 256 then steps else 256) - 1
  {
    hide CurveOk, Nearest;
    if y > 0.0 {
      var n := if steps < MAX_STEPS then steps else MAX_STEPS;
      var a, b := if x < 1.0 then x else 1.0, if y < 1.0 then y else 1.0;
      TopStep(c, b, n);
      if x > 0.0 {
        Rises(c, a, b);
        NearestRises(c.f(a), c.f(b), n);
      }
    }
  }

  /** Fully lit, a curve that ends at 1 gives the raster's last step. */
  lemma {:induction false} FullIsTop(c: Curve, steps: nat)
    requires c.f(1.0) == 1.0 && steps >= 2
    ensures PowerLaw(c, 1.0, steps) == (if steps < 256 then steps else 256) - 1
  {
  }

  lemma {:induction false} NearestRises(x: real, y: real, n: nat)
    requires n >= 2 && x <= y
    ensures Nearest(x, n) <= Nearest(y, n)
  {
    ScaleLe(x, y, (n - 1) as real);
  }

  // ---- light levels ------------------------------------------------------------------------

  /** A level that is already light is only rounded. */
  function DutyFromLight(light: real, steps: nat): int
    requires steps >= 2
  {
    if light <= 0.0 then 0
    else
      var q := Nearest(if light < 1.0 then light else 1.0, steps);
      if q < 1 then 1 else q
  }

  /** It is the round trip through the curve that it replaces, on every level. */
  lemma {:induction false} LightIsRoundTrip(c: Curve, light: real, steps: nat)
    requires CurveOk(c) && 2 <= steps <= MAX_STEPS
    ensures var x := if light < 0.0 then 0.0 else if light < 1.0 then light else 1.0;
            PowerLaw(c, c.g(x), steps) == DutyFromLight(light, steps)
  {
    hide CurveOk, Nearest;
    var x := if light < 0.0 then 0.0 else if light < 1.0 then light else 1.0;
    InverseAt(c, x);
    InverseSign(c, x);
  }

  lemma {:induction false} InverseSign(c: Curve, x: real)
    requires CurveOk(c) && Unit(x)
    ensures c.g(x) > 0.0 <==> x > 0.0
  {
    hide CurveOk;
    InverseAt(c, x);
    InverseAt(c, 0.0);
    CurveAt(c, 0.0);
    Rises(c, 0.0, c.g(x));
    Rises(c, 0.0, c.g(0.0));
  }
}
