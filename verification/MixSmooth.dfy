/**
  The one-pole glide the mix rides its knobs with, and the small types the mix
  shares.
 */
module MixSmooth {
  import opened RealLemmas

  /** One value per deck. */
  datatype Two<T> = Two(a: T, b: T)

  function At<T>(x: Two<T>, p: nat): T { if p == 0 then x.a else x.b }

  function Put<T>(x: Two<T>, p: nat, v: T): Two<T> { if p == 0 then x.(a := v) else x.(b := v) }

  function Clamp(x: real, lo: real, hi: real): (y: real)
    requires lo <= hi
    ensures lo <= y <= hi
  {
    if x < lo then lo else if x > hi then hi else x
  }

  function Abs(x: real): real { if x < 0.0 then -x else x }

  function Max(x: real, y: real): real { if x < y then y else x }

  function Min(x: real, y: real): real { if y < x then y else x }

  const SNAP: real := 0.0005

  datatype OnePole = OnePole(value: real, smoothing: bool, kof: real)

  /** A glide's rate, at most all the way in one sample. */
  function GlideRate(seconds: real, sampleRate: real): (k: real)
    requires seconds > 0.0 && sampleRate > 0.0
    ensures 0.0 < k <= 1.0
  {
    Positive(seconds, sampleRate);
    var samples := seconds * sampleRate;
    if samples < 1.0 then 1.0
    else
      DivBounds(1.0, samples, 0.0, 1.0);
      1.0 / samples
  }

  function Towards(o: OnePole, target: real): real { o.value + o.kof * (target - o.value) }

  function Glide(o: OnePole, target: real): OnePole {
    if !o.smoothing && Abs(target - o.value) < SNAP then o
    else
      var v := Towards(o, target);
      if Abs(target - v) < SNAP then o.(value := target, smoothing := false)
      else o.(value := v, smoothing := true)
  }

  function ResetTo(o: OnePole, value: real): OnePole {
    o.(value := value, smoothing := false)
  }

  predicate InHull(o: OnePole, lo: real, hi: real) {
    0.0 <= o.kof <= 1.0 && lo <= o.value <= hi
  }

  /** A glide never leaves the span of where it is and where it goes. */
  lemma {:induction false} GlideStaysInHull(o: OnePole, target: real, lo: real, hi: real)
    requires InHull(o, lo, hi) && lo <= target <= hi
    ensures InHull(Glide(o, target), lo, hi)
  {
    PartWay(o.value, target, o.kof, lo, hi);
  }

  function GlideTimes(o: OnePole, target: real, n: nat): OnePole
    decreases n
  {
    if n == 0 then o else GlideTimes(Glide(o, target), target, n - 1)
  }

  predicate Under(o: OnePole, target: real, n: nat) {
    Abs(target - o.value) * Power(1.0 - o.kof, n) < SNAP
  }

  /** At rest it stays exactly when the target is within the snap. */
  lemma {:induction false} RestsNearby(o: OnePole, target: real)
    requires !o.smoothing
    ensures Glide(o, target) == o <==> Abs(target - o.value) < 0.0005
  {
  }

  lemma {:induction false} GlideOnce(o: OnePole, target: real)
    requires 0.0 < o.kof <= 1.0 && o.smoothing
    ensures var left := Abs(target - o.value) * (1.0 - o.kof);
            && (left < SNAP ==> Glide(o, target) == OnePole(target, false, o.kof))
            && (left >= SNAP ==> Glide(o, target) == OnePole(target + (o.value - target) * (1.0 - o.kof), true, o.kof))
            && (left >= SNAP ==> Abs(target - Glide(o, target).value) == left)
  {
    hide Abs, Towards;
    WayLeft(o, target);
  }

  lemma {:induction false} WayLeft(o: OnePole, target: real)
    requires 0.0 <= o.kof <= 1.0
    ensures Towards(o, target) == target + (o.value - target) * (1.0 - o.kof)
    ensures Abs(target - Towards(o, target)) == Abs(target - o.value) * (1.0 - o.kof)
  {
    if target >= o.value {
      NonNegative(target - o.value, 1.0 - o.kof);
    } else {
      NonNegative(o.value - target, 1.0 - o.kof);
    }
  }

  lemma {:induction false} RestsThere(o: OnePole, target: real, n: nat)
    requires o.value == target && !o.smoothing
    ensures GlideTimes(o, target, n) == o
    decreases n
  {
    if n > 0 {
      RestsThere(o, target, n - 1);
    }
  }

  lemma {:induction false} StaysUnder(o: OnePole, target: real, n: nat)
    requires 0.0 < o.kof <= 1.0 && n > 0 && Abs(target - o.value) * (1.0 - o.kof) < SNAP
    ensures Under(o, target, n)
  {
    var d, k, p := Abs(target - o.value), 1.0 - o.kof, Power(1.0 - o.kof, n - 1);
    PowerRange(k, n - 1);
    NonNegative(d, k);
    NonNegative(d * k, 1.0 - p);
    Regroup(d, k, p);
  }

  /** What is left of the way shrinks geometrically until it is under the snap, and
      from that sample on the glide rests exactly on its target. */
  lemma {:induction false} GlideArrives(o: OnePole, target: real, n: nat)
    requires 0.0 < o.kof <= 1.0 && o.smoothing && !Under(o, target, 0)
    ensures Under(o, target, n) ==> GlideTimes(o, target, n) == OnePole(target, false, o.kof)
    ensures !Under(o, target, n) ==>
              GlideTimes(o, target, n) == OnePole(target + (o.value - target) * Power(1.0 - o.kof, n), true, o.kof)
    decreases n
  {
    hide Glide, Abs;
    if n > 0 {
      var o1 := Glide(o, target);
      GlideOnce(o, target);
      var left := Abs(target - o.value);
      if left * (1.0 - o.kof) < SNAP {
        RestsThere(o1, target, n - 1);
        StaysUnder(o, target, n);
      } else {
        GlideArrives(o1, target, n - 1);
        Regroup(left, 1.0 - o.kof, Power(1.0 - o.kof, n - 1));
        Regroup(o.value - target, 1.0 - o.kof, Power(1.0 - o.kof, n - 1));
      }
    }
  }
}
