/**
  The boot mute: silence while the boot take is open, a linear ramp of 960 samples
  once it is done, and the output untouched ever after.
 */
module BootGate {

  const FADE_SAMPLES: nat := 960

  /** The gain of a sample that finds faded samples of the ramp played. */
  function Gain(faded: nat): real {
    if faded < FADE_SAMPLES then faded as real / FADE_SAMPLES as real else 1.0
  }

  function Next(faded: nat): nat { if faded < FADE_SAMPLES then faded + 1 else faded }

  /** One sample of one channel: whether the take is done when it is played, and what
      the engine put out. */
  datatype Sample = Sample(done: bool, x: real)

  function Muted(faded: nat, s: Sample): real {
    if faded >= FADE_SAMPLES then s.x else if !s.done then 0.0 else s.x * Gain(faded)
  }

  function After(faded: nat, s: Sample): nat {
    if faded >= FADE_SAMPLES || !s.done then faded else Next(faded)
  }

  function Faded(faded: nat, xs: seq<Sample>): nat
    decreases |xs|
  {
    if xs == [] then faded else Faded(After(faded, xs[0]), xs[1..])
  }

  function Outs(faded: nat, xs: seq<Sample>): (outs: seq<real>)
    ensures |outs| == |xs|
    decreases |xs|
  {
    if xs == [] then [] else [Muted(faded, xs[0])] + Outs(After(faded, xs[0]), xs[1..])
  }

  /** How a stretch of samples is cut into blocks does not matter. */
  lemma {:induction false} BlocksDoNotMatter(faded: nat, a: seq<Sample>, b: seq<Sample>)
    ensures Faded(faded, a + b) == Faded(Faded(faded, a), b)
    ensures Outs(faded, a + b) == Outs(faded, a) + Outs(Faded(faded, a), b)
    decreases |a|
  {
    hide Muted, After;
    if a == [] {
      assert a + b == b;
    } else {
      assert (a + b)[1..] == a[1..] + b;
      BlocksDoNotMatter(After(faded, a[0]), a[1..], b);
    }
  }

  /** The take is done from sample t on. */
  predicate DoneFrom(xs: seq<Sample>, t: nat) {
    forall i | 0 <= i < |xs| :: xs[i].done <==> i >= t
  }

  /** From boot: silence up to the take, then sample j of the ramp at j / 960 of its
      level, then the engine's output for ever. */
  lemma {:induction false} MuteThenRampThenOpen(xs: seq<Sample>, t: nat, i: nat)
    requires DoneFrom(xs, t) && i < |xs|
    ensures Outs(0, xs)[i] ==
            if i < t then 0.0
            else if i - t < 960 then xs[i].x * ((i - t) as real / 960.0)
            else xs[i].x
  {
    MuteFrom(0, xs, t, i);
  }

  lemma {:induction false} MuteFrom(faded: nat, xs: seq<Sample>, t: nat, i: nat)
    requires faded <= FADE_SAMPLES && (t > 0 ==> faded == 0) && DoneFrom(xs, t) && i < |xs|
    ensures Outs(faded, xs)[i] == if i < t then 0.0 else Played(xs[i].x, faded + i - t)
    decreases |xs|
  {
    hide Muted, Gain, Played;
    MutedIs(faded, xs[0]);
    if i > 0 {
      var next, t' := After(faded, xs[0]), if t > 0 then t - 1 else 0;
      assert forall k | 0 <= k < |xs[1..]| :: xs[1..][k] == xs[k + 1];
      MuteFrom(next, xs[1..], t', i - 1);
      if t == 0 {
        PlayedOn(xs[i].x, faded, next, i);
      }
    }
  }

  /** A sample at the gain the ramp has reached. */
  function Played(x: real, faded: nat): real {
    x * Gain(faded)
  }

  lemma {:induction false} MutedIs(faded: nat, s: Sample)
    requires faded <= FADE_SAMPLES && (!s.done ==> faded == 0)
    ensures Muted(faded, s) == if s.done then Played(s.x, faded) else 0.0
  {
  }

  /** Past its end the ramp stands still. */
  lemma {:induction false} PlayedOn(x: real, faded: nat, next: nat, i: nat)
    requires i > 0 && faded <= FADE_SAMPLES && next == Next(faded)
    ensures Played(x, faded + i) == Played(x, next + i - 1)
  {
    assert faded == FADE_SAMPLES ==> Gain(faded + i) == 1.0 && Gain(next + i - 1) == 1.0;
  }

  /** The ramp never falls. */
  lemma {:induction false} GainRises(i: nat, j: nat)
    requires i <= j
    ensures 0.0 <= Gain(i) <= Gain(j) <= 1.0
  {
  }

  /** Opened, the gate never closes again, whatever the take says. */
  lemma {:induction false} OpenForGood(xs: seq<Sample>, i: nat)
    requires i < |xs|
    ensures Outs(FADE_SAMPLES, xs)[i] == xs[i].x && Faded(FADE_SAMPLES, xs) == FADE_SAMPLES
    decreases |xs|
  {
    if i > 0 {
      OpenForGood(xs[1..], i - 1);
    } else if |xs| > 1 {
      OpenForGood(xs[1..], 0);
    }
  }

  /** One block of a channel, the take's state being constant over it. */
  function Stream(done: bool, xs: seq<real>): (s: seq<Sample>)
    ensures |s| == |xs|
  {
    seq(|xs|, i requires 0 <= i < |xs| => Sample(done, xs[i]))
  }

  class Gate {
    var faded: nat

    constructor ()
      ensures faded == 0
    {
      faded := 0;
    }

    method Silence(l: array<real>, r: array<real>, n: nat)
      requires l != r && n <= l.Length && n <= r.Length
      modifies l, r
      ensures forall k | 0 <= k < n :: l[k] == 0.0 && r[k] == 0.0
      ensures forall k | n <= k < l.Length :: l[k] == old(l[k])
      ensures forall k | n <= k < r.Length :: r[k] == old(r[k])
    {
      for i := 0 to n
        invariant forall k | 0 <= k < i :: l[k] == 0.0 && r[k] == 0.0
        invariant forall k | i <= k < l.Length :: l[k] == old(l[k])
        invariant forall k | i <= k < r.Length :: r[k] == old(r[k])
      {
        l[i] := 0.0;
        r[i] := 0.0;
      }
    }

    /** One block of the ramp, or past its end. */
    method Ramp(l: array<real>, r: array<real>, n: nat, ghost ls: seq<Sample>, ghost rs: seq<Sample>)
      requires l != r && n <= l.Length && n <= r.Length && faded <= FADE_SAMPLES
      requires ls == Stream(true, l[..n]) && rs == Stream(true, r[..n])
      modifies this, l, r
      ensures faded <= FADE_SAMPLES && faded == Faded(old(faded), ls)
      ensures forall k | 0 <= k < n :: l[k] == Outs(old(faded), ls)[k] && r[k] == Outs(old(faded), rs)[k]
      ensures forall k | n <= k < l.Length :: l[k] == old(l[k])
      ensures forall k | n <= k < r.Length :: r[k] == old(r[k])
    {
      hide Outs, Faded;
      ghost var f0 := faded;
      FadedNone(f0, ls);
      FadedNone(f0, rs);
      for i := 0 to n
        invariant faded <= FADE_SAMPLES && faded == Faded(f0, ls[..i]) == Faded(f0, rs[..i])
        invariant forall k | 0 <= k < i :: l[k] == Outs(f0, ls)[k] && r[k] == Outs(f0, rs)[k]
        invariant forall k | i <= k < l.Length :: l[k] == old(l[k])
        invariant forall k | i <= k < r.Length :: r[k] == old(r[k])
      {
        OneMore(f0, ls, i);
        OneMore(f0, rs, i);
        var k := if faded < FADE_SAMPLES then faded as real / FADE_SAMPLES as real else 1.0;
        l[i] := l[i] * k;
        r[i] := r[i] * k;
        if faded < FADE_SAMPLES {
          faded := faded + 1;
        }
      }
      assert ls[..n] == ls;
    }

    /** One block of both channels, in place. */
    method Apply(takeDone: bool, l: array<real>, r: array<real>, n: nat)
      requires l != r && n <= l.Length && n <= r.Length && faded <= FADE_SAMPLES
      modifies this, l, r
      ensures faded <= FADE_SAMPLES && faded == Faded(old(faded), Stream(takeDone, old(l[..n])))
      ensures l[..n] == Outs(old(faded), Stream(takeDone, old(l[..n]))) && l[n..] == old(l[n..])
      ensures r[..n] == Outs(old(faded), Stream(takeDone, old(r[..n]))) && r[n..] == old(r[n..])
    {
      hide Outs, Faded;
      ghost var ls, rs := Stream(takeDone, l[..n]), Stream(takeDone, r[..n]);
      if faded >= FADE_SAMPLES {
        Unmoved(faded, ls);
        Unmoved(faded, rs);
        return;
      }
      if !takeDone {
        Unmoved(faded, ls);
        Unmoved(faded, rs);
        Silence(l, r, n);
        return;
      }
      Ramp(l, r, n, ls, rs);
    }
  }

  lemma {:induction false} FadedNone(faded: nat, xs: seq<Sample>)
    ensures Faded(faded, xs[..0]) == faded
  {
  }

  lemma {:induction false} OneMore(faded: nat, xs: seq<Sample>, i: nat)
    requires i < |xs|
    ensures Faded(faded, xs[..i + 1]) == After(Faded(faded, xs[..i]), xs[i])
    ensures Outs(faded, xs)[i] == Muted(Faded(faded, xs[..i]), xs[i])
    decreases i
  {
    hide After, Muted;
    if i > 0 {
      assert xs[..i][1..] == xs[1..][..i - 1] && xs[..i + 1][1..] == xs[1..][..i];
      OneMore(After(faded, xs[0]), xs[1..], i - 1);
    } else {
      assert xs[..1][1..] == [] && xs[..0] == [];
    }
  }

  /** Open for good, or not begun: the ramp stands still, and a block is passed on or
      silenced whole. */
  lemma {:induction false} Unmoved(faded: nat, xs: seq<Sample>)
    requires faded >= FADE_SAMPLES || forall i | 0 <= i < |xs| :: !xs[i].done
    ensures Faded(faded, xs) == faded
    ensures forall i | 0 <= i < |xs| :: Outs(faded, xs)[i] == if faded >= FADE_SAMPLES then xs[i].x else 0.0
    decreases |xs|
  {
    if xs != [] {
      Unmoved(faded, xs[1..]);
      assert forall i | 0 < i < |xs| :: Outs(faded, xs)[i] == Outs(faded, xs[1..])[i - 1];
    }
  }
}
