/**
  The one shared room behind both decks: a delay buffer and a loop, emptied at
  once or, while nothing plays through it, in chunks spread over control ticks.
 */
module MixRoom {

  const BUFFER_SIZE: nat := 32768
  const CLEAR_CHUNK: nat := 1024
  const CLEAR_STEPS: nat := 32

  /** The knobs of the room, and everything of it that is neither knob nor buffer:
      write pointer, loop filters, converters, return peak and limiter. */
  type Knobs(!new)
  type Loop(!new)

  type Buffer = b: seq<real> | |b| == BUFFER_SIZE witness Silence()

  function Silence(): (b: seq<real>)
    ensures |b| == BUFFER_SIZE
  {
    seq(BUFFER_SIZE, _ => 0.0)
  }

  datatype Stereo = Stereo(l: real, r: real)

  datatype Played = Played(loop: Loop, buffer: Buffer, wet: Stereo)

  /** The reverb kernel; atRest is the loop state an emptied room has, boot the knobs
      of a new one. */
  datatype Kernel = Kernel(boot: Knobs, atRest: Loop,
                           play: (Knobs, Loop, Buffer, Stereo) -> Played, level: Loop -> real)

  datatype Room = Room(knobs: Knobs, loop: Loop, buffer: Buffer, clearPos: nat)

  predicate Clearing(r: Room) { r.clearPos < BUFFER_SIZE }

  /** A new room: empty, at rest, no clear under way. */
  function Booted(k: Kernel): Room {
    Room(k.boot, k.atRest, Silence(), BUFFER_SIZE)
  }

  /** Everything but the buffer, which the clear steps follow up. */
  function Begun(k: Kernel, r: Room): Room {
    r.(loop := k.atRest, clearPos := 0)
  }

  function ChunkEnd(pos: nat): nat {
    if pos + CLEAR_CHUNK > BUFFER_SIZE then BUFFER_SIZE else pos + CLEAR_CHUNK
  }

  function Stepped(r: Room): Room {
    if !Clearing(r) then r
    else
      var end := ChunkEnd(r.clearPos);
      r.(buffer := r.buffer[..r.clearPos] + seq(end - r.clearPos, _ => 0.0) + r.buffer[end..], clearPos := end)
  }

  function StepTimes(r: Room, n: nat): Room
    decreases n
  {
    if n == 0 then r else StepTimes(Stepped(r), n - 1)
  }

  /** The room at once, as the spread clear leaves it. */
  function Emptied(k: Kernel, r: Room): Room {
    r.(loop := k.atRest, buffer := Silence(), clearPos := BUFFER_SIZE)
  }

  /** What a clear under way has already done. */
  ghost predicate ClearedSoFar(k: Kernel, r: Room) {
    && r.clearPos <= BUFFER_SIZE
    && r.loop == k.atRest
    && forall i | 0 <= i < r.clearPos :: r.buffer[i] == 0.0
  }

  /** Steps still to go. */
  function Remaining(r: Room): nat {
    if Clearing(r) then (BUFFER_SIZE - r.clearPos + CLEAR_CHUNK - 1) / CLEAR_CHUNK else 0
  }

  lemma {:induction false} StepClears(k: Kernel, r: Room)
    requires ClearedSoFar(k, r)
    ensures ClearedSoFar(k, Stepped(r)) && Stepped(r).knobs == r.knobs
    ensures Clearing(r) ==> Remaining(Stepped(r)) == Remaining(r) - 1
    ensures !Clearing(Stepped(r)) ==> Stepped(r) == Emptied(k, r).(knobs := r.knobs)
  {
    var s := Stepped(r);
    if !Clearing(s) {
      assert s.buffer == Silence();
    }
  }

  /** A clear just begun has all of its 32 steps before it. */
  lemma {:induction false} BegunHasAllSteps(k: Kernel, r: Room)
    ensures Remaining(Begun(k, r)) == 32 == CLEAR_STEPS && ClearedSoFar(k, Begun(k, r))
  {
  }

  /** Spread over any sufficient number of steps, the clear leaves exactly the room
      that clearing at once leaves; 32 steps are sufficient. */
  lemma {:induction false} SpreadClearIsClear(k: Kernel, r: Room, n: nat)
    requires ClearedSoFar(k, r)
    ensures Remaining(r) <= CLEAR_STEPS
    ensures Clearing(StepTimes(r, n)) <==> n < Remaining(r)
    ensures n >= Remaining(r) ==> StepTimes(r, n) == Emptied(k, r)
    decreases n
  {
    hide Stepped;
    StepClears(k, r);
    if n > 0 {
      SpreadClearIsClear(k, Stepped(r), n - 1);
    }
    if !Clearing(r) {
      DoneIsEmptied(k, r, n);
    }
  }

  lemma {:induction false} DoneIsEmptied(k: Kernel, r: Room, n: nat)
    requires ClearedSoFar(k, r) && !Clearing(r)
    ensures StepTimes(r, n) == r == Emptied(k, r)
    decreases n
  {
    assert r.buffer == Silence();
    if n > 0 {
      DoneIsEmptied(k, r, n - 1);
    }
  }

  class AmbientReverb {
    const kernel: Kernel
    var knobs: Knobs
    var loop: Loop
    const buffer: array<real>
    var clearPos: nat

    ghost predicate Valid() { buffer.Length == BUFFER_SIZE }

    ghost function Model(): Room
      requires Valid()
      reads this, buffer
    {
      Room(knobs, loop, buffer[..], clearPos)
    }

    constructor (kernel: Kernel)
      ensures Valid() && fresh(buffer)
      ensures this.kernel == kernel && Model() == Booted(kernel)
    {
      this.kernel := kernel;
      knobs := kernel.boot;
      loop := kernel.atRest;
      buffer := new real[BUFFER_SIZE](_ => 0.0);
      clearPos := BUFFER_SIZE;
      new;
      assert buffer[..] == Silence();
    }

    /** The room made new again, whatever it was doing. */
    method Init()
      requires Valid()
      modifies this`knobs, this`loop, this`clearPos, buffer
      ensures Model() == Booted(kernel)
    {
      knobs := kernel.boot;
      loop := kernel.atRest;
      for i := 0 to BUFFER_SIZE
        invariant knobs == kernel.boot && loop == kernel.atRest
        invariant forall j | 0 <= j < i :: buffer[j] == 0.0
      {
        buffer[i] := 0.0;
      }
      assert buffer[..] == Silence();
      clearPos := BUFFER_SIZE;
    }

    method BeginClear()
      requires Valid()
      modifies this`loop, this`clearPos
      ensures Model() == Begun(kernel, old(Model()))
    {
      loop := kernel.atRest;
      clearPos := 0;
    }

    method ClearStep()
      requires Valid()
      modifies this`clearPos, buffer
      ensures Model() == Stepped(old(Model()))
    {
      if clearPos >= BUFFER_SIZE {
        return;
      }
      var pos, end := clearPos, ChunkEnd(clearPos);
      clearPos := end;
      for i := pos to end
        invariant clearPos == end
        invariant forall j | 0 <= j < BUFFER_SIZE :: buffer[j] == if pos <= j < i then 0.0 else old(buffer[j])
      {
        buffer[i] := 0.0;
      }
      assert buffer[..] == old(buffer[..])[..pos] + seq(end - pos, _ => 0.0) + old(buffer[..])[end..];
    }

    method Clear()
      requires Valid()
      modifies this`loop, this`clearPos, buffer
      ensures Model() == Emptied(kernel, old(Model()))
    {
      hide Stepped;
      BeginClear();
      ghost var begun := Model();
      ghost var n := 0;
      while clearPos < BUFFER_SIZE
        invariant ClearedSoFar(kernel, Model()) && Model().knobs == begun.knobs
        decreases Remaining(Model())
      {
        StepClears(kernel, Model());
        ClearStep();
      }
      DoneIsEmptied(kernel, Model(), 0);
    }

    method Tune(knobs: Knobs)
      requires Valid()
      modifies this`knobs
      ensures Model() == old(Model()).(knobs := knobs)
    {
      this.knobs := knobs;
    }

    method Process(send: Stereo) returns (wet: Stereo)
      requires Valid()
      modifies this`loop, buffer
      ensures var p := kernel.play(old(knobs), old(loop), old(buffer[..]), send);
              wet == p.wet && Model() == old(Model()).(loop := p.loop, buffer := p.buffer)
    {
      var p := kernel.play(knobs, loop, buffer[..], send);
      forall i | 0 <= i < BUFFER_SIZE {
        buffer[i] := p.buffer[i];
      }
      assert buffer[..] == p.buffer;
      loop := p.loop;
      wet := p.wet;
    }
  }
}
