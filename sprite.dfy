/** The animated sprite's frame updater: one interval tick moves to the next
    frame, wraps to the first when looping, and otherwise holds the last frame
    and signals completion. */
module Spritesheet {

  /** The frame after one tick, and whether the tick signalled completion. */
  datatype StepResult = StepResult(frame: nat, complete: bool)

  /** The `setCurrentFrame` updater for a sprite of `length` frames. */
  function Step(prev: nat, length: nat, loop: bool): StepResult
  {
    var nextFrame := prev + 1;
    if nextFrame >= length then
      if loop then StepResult(0, false) else StepResult(prev, true)
    else StepResult(nextFrame, false)
  }

  /** The four cases of one tick: advance while a next frame exists; past the
      end, wrap to frame 0 when looping, else hold and signal completion; a
      looping sprite never signals, and the frame stays inside the sprite. */
  lemma StepSpec(prev: nat, length: nat, loop: bool)
    ensures prev + 1 < length ==> Step(prev, length, loop) == StepResult(prev + 1, false)
    ensures prev + 1 >= length && loop ==> Step(prev, length, loop) == StepResult(0, false)
    ensures prev + 1 >= length && !loop ==> Step(prev, length, loop) == StepResult(prev, true)
    ensures loop ==> !Step(prev, length, loop).complete
    ensures prev < length ==> Step(prev, length, loop).frame < length
  {
  }

  /** The frame shown and the number of completion signals after `ticks` ticks
      from frame 0. */
  function Run(ticks: nat, length: nat, loop: bool): (r: StepResult)
    decreases ticks
  {
    if ticks == 0 then StepResult(0, false)
    else
      var before := Run(ticks - 1, length, loop);
      Step(before.frame, length, loop)
  }

  function Completions(ticks: nat, length: nat, loop: bool): nat
    decreases ticks
  {
    if ticks == 0 then 0
    else
      Completions(ticks - 1, length, loop)
      + (if Step(Run(ticks - 1, length, loop).frame, length, loop).complete then 1 else 0)
  }

  /** `n` reduced modulo `length` by repeated subtraction: the position in a
      cycle of `length` steps after `n` steps. */
  function CycleIndex(n: nat, length: nat): (r: nat)
    requires length > 0
    ensures r < length
    ensures n < length ==> r == n
    decreases n
  {
    if n < length then n else CycleIndex(n - length, length)
  }

  lemma {:induction false} CycleIndexSucc(n: nat, length: nat)
    requires length > 0
    ensures CycleIndex(n + 1, length) == if CycleIndex(n, length) + 1 < length then CycleIndex(n, length) + 1 else 0
    decreases n
  {
    if n + 1 >= length && n >= length {
      CycleIndexSucc(n - length, length);
    }
  }

  /** A looping sprite of at least one frame shows frame `ticks` modulo
      `length` and never signals completion. */
  lemma {:induction false} RunLooping(ticks: nat, length: nat)
    requires length > 0
    ensures Run(ticks, length, true).frame == CycleIndex(ticks, length)
    ensures Completions(ticks, length, true) == 0
  {
    if ticks > 0 {
      RunLooping(ticks - 1, length);
      CycleIndexSucc(ticks - 1, length);
    }
  }

  /** A non-looping sprite of at least one frame climbs to its last frame and
      stays there; completion is signalled on every tick after it got there. */
  lemma {:induction false} RunOnce(ticks: nat, length: nat)
    requires length > 0
    ensures Run(ticks, length, false).frame == if ticks < length then ticks else length - 1
    ensures Completions(ticks, length, false) == if ticks < length then 0 else ticks - (length - 1)
  {
    if ticks > 0 {
      RunOnce(ticks - 1, length);
    }
  }

  /** With no frames at all the index stays 0, outside the sprite. */
  lemma {:induction false} RunEmpty(ticks: nat, loop: bool)
    ensures Run(ticks, 0, loop).frame == 0
    ensures Completions(ticks, 0, loop) == if loop then 0 else ticks
  {
    if ticks > 0 {
      RunEmpty(ticks - 1, loop);
    }
  }

  /** A mounted sprite; `completions` counts the `onComplete` calls. */
  class AnimatedSprite {
    const length: nat
    const loop: bool
    var currentFrame: nat
    var completions: nat
    ghost var ticks: nat

    /** The state is the one reached after `ticks` ticks from frame 0. */
    ghost predicate Valid()
      reads this
    {
      currentFrame == Run(ticks, length, loop).frame
      && completions == Completions(ticks, length, loop)
    }

    constructor (length: nat, loop: bool)
      ensures this.length == length && this.loop == loop
      ensures Valid() && ticks == 0 && currentFrame == 0 && completions == 0
    {
      this.length := length;
      this.loop := loop;
      currentFrame := 0;
      completions := 0;
      ticks := 0;
    }

    /** One interval tick. */
    method Tick()
      requires Valid()
      modifies this
      ensures Valid() && ticks == old(ticks) + 1
      ensures currentFrame == Step(old(currentFrame), length, loop).frame
      ensures length > 0 ==> currentFrame < length
    {
      var nextFrame := currentFrame + 1;
      if nextFrame >= length {
        if loop {
          currentFrame := 0;
        } else {
          completions := completions + 1;
        }
      } else {
        currentFrame := nextFrame;
      }
      ticks := ticks + 1;
      if length > 0 {
        if loop {
          RunLooping(ticks, length);
        } else {
          RunOnce(ticks, length);
        }
      }
    }
  }
}
