// The animation frame clock: a frame index that steps once the accumulated
// time reaches the frame time, then wraps (looping) or clamps and latches
// `finished` (non-looping).
module Animations {
  import opened Geometry

  /** The whole state of an `Animation`, as a value. */
  datatype Clock = Clock(frames: seq<IntRect>, frameTime: real, time: real,
                         frame: nat, looping: bool, finished: bool)
  {
    /** The frame index is in range whenever there are frames, and 0 before the first is added. */
    predicate Valid()
    {
      frame == 0 || frame < |frames|
    }
  }

  /** The state right after construction. */
  const Initial := Clock([], 0.1, 0.0, 0, true, false)

  /** `update(deltaTime)`. */
  function Advance(c: Clock, dt: real): (r: Clock)
    ensures r.frames == c.frames && r.frameTime == c.frameTime && r.looping == c.looping
    ensures |c.frames| == 0 ==> r == c
    ensures r.frame == c.frame || r.frame == c.frame + 1 || r.frame == 0 || r.frame == |c.frames| - 1
    ensures c.Valid() ==> r.Valid()
    ensures c.Valid() && |c.frames| > 0 ==> r.frame < |c.frames|
    ensures c.finished ==> r.finished
    ensures |c.frames| > 0 ==> r.time == c.time + dt || r.time == 0.0
  {
    if |c.frames| == 0 then c
    else
      var t := c.time + dt;
      if t >= c.frameTime then
        var f := c.frame + 1;
        if f >= |c.frames| then
          if c.looping then c.(time := 0.0, frame := 0)
          else c.(time := 0.0, frame := |c.frames| - 1, finished := true)
        else c.(time := 0.0, frame := f)
      else c.(time := t)
  }

  /** `reset()`. */
  function Rewind(c: Clock): (r: Clock)
    ensures r.Valid() && r.time == 0.0 && r.frame == 0 && !r.finished
    ensures r.frames == c.frames && r.frameTime == c.frameTime && r.looping == c.looping
  {
    c.(time := 0.0, frame := 0, finished := false)
  }

  /** `getCurrentFrame()`. */
  function CurrentFrame(c: Clock): (r: IntRect)
    requires c.Valid()
    ensures |c.frames| == 0 ==> r == ZeroIntRect
    ensures |c.frames| > 0 ==> r in c.frames
  {
    if |c.frames| == 0 then ZeroIntRect else c.frames[c.frame]
  }

  /** n successive updates with the same time step. */
  function AdvanceN(c: Clock, dt: real, n: nat): (r: Clock)
    decreases n
  {
    if n == 0 then c else AdvanceN(Advance(c, dt), dt, n - 1)
  }

  /** A step that reaches the frame time moves one frame on (modulo wrap or clamp) and restarts the accumulator. */
  lemma StepWhenDue(c: Clock, dt: real)
    requires c.Valid() && |c.frames| > 0 && c.time + dt >= c.frameTime
    ensures Advance(c, dt).time == 0.0
    ensures c.frame + 1 < |c.frames| ==> Advance(c, dt).frame == c.frame + 1
    ensures c.frame + 1 == |c.frames| && c.looping ==> Advance(c, dt).frame == 0
    ensures c.frame + 1 == |c.frames| && !c.looping ==>
              Advance(c, dt).frame == |c.frames| - 1 && Advance(c, dt).finished
  {
  }

  /** A step that does not reach the frame time only accumulates. */
  lemma StepWhenNotDue(c: Clock, dt: real)
    requires |c.frames| > 0 && c.time + dt < c.frameTime
    ensures Advance(c, dt) == c.(time := c.time + dt)
  {
  }

  /** The index stays in range over any number of updates. */
  lemma {:induction false} AdvanceNValid(c: Clock, dt: real, n: nat)
    requires c.Valid() && |c.frames| > 0
    ensures AdvanceN(c, dt, n).Valid() && AdvanceN(c, dt, n).frame < |c.frames|
    ensures AdvanceN(c, dt, n).frames == c.frames
    decreases n
  {
    if n > 0 {
      AdvanceNValid(Advance(c, dt), dt, n - 1);
    }
  }

  /** A looping clip that has not finished never finishes, however long it runs. */
  lemma {:induction false} LoopingNeverFinishes(c: Clock, dt: real, n: nat)
    requires c.looping && !c.finished
    ensures !AdvanceN(c, dt, n).finished && AdvanceN(c, dt, n).looping
    decreases n
  {
    if n > 0 {
      LoopingNeverFinishes(Advance(c, dt), dt, n - 1);
    }
  }

  /** Once finished, a clip stays finished until it is rewound. */
  lemma {:induction false} FinishedLatches(c: Clock, dt: real, n: nat)
    requires c.finished
    ensures AdvanceN(c, dt, n).finished
    decreases n
  {
    if n > 0 {
      FinishedLatches(Advance(c, dt), dt, n - 1);
    }
  }

  /** A finished non-looping clip is parked on its last frame. */
  lemma {:induction false} FinishedHoldsLastFrame(c: Clock, dt: real, n: nat)
    requires c.Valid() && |c.frames| > 0 && !c.looping && c.finished && c.frame == |c.frames| - 1
    ensures AdvanceN(c, dt, n).frame == |c.frames| - 1 && AdvanceN(c, dt, n).finished
    decreases n
  {
    if n > 0 {
      FinishedHoldsLastFrame(Advance(c, dt), dt, n - 1);
    }
  }

  /** A non-looping clip with k frames, stepped once per frame time from a rewind, finishes on step k, parked on its last frame. */
  lemma {:induction false} NonLoopingFinishes(c: Clock, dt: real)
    requires c.Valid() && |c.frames| > 0 && !c.looping && c.time == 0.0 && c.frame == 0
    requires dt >= c.frameTime
    ensures AdvanceN(c, dt, |c.frames|).finished
    ensures AdvanceN(c, dt, |c.frames|).frame == |c.frames| - 1
  {
    ClimbsOneFramePerStep(c, dt, |c.frames| - 1);
    AdvanceNSplit(c, dt, |c.frames| - 1);
  }

  /** From a rewind, each due step moves exactly one frame on until the last frame. */
  lemma {:induction false} ClimbsOneFramePerStep(c: Clock, dt: real, k: nat)
    requires c.Valid() && !c.looping && c.time == 0.0 && c.frame == 0 && dt >= c.frameTime
    requires k < |c.frames|
    ensures AdvanceN(c, dt, k).frame == k && AdvanceN(c, dt, k).time == 0.0
    ensures AdvanceN(c, dt, k).frames == c.frames && !AdvanceN(c, dt, k).looping
    ensures AdvanceN(c, dt, k).frameTime == c.frameTime
    decreases k
  {
    if k > 0 {
      ClimbsOneFramePerStep(c, dt, k - 1);
      AdvanceNSplit(c, dt, k - 1);
    }
  }

  /** n + 1 updates are n updates followed by one more. */
  lemma {:induction false} AdvanceNSplit(c: Clock, dt: real, n: nat)
    ensures AdvanceN(c, dt, n + 1) == Advance(AdvanceN(c, dt, n), dt)
    decreases n
  {
    if n > 0 {
      AdvanceNSplit(Advance(c, dt), dt, n - 1);
    }
  }

  /** `class Animation` with the fields of the source. */
  class Animation {
    var frames: seq<IntRect>
    var frameTime: real
    var currentTime: real
    var currentFrame: nat
    var looping: bool
    var finished: bool

    function Data(): Clock
      reads this
    {
      Clock(frames, frameTime, currentTime, currentFrame, looping, finished)
    }

    ghost predicate Valid()
      reads this
    {
      Data().Valid()
    }

    constructor ()
      ensures Valid() && Data() == Initial
    {
      frames := [];
      frameTime := 0.1;
      currentTime := 0.0;
      currentFrame := 0;
      looping := true;
      finished := false;
    }

    method AddFrame(frame: IntRect)
      requires Valid()
      modifies this
      ensures Valid()
      ensures Data() == old(Data()).(frames := old(frames) + [frame])
    {
      frames := frames + [frame];
    }

    method SetFrameTime(time: real)
      modifies this
      ensures Data() == old(Data()).(frameTime := time)
    {
      frameTime := time;
    }

    method SetLooping(loop: bool)
      modifies this
      ensures Data() == old(Data()).(looping := loop)
    {
      looping := loop;
    }

    method Update(deltaTime: real)
      requires Valid()
      modifies this
      ensures Valid()
      ensures Data() == Advance(old(Data()), deltaTime)
    {
      if |frames| == 0 {
        return;
      }
      currentTime := currentTime + deltaTime;
      if currentTime >= frameTime {
        currentTime := 0.0;
        currentFrame := currentFrame + 1;
        if currentFrame >= |frames| {
          if looping {
            currentFrame := 0;
          } else {
            currentFrame := |frames| - 1;
            finished := true;
          }
        }
      }
    }

    method Reset()
      modifies this
      ensures Valid()
      ensures Data() == Rewind(old(Data()))
    {
      currentTime := 0.0;
      currentFrame := 0;
      finished := false;
    }

    method GetCurrentFrame() returns (r: IntRect)
      requires Valid()
      ensures r == CurrentFrame(Data())
    {
      if |frames| == 0 {
        return ZeroIntRect;
      }
      r := frames[currentFrame];
    }

    function IsFinished(): (r: bool)
      reads this
      ensures r == Data().finished
    {
      finished
    }
  }
}
