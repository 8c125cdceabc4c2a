/**
  `AnimationComponent`: a frame-index state machine over a list of source
  rectangles. `Update` accumulates time and advances AT MOST ONE frame per
  call (an `if`, not a `while`); at the end of the list a looping clip
  wraps to frame 0 and a non-looping clip stays on its last frame and is
  `Finished` from then on.
*/
module Animation {
  import opened Geometry

  /** The configuration of a clip: frames, seconds per frame, loop flag. */
  datatype Clip = Clip(frames: seq<Rect>, frameTime: real, loop: bool)

  /** The playback state: current frame index, accumulated time, finished flag. */
  datatype Playback = Playback(frame: int, timer: real, finished: bool)

  /** The state `Reset` returns to, which is also the initial state. */
  const Start: Playback := Playback(0, 0.0, false)

  /**
    The frame index addresses a frame, or is 0 while there is none; this
    holds as long as frames are only ever added.
  */
  ghost predicate InRange(c: Clip, p: Playback)
  {
    0 <= p.frame && (p.frame < |c.frames| || p.frame == 0)
  }

  /** One `Update(dt)`. */
  function Step(c: Clip, p: Playback, dt: real): Playback
  {
    if p.finished || |c.frames| == 0 then p
    else
      var t := p.timer + dt;
      if t < c.frameTime then Playback(p.frame, t, p.finished)
      else if p.frame + 1 < |c.frames| then Playback(p.frame + 1, t - c.frameTime, p.finished)
      else if c.loop then Playback(0, t - c.frameTime, p.finished)
      else Playback(|c.frames| - 1, t - c.frameTime, true)
  }

  /** `GetCurrentFrame()` in state `p`. */
  function FrameOf(c: Clip, p: Playback): (r: Rect)
    requires InRange(c, p)
    ensures |c.frames| > 0 ==> r in c.frames
    ensures |c.frames| == 0 ==> r == EmptyRect
  {
    if |c.frames| > 0 then c.frames[p.frame] else EmptyRect
  }

  /** `n` updates of `dt` each. */
  function Run(c: Clip, p: Playback, dt: real, n: nat): Playback
  {
    if n == 0 then p else Step(c, Run(c, p, dt, n - 1), dt)
  }

  /** `Update` keeps the frame index in range. */
  lemma StepInRange(c: Clip, p: Playback, dt: real)
    requires InRange(c, p)
    ensures InRange(c, Step(c, p, dt))
  {
  }

  /** A finished clip, or one without frames, ignores `Update` entirely. */
  lemma StepIdle(c: Clip, p: Playback, dt: real)
    requires p.finished || |c.frames| == 0
    ensures Step(c, p, dt) == p
  {
  }

  /** Below the frame time only the timer moves. */
  lemma StepAccumulates(c: Clip, p: Playback, dt: real)
    requires !p.finished && |c.frames| > 0 && p.timer + dt < c.frameTime
    ensures Step(c, p, dt) == p.(timer := p.timer + dt)
  {
  }

  /**
    One update moves the frame by at most one step (forward, or around the
    end) and subtracts the frame time at most once: no catch-up.
  */
  lemma StepAdvancesAtMostOne(c: Clip, p: Playback, dt: real)
    requires InRange(c, p)
    ensures var q := Step(c, p, dt);
            (q.frame == p.frame && q.timer == p.timer + dt) ||
            (q == p) ||
            (q.timer == p.timer + dt - c.frameTime &&
             (q.frame == p.frame + 1 ||
              (p.frame == |c.frames| - 1 && (q.frame == 0 || q.frame == p.frame))))
  {
  }

  /**
    A large `dt` still advances one frame only: the leftover time stays in
    the timer, at or above the frame time.
  */
  lemma NoCatchUp(c: Clip, p: Playback, dt: real)
    requires !p.finished && 0 <= p.frame && p.frame + 1 < |c.frames|
    requires c.frameTime > 0.0 && p.timer + dt >= 2.0 * c.frameTime
    ensures Step(c, p, dt).frame == p.frame + 1
    ensures Step(c, p, dt).timer >= c.frameTime
  {
  }

  /** Stepping past the last frame of a looping clip wraps to 0 and never finishes. */
  lemma LoopWraps(c: Clip, p: Playback, dt: real)
    requires c.loop && !p.finished && |c.frames| > 0 && p.frame == |c.frames| - 1
    requires p.timer + dt >= c.frameTime
    ensures Step(c, p, dt).frame == 0 && !Step(c, p, dt).finished
  {
  }

  /** Stepping past the last frame of a non-looping clip clamps and finishes. */
  lemma ClampFinishes(c: Clip, p: Playback, dt: real)
    requires !c.loop && !p.finished && |c.frames| > 0 && p.frame == |c.frames| - 1
    requires p.timer + dt >= c.frameTime
    ensures Step(c, p, dt).frame == |c.frames| - 1 && Step(c, p, dt).finished
  {
  }

  /** A looping clip is never finished by updates. */
  lemma {:induction false} LoopNeverFinishes(c: Clip, p: Playback, dt: real, n: nat)
    requires c.loop && !p.finished
    ensures !Run(c, p, dt, n).finished
  {
    if n > 0 {
      LoopNeverFinishes(c, p, dt, n - 1);
    }
  }

  /** Once finished, any number of later updates changes nothing. */
  lemma {:induction false} FinishedStays(c: Clip, p: Playback, dt: real, n: nat)
    requires p.finished
    ensures Run(c, p, dt, n) == p
  {
    if n > 0 {
      FinishedStays(c, p, dt, n - 1);
    }
  }

  /** Updates of exactly one frame time from the start walk the frames one by one. */
  lemma {:induction false} FrameTimeSteps(c: Clip, k: nat)
    requires k < |c.frames|
    ensures Run(c, Start, c.frameTime, k) == Playback(k, 0.0, false)
  {
    if k > 0 {
      FrameTimeSteps(c, k - 1);
    }
  }

  /**
    A non-looping clip of n frames, updated n times by exactly its frame
    time, ends finished on its last frame; a looping one is back at frame 0.
  */
  lemma EndOfClip(c: Clip)
    requires |c.frames| > 0
    ensures !c.loop ==> Run(c, Start, c.frameTime, |c.frames|) == Playback(|c.frames| - 1, 0.0, true)
    ensures c.loop ==> Run(c, Start, c.frameTime, |c.frames|) == Start
  {
    FrameTimeSteps(c, |c.frames| - 1);
  }

  /**
    Four frames of 0.1 s, not looping: four `Update(0.1)` calls finish on
    the last frame's rectangle, and a fifth changes nothing.
  */
  lemma FourFrameClip(frames: seq<Rect>)
    requires |frames| == 4
    ensures var c := Clip(frames, 0.1, false);
            var p := Run(c, Start, 0.1, 4);
            p.finished && InRange(c, p) && FrameOf(c, p) == frames[3] && Step(c, p, 0.1) == p
  {
    EndOfClip(Clip(frames, 0.1, false));
  }

  class AnimationComponent {
    var frames: seq<Rect>
    var frameTime: real
    var loop: bool
    var finished: bool
    var currentFrame: int
    var timer: real

    function ClipOf(): Clip
      reads this
    {
      Clip(frames, frameTime, loop)
    }

    function State(): Playback
      reads this
    {
      Playback(currentFrame, timer, finished)
    }

    ghost predicate Valid()
      reads this
    {
      InRange(ClipOf(), State())
    }

    constructor ()
      ensures Valid() && frames == [] && frameTime == 0.1 && loop && State() == Start
    {
      frames := [];
      frameTime := 0.1;
      loop := true;
      finished := false;
      currentFrame := 0;
      timer := 0.0;
    }

    /** `Frames.Add(r)`. */
    method AddFrame(r: Rect)
      requires Valid()
      modifies this
      ensures Valid() && frames == old(frames) + [r]
      ensures frameTime == old(frameTime) && loop == old(loop) && State() == old(State())
    {
      frames := frames + [r];
    }

    function GetCurrentFrame(): (r: Rect)
      reads this
      requires Valid()
      ensures r == FrameOf(ClipOf(), State())
    {
      if |frames| > 0 then frames[currentFrame] else EmptyRect
    }

    method Reset()
      modifies this
      ensures Valid() && State() == Start && ClipOf() == old(ClipOf())
    {
      currentFrame := 0;
      timer := 0.0;
      finished := false;
    }

    method Update(deltaTime: real)
      requires Valid()
      modifies this
      ensures Valid() && ClipOf() == old(ClipOf())
      ensures State() == Step(old(ClipOf()), old(State()), deltaTime)
    {
      if finished || |frames| == 0 {
        return;
      }
      timer := timer + deltaTime;
      if timer >= frameTime {
        timer := timer - frameTime;
        currentFrame := currentFrame + 1;
        if currentFrame >= |frames| {
          if loop {
            currentFrame := 0;
          } else {
            currentFrame := |frames| - 1;
            finished := true;
          }
        }
      }
    }
  }
}
