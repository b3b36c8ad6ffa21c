/**
 * The pinch-zoom rule of MainActivity.onScale, past its guard: a scale factor
 * is applied (as a clamped zoom command) when there is no previous factor or
 * it has the previous factor's sign; a reversal of sign drops the frame and
 * forgets the previous factor.
 *
 * Ratios and factors are exact reals, not IEEE floats.
 */
module Zoom {
  import opened Wrappers

  /** The back camera's zoom state, as the camera framework reports it. */
  datatype ZoomState = ZoomState(ratio: real, minRatio: real, maxRatio: real)

  /** Kotlin's `sign` on a float: -1, 0 or 1. */
  function Sign(x: real): (r: int)
    ensures r == 0 <==> x == 0.0
    ensures r == 1 <==> x > 0.0
    ensures r == -1 <==> x < 0.0
  {
    if x > 0.0 then 1 else if x < 0.0 then -1 else 0
  }

  /** The test that decides whether the frame with factor `s` is applied. */
  function Continues(last: real, s: real): (b: bool)
    ensures b <==> last == 0.0 || (last > 0.0 && s > 0.0) || (last < 0.0 && s < 0.0)
  {
    last == 0.0 || Sign(s) == Sign(last)
  }

  /** `max(lo, min(x, hi))`: the zoom ratio actually commanded for the product `x`. */
  function ClampZoom(x: real, lo: real, hi: real): (r: real)
    ensures lo <= r
    ensures lo <= hi ==> r <= hi
    ensures lo <= x <= hi ==> r == x
    ensures x < lo ==> r == lo
    ensures hi < x && lo <= hi ==> r == hi
    ensures hi < lo ==> r == lo
  {
    var capped := if x < hi then x else hi;
    if lo < capped then capped else lo
  }

  /** The zoom ratio an applied frame with factor `s` commands, from zoom state `z`. */
  function Commanded(z: ZoomState, s: real): (c: real)
    ensures z.minRatio <= c
    ensures z.minRatio <= z.maxRatio ==> c <= z.maxRatio
  {
    ClampZoom(z.ratio * s, z.minRatio, z.maxRatio)
  }

  /** What one frame does: the zoom command it issues, if any, and the new remembered factor. */
  datatype Frame = Frame(command: Option<real>, lastScaleFactor: real)

  /**
   * One `onScale` frame past the guard, with remembered factor `last`, new
   * factor `s` and the zoom state read from the framework. The zoom state is
   * dereferenced only when the frame is applied.
   */
  function ScaleFrame(last: real, s: real, zoom: Option<ZoomState>): (r: Frame)
    requires Continues(last, s) ==> zoom.Some?
    ensures r.command.Some? <==> Continues(last, s)
    ensures r.command.Some? ==> zoom.value.minRatio <= r.command.value
    ensures r.command.Some? && zoom.value.minRatio <= zoom.value.maxRatio ==>
              r.command.value <= zoom.value.maxRatio
    ensures r.command.Some? ==> r.lastScaleFactor == s
    ensures r.command.None? ==> last != 0.0 && r.lastScaleFactor == 0.0
  {
    if Continues(last, s) then
      Frame(Some(Commanded(zoom.value, s)), s)
    else
      Frame(None, 0.0)
  }

  /** The applying test is "no previous factor, or a product of the two factors that is positive". */
  lemma ContinuesIffSameDirection(last: real, s: real)
    ensures Continues(last, s) <==> last == 0.0 || last * s > 0.0
  {
  }

  /** A dropped frame leaves the rule in a state where the next frame, whatever its factor, is applied. */
  lemma ResetThenApplies(last: real, s: real, zoom: Option<ZoomState>, next: real)
    requires !Continues(last, s)
    ensures Continues(ScaleFrame(last, s, zoom).lastScaleFactor, next)
  {
  }

  /**
   * A pinch gesture as the rule sees it across frames: the zoom state, the
   * remembered factor and every zoom command issued so far. The camera is
   * taken to report each commanded ratio as its current one before the next
   * frame arrives.
   */
  datatype Pinch = Pinch(zoom: ZoomState, lastScaleFactor: real, commands: seq<real>)

  /** One frame applied to a pinch. */
  function Step(p: Pinch, s: real): (q: Pinch)
    ensures q.zoom.minRatio == p.zoom.minRatio && q.zoom.maxRatio == p.zoom.maxRatio
  {
    var f := ScaleFrame(p.lastScaleFactor, s, Some(p.zoom));
    match f.command
    case Some(c) => Pinch(p.zoom.(ratio := c), f.lastScaleFactor, p.commands + [c])
    case None => Pinch(p.zoom, f.lastScaleFactor, p.commands)
  }

  /** The frames of a gesture applied in order. */
  function RunPinch(p: Pinch, frames: seq<real>): (r: Pinch)
    decreases |frames|
  {
    if frames == [] then p else RunPinch(Step(p, frames[0]), frames[1..])
  }

  /** The framework's invariant: the current ratio lies within the bounds. */
  predicate InRange(z: ZoomState)
  {
    z.minRatio <= z.ratio <= z.maxRatio
  }

  /** A gesture only appends commands, and keeps the bounds. */
  lemma {:induction false} RunPinchExtends(p: Pinch, frames: seq<real>)
    ensures var r := RunPinch(p, frames);
      r.zoom.minRatio == p.zoom.minRatio && r.zoom.maxRatio == p.zoom.maxRatio &&
      |p.commands| <= |r.commands| && r.commands[..|p.commands|] == p.commands
    decreases |frames|
  {
    if frames != [] {
      var q := Step(p, frames[0]);
      RunPinchExtends(q, frames[1..]);
      assert q.commands[..|p.commands|] == p.commands;
    }
  }

  /**
   * Whatever the factors, every command a gesture issues lies within the
   * bounds, and so does the ratio it ends at.
   */
  lemma {:induction false} RunPinchKeepsRange(p: Pinch, frames: seq<real>)
    requires InRange(p.zoom)
    ensures var r := RunPinch(p, frames);
      InRange(r.zoom) && |p.commands| <= |r.commands| &&
      forall i :: |p.commands| <= i < |r.commands| ==>
        p.zoom.minRatio <= r.commands[i] <= p.zoom.maxRatio
    decreases |frames|
  {
    if frames != [] {
      var q := Step(p, frames[0]);
      RunPinchKeepsRange(q, frames[1..]);
      RunPinchExtends(q, frames[1..]);
      var r := RunPinch(q, frames[1..]);
      forall i | |p.commands| <= i < |q.commands|
        ensures p.zoom.minRatio <= r.commands[i] <= p.zoom.maxRatio
      {
        assert r.commands[i] == r.commands[..|q.commands|][i];
      }
    }
  }

  /**
   * Dropped frames are never adjacent, so a gesture of n frames issues at
   * least n/2 commands, and at least (n+1)/2 when it starts with no
   * remembered factor.
   */
  lemma {:induction false} RunPinchIssuesHalf(p: Pinch, frames: seq<real>)
    ensures var r := RunPinch(p, frames);
      |r.commands| - |p.commands| >= (|frames| + (if p.lastScaleFactor == 0.0 then 1 else 0)) / 2
    decreases |frames|
  {
    if frames != [] {
      var q := Step(p, frames[0]);
      RunPinchIssuesHalf(q, frames[1..]);
    }
  }

  /** An applied frame, as a step of a pinch. */
  lemma StepApplies(p: Pinch, s: real)
    requires Continues(p.lastScaleFactor, s)
    ensures var c := Commanded(p.zoom, s);
      Step(p, s) == Pinch(p.zoom.(ratio := c), s, p.commands + [c])
  {
    assert ScaleFrame(p.lastScaleFactor, s, Some(p.zoom)) == Frame(Some(Commanded(p.zoom, s)), s);
  }

  /** A dropped frame, as a step of a pinch. */
  lemma StepDrops(p: Pinch, s: real)
    requires !Continues(p.lastScaleFactor, s)
    ensures Step(p, s) == Pinch(p.zoom, 0.0, p.commands)
  {
  }

  /** A gesture of two frames is two steps. */
  lemma RunPinchPair(p: Pinch, s1: real, s2: real)
    ensures RunPinch(p, [s1, s2]) == Step(Step(p, s1), s2)
  {
    var q := Step(p, s1);
    assert [s1, s2][1..] == [s2];
    assert RunPinch(p, [s1, s2]) == RunPinch(q, [s2]);
    assert RunPinch(q, [s2]) == RunPinch(Step(q, s2), []);
  }

  /** Two applied frames of the same sign compose as two clamps, each command feeding the next. */
  lemma SameSignPair(p: Pinch, s1: real, s2: real)
    requires Continues(p.lastScaleFactor, s1)
    requires Sign(s1) == Sign(s2)
    ensures var z := p.zoom;
      var c1 := Commanded(z, s1);
      var c2 := Commanded(z.(ratio := c1), s2);
      RunPinch(p, [s1, s2]) == Pinch(z.(ratio := c2), s2, p.commands + [c1, c2])
  {
    RunPinchPair(p, s1, s2);
    StepApplies(p, s1);
    var q := Step(p, s1);
    assert Continues(q.lastScaleFactor, s2);
    StepApplies(q, s2);
    var c1 := q.zoom.ratio;
    var c2 := Commanded(q.zoom, s2);
    assert (p.commands + [c1]) + [c2] == p.commands + [c1, c2];
  }

  /**
   * An applied frame followed by one of the opposite sign: the second issues
   * no command and forgets the factor, so a third frame is applied whatever it is.
   */
  lemma ReversalDrops(p: Pinch, s1: real, s2: real, s3: real)
    requires Continues(p.lastScaleFactor, s1)
    requires s1 != 0.0 && s2 != 0.0 && Sign(s1) != Sign(s2)
    ensures var z := p.zoom;
      var c1 := Commanded(z, s1);
      var r := RunPinch(p, [s1, s2]);
      r == Pinch(z.(ratio := c1), 0.0, p.commands + [c1]) && Continues(r.lastScaleFactor, s3)
  {
    RunPinchPair(p, s1, s2);
    StepApplies(p, s1);
    var q := Step(p, s1);
    assert !Continues(q.lastScaleFactor, s2);
    StepDrops(q, s2);
  }

  /** Worked examples of a single applied frame. */
  lemma ZoomScenarios()
    ensures ScaleFrame(0.0, 1.5, Some(ZoomState(2.0, 1.0, 8.0))) == Frame(Some(3.0), 1.5)
    ensures ScaleFrame(0.0, 100.0, Some(ZoomState(1.0, 1.0, 10.0))) == Frame(Some(10.0), 100.0)
    ensures ScaleFrame(1.5, -0.5, None) == Frame(None, 0.0)
  {
  }
}
