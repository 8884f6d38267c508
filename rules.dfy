/**
 * The pure decisions the gesture handlers and the snap effect of index.tsx
 * make: the clamp of the drag offset, the commit rule at release, the status a
 * release dispatches and the target of the snap animation.
 */
module SwipeRules {
  import opened Wrappers
  import opened SwipeStatus

  /** The value of the `threshold` prop when it is left undefined. */
  const DefaultThreshold: real := 0.5

  function Min(a: real, b: real): real { if a <= b then a else b }

  function Max(a: real, b: real): real { if a >= b then a else b }

  /**
   * `Math.max(0, Math.min(room, dx))`, where `room` is track width minus
   * handle width: the handle never goes left of the start and never past the
   * end of the track; a track narrower than the handle pins it at 0.
   */
  function Clamp(dx: real, room: real): (r: real)
    ensures 0.0 <= r <= Max(0.0, room)
    ensures 0.0 <= dx <= room ==> r == dx
    ensures dx <= 0.0 ==> r == 0.0
    ensures 0.0 <= room <= dx ==> r == room
    ensures room < 0.0 ==> r == 0.0
  {
    Max(0.0, Min(room, dx))
  }

  /** The handle follows the finger in the same direction: a larger displacement never gives a smaller offset. */
  lemma {:induction false} ClampMonotone(dx1: real, dx2: real, room: real)
    requires dx1 <= dx2
    ensures Clamp(dx1, room) <= Clamp(dx2, room)
  {
  }

  /** For a positive divisor, comparing a quotient is comparing the scaled numerator. */
  lemma QuotientAtLeast(dx: real, width: real, t: real)
    requires width > 0.0
    ensures dx / width >= t <==> dx >= t * width
  {
  }

  /**
   * The commit rule of a release, `gestureState.dx / containerWidth >= threshold`.
   * A measured track compares the displacement with that fraction of its width,
   * the boundary included. An unmeasured track (width 0) divides by zero:
   * with IEEE 754 arithmetic a positive displacement gives +Infinity, which is
   * at least any finite threshold, while a zero displacement gives NaN and a
   * negative one -Infinity, neither of which is.
   */
  function Commits(dx: real, width: real, threshold: real): (r: bool)
    requires width >= 0.0
    ensures width > 0.0 ==> (r <==> dx >= threshold * width)
    ensures width == 0.0 ==> (r <==> dx > 0.0)
  {
    if width > 0.0 then
      QuotientAtLeast(dx, width, threshold);
      dx / width >= threshold
    else
      dx > 0.0
  }

  /**
   * With the default threshold, a release on a measured track commits exactly
   * when the handle has been dragged at least half the track's width.
   */
  lemma {:induction false} DefaultCommitsAtHalfTrack(dx: real, width: real)
    requires width > 0.0
    ensures Commits(dx, width, DefaultThreshold) <==> 2.0 * dx >= width
  {
  }

  /** Once a displacement commits, every larger displacement commits too. */
  lemma {:induction false} CommitsMonotone(dx1: real, dx2: real, width: real, threshold: real)
    requires width >= 0.0 && dx1 <= dx2
    requires Commits(dx1, width, threshold)
    ensures Commits(dx2, width, threshold)
  {
  }

  /** What the `onConfirm` callback returned: a thenable (a promise) or anything else. */
  datatype ConfirmResult = Thenable | NonThenable

  /**
   * The status an unlocked release dispatches, `None` when it dispatches none.
   * `hasConfirm` says whether an `onConfirm` callback was supplied and
   * `result` is what that callback returns when it is called.
   */
  function ReleaseDispatch(dx: real, width: real, threshold: real, hasConfirm: bool, result: ConfirmResult): (r: Option<Status>)
    requires width >= 0.0
    ensures r == Some(Initial) <==> !Commits(dx, width, threshold)
    ensures r == Some(Confirmed) <==> Commits(dx, width, threshold) && !hasConfirm
    ensures r == Some(Verifying) <==> Commits(dx, width, threshold) && hasConfirm && result.Thenable?
    ensures r == None <==> Commits(dx, width, threshold) && hasConfirm && result.NonThenable?
  {
    if !Commits(dx, width, threshold) then Some(Initial)
    else if !hasConfirm then Some(Confirmed)
    else if result.Thenable? then Some(Verifying)
    else None
  }

  /** A release never dispatches Moving or Failed: Failed comes only from a rejected promise. */
  lemma {:induction false} ReleaseNeverMovingOrFailed(dx: real, width: real, threshold: real, hasConfirm: bool, result: ConfirmResult)
    requires width >= 0.0
    ensures ReleaseDispatch(dx, width, threshold, hasConfirm, result) != Some(Moving)
    ensures ReleaseDispatch(dx, width, threshold, hasConfirm, result) != Some(Failed)
  {
  }

  /**
   * The target of the snap animation started when a render shows status `s`:
   * none while Moving, the end of the track (`width - handle`) for Confirmed
   * and Verifying, the start (0) for Initial and Failed.
   */
  function SnapTarget(s: Status, width: real, handle: real): (r: Option<real>)
    ensures r == None <==> s == Moving
    ensures IsLocked(s) ==> r == Some(width - handle)
    ensures s == Initial || s == Failed ==> r == Some(0.0)
    ensures r.Some? && handle <= width ==> 0.0 <= r.value <= width - handle
  {
    if s == Moving then None
    else if IsLocked(s) then Some(width - handle)
    else Some(0.0)
  }

  /**
   * On a track at least as wide as the handle, the two snap targets are the two
   * ends of the range the drag clamp allows.
   */
  lemma {:induction false} SnapTargetsAreClampEnds(s: Status, width: real, handle: real)
    requires 0.0 <= handle <= width && s != Moving
    ensures SnapTarget(s, width, handle) == Some(Clamp(if IsLocked(s) then width else 0.0, width - handle))
  {
  }
}
