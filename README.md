# Swipe-to-confirm status machine

A Dafny model of the swipe-to-confirm control of `index.tsx`: the user drags a
handle along a track; releasing it far enough along commits, which either
confirms at once or calls an `onConfirm` callback whose promise decides between
Confirmed and Failed. The handle follows the finger while Moving and snaps to
one end of the track after every other status change.

What is modelled:

- `wrappers.dfy` — `Option`, standing for an undefined prop or for "no status dispatched".
- `status.dfy` (`SwipeStatus`) — the five-value `Status` enum with its numeric
  values, and the lock test "Confirmed or Verifying" that every gesture
  handler starts with.
- `reducer.dfy` (`StatusReducer`) — the `useReducer` reducer and the
  `UpdateStatus` action that `setStatus` dispatches.
- `rules.dfy` (`SwipeRules`) — the pure decisions: the clamp of the drag
  offset, the commit rule of a release, the status a release dispatches, and
  the target of the snap animation.
- `notifier.dfy` (`StatusNotifier`) — the status-change effect over a whole
  history of renders, with the properties of the notification stream.
- `controller.dfy` (`SwipeController`) — the component as a class
  `Controller`. Its fields are:
  - the reducer state;
  - `stateRef.current.status`, here called `observed`;
  - the two measured widths;
  - the additive offset of the animated value `moveX`;
  - a log of the animation calls;
  - counts of the `onSwipeStart` and `onConfirm` calls;
  - the number of unsettled confirmation promises;
  - the log of `onStatusChange` calls.

  Its methods are the three gesture handlers, the two layout setters, the
  settling of a promise (`Resolve`, `Reject`) and `Commit`. `Commit` is one
  render followed by its two effects: the notifier and the snap animation.
- `scenarios.dfy` (`SwipeScenarios`) — whole interactions driven through the
  class, with the statuses and animation targets they end in.

Behaviour of the code that the model keeps, although a reader of the
component's purpose might expect something else:

- When `onConfirm` returns something that is not a thenable, the release
  dispatches no status at all (the `if` at `index.tsx:131` has no `else`). The
  control stays in whatever status it had, normally Moving, and no snap
  animation starts. A synchronous confirmation might be expected here; the
  model follows the code (`SwipeRules.ReleaseDispatch`,
  `SwipeScenarios.SwipePlainConfirmResultDispatchesNothing`).
- The release ratio divides by the measured track width, which is 0 until
  layout. With IEEE 754 arithmetic, a positive displacement over 0 is
  +Infinity, which commits. A zero displacement gives NaN and a negative one
  gives -Infinity; neither commits. The model states this rule for width 0
  (`SwipeRules.Commits`) instead of excluding that width.
- The lock guards read `stateRef.current.status`. The status-change effect
  updates it only after a render. A status dispatched by one handler is
  therefore not seen by the guard of the next handler until `Commit` has run.
  The model keeps this distinction between `state.status` and `observed`. Two
  committing releases handled before the render that shows Verifying both
  call `onConfirm` and leave two promises pending, although a second commit
  before the first settles might be expected to be impossible
  (`SwipeScenarios.SwipeTwiceBeforeRender`).
- The snap target for Confirmed and Verifying is `trackWidth - handleWidth`
  with no clamp. If the handle is wider than the track, this target is
  negative, while a drag is pinned at 0.

## Model

| member | source | states |
|---|---|---|
| SwipeStatus.Code | index.tsx:11-17 | every member has a numeric value in 1..5 |
| SwipeStatus.FromCode | index.tsx:11-17 | decoding a number gives a member exactly for 1..5, and that member's value is the number |
| SwipeStatus.CodeRoundTrip | index.tsx:11-17 | decoding the numeric value of any member gives that member back |
| SwipeStatus.IsLocked | index.tsx:91-93 | a status locks the gesture handlers iff it is Confirmed or Verifying, the members with numeric values 3 and 4; the same test guards lines 104-106 and 121-123 and picks the snap target at line 156 |
| StatusReducer.SetStatus | index.tsx:57-62 | `setStatus(s)` dispatches an action of type `UpdateStatus` carrying `s` |
| StatusReducer.SetStatusTakesEffect | index.tsx:57-62 | reducing the action `setStatus(s)` yields a state with status `s` and every other field kept |
| StatusReducer.Reduce | index.tsx:33-43 | `UpdateStatus` sets the status to the payload and keeps every other field; any other action type returns the state unchanged |
| StatusReducer.LastUpdateWins | index.tsx:33-43 | of two status updates dispatched before a render, only the second one affects the state the render sees |
| StatusReducer.UpdateToSameIsIdentity | index.tsx:33-43 | dispatching the current status leaves the state as it is |
| SwipeRules.Clamp | index.tsx:111-116 | the offset lies in `[0, max(0, W - H)]`; it equals the displacement inside the track, 0 for a negative displacement or a track narrower than the handle, and `W - H` on overshoot |
| SwipeRules.ClampMonotone | index.tsx:111-116 | a larger displacement never gives a smaller offset |
| SwipeRules.Commits | index.tsx:128 | on a measured track a release commits iff `dx >= threshold * W`, boundary included; on an unmeasured track (W = 0) iff `dx > 0` |
| SwipeRules.DefaultCommitsAtHalfTrack | index.tsx:52 | with the default threshold 0.5, a release on a measured track commits iff the displacement is at least half the track width |
| SwipeRules.CommitsMonotone | index.tsx:128 | once a displacement commits, every larger one commits too |
| SwipeRules.ReleaseDispatch | index.tsx:128-146 | an unlocked release dispatches Initial iff it does not commit; Confirmed iff it commits with no `onConfirm`; Verifying iff it commits and `onConfirm` returns a thenable; nothing iff it commits and `onConfirm` returns anything else |
| SwipeRules.ReleaseNeverMovingOrFailed | index.tsx:128-146 | a release never dispatches Moving or Failed |
| SwipeRules.SnapTarget | index.tsx:151-158 | no animation while Moving; target `W - H` for Confirmed and Verifying, 0 for Initial and Failed; within `[0, W - H]` when the handle fits the track |
| SwipeRules.SnapTargetsAreClampEnds | index.tsx:151-158 | when the handle fits the track, the two snap targets are the two ends of the range the drag clamp allows |
| StatusNotifier.Notified | index.tsx:71-77 | over a history of renders, at most one `onStatusChange` call per render |
| StatusNotifier.NotifiedNeverRepeats | index.tsx:71-77 | the first notification differs from the status observed before, and no notification repeats the one just before it |
| StatusNotifier.NotifiedEndsAtCurrent | index.tsx:71-77 | the last status notified (or the initial one if none) is the status of the last render |
| StatusNotifier.NotifiedSilentWhileUnchanged | index.tsx:71-77 | renders that all show the observed status notify nothing |
| SwipeController.SnapEvents | index.tsx:151-163 | a render starts a snap animation iff its status differs from the previous render's and is not Moving, and then exactly one, towards `W - H` for Confirmed/Verifying and 0 otherwise |
| SwipeController.Controller.constructor | index.tsx:45-69 | mount: status Initial, nothing measured, threshold the prop or 0.5, no calls yet, one snap animation to 0 from the mount run of the effect |
| SwipeController.Controller.SetTrackWidth | index.tsx:166-170 | layout sets the track width and nothing else |
| SwipeController.Controller.SetHandleWidth | index.tsx:184-186 | layout sets the handle width and nothing else |
| SwipeController.Controller.Grant | index.tsx:90-102 | locked: nothing changes; otherwise `onSwipeStart` (if supplied) is called once, the animation is stopped and the status becomes Initial |
| SwipeController.Controller.Move | index.tsx:103-119 | locked: status and offset unchanged; otherwise the status becomes Moving and the offset is the clamped displacement, within `[0, max(0, W - H)]` |
| SwipeController.Controller.Release | index.tsx:120-147 | locked: nothing changes and `onConfirm` is not called; otherwise the animation is stopped, the offset is flattened to 0, `onConfirm` is called exactly once iff the release commits and it is supplied, a promise is pending iff Verifying was dispatched, and the status is the one `ReleaseDispatch` gives (unchanged when it gives none) |
| SwipeController.Controller.Resolve | index.tsx:133-136 | a pending promise resolves: status Confirmed, one promise fewer pending |
| SwipeController.Controller.Reject | index.tsx:137-139 | a pending promise rejects: status Failed, one promise fewer pending |
| SwipeController.Controller.Commit | index.tsx:71-77 | the observed status becomes the current one; `onStatusChange` is called with it exactly when it differs from the previously observed one; the snap effect of lines 151-163 adds `SnapEvents`; the notification log stays equal to `Notified` over the render history, and a Verifying status always has a pending promise |
| SwipeScenarios.SwipePastThreshold | index.tsx:120-163 | threshold 0.5, W = 200, H = 0, release at 120 with no `onConfirm`: notifications Moving, Confirmed; last animation to 200 |
| SwipeScenarios.SwipeShortOfThreshold | index.tsx:120-163 | the same control released at 80: notifications Moving, Initial; last animation to 0 |
| SwipeScenarios.SwipeWhilePending | index.tsx:120-163 | a promise-returning `onConfirm`: Verifying, snap to `W - H` = 160, and a second release while pending calls `onConfirm` no second time |
| SwipeScenarios.ReleasedIntoVerifying | index.tsx:103-147 | the shared start of the next two interactions: after a drag to 150 of 200, a render and a release with a promise-returning `onConfirm`, the status is Verifying with one promise pending and one `onConfirm` call, while the last render still shows Moving |
| SwipeScenarios.SwipeRejected | index.tsx:90-163 | a rejected promise: notifications Moving, Verifying, Failed; then a new gesture start, not locked by Failed, brings back Initial; last animation back to 0 |
| SwipeScenarios.SwipeTwiceBeforeRender | index.tsx:120-147 | two committing releases before a render both pass the lock on the stale `stateRef`: `onConfirm` is called twice; settling the two promises in turn gives notifications Moving, Confirmed, Failed |
| SwipeScenarios.SwipePlainConfirmResultDispatchesNothing | index.tsx:120-163 | an `onConfirm` returning a plain value is called once, and the control stays Moving with no snap animation |

## Left out

- Rendering, styles and the default handle view (`index.tsx:165-222`): visual only.
- The PanResponder capture callbacks (`index.tsx:85-88`): they always return true, so there is no decision to model.
- The animation itself (`index.tsx:155-162`): the 400 ms duration, the exponential ease-out and the native driver run inside the animation library, with floating-point interpolation. Only each animation's target is recorded.
- The inside of the `moveX` calls (`index.tsx:100, 118, 126-127`). `stopAnimation` is recorded as an event. `setOffset` and `flattenOffset` are modelled only through the additive offset they write and clear. The base value and the position drawn on screen are not modelled.
- Layout measurement (`index.tsx:168-170, 184-186`) is asynchronous I/O; the widths are set by two plain setters.
- Scheduling of promises and of React renders: settling a promise (`Resolve`, `Reject`) and a render with its effects (`Commit`) are explicit steps taken in any order the caller chooses. The model counts pending promises but does not say which one settles.
- Props read once or per render. `threshold` and `onConfirm` are captured when the component is created (`index.tsx:68, 83`), and the model fixes them per instance. `onSwipeStart` is refreshed through its ref (`index.tsx:79-81`) and `onStatusChange` is read at each render; the model also fixes whether each of them is supplied.
- Exceptions thrown by `onSwipeStart`, `onConfirm` or `onStatusChange`: they would escape the handler or the effect; the model has no exceptions.
- Floating point: displacements, widths and the threshold are exact reals. Rounding of the ratio and non-finite inputs (NaN or infinite displacement or threshold) are not modelled. Of the JavaScript division, only the quotient by a zero width is modelled.
- The values passed to `renderSlider` and `children`: rendering only.
