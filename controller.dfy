/**
 * The swipe-to-confirm component of index.tsx as an object: its reducer
 * state, the `stateRef` that the gesture handlers read, the measured widths,
 * the animated value `moveX`, and the calls it makes to its callbacks.
 *
 * One render followed by its effects is the explicit step `Commit`; a
 * promise returned by `onConfirm` settles by the explicit steps `Resolve` and
 * `Reject`. Between a dispatch and the next `Commit` the handlers still see
 * the previously committed status, as the code's `stateRef.current` does.
 */
module SwipeController {
  import opened Wrappers
  import opened SwipeStatus
  import opened StatusReducer
  import opened SwipeRules
  import opened StatusNotifier

  /**
   * Calls on `moveX` that move it on their own: stopping any animation in
   * flight, and starting a timed animation towards a target value.
   */
  datatype AnimEvent = StopAnimation | Timing(toValue: real)

  /** The animations the snap effect starts at a render that moves the status from `prev` to `cur`. */
  function SnapEvents(prev: Status, cur: Status, width: real, handle: real): (r: seq<AnimEvent>)
    ensures |r| == if prev != cur && cur != Moving then 1 else 0
    ensures |r| == 1 ==> r[0] == Timing(if IsLocked(cur) then width - handle else 0.0)
  {
    if prev == cur then []
    else match SnapTarget(cur, width, handle)
      case None => []
      case Some(t) => [Timing(t)]
  }

  class Controller {
    /** The `threshold` prop, read once when the control is created. */
    const threshold: real
    /** Whether `onSwipeStart`, `onConfirm` and `onStatusChange` were supplied. */
    const hasSwipeStart: bool
    const hasConfirm: bool
    const hasStatusChange: bool

    /** The reducer state: the latest dispatched status. */
    var state: State<()>
    /** `stateRef.current.status`: the status of the last committed render. */
    var observed: Status
    /** `containerWidthRef` and `sliderWrapperWidthRef`, set by layout. */
    var trackWidth: real
    var handleWidth: real
    /** The additive offset of `moveX`: written by `setOffset`, merged into the value (and so zeroed) by `flattenOffset`. */
    var offset: real
    /** The animation calls made on `moveX`, oldest first. */
    var anim: seq<AnimEvent>
    /** How often `onSwipeStart` and `onConfirm` were called. */
    var swipeStarts: nat
    var confirmCalls: nat
    /** Promises returned by `onConfirm` that have not settled yet. */
    var pending: nat
    /** The statuses passed to `onStatusChange`, oldest first. */
    var notified: seq<Status>
    /** The status of every committed render after mount, newest first. */
    ghost var history: seq<Status>

    ghost predicate Valid()
      reads this
    {
      && trackWidth >= 0.0 && handleWidth >= 0.0 && offset >= 0.0
      && observed == Latest(Initial, history)
      && (hasStatusChange ==> notified == Notified(Initial, history))
      && (!hasStatusChange ==> |notified| == 0)
      && (state.status == Verifying ==> pending > 0)
      && pending <= confirmCalls
    }

    /** Mounting: status Initial, nothing measured, and the snap effect's first run animating to 0. */
    constructor (thresholdProp: Option<real>, hasSwipeStart: bool, hasConfirm: bool, hasStatusChange: bool)
      ensures Valid()
      ensures threshold == (if thresholdProp.Some? then thresholdProp.value else DefaultThreshold)
      ensures this.hasSwipeStart == hasSwipeStart && this.hasConfirm == hasConfirm
      ensures this.hasStatusChange == hasStatusChange
      ensures state.status == Initial && observed == Initial && history == []
      ensures trackWidth == 0.0 && handleWidth == 0.0 && offset == 0.0
      ensures anim == [Timing(0.0)]
      ensures swipeStarts == 0 && confirmCalls == 0 && pending == 0 && notified == []
    {
      threshold := if thresholdProp.Some? then thresholdProp.value else DefaultThreshold;
      this.hasSwipeStart := hasSwipeStart;
      this.hasConfirm := hasConfirm;
      this.hasStatusChange := hasStatusChange;
      state := State(Initial, ());
      observed := Initial;
      history := [];
      trackWidth, handleWidth, offset := 0.0, 0.0, 0.0;
      // On mount the snap effect runs once, for status Initial.
      anim := [Timing(0.0)];
      swipeStarts, confirmCalls, pending := 0, 0, 0;
      notified := [];
    }

    /** Layout of the track (`onLayout` of the container). */
    method SetTrackWidth(w: real)
      requires Valid() && w >= 0.0
      modifies this`trackWidth
      ensures Valid() && trackWidth == w
    {
      trackWidth := w;
    }

    /** Layout of the handle (`onLayout` of the slider wrapper). */
    method SetHandleWidth(h: real)
      requires Valid() && h >= 0.0
      modifies this`handleWidth
      ensures Valid() && handleWidth == h
    {
      handleWidth := h;
    }

    /** `onPanResponderGrant`: a gesture starts. */
    method Grant()
      requires Valid()
      modifies this`state, this`swipeStarts, this`anim
      ensures Valid()
      ensures IsLocked(observed) ==>
        state == old(state) && swipeStarts == old(swipeStarts) && anim == old(anim)
      ensures !IsLocked(observed) ==>
        && state.status == Initial
        && swipeStarts == old(swipeStarts) + (if hasSwipeStart then 1 else 0)
        && anim == old(anim) + [StopAnimation]
    {
      if IsLocked(observed) {
        return;
      }
      if hasSwipeStart {
        swipeStarts := swipeStarts + 1;
      }
      anim := anim + [StopAnimation];
      state := Reduce(state, SetStatus(Initial));
    }

    /** `onPanResponderMove`: the finger is `dx` to the right of where the gesture started. */
    method Move(dx: real)
      requires Valid()
      modifies this`state, this`offset
      ensures Valid()
      ensures IsLocked(observed) ==> state == old(state) && offset == old(offset)
      ensures !IsLocked(observed) ==>
        && state.status == Moving
        && offset == Clamp(dx, trackWidth - handleWidth)
        && 0.0 <= offset <= Max(0.0, trackWidth - handleWidth)
    {
      if IsLocked(observed) {
        return;
      }
      state := Reduce(state, SetStatus(Moving));
      var d := Min(trackWidth - handleWidth, dx);
      d := Max(0.0, d);
      offset := d;
    }

    /**
     * `onPanResponderRelease` with the finger `dx` from the start; `result` is
     * what `onConfirm` returns if the release calls it.
     */
    method Release(dx: real, result: ConfirmResult)
      requires Valid()
      modifies this`state, this`offset, this`anim, this`confirmCalls, this`pending
      ensures Valid()
      ensures IsLocked(observed) ==>
        && state == old(state) && offset == old(offset) && anim == old(anim)
        && confirmCalls == old(confirmCalls) && pending == old(pending)
      ensures !IsLocked(observed) ==>
        var d := ReleaseDispatch(dx, trackWidth, threshold, hasConfirm, result);
        && anim == old(anim) + [StopAnimation]
        && offset == 0.0
        && confirmCalls == old(confirmCalls) + (if Commits(dx, trackWidth, threshold) && hasConfirm then 1 else 0)
        && pending == old(pending) + (if d == Some(Verifying) then 1 else 0)
        && state.status == (if d.Some? then d.value else old(state.status))
    {
      if IsLocked(observed) {
        return;
      }
      anim := anim + [StopAnimation];
      offset := 0.0;
      if Commits(dx, trackWidth, threshold) {
        if hasConfirm {
          confirmCalls := confirmCalls + 1;
          if result == Thenable {
            state := Reduce(state, SetStatus(Verifying));
            pending := pending + 1;
          }
        } else {
          state := Reduce(state, SetStatus(Confirmed));
        }
      } else {
        state := Reduce(state, SetStatus(Initial));
      }
    }

    /** A promise returned by `onConfirm` resolves: its `then` handler dispatches Confirmed. */
    method Resolve()
      requires Valid() && pending > 0
      modifies this`state, this`pending
      ensures Valid()
      ensures state.status == Confirmed && pending == old(pending) - 1
    {
      state := Reduce(state, SetStatus(Confirmed));
      pending := pending - 1;
    }

    /** A promise returned by `onConfirm` rejects: its `catch` handler dispatches Failed. */
    method Reject()
      requires Valid() && pending > 0
      modifies this`state, this`pending
      ensures Valid()
      ensures state.status == Failed && pending == old(pending) - 1
    {
      state := Reduce(state, SetStatus(Failed));
      pending := pending - 1;
    }

    /**
     * A render and its effects: the status-change effect notifies a status
     * different from the observed one and records it as observed; the snap
     * effect, run when the rendered status changed, animates towards the
     * status's target unless the status is Moving.
     */
    method Commit()
      requires Valid()
      modifies this`observed, this`notified, this`anim, this`history
      ensures Valid()
      ensures observed == state.status
      ensures history == [state.status] + old(history)
      ensures notified == old(notified) + (if hasStatusChange && state.status != old(observed) then [state.status] else [])
      ensures anim == old(anim) + SnapEvents(old(observed), state.status, trackWidth, handleWidth)
    {
      var prev := observed;
      if state.status != prev && hasStatusChange {
        notified := notified + [state.status];
      }
      observed := state.status;
      history := [state.status] + history;
      anim := anim + SnapEvents(prev, state.status, trackWidth, handleWidth);
    }
  }
}
