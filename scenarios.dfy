/**
 * Whole interactions with a freshly mounted control, driven through the
 * controller's methods only: what its contracts pin down for six typical
 * interactions (a commit, a snap back, a pending confirmation, a rejected
 * confirmation, a confirmation callback returning a plain value and two
 * releases before a render). Each `Commit` is a render with its effects; the
 * gesture handlers run between renders. The assertions are checkpoints along the way.
 */
module SwipeScenarios {
  import opened Wrappers
  import opened SwipeStatus
  import opened SwipeRules
  import opened SwipeController

  /**
   * Threshold 0.5, track 200, handle 0, only `onStatusChange` supplied: a drag
   * released at 120 confirms, and the handle snaps to the end of the track.
   */
  method SwipePastThreshold() returns (notified: seq<Status>, last: AnimEvent)
    ensures notified == [Moving, Confirmed]
    ensures last == Timing(200.0)
  {
    var c := new Controller(Some(0.5), false, false, true);
    c.SetTrackWidth(200.0);
    c.Grant();
    c.Move(120.0);
    assert c.state.status == Moving && c.offset == 120.0;
    c.Commit();
    assert c.observed == Moving && c.notified == [Moving];
    assert Commits(120.0, 200.0, 0.5);
    c.Release(120.0, NonThenable);
    assert c.state.status == Confirmed;
    c.Commit();
    notified, last := c.notified, c.anim[|c.anim| - 1];
  }

  /** The same control released at 80, below the threshold: the handle snaps back to 0. */
  method SwipeShortOfThreshold() returns (notified: seq<Status>, last: AnimEvent)
    ensures notified == [Moving, Initial]
    ensures last == Timing(0.0)
  {
    var c := new Controller(Some(0.5), false, false, true);
    c.SetTrackWidth(200.0);
    c.Grant();
    c.Move(80.0);
    assert c.state.status == Moving && c.offset == 80.0;
    c.Commit();
    assert c.observed == Moving && c.notified == [Moving];
    assert !Commits(80.0, 200.0, 0.5);
    c.Release(80.0, NonThenable);
    assert c.state.status == Initial;
    c.Commit();
    notified, last := c.notified, c.anim[|c.anim| - 1];
  }

  /**
   * An `onConfirm` returning a promise, with the default threshold, track 200
   * and handle 40: the release reaches Verifying and the handle snaps to 160;
   * a second release while the promise is pending neither calls `onConfirm`
   * again nor changes the status.
   */
  method SwipeWhilePending() returns (status: Status, confirmCalls: nat, last: AnimEvent)
    ensures status == Verifying
    ensures confirmCalls == 1
    ensures last == Timing(160.0)
  {
    var c := new Controller(None, false, true, false);
    c.SetTrackWidth(200.0);
    c.SetHandleWidth(40.0);
    c.Move(150.0);
    assert c.state.status == Moving && c.offset == 150.0;
    c.Commit();
    assert c.observed == Moving;
    assert Commits(150.0, 200.0, 0.5);
    c.Release(150.0, Thenable);
    assert c.state.status == Verifying && c.confirmCalls == 1;
    c.Commit();
    assert c.observed == Verifying;
    c.Release(190.0, Thenable);
    status, confirmCalls, last := c.state.status, c.confirmCalls, c.anim[|c.anim| - 1];
  }

  /**
   * The common start of the last two interactions: a control with a
   * promise-returning `onConfirm` and an `onStatusChange`, on a track of 200
   * with a handle of 0, dragged to 150, rendered, and released there. The
   * release has dispatched Verifying, called `onConfirm` once and left one
   * promise pending; the last render still shows Moving.
   */
  method ReleasedIntoVerifying() returns (c: Controller)
    ensures fresh(c) && c.Valid()
    ensures c.threshold == 0.5 && c.hasConfirm && c.hasStatusChange
    ensures c.trackWidth == 200.0 && c.handleWidth == 0.0
    ensures c.state.status == Verifying && c.observed == Moving
    ensures c.pending == 1 && c.confirmCalls == 1 && c.notified == [Moving]
  {
    c := new Controller(None, false, true, true);
    c.SetTrackWidth(200.0);
    c.Move(150.0);
    assert c.state.status == Moving;
    c.Commit();
    assert c.observed == Moving && c.notified == [Moving];
    assert Commits(150.0, 200.0, 0.5);
    c.Release(150.0, Thenable);
  }

  /**
   * A pending confirmation that rejects gives Failed, and the handle snaps
   * back to the start of the track; Failed does not lock, so the next gesture
   * start takes the control back to Initial.
   */
  method SwipeRejected() returns (status: Status, notified: seq<Status>, last: AnimEvent)
    ensures status == Initial
    ensures notified == [Moving, Verifying, Failed, Initial]
    ensures last == Timing(0.0)
  {
    var c := ReleasedIntoVerifying();
    c.Commit();
    assert c.observed == Verifying && c.notified == [Moving, Verifying];
    c.Reject();
    assert c.state.status == Failed;
    c.Commit();
    assert c.observed == Failed && c.notified == [Moving, Verifying, Failed];
    c.Grant();
    assert c.state.status == Initial;
    c.Commit();
    status, notified, last := c.state.status, c.notified, c.anim[|c.anim| - 1];
  }

  /**
   * An `onConfirm` returning a plain value: it is called once, but no status is
   * dispatched, so the control never reaches Verifying or Confirmed; it stays
   * Moving and no snap animation starts.
   */
  method SwipePlainConfirmResultDispatchesNothing() returns (notified: seq<Status>, confirmCalls: nat, last: AnimEvent)
    ensures notified == [Moving]
    ensures confirmCalls == 1
    ensures last == StopAnimation
  {
    var c := new Controller(Some(0.5), false, true, true);
    c.SetTrackWidth(200.0);
    c.Move(120.0);
    assert c.state.status == Moving;
    c.Commit();
    assert c.observed == Moving && c.notified == [Moving];
    assert Commits(120.0, 200.0, 0.5);
    c.Release(120.0, NonThenable);
    assert c.state.status == Moving && c.confirmCalls == 1;
    c.Commit();
    notified, confirmCalls, last := c.notified, c.confirmCalls, c.anim[|c.anim| - 1];
  }

  /**
   * The lock guards read the status of the last render, so two releases
   * handled before the render that shows Verifying both commit: `onConfirm` is
   * called twice and two promises are pending. Settling them in turn moves the
   * control from Confirmed to Failed.
   */
  method SwipeTwiceBeforeRender() returns (status: Status, notified: seq<Status>, confirmCalls: nat)
    ensures status == Failed
    ensures notified == [Moving, Confirmed, Failed]
    ensures confirmCalls == 2
  {
    var c := ReleasedIntoVerifying();
    assert Commits(150.0, 200.0, 0.5);
    c.Release(150.0, Thenable);
    assert c.state.status == Verifying && c.pending == 2 && c.confirmCalls == 2;
    c.Resolve();
    assert c.state.status == Confirmed;
    c.Commit();
    assert c.observed == Confirmed && c.notified == [Moving, Confirmed];
    c.Reject();
    assert c.state.status == Failed;
    c.Commit();
    status, notified, confirmCalls := c.state.status, c.notified, c.confirmCalls;
  }
}
