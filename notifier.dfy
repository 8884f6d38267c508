/**
 * The status-change effect of index.tsx, run over a whole history of renders:
 * each render compares its status with the last observed one
 * (`stateRef.current.status`), calls `onStatusChange` when they differ, and
 * then records its status as the observed one.
 *
 * A history lists the statuses of the committed renders NEWEST FIRST, so that
 * one more render is one more element at the front.
 */
module StatusNotifier {
  import opened SwipeStatus

  /** The observed status after the renders `history`, when `prev` was observed before them. */
  function Latest(prev: Status, history: seq<Status>): Status {
    if |history| == 0 then prev else history[0]
  }

  /**
   * The statuses passed to `onStatusChange` over the renders `history`, oldest
   * call first, when `prev` was observed before them.
   */
  function Notified(prev: Status, history: seq<Status>): (r: seq<Status>)
    ensures |r| <= |history|
  {
    if |history| == 0 then []
    else
      Notified(prev, history[1..])
        + (if history[0] != Latest(prev, history[1..]) then [history[0]] else [])
  }

  /**
   * No notification repeats the status notified just before it, and the first
   * one differs from the status observed before the renders.
   */
  lemma {:induction false} NotifiedNeverRepeats(prev: Status, history: seq<Status>)
    ensures var r := Notified(prev, history);
      (|r| > 0 ==> r[0] != prev) && forall i :: 0 < i < |r| ==> r[i - 1] != r[i]
  {
    if history != [] {
      NotifiedNeverRepeats(prev, history[1..]);
      NotifiedEndsAtCurrent(prev, history[1..]);
    }
  }

  /**
   * The notifications end on the current status: a listener that keeps the
   * last status it was told about, starting from `prev`, holds the status the
   * control last rendered.
   */
  lemma {:induction false} NotifiedEndsAtCurrent(prev: Status, history: seq<Status>)
    ensures var r := Notified(prev, history);
      (if r == [] then prev else r[|r| - 1]) == Latest(prev, history)
  {
    if history != [] {
      NotifiedEndsAtCurrent(prev, history[1..]);
    }
  }

  /** A history of renders that all show the observed status notifies nothing. */
  lemma {:induction false} NotifiedSilentWhileUnchanged(prev: Status, history: seq<Status>)
    requires forall i :: 0 <= i < |history| ==> history[i] == prev
    ensures Notified(prev, history) == []
  {
    if history != [] {
      NotifiedSilentWhileUnchanged(prev, history[1..]);
    }
  }
}
