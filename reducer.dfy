/**
 * The `useReducer` reducer of the control. Its state is an object whose
 * `status` field is the lifecycle status; `rest` stands for every other field
 * the spread `...state` copies.
 */
module StatusReducer {
  import opened SwipeStatus

  datatype State<X> = State(status: Status, rest: X)

  /** A dispatched action: its `type` tag and its `payload`. */
  datatype Action = Action(kind: string, payload: Status)

  const UpdateStatus: string := "UpdateStatus"

  /** The action `setStatus(s)` dispatches. */
  function SetStatus(s: Status): (a: Action)
    ensures a.kind == UpdateStatus && a.payload == s
  {
    Action(UpdateStatus, s)
  }

  /** `UpdateStatus` replaces the status and keeps the rest; any other action leaves the state alone. */
  function Reduce<X>(state: State<X>, action: Action): (r: State<X>)
    ensures action.kind == UpdateStatus ==> r.status == action.payload && r.rest == state.rest
    ensures action.kind != UpdateStatus ==> r == state
  {
    if action.kind == UpdateStatus then state.(status := action.payload) else state
  }

  /**
   * Of two status updates dispatched before a render, only the second one is
   * visible: the render sees the same state as if the first had never been
   * dispatched.
   */
  lemma {:induction false} LastUpdateWins<X>(state: State<X>, a: Status, b: Status)
    ensures Reduce(Reduce(state, SetStatus(a)), SetStatus(b)) == Reduce(state, SetStatus(b))
  {
  }

  /** `setStatus(s)` sets the status to `s` and keeps every other field of the state. */
  lemma {:induction false} SetStatusTakesEffect<X>(state: State<X>, s: Status)
    ensures Reduce(state, SetStatus(s)) == State(s, state.rest)
  {
  }

  /** Dispatching the status the state already has changes nothing. */
  lemma {:induction false} UpdateToSameIsIdentity<X>(state: State<X>)
    ensures Reduce(state, SetStatus(state.status)) == state
  {
  }
}
