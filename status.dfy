/**
 * The lifecycle status of the swipe-to-confirm control (the exported `Status`
 * enum of index.tsx) and the numeric values the enum exposes to
 * `onStatusChange` and `renderSlider`.
 */
module SwipeStatus {
  import opened Wrappers

  datatype Status = Initial | Moving | Verifying | Confirmed | Failed

  /** The numeric value TypeScript gives each enum member. */
  function Code(s: Status): (n: int)
    ensures 1 <= n <= 5
  {
    match s
    case Initial => 1
    case Moving => 2
    case Verifying => 3
    case Confirmed => 4
    case Failed => 5
  }

  /** The enum member with numeric value `n`, if there is one. */
  function FromCode(n: int): (r: Option<Status>)
    ensures r.Some? <==> 1 <= n <= 5
    ensures r.Some? ==> Code(r.value) == n
  {
    if n == 1 then Some(Initial)
    else if n == 2 then Some(Moving)
    else if n == 3 then Some(Verifying)
    else if n == 4 then Some(Confirmed)
    else if n == 5 then Some(Failed)
    else None
  }

  /** Decoding the numeric value of a member gives the member back, so no two members share a value. */
  lemma CodeRoundTrip(s: Status)
    ensures FromCode(Code(s)) == Some(s)
  {
  }

  /**
   * The statuses in which the gesture handlers ignore their input: the guard
   * `[Status.Confirmed, Status.Verifying].includes(...)`. They are exactly the
   * two members with numeric values 3 and 4.
   */
  function IsLocked(s: Status): (r: bool)
    ensures r <==> 3 <= Code(s) <= 4
  {
    s == Confirmed || s == Verifying
  }
}
