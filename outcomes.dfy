/** Nullable values and the settled result of an external (AI) call. */
module Outcomes {

  /** A state cell that may hold `null`. */
  datatype Option<+T> = None | Some(value: T)

  /** How an awaited call settles: resolved with a value, or rejected with an
      error whose `message` may be empty (an `Error` without a message). */
  datatype Outcome<+T> = Ok(value: T) | Err(msg: string)

  /** The text shown for a rejection: `e.message || fallback`. An empty
      message falls back to the handler's default text. */
  function ErrorText(message: string, fallback: string): (r: string)
    ensures fallback != "" ==> r != ""
    ensures message != "" ==> r == message
    ensures message == "" ==> r == fallback
  {
    if message != "" then message else fallback
  }

  /** The rejection that `Promise.all([a, b])` reports when at least one of
      the two calls is rejected: the one that settles first. Which one that
      is, when both are rejected, depends on timing, so it is a parameter. */
  function JoinRejection<A, B>(a: Outcome<A>, b: Outcome<B>, aSettlesFirst: bool): (m: string)
    requires a.Err? || b.Err?
    ensures (a.Err? && m == a.msg) || (b.Err? && m == b.msg)
    ensures a.Ok? ==> m == b.msg
    ensures b.Ok? ==> m == a.msg
    ensures a.Err? && b.Err? ==> m == (if aSettlesFirst then a.msg else b.msg)
  {
    if a.Err? && (b.Ok? || aSettlesFirst) then a.msg else b.msg
  }
}
