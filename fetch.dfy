/**
 * The outcome of a list request made by a component (`await fetch…()` inside
 * `try`), and what the component keeps as its list afterwards.
 */
module Fetch {
  import opened Wrappers

  /** A thrown error, or the response data (`None` for a null body). */
  datatype FetchOutcome<T> = FetchFailed | Fetched(data: Option<seq<T>>)

  /** The list after `setList(data || [])`: the response, empty for null, and unchanged on error. */
  function AfterLoad<T>(current: seq<T>, outcome: FetchOutcome<T>): (r: seq<T>)
    ensures outcome.FetchFailed? ==> r == current
    ensures outcome.Fetched? && outcome.data.None? ==> r == []
    ensures outcome.Fetched? && outcome.data.Some? ==> r == outcome.data.value
  {
    match outcome
    case FetchFailed => current
    case Fetched(data) => if data.Some? then data.value else []
  }
}
