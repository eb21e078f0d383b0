/**
 * The load-state machine each of the three data hooks (hooks/useBridges.ts,
 * hooks/useChains.ts, hooks/useMarketSummary.ts) repeats: a value, a
 * loading flag, an error message and the time of the last update, changed
 * in four steps by one fetch. `Snapshot` and the functions below say what
 * each step makes of the state; `Resource` holds the state in fields and
 * performs the steps one assignment at a time, as the hooks do.
 *
 * The awaited API call is not modelled: its outcome (the envelope it
 * returned, or the value it threw) is a parameter of the step that receives it.
 */
module LoadState {
  import opened Types

  const UnknownError := "Unknown error occurred"

  /** The value a `catch` clause receives: an `Error` with a message, or anything else. */
  datatype Thrown = ErrorObject(message: string) | OtherValue

  /** How the awaited call ended. */
  datatype Outcome<D> = Returned(response: ApiResponse<D>) | Threw(thrown: Thrown)

  /** The four state variables of a hook. */
  datatype Snapshot<D> = Snapshot(data: D, loading: bool, error: Option<string>, lastUpdated: Option<string>)

  /** The state before the first fetch has done anything: loading, no error, never updated. */
  function Initial<D>(data: D): (s: Snapshot<D>)
    ensures s.loading && s.error.None? && s.lastUpdated.None?
    ensures s.data == data
  {
    Snapshot(data, true, None, None)
  }

  /** `response.error || failureMessage`: the envelope's message unless it is missing or empty. */
  function EnvelopeError<D>(response: ApiResponse<D>, failureMessage: string): (msg: string)
    ensures response.error.Some? && response.error.value != "" ==> msg == response.error.value
    ensures response.error.None? || response.error.value == "" ==> msg == failureMessage
    ensures failureMessage != "" ==> msg != ""
  {
    if response.error.Some? && response.error.value != "" then response.error.value else failureMessage
  }

  /** `err instanceof Error ? err.message : "Unknown error occurred"` */
  function ThrownError(thrown: Thrown): (msg: string)
    ensures thrown.ErrorObject? ==> msg == thrown.message
    ensures thrown.OtherValue? ==> msg == UnknownError
  {
    match thrown
    case ErrorObject(message) => message
    case OtherValue => UnknownError
  }

  /** `setLoading(true); setError(null)`: the value and the timestamp are kept. */
  function Started<D>(s: Snapshot<D>): (t: Snapshot<D>)
    ensures t.loading && t.error.None?
    ensures t.data == s.data && t.lastUpdated == s.lastUpdated
  {
    s.(loading := true, error := None)
  }

  /**
   * The awaited call returned `response`, and `finally` ran. A successful
   * envelope replaces the value and the timestamp and leaves the error as it
   * was; any other records an error and keeps the value and the timestamp.
   */
  function Responded<D>(s: Snapshot<D>, response: ApiResponse<D>, failureMessage: string): (t: Snapshot<D>)
    ensures !t.loading
    ensures response.success ==>
      t.data == response.data && t.lastUpdated == Some(response.lastUpdated) && t.error == s.error
    ensures !response.success ==>
      t.data == s.data && t.lastUpdated == s.lastUpdated && t.error == Some(EnvelopeError(response, failureMessage))
  {
    var t := if response.success then s.(data := response.data, lastUpdated := Some(response.lastUpdated))
             else s.(error := Some(EnvelopeError(response, failureMessage)));
    t.(loading := false)
  }

  /** The awaited call threw `thrown`, and `finally` ran: an error, the value and the timestamp kept. */
  function Caught<D>(s: Snapshot<D>, thrown: Thrown): (t: Snapshot<D>)
    ensures !t.loading
    ensures t.error == Some(ThrownError(thrown))
    ensures t.data == s.data && t.lastUpdated == s.lastUpdated
  {
    s.(error := Some(ThrownError(thrown)), loading := false)
  }

  /** The end of a whole fetch that started in state `s`. */
  function Fetched<D>(s: Snapshot<D>, outcome: Outcome<D>, failureMessage: string): (t: Snapshot<D>)
    ensures !t.loading
    ensures t.error.None? <==> outcome.Returned? && outcome.response.success
    ensures outcome.Returned? && outcome.response.success ==>
      t.data == outcome.response.data && t.lastUpdated == Some(outcome.response.lastUpdated)
    ensures !(outcome.Returned? && outcome.response.success) ==>
      t.data == s.data && t.lastUpdated == s.lastUpdated
  {
    match outcome
    case Returned(response) => Responded(Started(s), response, failureMessage)
    case Threw(thrown) => Caught(Started(s), thrown)
  }

  /** A fetch does not depend on the loading flag or the error it starts from. */
  lemma FetchedForgetsError<D>(s: Snapshot<D>, u: Snapshot<D>, outcome: Outcome<D>, failureMessage: string)
    requires s.data == u.data && s.lastUpdated == u.lastUpdated
    ensures Fetched(s, outcome, failureMessage) == Fetched(u, outcome, failureMessage)
  {
  }

  /** Fetching again with the same outcome changes nothing more. */
  lemma FetchedIdempotent<D>(s: Snapshot<D>, outcome: Outcome<D>, failureMessage: string)
    ensures Fetched(Fetched(s, outcome, failureMessage), outcome, failureMessage) == Fetched(s, outcome, failureMessage)
  {
  }

  /** The state variables of one hook. */
  class Resource<D> {
    var data: D
    var loading: bool
    var error: Option<string>
    var lastUpdated: Option<string>

    function State(): Snapshot<D>
      reads this
    {
      Snapshot(data, loading, error, lastUpdated)
    }

    /** The `useState` initialisers. */
    constructor (initial: D)
      ensures State() == Initial(initial)
    {
      data := initial;
      loading := true;
      error := None;
      lastUpdated := None;
    }

    /** The first two statements of the `try` block. */
    method Begin()
      modifies this
      ensures State() == Started(old(State()))
    {
      loading := true;
      error := None;
    }

    /** The rest of the `try` block when the awaited call returned `response`, then `finally`. */
    method CompleteOk(response: ApiResponse<D>, failureMessage: string)
      modifies this
      ensures State() == Responded(old(State()), response, failureMessage)
    {
      if response.success {
        data := response.data;
        lastUpdated := Some(response.lastUpdated);
      } else {
        error := Some(if response.error.Some? && response.error.value != "" then response.error.value else failureMessage);
      }
      loading := false;
    }

    /** The `catch` block when the awaited call threw `thrown`, then `finally`. */
    method CompleteThrow(thrown: Thrown)
      modifies this
      ensures State() == Caught(old(State()), thrown)
    {
      error := Some(if thrown.ErrorObject? then thrown.message else UnknownError);
      loading := false;
    }

    /** A whole fetch: begin, await the call, complete on whichever path it took. */
    method Fetch(outcome: Outcome<D>, failureMessage: string)
      modifies this
      ensures State() == Fetched(old(State()), outcome, failureMessage)
    {
      Begin();
      match outcome
      case Returned(response) => CompleteOk(response, failureMessage);
      case Threw(thrown) => CompleteThrow(thrown);
    }
  }
}
