/** The "who is on call" command: its fetch state machine (`activeShifts`,
    `isLoading`, `error`, set step by step in try/catch/finally), the
    normalisation of what the fetch throws, and the screen it renders: an
    error view when `error` is set, otherwise one list item per active shift. */
module WhoIsOncall {

  import opened Wrappers

  /** An active on-call shift, as the list uses it. */
  datatype Shift = Shift(id: string, name: string)

  /** An `Error` object, as stored in `error`. */
  datatype ErrorObject = ErrorObject(message: string)

  const UnknownErrorMessage: string := "An unknown error occurred"

  /** The error stored for a thrown value: an `Error` is kept as it is, any
      other value is replaced by a new `Error` with a fixed message. */
  function Normalized(thrown: Thrown): (e: ErrorObject)
    ensures thrown.ErrorInstance? ==> e.message == thrown.message
    ensures thrown.OtherValue? ==> e.message == UnknownErrorMessage
  {
    match thrown
    case ErrorInstance(message) => ErrorObject(message)
    case OtherValue(_) => ErrorObject(UnknownErrorMessage)
  }

  /** The three state fields of the view. */
  datatype ViewState = ViewState(activeShifts: seq<Shift>, isLoading: bool, error: Option<ErrorObject>)

  /** The state on first render. */
  const Initial: ViewState := ViewState([], true, None)

  /** The state while the query is awaited: loading, nothing else changed. */
  function Started(s: ViewState): (r: ViewState)
    ensures r.isLoading && r.activeShifts == s.activeShifts && r.error == s.error
  {
    s.(isLoading := true)
  }

  /** The state once the query settled: no longer loading; on success the shifts
      are replaced, on failure the normalised error is stored. Nothing clears `error`. */
  function Settled(s: ViewState, reply: Awaited<seq<Shift>>): (r: ViewState)
    ensures !r.isLoading
    ensures reply.Returned? ==> r.activeShifts == reply.value && r.error == s.error
    ensures reply.Threw? ==> r.activeShifts == s.activeShifts && r.error == Some(Normalized(reply.thrown))
  {
    match reply
    case Returned(data) => s.(activeShifts := data, isLoading := false)
    case Threw(thrown) => s.(error := Some(Normalized(thrown)), isLoading := false)
  }

  /** `fetchActiveSchedules` run to completion. */
  function Fetched(s: ViewState, reply: Awaited<seq<Shift>>): ViewState {
    Settled(Started(s), reply)
  }

  /** The state after one `fetchActiveSchedules` run per reply, in order. */
  function AfterFetches(s: ViewState, replies: seq<Awaited<seq<Shift>>>): ViewState {
    if replies == [] then s
    else Fetched(AfterFetches(s, replies[..|replies| - 1]), replies[|replies| - 1])
  }

  /** After any non-empty run of fetches: not loading; the shifts are those the
      last successful fetch returned (the old ones if none succeeded); the error
      is the normalised value of the last failure, or the old error if none failed. */
  lemma {:induction false} FetchesOutcome(s: ViewState, replies: seq<Awaited<seq<Shift>>>)
    ensures replies != [] ==> !AfterFetches(s, replies).isLoading
    ensures AfterFetches(s, replies).activeShifts == match LastReturned(replies) case None => s.activeShifts case Some(d) => d
    ensures AfterFetches(s, replies).error == match LastThrown(replies) case None => s.error case Some(t) => Some(Normalized(t))
  {
    if replies != [] {
      FetchesOutcome(s, replies[..|replies| - 1]);
    }
  }

  /** One list item: its key, its title, and the on-call id its two actions
      ("View Details", "Add Override") open. */
  datatype ShiftItem = ShiftItem(key: string, title: string, oncallId: string)

  /** What the view renders. */
  datatype Screen =
    | EmptyView(title: string, description: string)
    | ShiftList(isLoading: bool, items: seq<ShiftItem>)

  /** One item per shift, in order. */
  function ShiftItems(shifts: seq<Shift>): (r: seq<ShiftItem>)
    ensures |r| == |shifts|
    ensures forall k :: 0 <= k < |shifts| ==>
              r[k].key == shifts[k].id && r[k].title == shifts[k].name && r[k].oncallId == shifts[k].id
  {
    if shifts == [] then [] else [ShiftItem(shifts[0].id, shifts[0].name, shifts[0].id)] + ShiftItems(shifts[1..])
  }

  /** The screen: an error view with the error's message whenever `error` is
      set (whatever `isLoading` and the shifts are), otherwise the list. */
  function Render(s: ViewState): (v: Screen)
    ensures v.EmptyView? <==> s.error.Some?
    ensures v.EmptyView? ==> v.title == "Error" && v.description == s.error.value.message
    ensures v.ShiftList? ==> v.isLoading == s.isLoading && v.items == ShiftItems(s.activeShifts)
  {
    if s.error.Some? then EmptyView("Error", s.error.value.message)
    else ShiftList(s.isLoading, ShiftItems(s.activeShifts))
  }

  /** Once a fetch has failed, the view shows the error view with that
      failure's message after any later fetches: a later success refills the
      shifts but they are never shown. */
  lemma FailureHidesList(s: ViewState, replies: seq<Awaited<seq<Shift>>>)
    requires LastThrown(replies).Some?
    ensures Render(AfterFetches(s, replies)) == EmptyView("Error", Normalized(LastThrown(replies).value).message)
  {
    FetchesOutcome(s, replies);
  }

  /** The state of the view. */
  class WhoIsOncallView {
    var activeShifts: seq<Shift>
    var isLoading: bool
    var error: Option<ErrorObject>

    function State(): ViewState
      reads this
    {
      ViewState(activeShifts, isLoading, error)
    }

    constructor ()
      ensures State() == Initial
    {
      activeShifts, isLoading, error := [], true, None;
    }

    /** The `try` block up to the awaited query: `setIsLoading(true)`. */
    method StartFetch()
      modifies this
      ensures State() == Started(old(State()))
    {
      isLoading := true;
    }

    /** The rest of `fetchActiveSchedules` once the query settled: the shifts on
        success, the normalised error in `catch`, `setIsLoading(false)` in `finally`. */
    method SettleFetch(reply: Awaited<seq<Shift>>)
      modifies this
      ensures State() == Settled(old(State()), reply)
    {
      match reply {
        case Returned(data) =>
          activeShifts := data;
        case Threw(thrown) =>
          error := Some(Normalized(thrown));
      }
      isLoading := false;
    }

    /** `fetchActiveSchedules`, from start to finish. */
    method FetchActiveSchedules(reply: Awaited<seq<Shift>>)
      modifies this
      ensures State() == Fetched(old(State()), reply)
    {
      StartFetch();
      SettleFetch(reply);
    }
  }
}
