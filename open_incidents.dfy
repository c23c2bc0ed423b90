/** The menu-bar command: its fetch state machine (`isLoading`, `incidents`,
    `error`, set step by step in try/catch/finally) and the menu it shows, a
    "Triggered" heading with the not-acknowledged incidents and an
    "Acknowledged" heading with the acknowledged ones. */
module OpenIncidents {

  import opened Wrappers
  import opened IncidentList

  const FetchFailedMessage: string := "Failed to fetch incidents. Please try again."

  /** The three state fields of the command. */
  datatype MenuState = MenuState(isLoading: bool, incidents: seq<Incident>, error: Option<string>)

  /** The state on first render. */
  const Initial: MenuState := MenuState(true, [], None)

  /** The state while the query is awaited: loading, nothing else changed. */
  function Started(s: MenuState): (r: MenuState)
    ensures r.isLoading && r.incidents == s.incidents && r.error == s.error
  {
    s.(isLoading := true)
  }

  /** The state once the query settled: no longer loading; on success the list
      is replaced, on failure the fixed message is stored. Nothing clears `error`. */
  function Settled(s: MenuState, reply: Awaited<OpenIncidents>): (r: MenuState)
    ensures !r.isLoading
    ensures reply.Returned? ==> r.incidents == reply.value.nackIncidents + reply.value.ackIncidents && r.error == s.error
    ensures reply.Threw? ==> r.incidents == s.incidents && r.error == Some(FetchFailedMessage)
  {
    match reply
    case Returned(response) => s.(incidents := response.nackIncidents + response.ackIncidents, isLoading := false)
    case Threw(_) => s.(error := Some(FetchFailedMessage), isLoading := false)
  }

  /** `fetchIncidents` run to completion. */
  function Fetched(s: MenuState, reply: Awaited<OpenIncidents>): MenuState {
    Settled(Started(s), reply)
  }

  /** The state after one `fetchIncidents` run per reply, in order. */
  function AfterFetches(s: MenuState, replies: seq<Awaited<OpenIncidents>>): MenuState {
    if replies == [] then s
    else Fetched(AfterFetches(s, replies[..|replies| - 1]), replies[|replies| - 1])
  }

  /** After any non-empty run of fetches: not loading; the list is the one the
      last successful fetch returned (the old list if none succeeded); the error
      is the fixed message if any fetch failed, and otherwise what it was, so a
      later success never clears an earlier failure. */
  lemma {:induction false} FetchesOutcome(s: MenuState, replies: seq<Awaited<OpenIncidents>>)
    ensures replies != [] ==> !AfterFetches(s, replies).isLoading
    ensures AfterFetches(s, replies).incidents ==
              match LastReturned(replies)
              case None => s.incidents
              case Some(r) => r.nackIncidents + r.ackIncidents
    ensures AfterFetches(s, replies).error == if LastThrown(replies).Some? then Some(FetchFailedMessage) else s.error
  {
    if replies != [] {
      FetchesOutcome(s, replies[..|replies| - 1]);
    }
  }

  /** An entry of the menu: a section heading, or an incident item. */
  datatype MenuEntry =
    | Heading(title: string)
    | Item(title: string, icon: string, url: string)

  const IncidentIcon: string := "incident.png"

  /** `a || b` on two strings. */
  function Or(a: string, b: string): string {
    if a != "" then a else b
  }

  /** The title an item shows: the template `[counterId] message`, or the
      "Parsing failed" variant when the template is falsy, which it never is. */
  function ItemTitle(incident: Incident): (r: string)
    ensures r == "[" + incident.counterId + "] " + incident.message
  {
    Or("[" + incident.counterId + "] " + incident.message, "[" + incident.counterId + "] Parsing failed")
  }

  /** One item per incident of a section, in section order, opening the incident's page. */
  function Items(section: seq<Incident>): (r: seq<MenuEntry>)
    ensures |r| == |section|
    ensures forall k :: 0 <= k < |section| ==>
              r[k] == Item("[" + section[k].counterId + "] " + section[k].message, IncidentIcon, IncidentUrl(section[k].counterId))
  {
    if section == [] then []
    else [Item(ItemTitle(section[0]), IncidentIcon, IncidentUrl(section[0].counterId))] + Items(section[1..])
  }

  /** The menu: the "Triggered" heading, its items, the "Acknowledged" heading,
      its items. It depends on the list alone: neither `isLoading` nor `error` is shown. */
  function Menu(incidents: seq<Incident>): (r: seq<MenuEntry>)
    ensures |r| == 2 + |Triggered(incidents)| + |Acknowledged(incidents)|
    ensures r[0] == Heading("Triggered") && r[1 + |Triggered(incidents)|] == Heading("Acknowledged")
    ensures r[1..1 + |Triggered(incidents)|] == Items(Triggered(incidents))
    ensures r[2 + |Triggered(incidents)|..] == Items(Acknowledged(incidents))
  {
    Sections(Items(Triggered(incidents)), Items(Acknowledged(incidents)))
  }

  /** The two headings, each followed by its items. */
  function Sections(triggered: seq<MenuEntry>, acknowledged: seq<MenuEntry>): (r: seq<MenuEntry>)
    ensures |r| == 2 + |triggered| + |acknowledged|
    ensures r[0] == Heading("Triggered") && r[1 + |triggered|] == Heading("Acknowledged")
    ensures r[1..1 + |triggered|] == triggered && r[2 + |triggered|..] == acknowledged
  {
    var r := [Heading("Triggered")] + triggered + [Heading("Acknowledged")] + acknowledged;
    assert r[1..1 + |triggered|] == triggered;
    assert r[2 + |triggered|..] == acknowledged;
    r
  }

  /** The state of the menu-bar command. */
  class MenuBar {
    var isLoading: bool
    var incidents: seq<Incident>
    var error: Option<string>

    function State(): MenuState
      reads this
    {
      MenuState(isLoading, incidents, error)
    }

    constructor ()
      ensures State() == Initial
    {
      isLoading, incidents, error := true, [], None;
    }

    /** The `try` block up to the awaited query: `setIsLoading(true)`. */
    method StartFetch()
      modifies this
      ensures State() == Started(old(State()))
    {
      isLoading := true;
    }

    /** The rest of `fetchIncidents` once the query settled: the list on success,
        the error message in `catch`, and `setIsLoading(false)` in `finally`. */
    method SettleFetch(reply: Awaited<OpenIncidents>)
      modifies this
      ensures State() == Settled(old(State()), reply)
    {
      match reply {
        case Returned(response) =>
          incidents := response.nackIncidents + response.ackIncidents;
        case Threw(_) =>
          error := Some(FetchFailedMessage);
      }
      isLoading := false;
    }

    /** `fetchIncidents`, from start to finish. */
    method FetchIncidents(reply: Awaited<OpenIncidents>)
      modifies this
      ensures State() == Fetched(old(State()), reply)
    {
      StartFetch();
      SettleFetch(reply);
    }
  }
}
