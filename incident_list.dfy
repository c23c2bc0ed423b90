/** The open-incident list of the "incidents" command: the list held in the
    component's state, the update of one incident's status by `_id`, the
    "Triggered" and "Acknowledged" sections filtered from it, and the handlers
    that acknowledge or resolve an incident. The menu-bar command reuses the
    entry type, the filters and the incident URL. */
module IncidentList {

  import opened Wrappers
  import Text

  /** An incident's status: not acknowledged, acknowledged, resolved. */
  datatype Status = NACK | ACK | RES

  /** The statuses a handler writes. */
  type Transition = s: Status | s != NACK witness ACK

  /** One entry of the open-incident list. `metadata` is an opaque JSON object. */
  datatype Incident = Incident(id: string, message: string, metadata: string, counterId: string, status: Status)

  /** The server's answer to the open-incident query. */
  datatype OpenIncidents = OpenIncidents(nackIncidents: seq<Incident>, ackIncidents: seq<Incident>)

  /** The list after every entry whose `_id` is `id` has been given status `s`. */
  function WithStatus(list: seq<Incident>, id: string, s: Status): (r: seq<Incident>)
    ensures |r| == |list|
    ensures forall k :: 0 <= k < |list| && list[k].id != id ==> r[k] == list[k]
    ensures forall k :: 0 <= k < |list| && list[k].id == id ==>
              r[k].status == s && r[k] == list[k].(status := s)
  {
    if list == [] then []
    else [if list[0].id == id then list[0].(status := s) else list[0]] + WithStatus(list[1..], id, s)
  }

  /** The entries of `list` with status `s`, in list order. */
  function Section(list: seq<Incident>, s: Status): (r: seq<Incident>)
    ensures |r| <= |list|
    ensures forall x :: x in r <==> x in list && x.status == s
  {
    if list == [] then []
    else (if list[0].status == s then [list[0]] else []) + Section(list[1..], s)
  }

  /** The "Triggered" section. */
  function Triggered(list: seq<Incident>): seq<Incident> {
    Section(list, NACK)
  }

  /** The "Acknowledged" section. */
  function Acknowledged(list: seq<Incident>): seq<Incident> {
    Section(list, ACK)
  }

  /** Filtering keeps list order: the section of a concatenation is the
      concatenation of the sections. */
  lemma {:induction false} SectionOfConcat(a: seq<Incident>, b: seq<Incident>, s: Status)
    ensures Section(a + b, s) == Section(a, s) + Section(b, s)
  {
    if a == [] {
      assert a + b == b;
    } else {
      assert (a + b)[1..] == a[1..] + b;
      SectionOfConcat(a[1..], b, s);
    }
  }

  /** A list whose every entry has status `s` is its own section. */
  lemma {:induction false} SectionOfUniform(list: seq<Incident>, s: Status)
    requires forall k :: 0 <= k < |list| ==> list[k].status == s
    ensures Section(list, s) == list
  {
    if list != [] {
      SectionOfUniform(list[1..], s);
    }
  }

  /** A list with no entry of status `s` has an empty section. */
  lemma {:induction false} SectionOfAbsent(list: seq<Incident>, s: Status)
    requires forall k :: 0 <= k < |list| ==> list[k].status != s
    ensures Section(list, s) == []
  {
    if list != [] {
      SectionOfAbsent(list[1..], s);
    }
  }

  /** The three sections by status partition the list: their lengths add up to
      the list's, and no entry lies in two of them. */
  lemma {:induction false} SectionsPartition(list: seq<Incident>)
    ensures |Section(list, NACK)| + |Section(list, ACK)| + |Section(list, RES)| == |list|
    ensures forall x :: x in Triggered(list) ==> x !in Acknowledged(list)
    ensures forall x :: x in list && x.status == RES ==> x !in Triggered(list) && x !in Acknowledged(list)
  {
    if list != [] {
      SectionsPartition(list[1..]);
    }
  }

  /** The list right after the initial load shows the server's not-acknowledged
      incidents as "Triggered" and its acknowledged ones as "Acknowledged", each in
      server order, when each server list holds the status it is named after; an
      entry the server marks resolved, in either list, is in neither section. */
  lemma LoadedSections(r: OpenIncidents)
    ensures forall x :: x in r.nackIncidents + r.ackIncidents && x.status == RES ==>
              x !in Triggered(r.nackIncidents + r.ackIncidents) && x !in Acknowledged(r.nackIncidents + r.ackIncidents)
    ensures (forall x :: x in r.nackIncidents ==> x.status == NACK) && (forall x :: x in r.ackIncidents ==> x.status == ACK) ==>
              Triggered(r.nackIncidents + r.ackIncidents) == r.nackIncidents &&
              Acknowledged(r.nackIncidents + r.ackIncidents) == r.ackIncidents
  {
    var nack, ack := r.nackIncidents, r.ackIncidents;
    SectionOfConcat(nack, ack, NACK);
    SectionOfConcat(nack, ack, ACK);
    if (forall x :: x in nack ==> x.status == NACK) && (forall x :: x in ack ==> x.status == ACK) {
      SectionOfUniform(nack, NACK);
      SectionOfUniform(ack, ACK);
      SectionOfAbsent(nack, ACK);
      SectionOfAbsent(ack, NACK);
    }
  }

  /** After a resolve, the incident is still in the list (same position, same
      fields but the status), and neither section shows an entry with its `_id`. */
  lemma ResolvedLeavesSections(list: seq<Incident>, id: string)
    ensures |WithStatus(list, id, RES)| == |list|
    ensures forall k :: 0 <= k < |list| && list[k].id == id ==> WithStatus(list, id, RES)[k] == list[k].(status := RES)
    ensures forall x :: x in Triggered(WithStatus(list, id, RES)) ==> x.id != id
    ensures forall x :: x in Acknowledged(WithStatus(list, id, RES)) ==> x.id != id
  {
  }

  /** After an acknowledge, every entry with that `_id` is in the "Acknowledged"
      section and none is in "Triggered"; the sections of the other entries do not change. */
  lemma {:induction false} AcknowledgedMovesSection(list: seq<Incident>, id: string)
    ensures forall k :: 0 <= k < |list| && list[k].id == id ==>
              list[k].(status := ACK) in Acknowledged(WithStatus(list, id, ACK))
    ensures forall x :: x in Triggered(WithStatus(list, id, ACK)) <==> x in Triggered(list) && x.id != id
  {
  }

  /** Repeating a status update changes nothing more, and a later update of the
      same `_id` overrides an earlier one. */
  lemma {:induction false} WithStatusLastWins(list: seq<Incident>, id: string, s: Status, t: Status)
    ensures WithStatus(WithStatus(list, id, s), id, t) == WithStatus(list, id, t)
  {
    if list != [] {
      WithStatusLastWins(list[1..], id, s, t);
    }
  }

  /** `https://app.spike.sh/incidents/<counterId>`, the page an item opens. */
  function IncidentUrl(counterId: string): (r: string)
    ensures |r| == |IncidentsBase| + |counterId|
    ensures r[..|IncidentsBase|] == IncidentsBase && r[|IncidentsBase|..] == counterId
  {
    IncidentsBase + counterId
  }

  const IncidentsBase: string := "https://app.spike.sh/incidents/"

  /** The colours the host's tags use. */
  datatype Color = Red | Blue | Green | PrimaryText

  /** A status tag: its text and its colour. */
  datatype Tag = Tag(text: string, color: Color)

  /** The name each status is shown under. */
  function StatusName(s: Status): string {
    match s
    case NACK => "Triggered"
    case ACK => "Acknowledged"
    case RES => "Resolved"
  }

  /** The status whose name is `text`, if any: the inverse of `StatusName`. */
  function StatusNamed(text: string): (r: Option<Status>)
    ensures r.Some? ==> StatusName(r.value) == text
  {
    if text == "Triggered" then Some(NACK)
    else if text == "Acknowledged" then Some(ACK)
    else if text == "Resolved" then Some(RES)
    else None
  }

  /** The tag an item of the list shows for its status. */
  function ListTag(s: Status): (r: Tag)
    ensures StatusNamed(r.text) == Some(s)
    ensures r.color == (match s case NACK => Red case ACK => Blue case RES => PrimaryText)
  {
    match s
    case NACK => Tag("Triggered", Red)
    case ACK => Tag("Acknowledged", Blue)
    case RES => Tag("Resolved", PrimaryText)
  }

  /** The state of the "incidents" command: its list of open incidents. */
  class IncidentsCommand {
    var incidents: seq<Incident>

    /** The list starts empty. */
    constructor ()
      ensures incidents == []
    {
      incidents := [];
    }

    /** The effect run on mount: when the open-incident query returns, the list
        becomes its not-acknowledged incidents followed by its acknowledged ones;
        when it fails, the rejection is not handled and the list keeps its value. */
    method Load(reply: Awaited<OpenIncidents>)
      modifies this
      ensures reply.Returned? ==> incidents == reply.value.nackIncidents + reply.value.ackIncidents
      ensures reply.Threw? ==> incidents == old(incidents)
    {
      if reply.Returned? {
        incidents := reply.value.nackIncidents + reply.value.ackIncidents;
      }
    }

    /** `updateIncidentStatus`: every entry with the incident's `_id` takes the new status. */
    method UpdateIncidentStatus(incident: Incident, newStatus: Transition)
      modifies this
      ensures incidents == WithStatus(old(incidents), incident.id, newStatus)
    {
      incidents := WithStatus(incidents, incident.id, newStatus);
    }

    /** `acknowledgeIncident`: the list changes only once the server call returned,
        and then to status `ACK` whatever the entry held before; when the call
        throws, the handler rethrows it and the list is unchanged. */
    method AcknowledgeIncident(incident: Incident, call: Awaited<()>) returns (rejection: Option<Thrown>)
      modifies this
      ensures call.Returned? ==> rejection == None && incidents == WithStatus(old(incidents), incident.id, ACK)
      ensures call.Threw? ==> rejection == Some(call.thrown) && incidents == old(incidents)
    {
      match call
      case Returned(_) =>
        UpdateIncidentStatus(incident, ACK);
        rejection := None;
      case Threw(thrown) =>
        rejection := Some(thrown);
    }

    /** `resolveIncident`: as `AcknowledgeIncident`, writing `RES`. */
    method ResolveIncident(incident: Incident, call: Awaited<()>) returns (rejection: Option<Thrown>)
      modifies this
      ensures call.Returned? ==> rejection == None && incidents == WithStatus(old(incidents), incident.id, RES)
      ensures call.Threw? ==> rejection == Some(call.thrown) && incidents == old(incidents)
    {
      match call
      case Returned(_) =>
        UpdateIncidentStatus(incident, RES);
        rejection := None;
      case Threw(thrown) =>
        rejection := Some(thrown);
    }

    /** The subtitles of the two sections: each reads back as its section's length. */
    function Subtitles(): (r: (string, string))
      reads this
      ensures Text.CountOf(r.0) == Some(|Triggered(incidents)|)
      ensures Text.CountOf(r.1) == Some(|Acknowledged(incidents)|)
    {
      (Text.ItemsSubtitle(|Triggered(incidents)|), Text.ItemsSubtitle(|Acknowledged(incidents)|))
    }
  }
}
