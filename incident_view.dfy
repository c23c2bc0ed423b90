/** The incident detail page: its two state fields (the incident and its
    grouped priority/severity record, both absent until loaded), the
    spread-copy updaters and the handlers that write them after an awaited
    call, the markdown it renders from the incident (which sections appear,
    and the links section's text), the status tag, and which metadata labels
    appear. */
module IncidentView {

  import opened Wrappers
  import Text
  import IncidentList

  type Status = IncidentList.Status
  type Tag = IncidentList.Tag

  /** One entry of `links`: the `Object.entries` of the link object, in order. */
  type LinkObject = seq<(string, string)>

  /** The escalation (`_id`, `name`) or integration (`_id`, `customName`) an incident refers to. */
  datatype Reference = Reference(id: string, name: string)

  /** The incident as the detail page holds it. `metadata` and `resMetadata`
      are opaque JSON objects; of `history` and `events` only the array length
      matters; the timestamps are opaque strings. */
  datatype Incident = Incident(
    id: string,
    message: string,
    metadata: string,
    counterId: string,
    status: Status,
    links: seq<LinkObject>,
    resMetadata: Option<string>,
    escalation: Reference,
    integration: Reference,
    historyLength: Option<nat>,
    eventsLength: Option<nat>,
    nackAt: string,
    ackAt: Option<string>,
    resAt: Option<string>)

  /** The grouped-incident record: priority, severity, and whatever other
      properties the server sent, which the spread copy carries along. */
  datatype GroupedIncident = GroupedIncident(priority: Option<string>, severity: Option<string>, others: map<string, string>)

  /** `statusTagProps`: the status tag of the detail page. It shows the same text
      as the list's tag and differs from it only in the colour of "Resolved". */
  function DetailTag(s: Status): (r: Tag)
    ensures IncidentList.StatusNamed(r.text) == Some(s) && r.text == IncidentList.ListTag(s).text
    ensures r.color == if s == IncidentList.RES then IncidentList.Green else IncidentList.ListTag(s).color
  {
    match s
    case NACK => IncidentList.Tag("Triggered", IncidentList.Red)
    case ACK => IncidentList.Tag("Acknowledged", IncidentList.Blue)
    case RES => IncidentList.Tag("Resolved", IncidentList.Green)
  }

  /** `- [name](url)`, the markdown line of one link. */
  function LinkLine(name: string, url: string): string {
    "- [" + name + "](" + url + ")"
  }

  /** The line of each link, from the first entry of its object; none when some
      link object has no entry (destructuring `Object.entries(linkObj)[0]` throws). */
  function LinkLines(links: seq<LinkObject>): (r: Option<seq<string>>)
    ensures r.Some? <==> forall k :: 0 <= k < |links| ==> links[k] != []
    ensures r.Some? ==> |r.value| == |links|
    ensures r.Some? ==> forall k :: 0 <= k < |links| ==> r.value[k] == LinkLine(links[k][0].0, links[k][0].1)
  {
    if links == [] then Some([])
    else if links[0] == [] then None
    else
      match LinkLines(links[1..])
      case None => None
      case Some(rest) => Some([LinkLine(links[0][0].0, links[0][0].1)] + rest)
  }

  /** `linksToMarkdown`: the link lines joined by "\n" (none when it throws). */
  function LinksToMarkdown(links: seq<LinkObject>): (r: Option<string>)
    ensures r.Some? <==> forall k :: 0 <= k < |links| ==> links[k] != []
    ensures links == [] ==> r == Some("")
  {
    match LinkLines(links)
    case None => None
    case Some(lines) => Some(Text.JoinLines(lines))
  }

  lemma LinkLineFree(name: string, url: string)
    requires Text.NewLine !in name && Text.NewLine !in url
    ensures Text.NewLine !in LinkLine(name, url)
  {
  }

  /** For a non-empty list of links whose first labels and URLs hold no line
      break, the markdown splits on "\n" into exactly one `- [name](url)` line
      per link, in order. */
  lemma LinksToMarkdownLines(links: seq<LinkObject>)
    requires links != []
    requires forall k :: 0 <= k < |links| ==> links[k] != []
    requires forall k :: 0 <= k < |links| ==> Text.NewLine !in links[k][0].0 && Text.NewLine !in links[k][0].1
    ensures LinksToMarkdown(links).Some?
    ensures |Text.SplitLines(LinksToMarkdown(links).value)| == |links|
    ensures forall k :: 0 <= k < |links| ==>
              Text.SplitLines(LinksToMarkdown(links).value)[k] == LinkLine(links[k][0].0, links[k][0].1)
  {
    var lines := LinkLines(links).value;
    forall k | 0 <= k < |lines|
      ensures Text.NewLine !in lines[k]
    {
      LinkLineFree(links[k][0].0, links[k][0].1);
    }
    Text.SplitJoin(lines);
  }

  const LoadingText: string := "Loading..."
  const LinksHeading: string := "### Links\n"

  /** What the markdown of the page is made of: "Loading..." while there is no
      incident; otherwise a document with the message as its title, the links
      section when there are links, the triggered-details block (always), and
      the resolve-details block when it applies. `Throws` when building the
      links section throws. The JSON text of the two detail blocks is not modelled. */
  datatype Markdown =
    | Loading
    | Document(heading: string, linksSection: Option<string>, resolveDetails: bool)
    | Throws

  function MarkdownOf(incident: Option<Incident>): (md: Markdown)
    ensures md == Loading <==> incident.None?
    ensures md.Throws? <==> incident.Some? && |incident.value.links| > 0 && LinksToMarkdown(incident.value.links).None?
    ensures md.Document? ==> md.heading == incident.value.message
    ensures md.Document? ==> (md.linksSection.Some? <==> |incident.value.links| > 0)
    ensures md.Document? && md.linksSection.Some? ==>
              md.linksSection.value == LinksHeading + LinksToMarkdown(incident.value.links).value
    ensures md.Document? ==>
              (md.resolveDetails <==> incident.value.resMetadata.Some? && incident.value.status == IncidentList.RES)
  {
    match incident
    case None => Loading
    case Some(i) =>
      var resolveDetails := i.resMetadata.Some? && i.status == IncidentList.RES;
      if |i.links| == 0 then Document(i.message, None, resolveDetails)
      else
        match LinksToMarkdown(i.links)
        case None => Throws
        case Some(text) => Document(i.message, Some(LinksHeading + text), resolveDetails)
  }

  /** `updateIncidentStatus`'s updater: an absent incident stays absent; a
      present one changes in its status and nothing else. */
  function WithStatus(prev: Option<Incident>, s: Status): (r: Option<Incident>)
    ensures r.None? <==> prev.None?
    ensures r.Some? ==> r.value.status == s && r.value.(status := prev.value.status) == prev.value
  {
    match prev
    case None => None
    case Some(i) => Some(i.(status := s))
  }

  /** `updateGroupedIncident`'s updater: an absent record stays absent; a present
      one takes both values and keeps every other property. */
  function WithGrouping(prev: Option<GroupedIncident>, priority: string, severity: string): (r: Option<GroupedIncident>)
    ensures r.None? <==> prev.None?
    ensures r.Some? ==> r.value.priority == Some(priority) && r.value.severity == Some(severity)
    ensures r.Some? ==> r.value.others == prev.value.others
  {
    match prev
    case None => None
    case Some(g) => Some(g.(priority := Some(priority), severity := Some(severity)))
  }

  /** `groupedIncident && groupedIncident.priority ? groupedIncident.priority : ""`. */
  function KeptPriority(g: Option<GroupedIncident>): (r: string)
    ensures g.Some? && Truthy(g.value.priority) ==> r == g.value.priority.value
    ensures !(g.Some? && Truthy(g.value.priority)) ==> r == ""
  {
    if g.Some? && Truthy(g.value.priority) then g.value.priority.value else ""
  }

  /** `groupedIncident && groupedIncident.severity ? groupedIncident.severity : ""`. */
  function KeptSeverity(g: Option<GroupedIncident>): (r: string)
    ensures g.Some? && Truthy(g.value.severity) ==> r == g.value.severity.value
    ensures !(g.Some? && Truthy(g.value.severity)) ==> r == ""
  {
    if g.Some? && Truthy(g.value.severity) then g.value.severity.value else ""
  }

  /** The record after a severity change: the new severity, the priority kept
      (or "" when it was missing or empty), the other properties kept; an absent
      record stays absent. */
  function SeverityChanged(g: Option<GroupedIncident>, severity: string): (r: Option<GroupedIncident>)
    ensures r.None? <==> g.None?
    ensures r.Some? ==> r.value.severity == Some(severity) && r.value.others == g.value.others
    ensures r.Some? ==> r.value.priority == if Truthy(g.value.priority) then g.value.priority else Some("")
  {
    WithGrouping(g, KeptPriority(g), severity)
  }

  /** The record after a priority change, symmetrically. */
  function PriorityChanged(g: Option<GroupedIncident>, priority: string): (r: Option<GroupedIncident>)
    ensures r.None? <==> g.None?
    ensures r.Some? ==> r.value.priority == Some(priority) && r.value.others == g.value.others
    ensures r.Some? ==> r.value.severity == if Truthy(g.value.severity) then g.value.severity else Some("")
  {
    WithGrouping(g, priority, KeptSeverity(g))
  }

  /** A severity change and a priority change, in either order, leave the same
      record: neither clobbers the other. */
  lemma ChangesCommute(g: Option<GroupedIncident>, severity: string, priority: string)
    ensures PriorityChanged(SeverityChanged(g, severity), priority) == SeverityChanged(PriorityChanged(g, priority), severity)
  {
  }

  /** An entry of the metadata panel, in the order the panel lists them. The
      formatted timestamps and the fixed priority text are not modelled. */
  datatype MetadataEntry =
    | StatusTag(tag: Tag)
    | PriorityLabel(icon: string)
    | SeverityLabel(text: string, icon: string)
    | EscalationLink(target: string, text: string)
    | IntegrationLink(target: string, text: string)
    | Separator
    | RepeatedLabel(text: string)
    | SuppressedLabel(text: string)
    | TriggeredAtLabel
    | UpdatedAtLabel
    | ResolvedAtLabel

  const CdnIcons: string := "https://cdn.spike.sh/icons/"

  /** `${n} time` for one, `${n} times` otherwise. */
  function TimesText(n: nat): string {
    Text.Counted(n, if n == 1 then "time" else "times")
  }

  /** A count label reads back as its count, and its unit is "time" for one and
      "times" otherwise. */
  lemma TimesTextReadsBack(n: nat)
    ensures Text.CountOf(TimesText(n)) == Some(n)
    ensures Text.UnitOf(TimesText(n)) == if n == 1 then "time" else "times"
  {
    Text.CountedRoundTrip(n, if n == 1 then "time" else "times");
  }

  /** `getIcon(`${name}.png`)`: the CDN address of an icon. */
  function IconUrl(name: string): string {
    CdnIcons + name + ".png"
  }

  /** The priority and severity labels. */
  function GroupingEntries(grouped: Option<GroupedIncident>): (r: seq<MetadataEntry>)
    ensures forall e :: e in r ==> e.PriorityLabel? || e.SeverityLabel?
  {
    (if grouped.Some? && Truthy(grouped.value.priority)
     then [PriorityLabel(IconUrl(grouped.value.priority.value))] else [])
    + (if grouped.Some? && Truthy(grouped.value.severity)
       then [SeverityLabel(Text.Upper(grouped.value.severity.value), IconUrl(grouped.value.severity.value))]
       else [])
  }

  /** The priority label is present exactly when the record is there and holds
      a non-empty priority, with that priority's icon; the severity label
      likewise, reading the severity in upper case. */
  lemma PriorityAndSeverityLabels(grouped: Option<GroupedIncident>)
    ensures forall icon :: PriorityLabel(icon) in GroupingEntries(grouped) <==>
              grouped.Some? && Truthy(grouped.value.priority) && icon == IconUrl(grouped.value.priority.value)
    ensures forall text, icon :: SeverityLabel(text, icon) in GroupingEntries(grouped) <==>
              grouped.Some? && Truthy(grouped.value.severity) &&
              text == Text.Upper(grouped.value.severity.value) && icon == IconUrl(grouped.value.severity.value)
  {
  }

  const EscalationsBase: string := "https://app.spike.sh/escalations/"
  const IntegrationsBase: string := "https://app.spike.sh/integrations/"

  /** The escalation link, titled with the escalation's name; the integration
      link, titled with the integration's custom name; then the separator. */
  function LinkEntries(i: Incident): (r: seq<MetadataEntry>)
    ensures forall e :: e in r ==> e.EscalationLink? || e.IntegrationLink? || e.Separator?
    ensures |r| == 3 && r[2] == Separator
    ensures r[0].EscalationLink? && r[0].text == i.escalation.name
    ensures r[1].IntegrationLink? && r[1].text == i.integration.name
  {
    [EscalationLink(EscalationsBase + i.escalation.id, i.escalation.name),
     IntegrationLink(IntegrationsBase + i.integration.id, i.integration.name),
     Separator]
  }

  /** Each link opens the app's escalation or integration page: the base
      address followed by the referenced `_id`. */
  lemma LinkTargets(i: Incident)
    ensures var r := LinkEntries(i);
            && |r[0].target| == |EscalationsBase| + |i.escalation.id|
            && r[0].target[..|EscalationsBase|] == EscalationsBase && r[0].target[|EscalationsBase|..] == i.escalation.id
            && |r[1].target| == |IntegrationsBase| + |i.integration.id|
            && r[1].target[..|IntegrationsBase|] == IntegrationsBase && r[1].target[|IntegrationsBase|..] == i.integration.id
  {
    var r := LinkEntries(i);
    assert r[0].target == EscalationsBase + i.escalation.id;
    assert r[1].target == IntegrationsBase + i.integration.id;
  }

  /** The "Repeated" and "Suppressed" labels. */
  function CountEntries(i: Incident): (r: seq<MetadataEntry>)
    ensures forall e :: e in r ==> e.RepeatedLabel? || e.SuppressedLabel?
  {
    (if i.historyLength.Some? && i.historyLength.value > 0 then [RepeatedLabel(TimesText(i.historyLength.value))] else [])
    + (if i.eventsLength.Some? && i.eventsLength.value > 0 then [SuppressedLabel(TimesText(i.eventsLength.value))] else [])
  }

  /** The "Repeated" label is present exactly for a non-empty `history`, and the
      "Suppressed" label exactly for a non-empty `events`, each reading its count. */
  lemma RepeatedAndSuppressedLabels(i: Incident)
    ensures forall text :: RepeatedLabel(text) in CountEntries(i) <==>
              i.historyLength.Some? && i.historyLength.value > 0 && text == TimesText(i.historyLength.value)
    ensures forall text :: SuppressedLabel(text) in CountEntries(i) <==>
              i.eventsLength.Some? && i.eventsLength.value > 0 && text == TimesText(i.eventsLength.value)
  {
  }

  /** The timestamp labels: "Triggered at" always, "Updated At" once the
      incident has left `NACK` and has an acknowledge time, "Resolved At" when it
      is resolved and has a resolve time. */
  function TimeEntries(i: Incident): (r: seq<MetadataEntry>)
    ensures forall e :: e in r ==> e.TriggeredAtLabel? || e.UpdatedAtLabel? || e.ResolvedAtLabel?
    ensures TriggeredAtLabel in r
    ensures UpdatedAtLabel in r <==> i.status != IncidentList.NACK && Truthy(i.ackAt)
    ensures ResolvedAtLabel in r <==> i.status == IncidentList.RES && Truthy(i.resAt)
  {
    [TriggeredAtLabel]
    + (if i.status != IncidentList.NACK && Truthy(i.ackAt) then [UpdatedAtLabel] else [])
    + (if i.status == IncidentList.RES && Truthy(i.resAt) then [ResolvedAtLabel] else [])
  }

  /** The metadata panel: none while there is no incident; otherwise the status
      tag first, then the labels in the order the panel lists them. */
  function Metadata(incident: Option<Incident>, grouped: Option<GroupedIncident>): (r: Option<seq<MetadataEntry>>)
    ensures r.None? <==> incident.None?
    ensures r.Some? ==> r.value != [] && r.value[0] == StatusTag(DetailTag(incident.value.status))
  {
    match incident
    case None => None
    case Some(i) =>
      Some([StatusTag(DetailTag(i.status))] + GroupingEntries(grouped) + LinkEntries(i) + CountEntries(i) + TimeEntries(i))
  }

  /** The entries of a loaded incident's panel, part by part. */
  lemma MetadataParts(i: Incident, grouped: Option<GroupedIncident>)
    ensures Metadata(Some(i), grouped).Some?
    ensures forall e :: e in Metadata(Some(i), grouped).value <==>
              e == StatusTag(DetailTag(i.status)) || e in GroupingEntries(grouped) || e in LinkEntries(i) ||
              e in CountEntries(i) || e in TimeEntries(i)
  {
    var head, g, l, c, t := [StatusTag(DetailTag(i.status))], GroupingEntries(grouped), LinkEntries(i), CountEntries(i), TimeEntries(i);
    assert Metadata(Some(i), grouped).value == head + g + l + c + t;
  }

  /** An entry of a kind that only one part of the panel holds is in the panel
      exactly when it is in that part. */
  lemma InOnePart(i: Incident, grouped: Option<GroupedIncident>, e: MetadataEntry)
    ensures e.PriorityLabel? || e.SeverityLabel? ==> (e in Metadata(Some(i), grouped).value <==> e in GroupingEntries(grouped))
    ensures e.RepeatedLabel? || e.SuppressedLabel? ==> (e in Metadata(Some(i), grouped).value <==> e in CountEntries(i))
    ensures e.TriggeredAtLabel? || e.UpdatedAtLabel? || e.ResolvedAtLabel? ==>
              (e in Metadata(Some(i), grouped).value <==> e in TimeEntries(i))
  {
    var head, g, l, c, t := [StatusTag(DetailTag(i.status))], GroupingEntries(grouped), LinkEntries(i), CountEntries(i), TimeEntries(i);
    assert Metadata(Some(i), grouped).value == head + g + l + c + t;
    if e.PriorityLabel? || e.SeverityLabel? {
      assert e !in head && e !in l && e !in c && e !in t;
    } else if e.RepeatedLabel? || e.SuppressedLabel? {
      assert e !in head && e !in g && e !in l && e !in t;
    } else if e.TriggeredAtLabel? || e.UpdatedAtLabel? || e.ResolvedAtLabel? {
      assert e !in head && e !in g && e !in l && e !in c;
    }
  }

  /** The priority and severity labels of a loaded incident's panel: present
      exactly when the record holds non-empty values. */
  lemma GroupingLabels(i: Incident, grouped: Option<GroupedIncident>)
    ensures Metadata(Some(i), grouped).Some?
    ensures forall icon :: PriorityLabel(icon) in Metadata(Some(i), grouped).value <==>
              grouped.Some? && Truthy(grouped.value.priority) && icon == IconUrl(grouped.value.priority.value)
    ensures forall text, icon :: SeverityLabel(text, icon) in Metadata(Some(i), grouped).value <==>
              grouped.Some? && Truthy(grouped.value.severity) &&
              text == Text.Upper(grouped.value.severity.value) && icon == IconUrl(grouped.value.severity.value)
  {
    PriorityAndSeverityLabels(grouped);
    forall icon {
      InOnePart(i, grouped, PriorityLabel(icon));
    }
    forall text, icon {
      InOnePart(i, grouped, SeverityLabel(text, icon));
    }
  }

  /** The "Repeated" and "Suppressed" labels of a loaded incident's panel:
      present exactly for non-empty arrays, reading the count and "time" or "times". */
  lemma CountLabels(i: Incident, grouped: Option<GroupedIncident>)
    ensures Metadata(Some(i), grouped).Some?
    ensures forall text :: RepeatedLabel(text) in Metadata(Some(i), grouped).value <==>
              i.historyLength.Some? && i.historyLength.value > 0 && text == TimesText(i.historyLength.value)
    ensures forall text :: SuppressedLabel(text) in Metadata(Some(i), grouped).value <==>
              i.eventsLength.Some? && i.eventsLength.value > 0 && text == TimesText(i.eventsLength.value)
  {
    RepeatedAndSuppressedLabels(i);
    forall text {
      InOnePart(i, grouped, RepeatedLabel(text));
    }
    forall text {
      InOnePart(i, grouped, SuppressedLabel(text));
    }
  }

  /** The timestamp labels of a loaded incident's panel: "Triggered at" always;
      "Updated At" exactly when the status is not `NACK` and an acknowledge time
      is set; "Resolved At" exactly when the status is `RES` and a resolve time is set. */
  lemma TimeLabels(i: Incident, grouped: Option<GroupedIncident>)
    ensures Metadata(Some(i), grouped).Some?
    ensures TriggeredAtLabel in Metadata(Some(i), grouped).value
    ensures UpdatedAtLabel in Metadata(Some(i), grouped).value <==> i.status != IncidentList.NACK && Truthy(i.ackAt)
    ensures ResolvedAtLabel in Metadata(Some(i), grouped).value <==> i.status == IncidentList.RES && Truthy(i.resAt)
  {
    InOnePart(i, grouped, TriggeredAtLabel);
    InOnePart(i, grouped, UpdatedAtLabel);
    InOnePart(i, grouped, ResolvedAtLabel);
  }

  /** What the server answers to the incident query. */
  datatype IncidentResponse = IncidentResponse(incident: Option<Incident>, groupedIncident: Option<GroupedIncident>)

  /** A toast the page shows. */
  datatype Toast = SuccessToast(title: string) | FailureToast(title: string)

  /** The state of the detail page. */
  class DetailPage {
    const counterId: string
    var incident: Option<Incident>
    var grouped: Option<GroupedIncident>

    constructor (counterId: string)
      ensures this.counterId == counterId && incident == None && grouped == None
    {
      this.counterId := counterId;
      incident, grouped := None, None;
    }

    /** `fetchIncident`: on success both fields take the response's values; on
        failure nothing changes and a failure toast is shown. */
    method FetchIncident(reply: Awaited<IncidentResponse>) returns (toast: Option<Toast>)
      modifies this
      ensures reply.Returned? ==>
                incident == reply.value.incident && grouped == reply.value.groupedIncident && toast == None
      ensures reply.Threw? ==>
                incident == old(incident) && grouped == old(grouped) && toast == Some(FailureToast("Failed to fetch incident"))
    {
      match reply
      case Returned(response) =>
        incident := response.incident;
        grouped := response.groupedIncident;
        toast := None;
      case Threw(_) =>
        toast := Some(FailureToast("Failed to fetch incident"));
    }

    /** `acknowledgeIncident`: nothing happens without an incident; otherwise the
        server call is made, and the status becomes `ACK` (whatever it was) only
        once it returned; when it throws, the incident is unchanged. A toast
        reports either outcome. */
    method AcknowledgeIncident(call: Awaited<()>) returns (called: bool, toast: Option<Toast>)
      modifies this
      ensures called == old(incident).Some?
      ensures grouped == old(grouped)
      ensures !called ==> incident == old(incident) && toast == None
      ensures called && call.Returned? ==>
                incident == WithStatus(old(incident), IncidentList.ACK) && toast == Some(SuccessToast("Incident acknowledged"))
      ensures called && call.Threw? ==>
                incident == old(incident) && toast == Some(FailureToast("Failed to acknowledge incident"))
    {
      if incident.None? {
        return false, None;
      }
      called := true;
      match call
      case Returned(_) =>
        incident := WithStatus(incident, IncidentList.ACK);
        toast := Some(SuccessToast("Incident acknowledged"));
      case Threw(_) =>
        toast := Some(FailureToast("Failed to acknowledge incident"));
    }

    /** `resolveIncident`: as `AcknowledgeIncident`, writing `RES`. */
    method ResolveIncident(call: Awaited<()>) returns (called: bool, toast: Option<Toast>)
      modifies this
      ensures called == old(incident).Some?
      ensures grouped == old(grouped)
      ensures !called ==> incident == old(incident) && toast == None
      ensures called && call.Returned? ==>
                incident == WithStatus(old(incident), IncidentList.RES) && toast == Some(SuccessToast("Incident resolved"))
      ensures called && call.Threw? ==>
                incident == old(incident) && toast == Some(FailureToast("Failed to resolve incident"))
    {
      if incident.None? {
        return false, None;
      }
      called := true;
      match call
      case Returned(_) =>
        incident := WithStatus(incident, IncidentList.RES);
        toast := Some(SuccessToast("Incident resolved"));
      case Threw(_) =>
        toast := Some(FailureToast("Failed to resolve incident"));
    }

    /** `setSeverity`: nothing happens without an incident; otherwise the server
        call is made and, once it returned, the record takes the new severity and
        keeps its priority; when the call throws, the handler rethrows it and
        nothing changes. */
    method SetSeverity(severity: string, call: Awaited<()>) returns (called: bool, rejection: Option<Thrown>)
      modifies this
      ensures called == old(incident).Some?
      ensures incident == old(incident)
      ensures !called ==> grouped == old(grouped) && rejection == None
      ensures called && call.Returned? ==> grouped == SeverityChanged(old(grouped), severity) && rejection == None
      ensures called && call.Threw? ==> grouped == old(grouped) && rejection == Some(call.thrown)
    {
      if incident.None? {
        return false, None;
      }
      called := true;
      match call
      case Returned(_) =>
        grouped := WithGrouping(grouped, KeptPriority(grouped), severity);
        rejection := None;
      case Threw(thrown) =>
        rejection := Some(thrown);
    }

    /** `setPriority`: as `SetSeverity`, for the priority. */
    method SetPriority(priority: string, call: Awaited<()>) returns (called: bool, rejection: Option<Thrown>)
      modifies this
      ensures called == old(incident).Some?
      ensures incident == old(incident)
      ensures !called ==> grouped == old(grouped) && rejection == None
      ensures called && call.Returned? ==> grouped == PriorityChanged(old(grouped), priority) && rejection == None
      ensures called && call.Threw? ==> grouped == old(grouped) && rejection == Some(call.thrown)
    {
      if incident.None? {
        return false, None;
      }
      called := true;
      match call
      case Returned(_) =>
        grouped := WithGrouping(grouped, priority, KeptSeverity(grouped));
        rejection := None;
      case Threw(thrown) =>
        rejection := Some(thrown);
    }
  }
}
