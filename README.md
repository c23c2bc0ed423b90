# Spike incident-management launcher extension: a verified model of its core

This project models the client-side logic of the Spike launcher extension in Dafny. The extension lists open incidents, shows an incident's details, acknowledges and resolves incidents, sets priority and severity, shows who is on call, and lists the user's favourites. The modules follow the source files:

- `IncidentList` (incident_list.dfy) covers the "incidents" command.
  - The list of open incidents held in its state.
  - The update of one incident's status by `_id`.
  - The "Triggered" and "Acknowledged" sections.
  - The acknowledge and resolve handlers.
  - The list tag and the incident URL.
- `OpenIncidents` (open_incidents.dfy) covers the menu-bar command.
  - Its fetch state machine (`isLoading`, `incidents`, `error`).
  - The menu: the two headings and their items, with titles and URLs.
- `IncidentView` (incident_view.dfy) covers the incident detail page.
  - The incident and grouped-incident state and their spread-copy updaters.
  - The acknowledge, resolve, severity and priority handlers.
  - `linksToMarkdown` and which markdown sections appear.
  - The status tag, and which metadata labels appear with which text.
- `ApiClient` (api_client.dfy) covers the HTTP client.
  - The three-way classification of a failed request into an `ApiError`.
  - The request interceptor's `Authorization` header.
  - The central error handler: it logs the error, logs out and re-authorizes on 401, then re-issues a request.
  - The lazily created single client.
  - The auth module, the server and the console are one `Session` object. It holds the stored token, the token an authorization stores, the server's answers in order, and a trace of what the client did. Each request, log entry, logout and authorization is an event in that trace.
- `WhoIsOncall` (who_is_oncall.dfy) covers the "who is on call" command.
  - Its fetch state machine and the error normalisation.
  - The screen it renders: the error view, or the shift list.
- `Favorites` (favorites.dfy) covers the favourites list.
  - The list is taken from the values of the server's `favorites` object.
  - Each item has an icon by entity type, with a star fallback, plus a subtitle and a URL.
- `Wrappers` and `Text` are shared values and string helpers.
  - Optional values, thrown values and awaited calls.
  - Decimal counters such as `3 items`, upper and lower case, and joining and splitting on `"\n"`.

Each awaited server call is a parameter that either returns or throws (`Awaited`), and a run of fetches is a sequence of them. State that a component updates in place is a class field. Each method's postcondition ties the new state to a specification function. The properties proved about those functions are the lemmas below.

Some behaviours of the code are easy to miss:

- **Status can move backward.** No handler checks an incident's prior status. Acknowledge writes `ACK` even over `RES` (`IncidentList.IncidentsCommand.AcknowledgeIncident`, `IncidentView.DetailPage.AcknowledgeIncident`).
- **Every failed request is retried.** Every classified error, whatever its status, is followed by a new request through the same client (src/api/apiClient.ts:74-92). A failure of that request enters the same handler again, so nothing bounds the number of retries (`ApiClient.ChainOutcome`).
  - A request therefore rejects in only two cases. One is `auth.authorize()` rejecting in the 401 branch of the central handler (src/api/apiClient.ts:88). The other is a throw inside `handleError` itself: `data.message` on a null body (src/api/apiClient.ts:61).
  - A failure of `auth.getToken()` or `auth.authorize()` inside the request interceptor does not reject the request. axios hands it to `handleError`, which classifies it with status 0, logs it and re-issues the request.
  - The model has neither rejecting case: as long as the authorization after a 401 succeeds and every failing answer has a body, a request never rejects.
  - `ApiError` carries no `config` field, so the retried request is not built from the original request's configuration. The model gives the retry a fresh configuration with the instance's default headers.

## Model

| member | source | states |
|---|---|---|
| Text.ItemsSubtitle | src/incidents.tsx:97 | the `N items` subtitle reads back as the count N and the unit "items" |
| Text.UpperByTable | src/components/IncidentViewPage.tsx:170 | upper-casing keeps the length, turns the k-th small letter of the alphabet into the k-th capital, keeps every other character and leaves no small letter |
| Text.UpperIdempotent | src/components/IncidentViewPage.tsx:170 | upper-casing an upper-cased text changes nothing |
| IncidentList.WithStatus | src/incidents.tsx:70-73 | the list keeps its length and order; entries with another `_id` are unchanged; entries with that `_id` take the new status and keep every other field |
| IncidentList.Section | src/incidents.tsx:92-93 | a section holds exactly the list's entries with that status, and is no longer than the list |
| IncidentList.SectionOfConcat | src/incidents.tsx:92-93 | filtering keeps list order: the section of a concatenation is the concatenation of the sections |
| IncidentList.SectionsPartition | src/incidents.tsx:92-93 | the NACK, ACK and RES sections together are as long as the list; "Triggered" and "Acknowledged" are disjoint; resolved entries are in neither |
| IncidentList.LoadedSections | src/incidents.tsx:63-68 | after the load, a resolved entry is in neither section; when each server list holds its own status, "Triggered" is the server's NACK list and "Acknowledged" its ACK list, in server order |
| IncidentList.ResolvedLeavesSections | src/incidents.tsx:84-93 | after a resolve the incident stays in the list at its position with only its status changed, and neither section shows its `_id` |
| IncidentList.AcknowledgedMovesSection | src/incidents.tsx:76-93 | after an acknowledge every entry with that `_id` is in "Acknowledged", and "Triggered" loses exactly the entries with that `_id` |
| IncidentList.WithStatusLastWins | src/incidents.tsx:70-73 | of two status updates of the same `_id`, the later one wins, so repeating an update changes nothing |
| IncidentList.IncidentUrl | src/incidents.tsx:35 | the URL is the incidents base URL followed by the counter id |
| IncidentList.StatusNamed | src/incidents.tsx:13-17 | reading a status back from its shown name gives a status with that name |
| IncidentList.ListTag | src/incidents.tsx:13-17 | the list tag names its status; Red for NACK, Blue for ACK, PrimaryText for RES |
| IncidentList.IncidentsCommand.constructor | src/incidents.tsx:61 | the list starts empty |
| IncidentList.IncidentsCommand.Load | src/incidents.tsx:63-68 | a returned query sets the list to the NACK incidents followed by the ACK incidents; a failed one leaves it unchanged |
| IncidentList.IncidentsCommand.UpdateIncidentStatus | src/incidents.tsx:70-74 | the list becomes `WithStatus` of the old list |
| IncidentList.IncidentsCommand.AcknowledgeIncident | src/incidents.tsx:76-82 | the list changes to status ACK only after the call returned; a throwing call is rethrown and leaves the list unchanged |
| IncidentList.IncidentsCommand.ResolveIncident | src/incidents.tsx:84-90 | the list changes to status RES only after the call returned; a throwing call is rethrown and leaves the list unchanged |
| IncidentList.IncidentsCommand.Subtitles | src/incidents.tsx:97-107 | each section's subtitle reads back as that section's length |
| OpenIncidents.Started | src/openIncidents.tsx:12 | a fetch starts loading and changes nothing else |
| OpenIncidents.Settled | src/openIncidents.tsx:13-20 | a settled fetch stops loading; success replaces the list with NACK followed by ACK; failure keeps the list and sets the fixed message |
| OpenIncidents.FetchesOutcome | src/openIncidents.tsx:10-21 | after any run of fetches: not loading; the list is the last successful response's; the error is the fixed message when some fetch failed and the old error otherwise, so a later success never clears it |
| OpenIncidents.ItemTitle | src/openIncidents.tsx:37 | the title is always `[counterId] message`: the "Parsing failed" fallback is never taken |
| OpenIncidents.Items | src/openIncidents.tsx:34-43 | one item per incident in section order, with its title, the incident icon and the incident URL |
| OpenIncidents.Menu | src/openIncidents.tsx:31-54 | the menu is the "Triggered" heading, the NACK items, the "Acknowledged" heading, then the ACK items; it depends on the list alone |
| OpenIncidents.MenuBar.constructor | src/openIncidents.tsx:6-8 | loading, empty list, no error |
| OpenIncidents.MenuBar.StartFetch | src/openIncidents.tsx:11-12 | the state becomes `Started` of the old state |
| OpenIncidents.MenuBar.SettleFetch | src/openIncidents.tsx:13-20 | the state becomes `Settled` of the old state |
| OpenIncidents.MenuBar.FetchIncidents | src/openIncidents.tsx:10-21 | the state becomes `Fetched` of the old state |
| WhoIsOncall.Normalized | src/whoIsOncall.tsx:24 | an `Error` keeps its message; any other thrown value becomes "An unknown error occurred" |
| WhoIsOncall.Started | src/whoIsOncall.tsx:20 | a fetch starts loading and changes nothing else |
| WhoIsOncall.Settled | src/whoIsOncall.tsx:21-33 | a settled fetch stops loading; success replaces the shifts; failure keeps them and stores the normalised error |
| WhoIsOncall.FetchesOutcome | src/whoIsOncall.tsx:18-34 | after any run of fetches: not loading; the shifts are the last success's; the error is the last failure's, normalised, or the old error |
| WhoIsOncall.ShiftItems | src/whoIsOncall.tsx:64-70 | one item per shift in order, keyed by the shift id, titled with its name, opening that on-call id |
| WhoIsOncall.Render | src/whoIsOncall.tsx:60-70 | the error view with the error's message exactly when an error is set; otherwise the list with the loading flag and one item per shift |
| WhoIsOncall.FailureHidesList | src/whoIsOncall.tsx:60-62 | once a fetch has failed, the screen is the error view with the last failure's message, whatever later fetches return |
| WhoIsOncall.WhoIsOncallView.constructor | src/whoIsOncall.tsx:14-16 | no shifts, loading, no error |
| WhoIsOncall.WhoIsOncallView.StartFetch | src/whoIsOncall.tsx:19-20 | the state becomes `Started` of the old state |
| WhoIsOncall.WhoIsOncallView.SettleFetch | src/whoIsOncall.tsx:21-33 | the state becomes `Settled` of the old state |
| WhoIsOncall.WhoIsOncallView.FetchActiveSchedules | src/whoIsOncall.tsx:18-34 | the state becomes `Fetched` of the old state |
| Favorites.IconFor | src/favorites.tsx:15-30 | an icon exactly for the five known entity types, each being the type's name in lower case followed by ".png" |
| Favorites.ItemIcon | src/favorites.tsx:59 | the star icon exactly for unknown types; otherwise the type's icon file |
| Favorites.ItemOf | src/favorites.tsx:54-67 | keyed by entity id, titled with the name, subtitled with the counter id only when it is truthy, opening the app base URL followed by the favourite's path |
| Favorites.Items | src/favorites.tsx:46-48 | one item per favourite, in order |
| Favorites.Values | src/favorites.tsx:37 | the values of the `favorites` object, in entry order |
| Favorites.Loaded | src/favorites.tsx:34-42 | the list is the response's values when the query returns, and stays empty when it throws |
| Favorites.SectionOfResponse | src/favorites.tsx:45-48 | the section subtitle reads back as the number of entries, and there is one item per entry in order |
| IncidentView.DetailTag | src/components/IncidentViewPage.tsx:28-32 | the detail tag names its status like the list tag, with the same colour except Green for RES |
| IncidentView.LinkLines | src/components/IncidentViewPage.tsx:50-55 | one `- [name](url)` line per link, from each object's first entry; none when some object has no entry |
| IncidentView.LinksToMarkdown | src/components/IncidentViewPage.tsx:50-56 | defined exactly when every link object has an entry; an empty list gives "" |
| IncidentView.LinksToMarkdownLines | src/components/IncidentViewPage.tsx:50-56 | for links free of line breaks, splitting the markdown on "\n" gives back exactly one link line per link, in order |
| IncidentView.MarkdownOf | src/components/IncidentViewPage.tsx:127-150 | "Loading..." exactly without an incident; the message heading; the links section exactly for non-empty links; the resolve block exactly when `resMetadata` is set and the status is RES |
| IncidentView.WithStatus | src/components/IncidentViewPage.tsx:77-79 | an absent incident stays absent; a present one changes its status and nothing else |
| IncidentView.WithGrouping | src/components/IncidentViewPage.tsx:81-83 | an absent record stays absent; a present one takes both values and keeps its other properties |
| IncidentView.SeverityChanged | src/components/IncidentViewPage.tsx:109-116 | the new severity, the priority kept or "", the other properties kept; absent stays absent |
| IncidentView.PriorityChanged | src/components/IncidentViewPage.tsx:118-125 | the new priority, the severity kept or "", the other properties kept; absent stays absent |
| IncidentView.ChangesCommute | src/components/IncidentViewPage.tsx:109-125 | a severity change and a priority change give the same record in either order |
| IncidentView.TimesTextReadsBack | src/components/IncidentViewPage.tsx:187-199 | the text reads back as the count, with the unit "time" for one and "times" otherwise |
| IncidentView.GroupingEntries | src/components/IncidentViewPage.tsx:160-173 | this part of the panel holds only priority and severity labels |
| IncidentView.PriorityAndSeverityLabels | src/components/IncidentViewPage.tsx:160-173 | a priority label, with its CDN icon, exactly when the record holds a non-empty priority; a severity label, upper-cased and with its icon, exactly when it holds a non-empty severity |
| IncidentView.LinkEntries | src/components/IncidentViewPage.tsx:175-186 | exactly three entries: the escalation link with the escalation's name, the integration link with its custom name, then the separator |
| IncidentView.LinkTargets | src/components/IncidentViewPage.tsx:175-184 | the links open `https://app.spike.sh/escalations/` and `https://app.spike.sh/integrations/` followed by the referenced `_id` |
| IncidentView.CountEntries | src/components/IncidentViewPage.tsx:187-199 | this part of the panel holds only "Repeated" and "Suppressed" labels |
| IncidentView.RepeatedAndSuppressedLabels | src/components/IncidentViewPage.tsx:187-199 | "Repeated" and "Suppressed" labels exactly for non-empty arrays, with their count texts |
| IncidentView.TimeEntries | src/components/IncidentViewPage.tsx:201-207 | "Triggered at" always; "Updated At" iff not NACK and `ACK_at` set; "Resolved At" iff RES and `RES_at` set |
| IncidentView.Metadata | src/components/IncidentViewPage.tsx:152-158 | no panel without an incident; otherwise the status tag comes first |
| IncidentView.MetadataParts | src/components/IncidentViewPage.tsx:152-210 | the panel's entries are exactly the status tag and the entries of its four parts |
| IncidentView.InOnePart | src/components/IncidentViewPage.tsx:152-210 | a grouping, count or timestamp label is in the panel exactly when it is in its own part |
| IncidentView.GroupingLabels | src/components/IncidentViewPage.tsx:160-173 | in the whole panel, a priority label with its icon exactly for a non-empty priority, and an upper-cased severity label with its icon exactly for a non-empty severity |
| IncidentView.CountLabels | src/components/IncidentViewPage.tsx:187-199 | in the whole panel, "Repeated" and "Suppressed" appear exactly for non-empty arrays, with "time"/"times" |
| IncidentView.TimeLabels | src/components/IncidentViewPage.tsx:201-207 | in the whole panel, the timestamp labels appear under exactly the conditions of `TimeEntries` |
| IncidentView.DetailPage.constructor | src/components/IncidentViewPage.tsx:58-60 | no incident and no grouped record |
| IncidentView.DetailPage.FetchIncident | src/components/IncidentViewPage.tsx:62-71 | success sets both fields from the response; failure changes nothing and shows the failure toast |
| IncidentView.DetailPage.AcknowledgeIncident | src/components/IncidentViewPage.tsx:85-95 | nothing without an incident; status ACK only after the call returned, whatever it was; unchanged on failure; a toast for either outcome |
| IncidentView.DetailPage.ResolveIncident | src/components/IncidentViewPage.tsx:97-107 | nothing without an incident; status RES only after the call returned; unchanged on failure; a toast for either outcome |
| IncidentView.DetailPage.SetSeverity | src/components/IncidentViewPage.tsx:109-116 | nothing without an incident; after a returned call the record becomes `SeverityChanged`; a throwing call is rethrown and nothing changes |
| IncidentView.DetailPage.SetPriority | src/components/IncidentViewPage.tsx:118-125 | nothing without an incident; after a returned call the record becomes `PriorityChanged`; a throwing call is rethrown and nothing changes |
| ApiClient.Classify | src/api/apiClient.ts:55-72 | a server answer keeps its status and body and takes the body's message if truthy, else "An error occurred"; no response gives 0 and "No response received from server"; otherwise 0 and the error's message; the error is 401 iff the server answered 401 |
| ApiClient.BearerHeaderReadsBack | src/api/apiClient.ts:35-40 | every header is "Bearer " followed by the token's text, or by "undefined" when there is none |
| ApiClient.BearerHeaderDistinguishes | src/api/apiClient.ts:35 | two present tokens give the same header iff they are equal |
| ApiClient.InterceptSettles | src/api/apiClient.ts:32-43 | intercepting a second time keeps the token of the first; it authorizes again only when neither the stored nor the granted token is truthy |
| ApiClient.ChainOutcome | src/api/apiClient.ts:45-92 | a request resolves with the server's first successful answer, or stays pending when there is none; every failure before it is classified and logged in order; one more request is sent than errors are logged |
| ApiClient.ChainHeaders | src/api/apiClient.ts:32-91 | the first request carries the intercepted token; after a 401 the next request carries the token the authorization stored; after any other error it carries the previous header |
| ApiClient.ChainLogoutThenAuthorize | src/api/apiClient.ts:85-91 | a logout happens exactly right after a logged 401; an authorization follows it at once; a request with the newly stored token is sent after both |
| ApiClient.Session.GetToken | src/api/apiClient.ts:33 | returns the stored token |
| ApiClient.Session.Authorize | src/api/apiClient.ts:38 | stores the granted token and records the authorization |
| ApiClient.Session.Logout | src/api/apiClient.ts:87 | clears the stored token and records the logout |
| ApiClient.Session.Log | src/api/apiClient.ts:76 | records the logged error and changes nothing else |
| ApiClient.Session.Send | src/api/apiClient.ts:91 | records the request with its header and takes the server's next answer, none when there is none |
| ApiClient.RequestConfig.constructor | src/api/apiClient.ts:21-26 | a configuration holds the instance's default headers |
| ApiClient.Client.constructor | src/api/apiClient.ts:20-29 | the client works over the given session |
| ApiClient.Client.Intercept | src/api/apiClient.ts:32-43 | writes `Authorization` from the stored token when it is truthy; otherwise authorizes first and writes it from the new token unchecked |
| ApiClient.Client.Request | src/api/apiClient.ts:45-48 | the outcome, token, remaining answers and trace are those of `Chain`; the request's own header is the intercepted token's |
| ApiClient.Client.HandleError | src/api/apiClient.ts:55-72 | classifies the failure and settles as the central handler does for that error |
| ApiClient.Client.CentralErrorHandler | src/api/apiClient.ts:74-92 | logs the error, logs out and authorizes on 401, and settles as a new request with the resulting token |
| ApiClient.ClientHolder.constructor | src/api/apiClient.ts:17 | no instance yet and none created |
| ApiClient.ClientHolder.GetInstance | src/api/apiClient.ts:94-99 | creates a client only on the first call; returns the held client afterwards; at most one is ever created |
| ApiClient.GetInstanceTwice | src/api/apiClient.ts:94-99 | two calls return the same client, and exactly one was created |

## Left out

- React and host rendering are not modelled: hooks, memoisation, toasts' appearance, navigation, action panels, shortcuts and icons other than those named above. Only the state fields and the values that feed the rendered views are modelled.
- Stale closures are not modelled. Each handler here reads the current state, while the source's `useCallback` closures can read an older render's state.
- Async scheduling is not modelled. Each awaited call is one sequential step. `auth.logout()` is not awaited in the source, but it is taken to complete before `auth.authorize()`.
- axios is not modelled: HTTP itself, interceptor registration, the base URL and how axios merges configurations. The auth module (`getToken`, `authorize`, `logout`) is not part of this model either. `Session` stands for both: a stored token, a fixed token that every authorization stores, and a finite sequence of server answers.
- ApiClient.Session.Authorize: authorization always succeeds and always stores the same token; `auth.getToken()` always succeeds too. In the source, `auth.authorize()` rejecting after a 401 rejects the request, and the model has no rejected outcome. A failure of either call inside the request interceptor would be classified with status 0, logged and retried; the model does not produce that failure, and what axios does with a rejected request interceptor is not modelled.
- ApiClient.ChainHeaders: "after any other error the next request carries the previous header" holds for a previous token that is not truthy only because every authorization stores the same token. In the source the next interceptor authorizes again and may store a different token.
- ApiClient.InterceptSettles: intercepting again keeps the first token for a token that is not truthy only because every authorization stores the same token. A second `auth.authorize()` in the source may store a different one.
- ApiClient.BearerHeaderReadsBack: a missing token is rendered as "undefined", which assumes `auth.getToken()` yields `undefined` rather than `null` when no token is stored; the auth module is not part of this model.
- ApiClient.Chain: a request still waiting when the server's answers run out is `Pending`. The model does not capture a request that never settles.
- ApiClient.Client.CentralErrorHandler: the retried request's configuration is modelled only as a fresh configuration with the default headers. `error.config` is undefined because `ApiError` has no `config` field, and what axios sends for an undefined configuration is not modelled.
- ApiClient.Classify: `data.message` on a response whose body is null throws in the source. The model's body always exists.
- Timestamps are not modelled: moment formatting of the timestamps, and the `JSON.stringify` text of the two detail blocks. The model records which labels and blocks appear, not their rendered text.
- The fixed "P1" text of the priority label is not modelled; the label keeps only its icon.
- Text.Upper: maps ASCII letters only, not the full Unicode upper-casing of `toUpperCase`.
- Favorites.Values: the entry order of `Object.values` is taken as given.
- The API wrappers in src/api/incidents.ts and src/api/oncall.ts are not part of this model. They only build fixed paths and bodies. The detail page's `getIncident`, `setSeverity` and `setPriority` are treated as fallible calls.
- src/components/OncallViewPage.tsx, src/oncall.tsx and src/config/shortcut.ts are not part of this model. They hold date grouping through moment, fixed demo data and a key-binding table.
- OpenIncidents.MenuBar: the `error` and `isLoading` fields are modelled, but the menu never shows them, and the model proves that the menu depends on the list alone.
