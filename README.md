# Signal backend: a Dafny model of the session workflow

Signal is a go-to-market assistant. A user types a request ("FinTech startups in the UK").

The backend turns the request into a structured intent and discovers success patterns for that market. It then generates scored leads that match those patterns.

Each of the three stages runs as a Celery worker task. The task updates a database-backed session row and announces progress over per-session WebSocket connections. Alongside the tasks there are HTTP endpoints: an in-memory session store with a confirm step, and mock endpoints for intent, patterns and leads.

There are two stage implementations behind the tasks:
- Deterministic mock services.
- An LLM service. It cuts JSON out of a model's reply, repairs it, and retries failed requests.

This project models that core in Dafny 4 and proves what each piece promises.

| Dafny file | module | models |
|---|---|---|
| `wrappers.dfy` | `Wrappers` | `Option` / `Result` |
| `strings.dfy` | `Strings` | the Python `str` builtins the core relies on: `in`, `find`, `lower`, `strip`, `str(int)` |
| `models.dfy` | `Models` | the pydantic records, decoded JSON values, counting helpers, `list(d.values())` |
| `session_state.dfy` | `SessionModel` | `models/session.py`: `SessionStatus` and the in-memory `SessionState` class |
| `session_record.dfy` | `SessionDb` | `models/db/session.py`: the `sessions` row and its mapped object |
| `sessions.dfy` | `Sessions` | `api/v1/endpoints/sessions.py`: the session dictionary and its routes |
| `intent.dfy` | `IntentEndpoint` | `api/v1/endpoints/intent.py` and the identical keyword rule of `mock_intent_extraction` |
| `patterns.dfy` | `PatternsEndpoint` | `api/v1/endpoints/patterns.py` |
| `leads.dfy` | `LeadsEndpoint` | `api/v1/endpoints/leads.py` |
| `websocket.dfy` | `Websocket` | `core/websocket.py`: the `ConnectionManager` and the socket endpoint |
| `task_retry.dfy` | `TaskRetry` | the start, checkpoint and retry-or-fail logic the three tasks share |
| `intent_tasks.dfy` | `IntentTasks` | `tasks/intent_tasks.py` |
| `pattern_tasks.dfy` | `PatternTasks` | `tasks/pattern_tasks.py` |
| `lead_tasks.dfy` | `LeadTasks` | `tasks/lead_tasks.py`: lead generation and export |
| `mock_services.dfy` | `MockServices` | `services/mock_services.py`: mock pattern discovery and lead generation |
| `llm_service.dfy` | `LlmService` | `services/llm_service.py`: JSON extraction, repair, the retry loops, the reply dictionaries |

## How the model is built

**State.**
- Objects the source updates in place are classes with `modifies` clauses: `SessionState`, `SessionRecord`, `SessionStore`, `ConnectionManager`, `PatternStore` and `LeadStore`.
- Each class's methods are proved against a function of its old value.
- `SessionRecord` also holds `committed`, the row as the database last saw it. This makes "commit before announce" a checkable statement: every message a task sends is paired with the committed row of that moment.

**Effects outside the process become parameters.**
- The clock is `now: nat`.
- `uuid.uuid4()` is an oracle `uuid: nat -> string`, read in drawing order.
- Liveness of sockets is `alive: set<string>`. A send also fails when `json.dumps` rejects the message (`Websocket.Serialisable`).
- The outcome of a stage call is a `StageOutcome`: it completes, raises a transient error, or raises something else.
- The Celery retry counter is `retries`.
- For the LLM service, each HTTP request is `request: nat -> Result<string, string>` (one per attempt). `json.loads` is `loads: string -> Result<Json, string>`. The id drawn in attempt `k` is `ids(k)`.
- Tasks whose stage is an expensive function take that function as a parameter. Their methods then instantiate it with the mock service.

**Numbers.**
- Confidence values are kept in hundredths and quality scores in thousandths. Every threshold comparison of the source is therefore exact.
- In `leads.py`, `0.75 + 10 * 0.005` rounds to exactly `0.8`, so lead 10 is medium. The integer model agrees.

**Behaviour of the code worth noting:**
- `confirm_step` (`sessions.py:101-124`) has no terminal-state guard and accepts any step name. `Sessions.ConfirmHasNoTerminalGuard` states the consequence. A rejected step on a completed session fails it; a confirmation on a failed session revives it.
- The tasks write status strings that are not members of `SessionStatus`: "processing" (`intent_tasks.py:39`, `pattern_tasks.py:30`, `lead_tasks.py:29`) and "patterns_discovered" (`pattern_tasks.py:133`). The row model keeps status as a string for that reason.
- A stage input that fails validation (`pattern_tasks.py:49`, `lead_tasks.py:43`) is raised outside the inner `try`. The session is therefore left "processing" at 10 %, with no error entry and no retry, rather than failed. See `PatternTasks.PatternRunInvalidInput` and `LeadTasks.LeadRunInvalidInput`.
- `delete_session` (`sessions.py:81-89`) only removes the dictionary entry; it cancels nothing.
- Sends to the connections of a session (`websocket.py:54-60`) happen one after another, with no per-subscriber buffer.
- `json.dumps` runs inside the `try` of the send loop (`websocket.py:56-60`). Every `analysis_complete` the tasks send (`intent_tasks.py:85`, `pattern_tasks.py:158`, `lead_tasks.py:142`) carries a pydantic `.dict()` dump that keeps `datetime` values, which `json.dumps` rejects. So no connection receives it, every listed active connection is dropped, and the `pattern_discovered` and `lead_found` messages sent after it find no connection. See `Websocket.AnalysisCompleteDropsSession`. The task models still list those later sends, because the tasks make them.
- `update_session` (`sessions.py:72-73`) merges `user_confirmations` after writing the other eight fields. A value `dict.update` rejects raises there, so the stored session keeps those writes and its old `updated_at` behind the 500. See `Sessions.SessionStore.UpdateSession`.
- `generate_leads` (`llm_service.py:239`) parses each reply with `_parse_json_safely` as written, so a reply with a trailing comma is never repaired (see Findings). `LlmService.GenerateLeadsSpec` models that; `LlmService.GenerateLeadsIntendedSpec` is the same loop with the repair working.

## Model

| member | source | states |
|---|---|---|
| SessionModel.ParseStatus | backend/app/models/session.py:7-14 | `SessionStatus(v)` yields a member exactly when `v` is one of the seven values, and that member's value is `v`; otherwise no member (ValueError) |
| SessionModel.StatusValuesDistinct | backend/app/models/session.py:7-14 | the seven members have seven distinct values, and parsing each member's value gives the member back |
| SessionModel.WithProgress | backend/app/models/session.py:50-53 | `update_progress` sets step and progress and leaves every other field as it was |
| SessionModel.WithError | backend/app/models/session.py:55-58 | `add_error` appends one error after the earlier ones, which stay in order; only errors and `updated_at` change |
| SessionModel.WithCompletion | backend/app/models/session.py:60-65 | `complete_session` sets status COMPLETED, progress 100 and a completion time; step and errors are untouched; nothing else changes besides `updated_at` |
| SessionModel.SessionState.constructor | backend/app/models/session.py:17-48 | a new session has the given id and input and every other field at its declared default |
| SessionModel.SessionState.UpdateProgress | backend/app/models/session.py:50-53 | the object's new value is `WithProgress` of its old value |
| SessionModel.SessionState.AddError | backend/app/models/session.py:55-58 | the object's new value is `WithError` of its old value |
| SessionModel.SessionState.CompleteSession | backend/app/models/session.py:60-65 | the object's new value is `WithCompletion` of its old value |
| SessionDb.CompleteRow | backend/app/models/db/session.py:34-40 | status and step become "completed", progress 100, completion and update time `now`; no other column changes |
| SessionDb.WithErrorEntry | backend/app/models/db/session.py:42-48 | one `{message, timestamp}` entry is appended after the earlier entries; only errors and `updated_at` change |
| SessionDb.ErrorsOnlyGrow | backend/app/models/db/session.py:42-48 | any run of `add_error` calls keeps every earlier entry in place and appends the messages in call order |
| SessionDb.SessionRecord.constructor | backend/app/models/db/session.py:14-28 | an inserted row has the column defaults, the given id and input, and is committed |
| SessionDb.SessionRecord.CompleteSession | backend/app/models/db/session.py:34-40 | the object's row becomes `CompleteRow` of the old row; the committed row is untouched until a commit |
| SessionDb.SessionRecord.AddError | backend/app/models/db/session.py:42-48 | the object's row becomes `WithErrorEntry` of the old row; the committed row is untouched until a commit |
| SessionDb.SessionRecord.Commit | backend/app/tasks/intent_tasks.py:42 | `db.commit()`: the committed row becomes the object's columns as the model tracks them, which do not change |
| Sessions.ApplyUpdates | backend/app/api/v1/endpoints/sessions.py:56-75 | each named field takes the request's value (status converted by value), each unnamed one keeps its value (status, step, progress, intent, both report ids and both flags alike), identity, errors, retries and timestamps are kept, `updated_at` is `now`. When `dict.update` rejects the answers, those eight fields are still written, but the answers and `updated_at` stay as they were |
| Sessions.ApplyUpdatesMerges | backend/app/api/v1/endpoints/sessions.py:72-73 | the confirmations merge: earlier answers the request does not name are kept, named ones are overwritten, no other key appears; rejected answers add nothing |
| Sessions.WriteStateFields | backend/app/api/v1/endpoints/sessions.py:56-63 | only status, step, progress and intent may change; every other field is left alone (their new values are stated by `ApplyUpdates`) |
| Sessions.WriteReportFields | backend/app/api/v1/endpoints/sessions.py:64-75 | only both report ids, both flags, the confirmations and `updated_at` may change; `updated_at` becomes `now` unless the merge is rejected, in which case the confirmations and `updated_at` keep their values |
| Sessions.Confirm | backend/app/api/v1/endpoints/sessions.py:108-124 | the answer is recorded under the step. A confirmation moves intent_extraction to INTENT_EXTRACTED/"pattern_discovery", patterns_validation to PATTERNS_VALIDATED/"lead_generation", and completes the session on lead_generation; any other step only records the answer. A rejection sets FAILED and appends "User rejected step: {step}". Confirming one of the first two steps keeps progress; only confirming lead_generation sets the completion time. Intent, retry count, report ids and flags never change. Progress stays within 0..100 |
| Sessions.ConfirmHasNoTerminalGuard | backend/app/api/v1/endpoints/sessions.py:105-124 | a completed session can be failed by a rejection, and a failed one revived by confirming intent extraction |
| Sessions.ConfirmHappyPath | backend/app/api/v1/endpoints/sessions.py:111-119 | confirming the three steps in order takes a fresh session to COMPLETED at 100 % with no errors and all three answers recorded as true |
| Sessions.ApplyTo | backend/app/api/v1/endpoints/sessions.py:53-75 | the stored object's new value is `ApplyUpdates` of its old value; `merged` is false exactly when the answers are rejected |
| Sessions.ApplyStateFields | backend/app/api/v1/endpoints/sessions.py:56-63 | status, step, progress and intent are written where the request names them |
| Sessions.ApplyReportFields | backend/app/api/v1/endpoints/sessions.py:64-75 | report links and flags are written where named, then the confirmations merged and the stamp set, or the method stops before both when the merge is rejected |
| Sessions.ConfirmOn | backend/app/api/v1/endpoints/sessions.py:108-124 | the stored object's new value is `Confirm` of its old value |
| Sessions.SessionStore.constructor | backend/app/api/v1/endpoints/sessions.py:12 | the store starts empty |
| Sessions.SessionStore.CreateSession | backend/app/api/v1/endpoints/sessions.py:15-31 | a fresh PENDING session is stored under the drawn id and returned; no other entry changes; a new id adds one entry |
| Sessions.SessionStore.GetSession | backend/app/api/v1/endpoints/sessions.py:34-42 | the stored object itself, or NotFound for an unknown id |
| Sessions.SessionStore.UpdateSession | backend/app/api/v1/endpoints/sessions.py:45-77 | NotFound changes nothing. An unknown status value fails before any field is written. Otherwise only the entry under that id changes, to `ApplyUpdates` of its old value; rejected answers give `NotMergeable` and leave that half-updated value behind |
| Sessions.SessionStore.DeleteSession | backend/app/api/v1/endpoints/sessions.py:80-89 | removes exactly that id and acknowledges, or NotFound with the dictionary unchanged |
| Sessions.SessionStore.ListSessions | backend/app/api/v1/endpoints/sessions.py:92-97 | the list holds one entry per stored id, in some key order `ks` that lists each id once, and nothing else; its length is the number of sessions |
| Sessions.SessionStore.ConfirmStep | backend/app/api/v1/endpoints/sessions.py:100-126 | NotFound changes nothing; otherwise only that session changes, to `Confirm` of its old value |
| IntentEndpoint.ClassifyIndustry | backend/app/api/v1/endpoints/intent.py:41-51 | the industry is one of five; each non-default industry is chosen exactly when its keywords occur and no earlier group's do |
| IntentEndpoint.ClassifyCountry | backend/app/api/v1/endpoints/intent.py:53-60 | the country is one of five; each non-default country is chosen exactly when its keywords occur and no earlier one's do |
| IntentEndpoint.MockIntentExtraction | backend/app/api/v1/endpoints/intent.py:33-67 | industry and country are `ClassifyIndustry` and `ClassifyCountry` of the input lower-cased with ASCII case folding (`Strings.Lower`), hence among the known values; no company size, goal "lead_generation" |
| IntentEndpoint.DefaultsWhenNothingMatches | backend/app/api/v1/endpoints/intent.py:41-42 | input that mentions no keyword is SaaS in the United States |
| IntentEndpoint.AiInsideWordsCounts | backend/app/api/v1/endpoints/intent.py:50-51 | "ai" anywhere in the text, even inside a word, gives AI/ML unless an earlier group matched |
| IntentEndpoint.UkInsideWordsCounts | backend/app/api/v1/endpoints/intent.py:55-56 | "uk" anywhere gives the United Kingdom unless "germany" occurs |
| IntentEndpoint.AdvertisedButNeverProduced | backend/app/api/v1/endpoints/intent.py:83-88 | EdTech, Cybersecurity, Netherlands and Sweden are advertised but never extracted |
| IntentEndpoint.ExtractIntent | backend/app/api/v1/endpoints/intent.py:11-27 | the result carries the raw input, confidence 0.85, the clock reading and the extractor's fields (ASCII case folding, as `Strings.Lower`) |
| Websocket.KindsDistinct | backend/app/core/websocket.py:26-137 | two messages with the same `type` field are of the same kind, for all eight kinds including `subscription_confirmed` |
| Websocket.RemoveFirst | backend/app/core/websocket.py:44 | `list.remove` shortens a list holding the id by one and leaves other lists alone |
| Websocket.RemoveFirstSplits | backend/app/core/websocket.py:44 | exactly the first occurrence is removed; the elements before and after it stay in order |
| Websocket.RemoveFirstMultiset | backend/app/core/websocket.py:44 | one occurrence fewer, every other element kept |
| Websocket.RegisterSpec | backend/app/core/websocket.py:19-25 | the new id is active and appended to its session's list, created if absent; other sessions and the logs are untouched |
| Websocket.DisconnectSpec | backend/app/core/websocket.py:37-47 | the id is no longer active; the first occurrence of the id leaves the session's list, and a list left empty is deleted with its entry; other sessions are untouched; an unknown session changes no list |
| Websocket.DisconnectListMultiset | backend/app/core/websocket.py:42-47 | as a multiset, the session's list after a disconnect is the old list with one copy of the id taken away |
| Websocket.RegisterThenDisconnect | backend/app/core/websocket.py:17-47 | registering a new id and disconnecting it restores the registry exactly |
| Websocket.DisconnectUnknown | backend/app/core/websocket.py:37-47 | disconnecting an id that is already gone changes nothing, so disconnect is idempotent |
| Websocket.Reachable | backend/app/core/websocket.py:56-60 | the ids whose send succeeds: the live ones when the message serialises, none when `json.dumps` raises inside the `try` |
| Websocket.FailedIdsMembers | backend/app/core/websocket.py:52-60 | the ids the send loop collects are exactly the listed ids that are active but whose send fails |
| Websocket.DeliverAllLogs | backend/app/core/websocket.py:54-60 | each active, live connection receives the message once per listing; every other connection receives nothing |
| Websocket.DisconnectAllActive | backend/app/core/websocket.py:63-64 | the cleanup loop deactivates exactly the collected ids, leaves other sessions and all logs alone, and leaves no empty list |
| Websocket.SendSpecEffect | backend/app/core/websocket.py:49-64 | after a send, reachable connections (live, and the message serialises) have the message; every occurrence of a failed id leaves the session's list while all other ids keep their multiplicity; other sessions are untouched |
| Websocket.AnalysisCompleteDeliversNothing | backend/app/core/websocket.py:56-60 | an `analysis_complete` adds nothing to any connection's log |
| Websocket.AnalysisCompleteDropsSession | backend/app/core/websocket.py:49-64 | an `analysis_complete` to a session whose listed connections are all active deactivates every one of them and deletes the session's entry, so any later send to that session does nothing |
| Websocket.FailedIdsMultiset | backend/app/core/websocket.py:52-60 | an id is collected as failed once per listing exactly when it is active and its socket is not alive, and never otherwise |
| Websocket.DisconnectAllMultiset | backend/app/core/websocket.py:62-64 | disconnecting the failed ids one by one removes, as a multiset, exactly the failed list from the session's list |
| Websocket.Dispatch | backend/app/core/websocket.py:126-137 | "ping" is answered with "pong"; "subscribe" is confirmed with its events (default `[]`); any other type gets no answer |
| Websocket.EndpointClosesOwnConnection | backend/app/core/websocket.py:114-143 | a client session that ends with the close leaves its own connection inactive |
| Websocket.ConnectionManager.constructor | backend/app/core/websocket.py:13-15 | both dictionaries start empty |
| Websocket.ConnectionManager.Connect | backend/app/core/websocket.py:17-35 | the id is `"{session}_{stamp}"`; it is registered, then `connection_established` goes to the whole session |
| Websocket.ConnectionManager.Disconnect | backend/app/core/websocket.py:37-47 | the registry becomes `DisconnectSpec` of the old one |
| Websocket.ConnectionManager.SendMessageToSession | backend/app/core/websocket.py:49-64 | the registry becomes `SendSpec` of the old one: deliver in list order, then prune the failed ids |
| Websocket.ConnectionManager.SendToEach | backend/app/core/websocket.py:52-60 | the first loop delivers to each active listed id whose send succeeds (live socket, serialisable message) and returns the other active ones in order, touching neither dictionary |
| Websocket.ConnectionManager.DisconnectEach | backend/app/core/websocket.py:63-64 | the second loop disconnects each collected id in turn |
| Websocket.ConnectionManager.SendProgressUpdate | backend/app/core/websocket.py:66-74 | sends one `progress_update` carrying step, progress and text to the session |
| Websocket.ConnectionManager.SendPatternDiscovered | backend/app/core/websocket.py:76-82 | sends one `pattern_discovered` carrying the pattern |
| Websocket.ConnectionManager.SendLeadFound | backend/app/core/websocket.py:84-90 | sends one `lead_found` carrying the lead |
| Websocket.ConnectionManager.SendAnalysisComplete | backend/app/core/websocket.py:92-99 | sends one `analysis_complete` carrying the analysis type and results; since those results do not serialise, no log grows, and a session whose listed connections were all active loses its entry |
| Websocket.ConnectionManager.SendError | backend/app/core/websocket.py:101-108 | sends one `error` carrying the error type and text |
| Websocket.ConnectionManager.RunEndpoint | backend/app/core/websocket.py:114-143 | connect, then handle client events in order until the close or an error, which disconnects (after an `error` notice) |
| PatternsEndpoint.CatalogueFor | backend/app/api/v1/endpoints/patterns.py:95-140 | three base entries, plus a fourth exactly for SaaS or FinTech |
| PatternsEndpoint.SourceCompanies | backend/app/api/v1/endpoints/patterns.py:146 | a pattern lists exactly `frequency` source companies |
| PatternsEndpoint.SourceCompaniesDistinct | backend/app/api/v1/endpoints/patterns.py:146 | company `j` is named `Company_{j}`, and no two are alike |
| PatternsEndpoint.MockPatternsShape | backend/app/api/v1/endpoints/patterns.py:142-153 | 4 or 3 patterns with ids in drawing order, complexity alternating medium/high, 12 total companies, as many source companies as the frequency, confidence above 0.7 |
| PatternsEndpoint.GenerateMockPatterns | backend/app/api/v1/endpoints/patterns.py:91-154 | the loop returns exactly `MockPatterns` |
| PatternsEndpoint.MockDiscoveryCounts | backend/app/api/v1/endpoints/patterns.py:57-88 | industry and country copied, 12 companies, total = number of patterns (4 or 3), and 2 or 1 of them above 0.8 |
| PatternsEndpoint.MockDiscoverySessionIdFresh | backend/app/api/v1/endpoints/patterns.py:62-69 | with distinct uuids, the placeholder session id differs from the report id and from every pattern id |
| PatternsEndpoint.PatternStore.constructor | backend/app/api/v1/endpoints/patterns.py:12 | the store starts empty |
| PatternsEndpoint.PatternStore.DiscoverPatterns | backend/app/api/v1/endpoints/patterns.py:15-32 | builds the mock report and stores it under its id, nothing else changes |
| PatternsEndpoint.PatternStore.GetPatternReport | backend/app/api/v1/endpoints/patterns.py:38-46 | the stored report, or 404 "Pattern report not found" |
| PatternsEndpoint.PatternStore.ListPatternReports | backend/app/api/v1/endpoints/patterns.py:49-54 | the list holds one report per stored id, in some key order `ks` that lists each id once, and nothing else; its length is the number of reports |
| LeadsEndpoint.FirstTwoIds | backend/app/api/v1/endpoints/leads.py:149 | the ids of the first two patterns (fewer if there are fewer) |
| LeadsEndpoint.GenerateMockLeads | backend/app/api/v1/endpoints/leads.py:108-201 | the loop returns exactly `MockLeads` |
| LeadsEndpoint.MockLeadsShape | backend/app/api/v1/endpoints/leads.py:124-199 | 25 leads with ids in drawing order, the report's session, the first two pattern ids; priority high exactly after lead 10 (score 0.75 + 0.005 i above 0.8), medium otherwise; strong signal exactly for the first ten, which are all medium |
| LeadsEndpoint.MockLeadDataCycle | backend/app/api/v1/endpoints/leads.py:125-137 | leads five apart share a template and differ by 50 employees, 5 M revenue and 10 M funding; founding years 2015..2022; the name is template name plus `i + 1` |
| LeadsEndpoint.MockWebsitesDistinct | backend/app/api/v1/endpoints/leads.py:133 | no two leads share a website |
| LeadsEndpoint.PriorityCountsPrefix | backend/app/api/v1/endpoints/leads.py:68-70 | over the first n leads: n - 11 high (if positive), the rest medium, none low |
| LeadsEndpoint.AddAllCounts | backend/app/api/v1/endpoints/leads.py:77-78 | the inner loop adds each id's number of occurrences to its count |
| LeadsEndpoint.CoverageCounts | backend/app/api/v1/endpoints/leads.py:75-78 | each id's coverage is its number of occurrences across all matched lists; the keys are exactly the ids that occur |
| LeadsEndpoint.CountCoverage | backend/app/api/v1/endpoints/leads.py:75-78 | the nested loop computes exactly `CoverageOf` |
| LeadsEndpoint.MockLeadGenerationCounts | backend/app/api/v1/endpoints/leads.py:57-105 | 25 leads: 14 high, 11 medium, 0 low, adding up to `leads_generated`; session, industry and country copied |
| LeadsEndpoint.MockLeadGenerationCoverage | backend/app/api/v1/endpoints/leads.py:74-78 | an id is covered exactly when it is one of the first two pattern ids, 25 times per occurrence |
| LeadsEndpoint.LeadStore.constructor | backend/app/api/v1/endpoints/leads.py:12 | the store starts empty |
| LeadsEndpoint.LeadStore.GenerateLeads | backend/app/api/v1/endpoints/leads.py:15-32 | builds the mock report and stores it under its id, nothing else changes |
| LeadsEndpoint.LeadStore.GetLeadReport | backend/app/api/v1/endpoints/leads.py:38-46 | the stored report, or 404 "Lead report not found" |
| LeadsEndpoint.LeadStore.ListLeadReports | backend/app/api/v1/endpoints/leads.py:49-54 | the list holds one report per stored id, in some key order `ks` that lists each id once, and nothing else; its length is the number of reports |
| Models.CountAtLeastAll | backend/app/services/mock_services.py:91 | when every pattern clears the bar, all of them are counted |
| Models.PriorityCountsPartition | backend/app/api/v1/endpoints/leads.py:68-70 | the high, medium and low counts add up to the number of leads |
| Models.ListValues | backend/app/api/v1/endpoints/sessions.py:97 | `list(d.values())`: a key order `ks` that lists every key exactly once, and the value list has `d[ks[i]]` at position `i`; so each key contributes exactly one entry and the length is `len(d)` |
| TaskRetry.BeginRow | backend/app/tasks/intent_tasks.py:39-41 | status "processing", the task's step, progress 10; no other column changes |
| TaskRetry.CheckpointRow | backend/app/tasks/intent_tasks.py:49 | only the progress column changes |
| TaskRetry.StageErrorRun | backend/app/tasks/intent_tasks.py:91-113 | one error entry is appended. A transient error with retries left keeps the status, logs "(retry n)", sends the retry notice and schedules a retry after 60 * 2^retries seconds. Anything else sets "failed", logs the failure and sends a `processing_error` |
| TaskRetry.CountdownsBounded | backend/app/tasks/intent_tasks.py:93-102 | a task retries at most 3 - retries more times, and the k-th countdown is 60 * 2^(retries + k) |
| TaskRetry.FirstRetries | backend/app/tasks/intent_tasks.py:102 | repeated transient failures are retried after 60, 120 and 240 seconds, then fail |
| TaskRetry.Begin | backend/app/tasks/intent_tasks.py:39-44 | the row becomes `BeginRow`, is committed, and then 10 % is announced with that committed row |
| TaskRetry.Checkpoint | backend/app/tasks/intent_tasks.py:49-57 | the row becomes `CheckpointRow`, is committed, and then the value is announced |
| TaskRetry.HandleStageError | backend/app/tasks/intent_tasks.py:91-113 | the row, the committed row, the decision and the messages are those of `StageErrorRun` |
| IntentTasks.IntentRunCompletes | backend/app/tasks/intent_tasks.py:46-89 | success stores the intent (raw input, confidence 0.85), sets "intent_extracted"/"awaiting_confirmation" at 100 %, logs no error and ends with `analysis_complete` |
| IntentTasks.IntentRunRaises | backend/app/tasks/intent_tasks.py:91-113 | a stage error leaves progress 10 and one more error entry; it retries exactly on a transient error with fewer than 3 retries, otherwise the run fails with that error |
| IntentTasks.IntentRunProgress | backend/app/tasks/intent_tasks.py:39-80 | progress goes 10, 80, 100 (or stops at 10), strictly increasing, each value committed before it is announced |
| IntentTasks.ExtractIntentTask | backend/app/tasks/intent_tasks.py:29-119 | a missing session ends with nothing sent; otherwise the row, the committed row, the decision and the messages are those of `IntentRun` |
| IntentTasks.StoreIntent | backend/app/tasks/intent_tasks.py:66-72 | the intent, status, step and progress are written and committed |
| PatternTasks.DiscoveredEvents | backend/app/tasks/pattern_tasks.py:162-167 | as many `pattern_discovered` messages as patterns of confidence at least 0.7, each carrying such a pattern of the report and the committed row |
| PatternTasks.DiscoveredEventsInOrder | backend/app/tasks/pattern_tasks.py:162-167 | the k-th message carries the k-th pattern of confidence at least 0.7 in report order, so each qualifying pattern is announced once, in order |
| PatternTasks.DiscoveredEventsAll | backend/app/tasks/pattern_tasks.py:162-167 | when every pattern clears 0.7, every pattern is announced, in report order |
| PatternTasks.PatternRunCompletes | backend/app/tasks/pattern_tasks.py:52-176 | success returns the discovered report, stores its id, sets "patterns_discovered"/"awaiting_validation" at 100 % and logs no error |
| PatternTasks.PatternRunAnnouncesAll | backend/app/tasks/pattern_tasks.py:144-169 | with the mock service, `analysis_complete` is followed by one `pattern_discovered` for every pattern, in order |
| PatternTasks.PatternRunInvalidInput | backend/app/tasks/pattern_tasks.py:48-49 | an intent that fails validation stops the run at "processing", 10 %, with no error entry and one message |
| PatternTasks.PatternRunRaises | backend/app/tasks/pattern_tasks.py:178-215 | a stage error leaves progress 60 and one more error entry; it retries exactly on a transient error with fewer than 3 retries, otherwise the run fails |
| PatternTasks.PatternRunHead | backend/app/tasks/pattern_tasks.py:29-87 | every validated run first announces 10, 30 and 60 |
| PatternTasks.PatternRunProgressCompletes | backend/app/tasks/pattern_tasks.py:29-153 | a successful run announces 10, 30, 60, 85, 100 |
| PatternTasks.PatternRunProgressRaises | backend/app/tasks/pattern_tasks.py:52-87 | a run whose stage raises announces 10, 30, 60 only |
| PatternTasks.PatternRunProgress | backend/app/tasks/pattern_tasks.py:29-153 | progress goes 10, 30, 60, 85, 100, or stops at 10 or 60, strictly increasing |
| PatternTasks.PatternRunCommitsFirst | backend/app/tasks/pattern_tasks.py:29-153 | every announced progress value is already in the committed row |
| PatternTasks.DiscoverPatternsTask | backend/app/tasks/pattern_tasks.py:16-221 | a missing session ends with nothing sent; otherwise the row, the committed row, the decision and the messages are those of `PatternRun` with the mock discovery |
| PatternTasks.StorePatternReport | backend/app/tasks/pattern_tasks.py:131-136 | the report id, status, step and progress are written and committed |
| PatternTasks.AnnounceDiscovered | backend/app/tasks/pattern_tasks.py:162-167 | the loop sends exactly `DiscoveredEvents` |
| LeadTasks.HighLeadEvents | backend/app/tasks/lead_tasks.py:146-151 | as many `lead_found` messages as high-priority leads, each carrying such a lead of the report and the committed row |
| LeadTasks.HighLeadEventsInOrder | backend/app/tasks/lead_tasks.py:146-151 | the k-th message carries the k-th high-priority lead in report order, so each high-priority lead is announced once, in order |
| LeadTasks.LeadRunCompletes | backend/app/tasks/lead_tasks.py:46-159 | success returns the generated report, stores its id, sets leads_generated and "completed"/"completed" at 100 % with a completion time, and logs no error |
| LeadTasks.LeadRunAnnouncesHigh | backend/app/tasks/lead_tasks.py:131-151 | with the mock service, `analysis_complete` is followed by exactly two `lead_found` messages, each for a high-priority lead |
| LeadTasks.LeadRunInvalidInput | backend/app/tasks/lead_tasks.py:42-43 | a pattern report that fails validation stops the run at "processing", 10 %, with no error entry and one message |
| LeadTasks.LeadRunRaises | backend/app/tasks/lead_tasks.py:161-188 | a stage error leaves progress 75, no completion time and one more error entry; it retries exactly on a transient error with fewer than 3 retries, otherwise the run fails |
| LeadTasks.LeadRunHead | backend/app/tasks/lead_tasks.py:28-85 | every validated run first announces 10, 25, 50 and 75 |
| LeadTasks.LeadRunProgressCompletes | backend/app/tasks/lead_tasks.py:28-137 | a successful run announces 10, 25, 50, 75, 100 |
| LeadTasks.LeadRunProgressRaises | backend/app/tasks/lead_tasks.py:46-85 | a run whose stage raises announces 10, 25, 50, 75 only |
| LeadTasks.LeadRunProgress | backend/app/tasks/lead_tasks.py:28-137 | progress goes 10, 25, 50, 75, 100, or stops at 10 or 75, strictly increasing |
| LeadTasks.LeadRunCommitsFirst | backend/app/tasks/lead_tasks.py:28-137 | every announced progress value is already in the committed row |
| LeadTasks.GenerateLeadsTask | backend/app/tasks/lead_tasks.py:15-194 | a missing session ends with nothing sent; otherwise the row, the committed row, the decision and the messages are those of `LeadRun` with the mock generation |
| LeadTasks.StoreLeadReport | backend/app/tasks/lead_tasks.py:116-123 | the lead report id is stored, the session completed, and the row committed |
| LeadTasks.AnnounceHighLeads | backend/app/tasks/lead_tasks.py:146-151 | the loop sends exactly `HighLeadEvents` |
| LeadTasks.ExportLeads | backend/app/tasks/lead_tasks.py:197-236 | a stored report exports with the export id `export_{report id}_{format}_{timestamp}`, its format, download URL, a 24-hour expiry and 100 KiB. A missing report is retried after 30 * 2^retries seconds while retries < 2, then fails with "Lead report … not found" |
| LeadTasks.ExportIdNamesItsInputs | backend/app/tasks/lead_tasks.py:210 | the export id contains the report id and the format, and ends with the clock reading in decimal |
| LeadTasks.ExportIdsDifferOverTime | backend/app/tasks/lead_tasks.py:210 | the same export made at two different seconds gets two different ids |
| LeadTasks.DefaultExportIsJson | backend/app/tasks/lead_tasks.py:196-216 | a call that names no format exports JSON: the format field is "json" and the download link ends in ".json" |
| LeadTasks.MissingReportRetriesTwice | backend/app/tasks/lead_tasks.py:197-234 | a missing report is retried after 30 and 60 seconds, and the third run fails |
| MockServices.MockPatternsFor | backend/app/services/mock_services.py:227-332 | the two base patterns in order, plus a third exactly for FinTech or HealthTech; ids in drawing order; every confidence at least 0.7 |
| MockServices.GenerateMockPatterns | backend/app/services/mock_services.py:227-332 | the list built by appending is exactly `MockPatternsFor` |
| MockServices.MockPatternDiscovery | backend/app/services/mock_services.py:75-104 | the report id is the first uuid drawn; session, industry and country are copied; 12 companies analysed |
| MockServices.MockDiscoveryAllHighConfidence | backend/app/services/mock_services.py:89-91 | total = number of patterns (3 for FinTech or HealthTech, else 2), and all of them are high-confidence |
| MockServices.CompaniesFor | backend/app/services/mock_services.py:337-353 | every industry, known or not (SaaS fallback), has five companies |
| MockServices.LocationsFor | backend/app/services/mock_services.py:345-354 | every country, known or not (United States fallback), has five locations |
| MockServices.MockLeadAt | backend/app/services/mock_services.py:358-371 | lead i: priority high for i < 2, medium for i < 4, low after; quality 0.85/0.65/0.45; matched patterns are the names of the first two patterns |
| MockServices.LeadsFrom | backend/app/services/mock_services.py:356-393 | five leads, lead i from company i and location i mod 5 with the i-th drawn id |
| MockServices.MockLeadsFor | backend/app/services/mock_services.py:335-395 | five leads, all listing the names of the first two input patterns |
| MockServices.GenerateMockLeads | backend/app/services/mock_services.py:335-395 | returns exactly `MockLeadsFor` |
| MockServices.BuildLeads | backend/app/services/mock_services.py:356-395 | the loop returns exactly `LeadsFrom` |
| MockServices.AnalysisOf | backend/app/services/mock_services.py:151-186 | the analysis keeps the raw lead's id, priority, quality and matched patterns, takes the report's session, and is "strong" exactly for high priority |
| MockServices.Analyses | backend/app/services/mock_services.py:136-187 | one analysis per raw lead, in order |
| MockServices.CoverageByName | backend/app/services/mock_services.py:191-194 | keys are exactly the input pattern names; each maps to the number of leads listing it |
| MockServices.MockLeadGeneration | backend/app/services/mock_services.py:107-224 | draws the report id, then the leads, then aggregates; the result is `MockLeadGenerationSpec` |
| MockServices.Tally | backend/app/services/mock_services.py:141-146 | exactly the counter of the lead's priority goes up by one |
| MockServices.ConvertLeads | backend/app/services/mock_services.py:130-187 | the loop returns the converted leads and, as its counters, their exact numbers of high, medium and low leads |
| MockServices.AggregateLeads | backend/app/services/mock_services.py:129-209 | the report built from the raw leads is exactly `LeadReportFrom` |
| MockServices.LeadCountsAddUp | backend/app/services/mock_services.py:141-146 | the three priority counts add up to `leads_generated`, the number of leads |
| MockServices.CountsOfFive | backend/app/services/mock_services.py:357-358 | five leads prioritised by position give 2 high, 2 medium and 1 low |
| MockServices.MockLeadCounts | backend/app/services/mock_services.py:119-207 | every mock lead report has five leads: 2 high, 2 medium, 1 low |
| MockServices.UniformCoverage | backend/app/services/mock_services.py:191-194 | when every lead lists the first two names, each input name is covered by every lead or by none |
| MockServices.MockCoverage | backend/app/services/mock_services.py:191-194 | in a mock report the first two pattern names are covered 5 times and every other input name 0 times |
| Strings.Find | backend/app/services/llm_service.py:39-40 | `str.find`: -1 when there is no occurrence from `start`, otherwise the first occurrence at or after `start` |
| Strings.ContainsIff | backend/app/api/v1/endpoints/intent.py:44 | `sub in s` holds exactly when `sub` occurs at some position |
| Strings.Lower | backend/app/api/v1/endpoints/intent.py:38 | `str.lower` restricted to ASCII case folding: each letter A-Z is lower-cased, every other character is left alone, so the length is kept |
| Strings.Strip | backend/app/services/llm_service.py:42 | `str.strip` returns the text between the leading and trailing white space, starting and ending with non-space |
| Strings.StripKeeps | backend/app/services/llm_service.py:54 | text that already starts and ends with non-space is returned unchanged |
| Strings.NatToString | backend/app/api/v1/endpoints/patterns.py:146 | `str(n)`: a non-empty run of digits without a leading zero |
| Strings.NatToStringRoundTrip | backend/app/tasks/lead_tasks.py:210 | reading back the decimal text of `n` gives `n` |
| Strings.NatToStringInjective | backend/app/api/v1/endpoints/patterns.py:146 | different numbers have different decimal texts |
| LlmService.BraceSpan | backend/app/services/llm_service.py:52-54 | `re.search(r'\{.*\}', s, DOTALL)` matches exactly when some `{` precedes some `}`; the match runs from the first `{` to the last `}` |
| LlmService.FencedText | backend/app/services/llm_service.py:38-48 | the text between an opening fence and the next closing fence contains no fence and occurs in the reply |
| LlmService.ExtractJson | backend/app/services/llm_service.py:33-57 | the result occurs in the reply: the stripped text of a closed ```` ```json ```` fence, else of a closed ```` ``` ```` fence, else the brace span, else the stripped reply |
| LlmService.BareObjectUnchanged | backend/app/services/llm_service.py:50-54 | a reply that is already a bare `{…}` object without back-quotes is passed through unchanged |
| LlmService.RemoveTrailingCommas | backend/app/services/llm_service.py:71 | the repair removes only commas, so ignoring commas the text is unchanged, and it never grows |
| LlmService.NoTrailingCommaUnchanged | backend/app/services/llm_service.py:71 | text without a comma before a closing bracket (after white space) is left as it is |
| LlmService.FinalCommaDropped | backend/app/services/llm_service.py:71 | a final `,}` loses its comma |
| LlmService.ParseJsonSafelyAsWritten | backend/app/services/llm_service.py:59-74 | as written: succeeds exactly when the first `json.loads` does; any failure is reported with the first decode error |
| LlmService.ParseJsonSafely | backend/app/services/llm_service.py:59-74 | as intended: succeeds exactly when the extracted text or its comma-repaired form decodes, preferring the first; a failure reports the first decode error |
| LlmService.RepairOnlyAddsSuccesses | backend/app/services/llm_service.py:65-74 | the repair changes nothing where the as-written parse succeeds, nor where both fail |
| LlmService.TrailingCommaCounterexample | backend/app/services/llm_service.py:65-74 | on `{"a": 1,}` the as-written parse fails while the intended one returns the object |
| LlmService.FirstSuccess | backend/app/services/llm_service.py:124-166 | the retry outcome succeeds exactly when some attempt does, giving the earliest success; otherwise it is the last attempt's error |
| LlmService.FirstSuccessAt | backend/app/services/llm_service.py:124-166 | when the attempts before `k` fail and attempt `k` succeeds or is the last, the outcome is attempt `k`'s |
| LlmService.AttemptsBeyondUnused | backend/app/services/llm_service.py:124-166 | only the first `max_retries` attempts influence the outcome |
| LlmService.RetryLoop | backend/app/services/llm_service.py:124-166 | the `for attempt in range(max_retries)` loop returns exactly `FirstSuccess` of the attempts |
| LlmService.Get | backend/app/services/llm_service.py:148 | `dict.get(key, default)` |
| LlmService.JsonLen | backend/app/services/llm_service.py:201 | `len()` is defined exactly on strings, lists and objects, and gives a list's item count |
| LlmService.ParseWithBraceFallback | backend/app/services/llm_service.py:134-144 | the direct decode if it succeeds; otherwise the decode of the brace span, or "Failed to parse LLM response as JSON" when there is none |
| LlmService.IntentFields | backend/app/services/llm_service.py:147-151 | the decoded object with confidence defaulted to 0.85, the raw input and the time stamp; every other key kept |
| LlmService.FillIntent | backend/app/services/llm_service.py:147-157 | succeeds exactly on an object (anything else has no `update`), giving `IntentFields` and no report id |
| LlmService.Reply | backend/app/services/llm_service.py:153-165 | the session id is always echoed; success carries the report, failure the wrapped error |
| LlmService.ExtractIntent | backend/app/services/llm_service.py:119-166 | the method returns exactly `ExtractIntentSpec`: two attempts of request, parse and fill |
| LlmService.PatternFields | backend/app/services/llm_service.py:195-204 | the decoded object with report id, session id, defaults 12 and 45.2, the pattern count, the stamp and version "1.0"; every other key kept |
| LlmService.FillPatterns | backend/app/services/llm_service.py:195-211 | succeeds exactly on an object whose "patterns" has a length, giving `PatternFields` under the new report id |
| LlmService.DiscoverPatterns | backend/app/services/llm_service.py:168-220 | the method returns exactly `DiscoverPatternsSpec`: two attempts |
| LlmService.LeadFields | backend/app/services/llm_service.py:242-252 | the decoded object with report id, session id, the input's report id (default ""), the lead count, default duration 32.8, the export formats, the stamp and version "1.0" |
| LlmService.FillLeads | backend/app/services/llm_service.py:242-259 | succeeds exactly on an object whose "leads" has a length, giving `LeadFields` under the new report id |
| LlmService.GenerateLeads | backend/app/services/llm_service.py:222-269 | the method returns exactly `GenerateLeadsSpec`: three attempts, each parsing with `_parse_json_safely` as written |
| LlmService.ReplyOfAttempts | backend/app/services/llm_service.py:124-166 | a service reply succeeds exactly when some attempt does, carrying the first successful attempt's report; a failure carries the last attempt's error |
| LlmService.ExtractIntentAtMostTwoRequests | backend/app/services/llm_service.py:123-124 | intent extraction never looks past the second request |
| LlmService.ExtractIntentReply | backend/app/services/llm_service.py:119-166 | a success is `IntentFields` of some decoded object; a first reply that decodes to an object is returned at once; two failed requests report the second error |
| LlmService.DiscoverPatternsAtMostTwoRequests | backend/app/services/llm_service.py:172-173 | pattern discovery never looks past the second request |
| LlmService.DiscoverPatternsReply | backend/app/services/llm_service.py:168-220 | a success is `PatternFields` of some decoded object under the id drawn in attempt 0 or 1; two failed requests report the second error |
| LlmService.GenerateLeadsAtMostThreeRequests | backend/app/services/llm_service.py:226-227 | lead generation never looks past the third request |
| LlmService.GenerateLeadsReply | backend/app/services/llm_service.py:222-259 | with the parse as written, a success is `LeadFields` of some object that `json.loads` decodes from the extracted text of that attempt's reply, under the id drawn in attempt 0, 1 or 2 |
| LlmService.GenerateLeadsGivesUp | backend/app/services/llm_service.py:261-268 | with the parse as written, a failure is "Failed to generate leads after 3 attempts: " plus the third attempt's error; three failed requests give exactly that |
| LlmService.GenerateLeadsTrailingComma | backend/app/services/llm_service.py:239 | when every reply is `{"a": 1,}`, lead generation as written gives up after three parse failures, while the same loop with the intended repair succeeds on the first attempt with the id drawn there |

## Left out

- The real-LLM branch of the three mock stage functions (`mock_services.py:22-28`, `67-73`, `111-117`) depends on settings and on whether an import succeeds. The model takes the mock path; the LLM service is modelled on its own.
- `GTMLLMService.__init__`, the global instance and `_make_request` (HTTP, headers, status-code messages) are not modelled. Each request is an oracle result.
- The three prompt builders are not modelled: prompts only reach the oracle. `json.loads` is an oracle too.
- The real send on a socket is not modelled: whether it fails is the `alive` set. `json.dumps` is reduced to `Websocket.Serialisable`, which holds for every message except `analysis_complete`, whose `.dict()` results always hold a `datetime`.
- `asyncio` event loops, `time.sleep` and `logging` are not modelled.
- Celery's own machinery is not modelled: queueing, `default_retry_delay`, and the `on_failure`/`on_success` hooks of the unregistered task classes. `IntentExtractionTask`, `PatternDiscoveryTask` and `LeadGenerationTask` are never attached to the registered tasks.
- `db.rollback()`, `db.refresh` and `db.close()` are not modelled. The rollback discards nothing the model tracks, because every change is committed before a raise.
- `PatternReportDB` and `LeadReportDB` are not part of this model. A report's row is represented by its id alone.
- Averages and other float fields are left out: `average_confidence`, `average_quality_score`, `success_metrics`, growth rates, and the per-lead and signal scores other than the quality score. Confidence and quality are exact integers (hundredths and thousandths).
- `analysis_duration` and session progress are kept as Dafny `real`.
- Free-text lists and constant texts are left out: key insights, recommendations, talking points, descriptions, contact details.
- `model_dump`/`dict()` serialisation and pydantic validation are reduced to the validated record, or its absence (`None`).
- The order of `list(d.values())` is left open: it is the dictionary's insertion order in Python, which the `map` model does not keep. The model states that some order `ks` lists each key once and the values follow it.
- Strings.Lower: ASCII-only case folding. Python's `str.lower` is full Unicode: non-ASCII letters (the Kelvin sign, dotted İ) lower differently, and some lower to more than one character, so the length can change.
- IntentEndpoint.MockIntentExtraction: inherits the ASCII-only folding of `Strings.Lower`; an input spelling a keyword with non-ASCII capitals ("U\u212A" for "UK") is classified differently from Python.
- IntentEndpoint.ExtractIntent: inherits the same ASCII-only folding through `MockIntentExtraction`.
- Models.JsonTypeName: names an integral number "int". Python's decoder yields a `float` for `1.0`, and the model's numbers do not remember how they were written, so only the type name in a validation error text can differ.
- SessionDb.SessionRecord.Commit: models the columns the code assigns. SQLAlchemy's `onupdate` refresh of `updated_at` (`models/db/session.py:27`) is not modelled. Nor is the fact that the in-place `errors.append` on a plain JSON column (`models/db/session.py:25`, `44`) is not change-tracked, so the database may not receive the appended entry.
- Sessions.SessionStore.UpdateSession: the request body is typed. The source takes `Dict[str, Any]` and, without `validate_assignment`, stores any value as given: a string or a 150 as progress, a non-boolean flag, non-boolean answers. The model keeps each field's declared type, and a `user_confirmations` value is either answers `dict.update` merges or one it rejects; a list of key/value pairs, which `dict.update` also accepts, is read as the answers it holds.
- The HTTP 500 wrapping in the mock endpoints is not modelled. The mock functions they wrap cannot raise.
- The `notify_*` helpers (`websocket.py:147-169`) are one-line delegations, to the manager methods that are modelled.
- `get_intent_examples` is kept only as the advertised industry and country lists. The example sentences and goals are not.
- Exact timestamps are not modelled. `datetime.utcnow()` is the natural number `now`, ISO strings are an opaque `stamp`, and the float `timestamp()` in a connection id is an opaque `stamp` string.
- In the LLM service, a uuid is drawn only by an attempt that reaches the update step. The model calls the id of attempt `k` `ids(k)`, whether or not earlier attempts drew one.

## Findings

| source | as written | input that shows it | evidently intended | confidence | as-written member | corrected member |
|---|---|---|---|---|---|---|
| backend/app/services/llm_service.py:65-74 | the trailing-comma fallback calls `re.sub`. `re` is imported only inside `_extract_json_from_response` (line 51), never at module level. The call raises `NameError`, the bare `except` turns it into the parse failure, and so the repair never succeeds | an LLM reply `{"a": 1,}` | drop the comma before a closing bracket and decode again, so `{"a": 1,}` parses as `{"a": 1}` | not executed | LlmService.ParseJsonSafelyAsWritten (shown by LlmService.TrailingCommaCounterexample and LlmService.GenerateLeadsTrailingComma) | LlmService.ParseJsonSafely |
