# codex-api: a verified model

codex-api relays OpenAI-style requests to one ChatGPT Codex subscription. These Dafny modules model its stateful
protocols and its exact arithmetic, and prove what they keep over every input and every run.

| file | models |
|---|---|
| `DeltaProtocol.dfy`, `ResponsesSession.dfy` | an HTTP Responses session: it continues the upstream's context or prewarms and resends everything |
| `UpstreamWs.dfy` | the Responses Lite rewriting of a request into a prewarm and a generation frame |
| `SessionCache.dfy`, `SessionActors.dfy` | the cache of session actors under its two budgets, and the interleaving of requests and actors |
| `Credentials.dfy` | OAuth refresh: single flight, generations, latched failures, save before publish, restarts |
| `Ledger.dfy`, `Pricing.dfy`, `Config.dfy`, `Stat.dfy` | the request ledger, quotas and their overshoot, prices, weeks, and the usage report |
| `HttpApi.dfy`, `WsSession.dfy` | the HTTP handlers and the WebSocket session as writers of that ledger |
| `ResponsesTerminal.dfy`, `Chat.dfy` | the capacity-error rewrite, and the Chat/Responses translation in both directions |

Code that changes state in place is a class whose methods are proved equal to a specification function
(`Session`, `Cache`, `CredentialManager`, `Store`, `PendingRequest`, `ChatStreamConverter`, `WsSession`); the theorems are about those functions and
about runs built from them. Network sends and receives, clocks, client departures and ledger failures are parameters
(`Script`, `Relay`, `Write`, ...) that may take any value at each step.

## Assumptions

* The upstream stores, under each response id, the context a response was generated from followed by the output it
  reports (`DeltaProtocol.Honest`). `ResponsesSession.StreamedTurnsAreHonest` reduces this to the upstream streaming
  every output item it keeps and its completed terminal repeating them or leaving them out.
* Theorems that say a row leaves `started` assume that the finalizing ledger writes succeed; the ones about order and
  about commit before delivery do not.
* Decimal amounts are exact reals with the range of `rust_decimal`.

## Where the code does less than one might expect

Each item is proved as stated, with the exact condition or the smallest example.

* Effort: a Responses request without a `reasoning` member is sent with effort `medium` but logged without one
  (`ResponsesSession.SentLoggedBilled`, `WsProtocol.AsksFor`, `UpstreamWs.UnloggedEffort`). Model and
  rates always agree, and for Chat the effort does too (`HttpApi.ChatSentLoggedBilled`).
* Continuing by id and resending the same history can differ in parameters: inline tools are looked for only in the
  turn's own items (`DeltaProtocol.ContinuingMeansResending`, `DeltaProtocol.ContinuingCanDifferFromResending`). Context and prewarm agree.
* A keyless request is lost if its actor's ten-minute timer fires before it is sent, and in no other way outside shutdown
  (`SessionActors.LostMeansExpired`, `SessionActors.KeylessRequestCanBeLost`).
* A restart goes back to the seed file's token if the clock at the rotation was behind the seed's own refresh time
  (`CredentialRefresh.ClockBehindSeedForgetsRotation`), and never otherwise (`CredentialRefresh.RotationsSurviveRestarts`).
  The latch on a failed refresh is kept in memory, so it ends with the process: after a restart the refused token is
  presented again (`CredentialRefresh.RestartForgetsTheLatch`).
* A client that leaves while its row is being inserted leaves that row `started` (`HttpApi.ChatRowLeavesStarted`, `ResponsesSession.ResponsesRowLeavesStarted`).
* A fallback can be configured that never serves: its limits hold no whole nano-USD, lie beyond 64 bits of nano-USD,
  or cannot be converted (`Ledger.FallbackWindow`, `Ledger.FallbackWindowCanBeEmpty`).
* Admission fails when a key's weekly sum exceeds 64 bits, even for a key without limits, whose spend the model listing
  does not read; and admission and listing both fail for a hard limit too large to convert, which the report never
  converts (`Ledger.AdmissionListingAndReportAgree`, `Stat.ReportAgreesWithAdmission`).
* An assistant message returned by the relay cannot be sent back word for word, because of its `refusal` member
  (`Chat.VerbatimMessageIsRefused`).

## Model

| member | source | states |
|---|---|---|
| `DeltaProtocol.EveryGenerationSeesTheWholeHistory` | src/http_api/responses_session.rs:316-532 | after any run of turns, refusals, socket losses and idle messages, a sent frame is generated from the turn's own prewarm followed by its full materialized history |
| `DeltaProtocol.RefinesStatelessRelay` | src/http_api/responses_session.rs:409-532 | a turn on whatever connection a run left behind has the same context, parameters, remaining members and resulting history as the same turn on a fresh connection sent everything, and is refused with 400 in the same cases |
| `DeltaProtocol.FrameAsksForTheTurn` | src/http_api/responses_session.rs:443-531 | in every session state, tagged, prewarmed or continued, the frame sent asks for the turn's model and for its effort, or medium for a turn without a reasoning member |
| `DeltaProtocol.FrameCarriesHeaders` | src/http_api/responses_session.rs:443-479 | the metadata of every frame sent holds the text of each of the nine relayed headers of the turn, the lite mark, everything else of the turn's own metadata, and the request key for a session or thread that neither names |
| `DeltaProtocol.HandshakeCarriesHeaders` | src/upstream_headers.rs:28-53 | the connection a frame is sent on was opened with exactly the turn's handshake headers, its thread, and its session or the prompt cache key in its place |
| `DeltaProtocol.RunsAreConsistent` | src/http_api/responses_session.rs:366-405 | whenever a socket is live with an upstream id, that id is the snapshot's and the upstream stores the snapshot's prewarm and history under it |
| `DeltaProtocol.TurnInstallsOrKeeps` | src/http_api/responses_session.rs:324-405 | a turn installs history ++ output under the new response id with its size, or leaves history and size alone; a 400 leaves everything alone and every other failure loses the socket |
| `DeltaProtocol.PlansDecide` | src/http_api/responses_session.rs:409-483 | a turn gets 400 exactly when its plan alone is at fault, and a planned turn whose upstream answers is always sent |
| `DeltaProtocol.TurnsEndForAReason` | src/http_api/responses_session.rs:409-531 | 400 if and only if a named member or relayed header is at fault; 502, 503 and an interruption only for a missing base, a failed wait, shutdown or a client that left |
| `DeltaProtocol.ContinuationSendsOnlyNewItems` | src/http_api/responses_session.rs:498-506 | continuing a live session with unchanged parameters and handshake sends exactly the new items against the last response, with no prewarm and no connection |
| `DeltaProtocol.ContinuesExactlyWhenUnchanged` | src/http_api/responses_session.rs:480-522 | a sent turn continues the stored context if and only if connection, handshake and parameters are unchanged and its history extends the snapshot's; parameters are the frame's other members and the turn's developer context |
| `DeltaProtocol.ContinuingMeansResending` | src/http_api/responses_session.rs:430-483 | continuing by id and resending the history give the same history, prewarm and handshake, and the same parameters if and only if no inline tools are only in the history or the request already forbids tools |
| `DeltaProtocol.ContinuingCanDifferFromResending` | src/upstream_ws.rs:104-120 | a continuation without tools of a one-item history that declares tools inline: resending that history gives the same input and other parameters |
| `Headers.HandshakeOmitsRelayed` | src/http_api/responses_session.rs:469-477 | the handshake keeps exactly the headers that are not relayed in the frame, plus the session and thread ids |
| `Headers.RelayCopies` | src/http_api/responses_session.rs:458-477 | relaying copies the text of every relayed header into the metadata, keeps everything else there, and fails if and only if a relayed header is not text |
| `Headers.HeadersPassThrough` | src/upstream_headers.rs:28-53 | exactly the passthrough headers go on, unchanged, and a usable prompt cache key stands in for a missing session header |
| `ResponsesSession.Session.Prepare` | src/http_api/responses_session.rs:409-532 | the in-place preparation (connect, continue or prewarm, send) gives the protocol's state and frame on every outcome of every wait |
| `ResponsesSession.Session.Respond` | src/http_api/responses_session.rs:316-407 | one turn finalizes its request once on every path, leaves exactly the protocol's next state and hands on a terminal only after its row |
| `ResponsesSession.Session.OnIdleMessage` | src/http_api/responses_session.rs:261-277 | between turns only an answered ping, a pong and rate limits keep the socket, and nothing else changes |
| `ResponsesSession.TurnLeavesStarted` | src/http_api/responses_session.rs:316-407 | every turn, however cut short, takes its own row and no other out of `started` |
| `ResponsesSession.TurnsAreFinalizedAs` | src/http_api/responses_session.rs:316-377 | which status and HTTP status a turn leaves its row with, for every way it ends: rejected, canceled, upstream error, or the status of its terminal, which alone is charged |
| `ResponsesSession.TerminalsAreRemembered` | src/http_api/responses_session.rs:379-406 | a session remembers exactly the id and output of a completed terminal that has them, and the client is answered with that terminal, with a refusal, or not at all |
| `ResponsesSession.SentTerminalIsRecorded` | src/http_api/responses_session.rs:354-406 | a terminal sent to the client already has its row with the matching final status, its input, cached and output tokens and their price |
| `ResponsesSession.ResponsesRowLeavesStarted` | src/http_api.rs:176-213 | handler, queued or dropped job and turn together: an admitted row is final if and only if the client did not leave during the insert, and no other row changes |
| `ResponsesSession.SentLoggedBilled` | src/http_api.rs:125-211 | from the client's request through admission, fallback, capping and the session's own rewriting to the last ledger write: the frame's model is the logged one, its effort is the logged one if and only if the request has a reasoning member, and any cost is the price of the row's tokens at the rates configured for its model |
| `ResponsesSession.UnloggedRequestIsAccepted` | src/http_api.rs:764-831 | a request of a model and `stream: true` is accepted and logged without an effort, in exactly the form whose frame asks for medium |
| `ResponsesSession.StreamedTurnsAreHonest` | src/http_api.rs:694-743 | the assumption on the upstream follows from it streaming the items it keeps, through the relay's output fallback |
| `UpstreamWs.ResponsesLitePrewarm` | src/upstream_ws.rs:96-147 | the in-place edit gives the generation body and the prewarm computed from the turn's own body, and fails exactly without base instructions |
| `UpstreamWs.PrewarmHoldsToolsAndInstructions` | src/upstream_ws.rs:104-144 | the prewarm's input is, item by item, the request's own tools or the three route markers, the base instructions, and the request's own instructions if it has any, and nothing more |
| `UpstreamWs.PrewarmMembers` | src/upstream_ws.rs:128-147 | the prewarm is the frame with that input, `generate` false and `tool_choice` auto |
| `UpstreamWs.FrameMembers` | src/upstream_ws.rs:194-216 | the fixed members of a frame, the defaults of those it may set, and the absence of tools and instructions |
| `UpstreamWs.FrameToolChoice` | src/upstream_ws.rs:104-119 | a frame may call no tool if and only if the request has none, in its field or inline in its own input |
| `UpstreamWs.FrameReasoning` | src/upstream_ws.rs:217-222 | reasoning covers all turns, its other members are kept, and it is medium when the request has none |
| `UpstreamWs.FrameMetadata` | src/upstream_ws.rs:223-239 | metadata has the lite mark, names session and thread unless they are named, and keeps the rest |
| `UpstreamWs.FrameEffort` | src/upstream_ws.rs:194-239 | the effort a frame asks for is the request's own, or medium for a request without a reasoning member |
| `UpstreamWs.UnloggedEffort` | src/upstream_ws.rs:194-239 | the smallest request a handler passes on whose frame asks for an effort the ledger does not hold |
| `SessionCache.Cache.Acquire` | src/http_api/responses_session.rs:118-160 | a busy key is refused, an idle one is marked busy and reused, anything else gets a new actor under a new id |
| `SessionCache.Cache.Ready` | src/http_api/responses_session.rs:187-214 | the released entry is freed, or removed alone when too large; then exactly the shortest least-recently-used prefix of idle entries that restores the budget is gone |
| `SessionCache.Cache.MakeRoom` | src/http_api/responses_session.rs:199-213 | the eviction loop ends, evicts oldest first, stops as soon as both budgets hold, and gives up only with no idle entry left |
| `SessionCache.Cache.OldestIdle` | src/http_api/responses_session.rs:205-211 | the entry picked is idle and no idle entry was used earlier; none is picked exactly when none is idle |
| `SessionCache.Cache.SumBytes` | src/http_api/responses_session.rs:202 | the loop's sum is the total over all entries, in whatever order they are visited |
| `SessionCache.Cache.RemoveIdle` | src/http_api/responses_session.rs:216-226 | an expired actor stops unless its own entry is busy, and removes nothing but its own idle entry |
| `SessionCache.Cache.Leave` | src/http_api/responses_session.rs:296-313 | a stopping actor removes its own entry and never a replacement's |
| `SessionCache.ReadyKeepsBudget` | src/http_api/responses_session.rs:187-214 | from within the budgets, a release of any size ends within them: eviction never gives up while over budget |
| `SessionCache.EvictionIsDetermined` | src/http_api/responses_session.rs:199-213 | with distinct times of use the eviction condition has one result |
| `SessionCache.BusyEntriesSurvive` | src/http_api/responses_session.rs:199-213 | no busy entry but the released one is touched by a release |
| `SessionCache.StaleActorIsHarmless` | src/http_api/responses_session.rs:187-226 | an actor whose key belongs to another changes nothing by releasing, expiring or leaving |
| `SessionActors.BusyMeansOneJob` | src/http_api/responses_session.rs:110-226 | in every reachable state an entry is busy if and only if exactly one request is in flight at its actor |
| `SessionActors.KeyedJobsAreHeld` | src/http_api/responses_session.rs:118-126 | before shutdown a keyed request in flight owns its busy entry and its actor is serving |
| `SessionActors.SendIsAccepted` | src/http_api/responses_session.rs:170-184 | a sender never finds the slot full, and finds it closed only if its actor is gone, which before shutdown no keyed actor is |
| `SessionActors.LostMeansExpired` | src/http_api/responses_session.rs:251-314 | before shutdown a settled request was lost if and only if its keyless actor's timer fired before it was sent, and then ten minutes had passed |
| `SessionActors.KeylessRequestCanBeLost` | src/http_api/responses_session.rs:288-294 | a run with no shutdown that loses a keyless request |
| `SessionActors.ActiveEntriesSurvive` | src/http_api/responses_session.rs:199-226 | a busy entry changes only by the end of its own turn or by its own actor leaving at shutdown |
| `SessionActors.StaleActorsTouchNothing` | src/http_api/responses_session.rs:296-313 | on every run, an actor that does not own its key's entry leaves the whole cache as it is by all its steps |
| `SessionActors.AlwaysWithinBudget` | src/http_api/responses_session.rs:33-35 | from the empty cache at most 64 idle entries and 64 MiB in every state of every run |
| `SessionActors.JobsOnlyMoveForward` | src/http_api/responses_session.rs:251-314 | a request keeps its actor, moves only forward and once settled stays settled |
| `SessionActors.RequestsCanProceed` | src/http_api/responses_session.rs:278-287 | before shutdown every keyed request in flight has an enabled step that moves it on |
| `CredentialRefresh.OneExchangeAtATime` | src/credentials.rs:123-188 | for any interleaving of callers and tasks at most one exchange is on the wire |
| `CredentialRefresh.ExchangesAreBounded` | src/credentials.rs:147-175 | the exchanges made at a generation are at most one more than the 5xx rejections at it |
| `CredentialRefresh.GuardsAreNeverTaken` | src/credentials.rs:196-228 | a refresh task always finds the generation it was started for, at both of its guards |
| `CredentialRefresh.PresentedTokenIsCurrent` | src/credentials.rs:196-215 | the token that goes on the wire is the one in force at that moment |
| `CredentialRefresh.RecoveryAdvances` | src/credentials.rs:123-188 | a successful return is a credential published under its generation, and recovery from a 401 returns a later generation if and only if the failed one had been reached |
| `CredentialRefresh.RecoveryFromSnapshotAdvances` | src/credentials.rs:105-111 | called with the generation of any snapshot handed out earlier in the process, as both upstream clients do, a successful recovery always returns a later generation |
| `CredentialRefresh.ProactiveCallsRefreshInTime` | src/credentials.rs:371-376 | a proactive call at the current generation returns the current snapshot if and only if it expires in more than 300 seconds or, without expiry, was refreshed in the last 691200; otherwise it joins or starts the flight |
| `CredentialRefresh.HandedOutWhileGood` | src/credentials.rs:85-103 | on every run a snapshot handed out ahead of a request, at the generation the caller found, was good in those numbers at the clock reading that released it |
| `CredentialRefresh.AnswersDecide` | src/credentials.rs:203-218 | no answer, a status outside 200-299 and an unreadable body each fail as themselves, and only a readable 2xx goes on |
| `CredentialRefresh.FailuresAreLatched` | src/credentials.rs:157-175 | after any failure but a 5xx no exchange is made again in the process, and every later recovery at that generation gets that failure |
| `CredentialRefresh.OnlyServerErrorsAreRetried` | src/credentials.rs:147-175 | a failed task empties the flight slot if and only if the server answered 500-599; then the next recovery at that generation starts a new exchange, and otherwise it gets the failed one |
| `CredentialRefresh.RestartForgetsTheLatch` | src/credentials.rs:55-80 | for every seed, the run that is refused with 400, restarts and presents the same token again |
| `CredentialRefresh.StoreAgreesWithMemory` | src/credentials.rs:249-252 | the store holds what memory holds, except between a save and its publication, where it holds what is about to be published |
| `CredentialRefresh.RestartResumes` | src/store.rs:186-215 | a crash at any point and a restart resume the latest saved credential if and only if the seed is that credential or not newer |
| `CredentialRefresh.RotationsSurviveRestarts` | src/store.rs:201-212 | while no clock reading is earlier than the seeds' refresh times, no restart ever goes back to a seed |
| `CredentialRefresh.ClockBehindSeedForgetsRotation` | src/store.rs:203-209 | for every seed, response and clock, the run that rotates once and restarts ends with the exchanged token if and only if the clock was behind the seed |
| `Credentials.Merged` | src/credentials.rs:226-247 | each of account, access and refresh token is the one sent or else the current one, the expiry is that of the access token, usable stays usable, and merging fails if and only if a token sent is blank or the headers would be invalid |
| `CredentialManagers.CredentialManager.RefreshGeneration` | src/credentials.rs:123-178 | the section under the flight lock is the protocol's call step; a proactive call at the current generation returns the credential's own snapshot if and only if it is still good |
| `CredentialManagers.CredentialManager.Credentials` | src/credentials.rs:85-103 | undisturbed, it hands out the current snapshot and changes nothing if and only if the credential is still good, and otherwise waits for a flight |
| `CredentialManagers.CredentialManager.FinishExchange` | src/credentials.rs:220-253 | the section under the write lock publishes exactly what it saved, or changes neither memory nor store |
| `CredentialManagers.CredentialManager.FinishTask` | src/credentials.rs:152-175 | a 5xx and nothing else empties the flight slot, keeping the protocol's invariant |
| `Ledger.AdmissionListingAndReportAgree` | src/store.rs:243-346 | over any ledger and for every validated quota, admission, model listing and report agree wherever they succeed; admission fails if and only if the week's sum exceeds 64 bits or the hard limit cannot be converted, and the listing in the same cases but never for a key without limits |
| `Ledger.FallbackWindow` | src/config.rs:246-257 | some ledger is served by the fallback if and only if the hard limit can be converted and the least whole nano-USD not below the weekly limit is below the hard one and fits 64 bits |
| `Ledger.FallbackWindowCanBeEmpty` | src/config.rs:246-257 | two pairs of valid limits, one too close and one beyond 64 bits, for which no ledger is ever served by the fallback |
| `Ledger.WindowSpendGroupsByMonday` | src/store.rs:326-346 | summing a window is summing the rows that share its Monday |
| `Ledger.AdmissionAddsItsRow` | src/store.rs:237-298 | whatever others write in between, an admission adds one row at most, started under the model and effort it returns or else rejected, and changes no other |
| `Ledger.FinalRowSays` | src/store.rs:381-420 | when a row can be finalized, if and only if, and its status, time, duration and usage then |
| `Ledger.Store.BeginRequest` | src/store.rs:237-298 | the read, the writes of others and the insert give the specified ledger and outcome |
| `Ledger.Store.ReadAdmission` | src/store.rs:243-251 | nothing is admitted at or above the hard limit, the primary model exactly below both limits and the fallback exactly between them, and reading fails only when spend or a limit does not fit |
| `Ledger.Store.InsertRequest` | src/store.rs:252-298 | the inserted row holds the chosen model, is started or already rejected, and changes no other row |
| `Ledger.Store.FinalizeRequest` | src/store.rs:374-421 | a row moves from started to final once, with its charge, or nothing changes and an error is returned |
| `Ledger.Store.RecordRejection` | src/store.rs:348-372 | a rejection appends one final row without a charge |
| `Ledger.FinalizedFollows` | src/store.rs:374-421 | finalizing keeps what a row was admitted with, never changes a final row and touches no other |
| `Ledger.FinalizingIsPriced` | src/store.rs:391-399 | finalizing with the rates of the row's model keeps its cost the configured price of its tokens |
| `Ledger.OnlyOwnRowMatters` | src/store.rs:374-421 | whether and how a row is finalized depends on that row alone, so writes to other rows in between change nothing |
| `QuotaRuns.RunsStayBounded` | src/store.rs:237-298 | on every run with bounded flights and costs in the scope, including abandoned admissions and rows left behind, spend plus what the flights may still cost stays within the bound |
| `QuotaRuns.HardLimitOvershoot` | src/store.rs:237-298 | with at most k requests of a key in flight costing at most C each, week spend stays below hard limit + k*C, whatever the clock does |
| `QuotaRuns.SoftLimitOvershoot` | src/store.rs:237-298 | in the same way spend on models other than the fallback stays below soft limit + k*C |
| `Pricing.PriceIsExactToHalfANano` | src/store.rs:524-549 | against uncached input, cached input and output each at its own rate per million: a price is that amount in nano-USD rounded once to the nearest whole, the greater of two, nonnegative, and fails if and only if it does not fit 64 bits |
| `Pricing.BillIsExactToHalfANanoEach` | src/store.rs:524-549 | n prices sum to within n/2 nano-USD of that exact bill |
| `Pricing.CostTextRoundTrip` | migrations/0002_exact_request_log_cost.sql:15-22 | the nine-digit text of a cost parses back to the cost exactly |
| `Pricing.PrintedCostsSumExactly` | src/cli.rs:258-268 | adding up printed costs gives the ledger's sum exactly |
| `Weeks.WeekStartsOnMonday` | src/store.rs:516-522 | a window starts at a whole week from the Monday before the epoch and contains its instant |
| `Weeks.WindowContainsNow` | src/store.rs:326-346 | the window computed at an instant contains that instant's timestamp, before 1970 too |
| `Weeks.WindowsPartitionTime` | src/store.rs:516-522 | a stored time is in the window of an instant if and only if both have the same Monday, every time is in one, and starts differ by whole weeks |
| `Weeks.WindowsDoNotOverlap` | src/store.rs:326-346 | two windows that share a time are the same |
| `Stat.Aggregate` | src/cli.rs:255-285 | the maps hold every key's summed cost and tokens, and the loop fails if and only if a cost cannot be read or a key's sum does not fit |
| `Stat.SelectedSpend` | src/cli.rs:243-268 | over a week's rows as the log view prints them, a key's sum is the ledger's, exactly |
| `Stat.SelectedTokens` | src/cli.rs:269-285 | over a week's rows a key's input and cached input tokens are the ledger's |
| `Stat.ReportAgreesWithAdmission` | src/cli.rs:227-325 | for the current week the report's spend is the ledger's, and its status is what the listing offers and admission decides whenever each of them can read the spend and convert the limit |
| `Config.KeyQuota` | src/config.rs:129-142 | fails exactly for a hard limit without a weekly one; a weekly limit comes with its hard limit or 600 USD |
| `Config.Validate` | src/config.rs:193-297 | validation accepts exactly the configurations with paths, http URLs, consistent WebSocket switches, distinct ids and secrets, ordered limits, priced models and a priced fallback |
| `Config.CandidatesArePriced` | src/config.rs:299-339 | candidates carry the configured rates, and a configured fallback is always offered |
| `Config.CandidatesAreCapped` | src/config.rs:299-339 | candidates exist if and only if the model is priced; primary and fallback each carry the requested effort, or their own maximum where that comes first in the order of efforts, or none when none was requested |
| `Config.AppliedIsLogged` | src/config.rs:342-356 | the applied request asks for exactly the model and effort of the effective model, and nothing else in it changes |
| `Config.EffortIsCapped` | src/config.rs:313-339 | a known effort leaves as the lower of itself and the maximum, an unknown one unchanged, and capping again changes nothing |
| `PendingRequests.PendingRequest.Finish` | src/http_api/request.rs:45-67 | an open request is closed and its row finalized with the given status |
| `PendingRequests.PendingRequest.FinishTerminal` | src/http_api/request.rs:69-98 | a terminal is recorded with its usage, or else as an upstream error without it, and only the first is reported as recorded |
| `PendingRequests.PendingRequest.Drop` | src/http_api/request.rs:115-134 | dropping cancels an open request and leaves a finalized one alone |
| `PendingRequests.TerminalLeavesStarted` | src/http_api/request.rs:69-98 | a terminal always takes its row out of started, even when its usage cannot be recorded |
| `HttpApi.ForwardWebsocketResponsesStream` | src/http_api.rs:639-762 | the relay loop finalizes its request on every path and returns a terminal only if its row was recorded |
| `HttpApi.RelayIsDecidedByItsStop` | src/http_api.rs:639-762 | the first thing the relay does not read past decides, case by case, between canceled, upstream error and the terminal as received or with the items streamed before it |
| `HttpApi.RememberedOutputIsUpstreams` | src/http_api.rs:694-743 | the output remembered is what the upstream kept if and only if something was streamed or the terminal says that nothing was |
| `HttpApi.CommittedBeforeDelivery` | src/http_api.rs:717-743 | a terminal handed on already has its row, with matching status, all its tokens and their price |
| `HttpApi.ForwardChatStream` | src/http_api.rs:434-543 | the Chat stream finalizes its request on every path with the status its raw events call for, whether or not they convert |
| `HttpApi.ChatRelayIsDecidedByItsStop` | src/http_api.rs:434-543 | the first event the Chat relay does not read past decides, case by case, the final status and usage |
| `HttpApi.ReadIsDecidedByItsStop` | src/http_api.rs:555-608 | only the first event that is not data decides; a converted terminal meets every demand of conversion, has usage and keeps its own output or, for an empty one, takes the items finished before it |
| `HttpApi.ChatFinalSays` | src/http_api.rs:346-432 | how a Chat request is finalized for every answer that is not a stream |
| `HttpApi.ChatCompletions` | src/http_api.rs:324-432 | from admission, refused or not, to the last write the handler leaves the specified ledger, and answers with the conversion of a terminal only after its row holds that terminal's status and usage |
| `HttpApi.ChatRowLeavesStarted` | src/http_api.rs:324-432 | no other row changes, and an admitted row stays started if and only if the client left during the insert |
| `HttpApi.NormalizationKeeps` | src/http_api.rs:764-831 | only input and store of an accepted Responses request change, and normalizing again changes nothing |
| `HttpApi.NormalizationAccepts` | src/http_api.rs:764-831 | exactly the streaming, unstored, foreground requests are accepted, and text input becomes one user message with that text |
| `HttpApi.ChatRowIsPriced` | src/http_api.rs:324-432 | whichever candidate is admitted, the row logs its model and effort and any cost is the price at its configured rates |
| `HttpApi.ChatSentLoggedBilled` | src/http_api.rs:324-348 | for Chat the body sent upstream names exactly the model and the effort of the row, without exception, and any cost is the price at that model's configured rates |
| `HttpApi.Responses` | src/http_api.rs:108-213 | every refused request is recorded, every admitted one finalized or handed to a session, still open and with the body the session is to send |
| `HttpApi.ResponsesRowsSay` | src/http_api.rs:114-213 | which requests are refused and as what row, and the status of an admitted one for every way it is not handed over |
| `WsProtocol.NoRequestLeftBehind` | src/ws.rs:110-137 | on every script, a connection's only started row is the one in progress, none remains once it has ended, and every earlier row is finalized at most once |
| `WsProtocol.EndingsFinalize` | src/ws.rs:389-452 | a request in progress is canceled when client, protocol or service end it, and an upstream error when the upstream does, for each event by name |
| `WsProtocol.FinalRowsNeverChange` | src/ws.rs:110-137 | from any moment of a connection to any later one a row keeps what it was admitted with and a final row has not changed |
| `WsProtocol.DeliveredTerminalsAreRecorded` | src/ws.rs:335-387 | delivered terminals correspond in order and one-to-one to admitted creates; each row already holds its terminal's status, all its tokens and their configured price, and its frame asked for the row's model and effort, even if ledger writes fail |
| `WsProtocol.CreateKeeps` | src/ws.rs:164-290 | a create keeps the invariant, and while one is in progress leaves it and the frames sent alone |
| `WsProtocol.CreatesEnd` | src/ws.rs:214-308 | a create beside another is rejected, one that fails on the way is an upstream error, one that is sent continues its prewarm, and a refused message leaves a rejected row |
| `WsProtocol.TerminalsAreRelayed` | src/ws.rs:335-387 | a terminal is delivered as it came or rewritten, once recorded; otherwise the connection ends, and so it does for a terminal nobody waits for |
| `WsProtocol.PreparingAgainChangesNothing` | src/ws.rs:475-568 | a prepared request is accepted again unchanged with the same candidates, and only three members were touched |
| `WsProtocol.CreatesAreAccepted` | src/ws.rs:475-568 | exactly which creates are accepted, and what becomes of their input |
| `WsSession.WsSession.HandleCreate` | src/ws.rs:164-290 | validation, admission, refusal of a second create, prewarm and frame have exactly the specified effect on ledger, slot and frames |
| `WsSession.WsSession.HandleUpstreamText` | src/ws.rs:335-387 | a terminal empties the slot, is committed and only then delivered, rewritten if it is a capacity failure |
| `WsSession.WsSession.Finish` | src/ws.rs:389-452 | each way of ending finalizes the request in progress with its own status |
| `WsSession.WsSession.Run` | src/ws.rs:110-137 | the loop handles events until one ends the connection and then finishes it, as specified |
| `ResponsesTerminal.ParseUsage` | src/responses_terminal.rs:225-320 | usage is accepted if and only if every count reads as 64 bits and the details are parts of their totals, with exactly those counts, and only a failed response may leave it out |
| `ResponsesTerminal.TerminalsAreNamed` | src/responses_terminal.rs:153-223 | exactly the four terminal events end a response; each keeps its payload and, but for a bare error, needs a response of its kind's status and usage that reads |
| `ResponsesTerminal.WellFormedTerminalsAreAccepted` | src/responses_terminal.rs:153-223 | every terminal with the right status and usage is accepted as its kind |
| `ResponsesTerminal.ErrorsAreFound` | src/responses_terminal.rs:54-71 | where an upstream error is found, and the two codes that are rewritten |
| `ResponsesTerminal.CapacityRewriteIsIdempotent` | src/responses_terminal.rs:64-114 | a rewritten terminal parses as a failed one and rewrites to itself, whatever the order of its headers |
| `ResponsesTerminal.OneRetryAfter` | src/responses_terminal.rs:98-102 | the rewritten error has exactly one Retry-After under case-insensitive names, and every other member and header is preserved |
| `ResponsesTerminal.AdviceIsUpstreamsOrThirty` | src/responses_terminal.rs:73-96 | valid upstream advice is kept, the error's own headers first, and otherwise the delay is 30 |
| `ResponsesTerminal.AdviceForms` | src/responses_terminal.rs:83-93 | valid advice is a 64-bit number of seconds, zero included, as a number or as text between spaces, or a date |
| `ResponsesTerminal.OnlyCapacityFailuresAreRewritten` | src/responses_terminal.rs:64-71 | exactly the two capacity codes are rewritten, and the rest of the payload survives |
| `ResponsesTerminal.RewrittenReparses` | src/responses_terminal.rs:153-223 | the rewritten payload re-parses as a failed terminal with the same usage and the advised error |
| `Chat.ConvertMessages` | src/chat.rs:550-610 | the loop's instructions and items are the in-order concatenation of what each message converts to, or the first fault |
| `Chat.MessagesSay` | src/chat.rs:550-770 | exactly which messages convert, and what each role contributes, text by text and call by call |
| `Chat.JoinSeparates` | src/chat.rs:550-610 | instructions are the system texts with one newline between any two |
| `Chat.ConvertAssistantMessage` | src/chat.rs:612-662 | an assistant message converts to its text item and then its calls, in order, or to the fault |
| `Chat.ConvertOutput` | src/chat.rs:887-923 | the loop accumulates exactly the conversion of the output items in order |
| `Chat.ConvertOutputMessage` | src/chat.rs:925-966 | the text and refusal of a message are accumulated part by part, or it is not an assistant's |
| `Chat.OutputMeaning` | src/chat.rs:887-966 | a converted output holds all of the upstream's text and all of its calls, in order |
| `Chat.OutputConverts` | src/chat.rs:887-966 | exactly which outputs convert, and all the refusals in them in order |
| `Chat.TerminalsConvert` | src/chat.rs:318-395 | exactly which terminals are answered with a completion |
| `Chat.CompletionSays` | src/chat.rs:318-422 | a completion has its terminal's id, time and model, the converted message, why it ended and the five counts |
| `Chat.FedBackConverts` | src/chat.rs:612-701 | a completion fed back converts to one item with all the text and then the same function calls |
| `Chat.ConversationsConcatenate` | src/chat.rs:550-610 | a conversation converts if and only if its halves do, to the concatenation of what they convert to |
| `Chat.CompletionRoundTrip` | src/chat.rs:550-701 | anywhere in a conversation a fed-back completion contributes the same text and the same calls |
| `Chat.VerbatimMessageIsRefused` | src/chat.rs:612-625 | an answer sent back word for word is refused for its refusal member |
| `Chat.ChatStreamConverter.ConvertTerminal` | src/chat.rs:118-161 | the last chunk, the usage chunk when asked for, and the metadata of the terminal |
| `Chat.ChatStreamConverter.ConvertEvent` | src/chat.rs:95-116 | the converter updates its metadata and gives a chunk, nothing or a failure as specified |
| `Chat.TerminalConvertsAlone` | src/chat.rs:118-154 | a terminal ends a stream by its own merits, whatever came before: the exact condition, and its usage and chunks |
| `Chat.EventsSay` | src/chat.rs:95-116 | what each event makes of a stream: opened for its response, its text passed on, broken, or passed over |
| `Chat.LastChunksSay` | src/chat.rs:118-202 | the last chunk says why the response ended and the usage chunk holds its five counts, both for that response |
| `Chat.StreamedTextIsUpstreams` | src/chat.rs:95-116 | the text a client is streamed is the text of the upstream's deltas, whole and in order |

## Left out

- Sockets, TLS, HTTP, SSE framing and SQLite: sends, receives and writes are outcomes given to each step, and a write happens wholly or not at all.
- A commit whose outcome the process does not learn: a failed save or insert is taken to have changed nothing.
- Reading auth.json, JWT decoding, TOML, secret files, bearer checking and file modes: decoded values are parameters.
- `SessionKey::from_headers` and the remaining field checks of requests: one-branch facts.
- How the answer to a prewarm is read: its response id, a failure or an interruption is given to the step.
- The text of error messages and which of several unknown members an error names.
- `rust_decimal` beyond its range: its scale and internal rounding.
- Ranges of `OffsetDateTime` and the millisecond and nanosecond timestamps that do not fit 64 bits.
- `strftime` and `julianday`, except that the log view shows whole seconds; tables, the logs command, date arguments and cache rates.
- HTTP dates in Retry-After: an opaque predicate.
- The models catalog, image forwarding, and the fields of a Chat request other than its messages; the Chat handler is modelled from the converted request on.
- The time from an actor's creation to its first poll, so a keyless timer may start up to that much earlier than in the program.
- A credential task that panics, and the `RefreshTaskStopped` error that follows.
- HttpApi.ChatCompletions: other requests write between the read and the insert of its admission; later writes of others do not appear in its ledger, where `Ledger.OnlyOwnRowMatters` shows that they change nothing.
- HttpApi.ForwardWebsocketResponsesStream: returns the terminal itself; the bytes sent for it are its capacity rewrite or its own text, which the WebSocket session models.
- SessionActors.RequestsCanProceed: shows that a step is enabled, not that a scheduler takes it.
