# Portals AI: protocols and state machines

Portals AI is an Express API with operator command-line tools. This project models
the parts of it that are protocols rather than wiring, one module per component,
and states what each promises for every input, every reachable state or every
interleaving. `dafny verify dfyconfig.toml` checks all of it.

Where the source mutates state, a module has two layers. A specification layer
describes each operation as a function on a `State` value, gives the steps the
environment may take, and proves what whole runs keep. A class holds the source's
own variables; its methods follow the source statement by statement and promise
`Contents() == Spec(old(Contents()), ...)`, so every theorem about the
specification speaks about them.

| module | what it models |
|---|---|
| `RequestCancellation` | queries, the disconnect signal and admission timers of one request, over the shared live set, listeners, timers and error registry |
| `JobsWorker` | a job row and its queue entry through retries, stalls, re-deliveries and out-of-band deaths |
| `PasswordResolver` | the database password cache: time to live, single flight, fail-open |
| `SystemPrincipal` | any number of boots agreeing on one write-once principal |
| `OrgStore` | the transactional organization update and its audit trail |
| `MemberStore` | membership rows and the current-organization selector they drive |
| `LoanSchedule` | the amortization loop, in exact reals |
| `Transactions` | the seeded generator whose sample heads the full volume |
| `Csv` | the quoted-field line parser and the file reader, against an RFC 4180 printer |
| `DeviceFlow`, `Sessions` | the device-flow poll loop; the session file shared by login, logout and getToken |
| `Stacks` | the CloudFormation wait loop and the parameter update |
| `DatabaseUrl`, `EnvConnection` | the connection string composed, rewritten and read back; the tunnels behind a handle |
| `Arithmetic`, `Wrappers` | one fact about division; `Option` and `Result` |

## Where the code parts from its documentation

The model follows the code. Each of these has a concrete witness and, beside it, the
exact condition under which the promise holds.

- A job row and its queue entry can part: the row reads `failed` and the queue
  retries, or the row stays open and the queue is finished with it. Each step that
  parts them is named with its exact condition, and a run stays in step throughout
  exactly when it takes none of them (`StepStaysInStepExactly`,
  `RunStaysInStepExactly`). Among them: the failure write of an error no retry can
  change persists but does not publish, with attempts left; the opening write, which
  stands outside the try block, does not publish with one attempt left, since the
  `failed` handler counts the attempt twice; the handler cannot read the row
  (`UnpublishedWritesSplitRowAndQueue`, and attempt by attempt `AttemptsAgreeExactly`).
- A process that dies between a bulk_transform job's closing write and its hook leaves
  the portal waiting for good: the re-delivery finds a terminal row and is skipped
  (`DeathBeforeTheHookIsSilent`).
- `invalidate()` is documented to make the next `resolve()` fetch. With a fetch in
  flight it joins that older one, which then refills the cache for a whole ttl
  (`InvalidatedResolveFetchesExactly`, `InvalidationReachesTheCacheExactly`).
- `updateOrg` checks that a new default station is live, but locks only the
  organization: a station removed between the check and the write is written
  (`RemovedStationIsWritten`, `WrittenStationIsLiveExactly`). The check also skips the
  empty string and the write does not, though the one command that calls it refuses an
  empty id first (`EmptyStationIdIsWritten`, `CheckedStationIsLiveUnlessEmpty`).
- `setTier` reports success and writes nothing when the organization is deleted between
  its read and its write (`ReportedTierIsSetExactly`).
- The comments of `store.ts` say a null last login sorts first; the selector in
  `application.service.ts` sorts nulls last. Under that order `addMember` does move a
  user none of whose memberships was ever entered (`AddMovesANeverEnteredUser`,
  `AddKeepsCurrentExactly`). Both orders are proved.
- `addMember` reads, then writes, outside a transaction and without a unique index:
  two overlapping calls leave twin rows (`InterleavedAddsMakeTwins`,
  `StaleDecisionMakesTwinsExactly`).
- A logout is undone by a token refresh that was already under way, and does nothing
  when it cannot read the file (`LogoutHoldsExactly`).
- A failed read of an intact credentials file reads as no sessions, so the write that
  follows drops every other environment's session
  (`OthersAreUntouchedExactly`, `SessionSurvivesExactly`).
- Repeated `db()` calls are documented to reuse the open handle. Calls that overlap
  start a tunnel each, and so does returning to a database after another
  (`OneTunnelExactly`, `AskOpensExactly`, `ReturningOpensAgain`). All of them ask for
  one local port; where that keeps the later ones from getting ready, an override gets
  no tunnel until a dispose (`ExclusivePortKeepsOne`).
- `dispose()` leaves a tunnel that was still opening to be handed out afterwards
  (`DisposeIsFinalExactly`).
- `updateBackendParams` tests membership with `in`, which sees inherited names: an
  override called `toString` is neither refused nor sent (`InheritedNameIsDropped`,
  `RequestIsTheOverlayExactly`).
- A line of one empty field prints as a blank line, which the CSV reader skips, so a
  table reads back exactly when it has none
  (`BlankLineExactly`, `ReadUndoesPrint`, `FileRoundTrip`). A field with a line break
  never reads back, quoted or not (`NoBreakIsReadBack`).

## Assumptions about the environment

- JavaScript runs one callback at a time. An abort event or a timer is an event-loop
  callback, so it runs only when no settled query's promise reaction is waiting
  (`RequestCancellation.Quiet`). An admission timer may fire at any such time.
  Reactions to one promise run in the order they were registered, so a handler sees
  a rejection after the instrumentation has
  (`RequestCancellation.HandlerSeesItsOwnReason`).
- postgres.js hands a query over once, rejects a cancelled queued query at once, and
  only asks a running one to stop; each 57014 error it rejects with is an object of
  that query's own.
- BullMQ counts a failed attempt when the execution throws, before its `failed` event,
  retries while its budget lasts unless the error is unrecoverable, and re-delivers a
  stalled entry without counting it.
- PostgreSQL runs each statement of the system-principal check atomically. In
  `OrgStore` each call is one step for the organization's row, which its transaction
  locks; each of its reads of the unlocked station table sees that table at its own
  moment, as read committed isolation has it.
- Node's readline ends a line at a line feed, a carriage return, the two together, or
  U+2028 and U+2029.
- Clocks never go backwards in `PasswordResolver`, `DeviceFlow` and `Stacks`; sleeps
  may overrun and calls may take any time.

## Model

| member | source | states |
|---|---|---|
| RequestCancellation.StepKeeps | apps/api/src/db/request-cancellation.util.ts:95-203 | every step of any interleaving (issue, acquire, settle, observe, abort, timer, policy change) keeps the invariant and undoes nothing: no query loses its connection, changes its outcome or is cancelled twice |
| RequestCancellation.RunKeeps | apps/api/src/db/request-cancellation.util.ts:95-203 | a whole run keeps the invariant, a started request, an aborted signal and everything about a query that never changes back |
| RequestCancellation.HeldMeansStartedForever | apps/api/src/db/request-cancellation.util.ts:95-99 | in any run from a fresh request, once a query has held a connection `hasStarted` answers true, then and ever after |
| RequestCancellation.StartedExactly | apps/api/src/db/request-cancellation.util.ts:95-99 | in any run from a fresh request, `hasStarted` answers true exactly when some query of the request holds, or held, a connection |
| RequestCancellation.FirstReasonStands | apps/api/src/db/request-cancellation.util.ts:120-127 | the request's cancel reason is that of a query it cut, is set exactly when one was cut, and never changes |
| RequestCancellation.StepKeepsHistory | apps/api/src/db/request-cancellation.util.ts:95-184 | every step keeps the flags true to what happened, and every pending query under "always" live until the client leaves |
| RequestCancellation.BeforeStartNeverCutsAStartedRequest | apps/api/src/db/request-cancellation.util.ts:95-183 | under "before-start", once any query has held a connection no query of the request, present or future, is cancelled any more |
| RequestCancellation.BeforeStartNeverCutsInFlight | apps/api/src/db/request-cancellation.util.ts:106-147 | a request never switched to "always" has no query cut while it holds a connection |
| RequestCancellation.LaterQueriesReachTheDriver | apps/api/src/db/request-cancellation.util.ts:120-175 | a query issued after the request started reaches the driver, is cut only while holding a connection under "always", and never when the signal was already aborted: the ROLLBACK after a cut statement goes through |
| RequestCancellation.CancelsOnlyWhatMayBeCut | apps/api/src/db/request-cancellation.util.ts:139-150 | any step that cancels a query finds it unsettled and uncancelled, and either in flight under "always" or queued in a request that has not started |
| RequestCancellation.CutAtMostOnceAndNeverLate | apps/api/src/db/request-cancellation.util.ts:113-166 | in any run a query is cancelled at most once and never after settling, and one cancelled before hand-off never reaches the driver |
| RequestCancellation.DisconnectCutsExactly | apps/api/src/db/request-cancellation.util.ts:146-150 | the abort event cuts a live query exactly when it is in flight under "always" or queued in a request not started |
| RequestCancellation.DisconnectCutsEachExactly | apps/api/src/db/request-cancellation.util.ts:139-176 | in any run, the abort event cuts any query of the request, tracked or not, exactly when it is with the driver, unsettled and uncut, and in flight under "always" or waiting while no query ever held a connection; it changes nothing else about it |
| RequestCancellation.DeadlineCutsExactly | apps/api/src/db/request-cancellation.util.ts:177-182 | until the request starts every live query has an admission timer, and it cuts exactly a queued query of a request not started |
| RequestCancellation.LateQueryIsWithheldExactly | apps/api/src/db/request-cancellation.util.ts:168-202 | a query issued after the client left reaches the driver exactly when the request has started |
| RequestCancellation.HandleEffect | apps/api/src/db/request-cancellation.util.ts:103-203 | the first `handle` touches its own query only: handed off untouched, or cut and marked executed because the request had not started |
| RequestCancellation.MapsExactlyItsOwnCancellations | apps/api/src/db/request-cancellation.util.ts:50-77 | at any moment the mapping answers 503 DB_ADMISSION_TIMEOUT, or 499 REQUEST_ABANDONED, exactly for a 57014 that is, or wraps, the observed rejection of a query cut for its deadline, or for the disconnect; and nothing otherwise |
| RequestCancellation.QuietMapsExactlyItsOwnCancellations | apps/api/src/db/request-cancellation.util.ts:50-77 | with no promise reaction waiting, it does so exactly for the rejections of cut queries; a later genuine timeout maps to nothing |
| RequestCancellation.HandlerSeesItsOwnReason | apps/api/src/db/request-cancellation.util.ts:152-166 | the handler of any query maps the 57014 it was thrown, bare or wrapped, to 503 when that query was cut for its deadline, to 499 when for the disconnect, and to nothing when it was not cut |
| RequestCancellation.AdmissionTimeoutEndsAs503 | apps/api/src/db/request-cancellation.util.ts:57-182 | from the deadline to the answer: a query whose timer fires while none ever held a connection is rejected, and its rejection maps to 503 |
| RequestCancellation.DisconnectEndsAs499 | apps/api/src/db/request-cancellation.util.ts:57-176 | from the disconnect to the answer: a query still waiting is rejected, and maps to 499 |
| RequestCancellation.InFlightDisconnectEndsAs499 | apps/api/src/db/request-cancellation.util.ts:57-176 | and so does one cut in flight, once the driver rejects it |
| RequestCancellation.LookupIsCutFor | apps/api/src/db/request-cancellation.util.ts:155-166 | the registry holds a reason for a 57014 exactly when some query was cancelled for it and rejected with that very error |
| RequestCancellation.OneReasonPerError | apps/api/src/db/request-cancellation.util.ts:44-50 | no 57014 error is attributed to two reasons |
| RequestCancellation.Instrumentation.HasStarted | apps/api/src/db/request-cancellation.util.ts:95-99 | the loop over the live set answers whether some query holds, or held, a connection |
| RequestCancellation.Instrumentation.CancelQuery | apps/api/src/db/request-cancellation.util.ts:115-138 | `cancel` over the mutable state: clean up, note a held connection, record the first reason, cancel at the driver |
| RequestCancellation.Instrumentation.AbortQuery | apps/api/src/db/request-cancellation.util.ts:146-150 | one abort listener |
| RequestCancellation.Instrumentation.TrackQuery | apps/api/src/db/request-cancellation.util.ts:103-184 | `track` over the mutable state, and whether the query was cut before hand-off |
| RequestCancellation.Instrumentation.HandleQuery | apps/api/src/db/request-cancellation.util.ts:194-202 | the patched `handle` |
| RequestCancellation.Instrumentation.QuerySettled | apps/api/src/db/request-cancellation.util.ts:155-166 | the settlement reaction: attribute the rejection, note a held connection, clean up |
| RequestCancellation.Instrumentation.ClientDisconnects | apps/api/src/db/request-cancellation.util.ts:146-176 | the abort event runs every registered listener, in order, while they unregister themselves |
| RequestCancellation.Instrumentation.AdmissionDeadline | apps/api/src/db/request-cancellation.util.ts:178-180 | an admission timer firing |
| JobsWorker.ExecutionsAreConserved | apps/api/src/queues/jobs.worker.ts:183-383 | over any run, deliveries that reached `active` equal in-band closings, out-of-band closings, lost executions and one if the row is active, exactly when no failed pre-read missed an active row |
| JobsWorker.StepConserves | apps/api/src/queues/jobs.worker.ts:183-383 | every step keeps the ledger balanced, and a running execution's row is active |
| JobsWorker.FailedHandlerIsIdempotent | apps/api/src/queues/jobs.worker.ts:348-383 | the `failed` handler leaves a handled row alone, and repeating it changes nothing |
| JobsWorker.TerminalForever | apps/api/src/queues/jobs.worker.ts:178-205 | a terminal row never changes again, fires no hook and opens no execution, in any run whose pre-reads succeed, re-deliveries and re-dispatches included |
| JobsWorker.HookFiresAtMostOnce | apps/api/src/queues/jobs.worker.ts:262-303 | from a fresh row, over any run whose pre-reads succeed, the bulk_transform hook fires at most once, with the row's own status, which is then final |
| JobsWorker.StepKeepsHooks | apps/api/src/queues/jobs.worker.ts:262-303 | the portal has been notified exactly when the row was closed for good in band by an execution that lived past a write that published, and then once, with the row's status |
| JobsWorker.DeathBeforeTheHookIsSilent | apps/api/src/queues/jobs.worker.ts:199-273 | a process that dies between the closing write and the hook leaves a terminal row that no later delivery ever notifies of |
| JobsWorker.StepStaysInStepExactly | apps/api/src/queues/jobs.worker.ts:149-383 | for every step there is, the row is terminal exactly when the queue is finished with the entry, if it was so before and the step is not one that parts them, by conditions seen before it |
| JobsWorker.RunStaysInStepExactly | apps/api/src/queues/jobs.worker.ts:149-383 | over every run from a fresh row, publish failures, unreadable rows, deaths, stalls and re-dispatches included, row and queue stay in step throughout exactly when no step taken parts them |
| JobsWorker.PartedRowsHealOrStrand | apps/api/src/queues/jobs.worker.ts:183-205 | once parted, a terminal row is back in step after the next delivery that reads it, and an open row with a dead entry changes no more until it is put back on a queue |
| JobsWorker.AttemptAgreesExactly | apps/api/src/queues/jobs.worker.ts:142-157 | after one attempt, in band or thrown by its opening write, whether or not the handler can record it, the row is terminal exactly when the queue will not retry, if and only if the attempt is not one of those that split them |
| JobsWorker.AttemptsAgreeExactly | apps/api/src/queues/jobs.worker.ts:149-390 | for any budget and any attempts, row and queue agree after every one of them exactly when none that the queue delivers splits them |
| JobsWorker.UnpublishedWritesSplitRowAndQueue | apps/api/src/queues/jobs.worker.ts:207-390 | the witnesses: twice the row failed and the queue retrying, once the row active and the queue finished |
| JobsWorker.RowTurnsTerminalOnTheLastAttempt | apps/api/src/queues/jobs.worker.ts:149-390 | for any budget and any attempts none of which splits row and queue: every attempt before the last leaves the row open and counted, `pending` exactly when somebody recorded how it ended, the last and no earlier one makes it terminal, and nothing runs after it |
| JobsWorker.LastAttemptIsTheFirstUnretried | apps/api/src/queues/jobs.worker.ts:149-157 | the last attempt is the first that is decisive or spends the budget |
| JobsWorker.ThrownAttemptEnds | apps/api/src/queues/jobs.worker.ts:138-157 | for any budget and count, a published attempt that threw an unrecoverable error or a FIELD_MAPPING_DELETE_IN_VIEW refusal, or was the last, leaves the row failed and the entry dead; any other error leaves them pending and waiting; the row carries the error's own message, and a bulk_transform job's portal hears of the failure |
| JobsWorker.ReturnedAttemptEnds | apps/api/src/queues/jobs.worker.ts:234-274 | a published attempt that returned ends failed, with the count as its reason, exactly when it reports no success and some failure, else completed; the queue is done and the portal told which |
| JobsWorker.UnpublishedAttemptEnds | apps/api/src/queues/jobs.worker.ts:275-304 | an attempt whose failure write did not publish is retried within the budget whatever it threw, and tells no portal |
| JobsWorker.FailedHandlerWritesExactly | apps/api/src/queues/jobs.worker.ts:352-383 | the `failed` handler leaves a completed, failed, cancelled or pending row alone and closes any other, an unrecoverable reason in its own words, any other framed as out-of-band |
| JobsWorker.AttemptEffect | apps/api/src/queues/jobs.worker.ts:207-390 | what any attempt does to the row, the entry, the attempt count and the ledger, and when it ends the job |
| JobsWorker.Worker.OpenExecution | apps/api/src/queues/jobs.worker.ts:183-223 | the pre-read and the opening write, skipping exactly a row read as terminal, and what follows when that write does not publish |
| JobsWorker.Worker.CloseExecution | apps/api/src/queues/jobs.worker.ts:224-274 | the try block after the processor settled |
| JobsWorker.Worker.FailExecution | apps/api/src/queues/jobs.worker.ts:275-305 | the catch block |
| JobsWorker.Worker.FailedEvent | apps/api/src/queues/jobs.worker.ts:352-383 | the `failed` handler |
| PasswordResolver.EveryAnswerHasItsProvenance | apps/api/src/db/credentials.util.ts:109-124 | a value served at once is the fail-open value as of the fetch that produced it, cached less than a ttl ago; any other caller waits on the single fetch in flight |
| PasswordResolver.WaitersGetTheirFetch | apps/api/src/db/credentials.util.ts:74-124 | whoever waits on fetch n receives the last non-empty password among the service's first n + 1 answers, or the fallback when there is none |
| PasswordResolver.AwaitedValue | apps/api/src/db/credentials.util.ts:74-124 | the same in any run from a resolver's creation, answer by answer: some answer is that very password and none after it is one, or none is and the value is the fallback |
| PasswordResolver.FetchHandsOutTheAnswer | apps/api/src/db/credentials.util.ts:82-104 | a fetch answered with a password hands out and remembers that password; any other hands out what was remembered, or the fallback |
| PasswordResolver.EveryReachableAnswer | apps/api/src/db/credentials.util.ts:64-128 | the provenance of every answer in any run from a resolver's creation; no password is known good exactly while every fetch has failed |
| PasswordResolver.InvalidatedResolveFetchesExactly | apps/api/src/db/credentials.util.ts:33-36 | the next resolve after an invalidation starts a fetch exactly when none was in flight |
| PasswordResolver.InvalidationReachesTheCacheExactly | apps/api/src/db/credentials.util.ts:109-127 | in every run, whatever is cached after an invalidation was fetched after it, exactly when no fetch that had yet to cache was in flight |
| PasswordResolver.LastKnownGoodIsNeverLost | apps/api/src/db/credentials.util.ts:69-105 | no failed fetch and no invalidation loses the last password known good |
| PasswordResolver.FetchesAreBounded | apps/api/src/db/credentials.util.ts:64-128 | at most one fetch is in flight, and over any stretch of any run fetches started number at most 1 + invalidations + floor(elapsed / ttl), failures included |
| PasswordResolver.TheBoundIsAttained | apps/api/src/db/credentials.util.ts:64-128 | for every k and q a run with k invalidations and q elapsed ttls starts exactly 1 + k + q fetches, all of them failing |
| PasswordResolver.RunKeepsInv | apps/api/src/db/credentials.util.ts:64-128 | every run keeps the provenance invariant and only appends to the log of fetches |
| PasswordResolver.Resolver.ResolvePassword | apps/api/src/db/credentials.util.ts:109-124 | `resolve()` over the closed-over variables |
| PasswordResolver.Resolver.SecretArrives | apps/api/src/db/credentials.util.ts:74-106 | `fetchPassword` returning, on success or failing open |
| PasswordResolver.Resolver.CachePassword | apps/api/src/db/credentials.util.ts:115-118 | the `then` reaction caching the value |
| PasswordResolver.Resolver.FinishFetch | apps/api/src/db/credentials.util.ts:119-121 | the `finally` reaction |
| PasswordResolver.Resolver.InvalidateCache | apps/api/src/db/credentials.util.ts:125-127 | `invalidate()` |
| SystemPrincipal.BootsAgree | apps/api/src/db/system-principal.util.ts:37-104 | in any interleaving without deletes the recorded principal never changes, every boot that succeeds carries it, every boot refused carries another |
| SystemPrincipal.FinishedBootIsDecided | apps/api/src/db/system-principal.util.ts:37-104 | on an existing table every finished boot succeeds exactly when its id is the recorded one, and is refused otherwise |
| SystemPrincipal.BootsAlikeAllSucceed | apps/api/src/db/system-principal.util.ts:78-104 | boots configured alike all succeed, on an empty table or one recording their id |
| SystemPrincipal.NoCrash | apps/api/src/db/system-principal.util.ts:91-104 | once the table exists no boot crashes on its insert, deletes included |
| SystemPrincipal.EveryStatementAdvances | apps/api/src/db/system-principal.util.ts:59-89 | every statement brings a boot nearer its end, at most five of them |
| SystemPrincipal.ADeleteUnguardsABoot | apps/api/src/db/system-principal.util.ts:67-89 | why deletes are excluded: one between insert and second read lets a boot succeed with nothing recorded |
| SystemPrincipal.Database.ReadSystemPrincipal | apps/api/src/db/system-principal.util.ts:48-65 | the two-statement read, with anything happening in between, returns only what is recorded when it returns |
| SystemPrincipal.Database.RecordSystemPrincipal | apps/api/src/db/system-principal.util.ts:91-104 | insert-if-absent: writes only an empty table, fails only a missing one |
| SystemPrincipal.Database.EnsureSystemPrincipal | apps/api/src/db/system-principal.util.ts:78-89 | under arbitrary interference before every statement a boot that succeeds leaves its id recorded and one refused names another id recorded; undisturbed, the outcome is fixed by the table |
| OrgStore.AuditReplays | packages/admin-cli/src/store.ts:173-279 | over any run of the admin store's calls, stations changing under them, an organization's audit entries chain for name and for default station, and replaying them from the first row gives the last |
| OrgStore.StepTrails | packages/admin-cli/src/store.ts:213-279 | one call's own entries lead from the row's old values to its new ones |
| OrgStore.ChainReplays | packages/admin-cli/src/store.ts:237-276 | an unbroken chain replays to its end |
| OrgStore.UpdateWritesExactlyTheChange | packages/admin-cli/src/store.ts:211-279 | an accepted update writes nothing exactly when it asks for nothing; otherwise it writes what was asked, stamped, to that row only, with one entry for each audited field that moved |
| OrgStore.UpdateRecordsExactly | packages/admin-cli/src/store.ts:237-276 | an accepted update appends the name's entry, then the station's, for what moved and nothing else, with old and new value, the call's time and the operator's own user when their id is one's |
| OrgStore.UndoneExactly | packages/admin-cli/src/store.ts:173-279 | sending back the old values of what an update moved is accepted exactly when the old default station, if it moved, is none, empty or live when checked; it then restores the row and records as many changes again |
| OrgStore.RepeatedUpdateIsANoOp | packages/admin-cli/src/store.ts:199-228 | sending an accepted update again, by anyone, changes and records nothing, and is refused exactly when the station it names was lost in between |
| OrgStore.RecordedStationsAreNamed | packages/admin-cli/src/store.ts:199-244 | over any run, a recorded default station entry names the station it moves to, and names none exactly when it moves to none or to the empty id |
| OrgStore.StepNamesStations | packages/admin-cli/src/store.ts:183-226 | an entry records a station's name exactly when the station was live and the organization's own when read |
| OrgStore.CheckedStationIsLiveUnlessEmpty | packages/admin-cli/src/store.ts:199-234 | any call that moves the default station moves it to none or to a station that was live and the organization's own when checked, exactly when the patch does not carry the empty id (or that is itself one) |
| OrgStore.WrittenStationIsLiveExactly | packages/admin-cli/src/store.ts:183-234 | whatever others do to the stations between check and write, the default station written is none or live exactly when it is none, or was checked and not removed in between |
| OrgStore.RemovedStationIsWritten | packages/admin-cli/src/store.ts:183-234 | the witness: a station removed between the check and the write becomes the default |
| OrgStore.ReportedTierIsSetExactly | packages/admin-cli/src/store.ts:282-296 | a tier reported as set is the live organization's exactly when that was not deleted between the read and the write; otherwise nothing is written |
| OrgStore.EmptyStationIdIsWritten | packages/admin-cli/src/store.ts:202-232 | the witness: an empty id passes the check and is written |
| OrgStore.DeletedOrgIsFrozen | packages/admin-cli/src/store.ts:173-305 | a deleted organization's row never changes again |
| OrgStore.Store.UpdateOrganization | packages/admin-cli/src/store.ts:173-279 | `updateOrg`, building `changes` step by step |
| OrgStore.Store.BuildEntries | packages/admin-cli/src/store.ts:240-276 | the audit entries of a change, under the operator's user when there is one |
| OrgStore.Store.SetOrganizationTier | packages/admin-cli/src/store.ts:282-296 | `setTier`, returning the tier its earlier read saw |
| OrgStore.Store.SoftDeleteOrganization | packages/admin-cli/src/store.ts:298-305 | `softDeleteOrg` |
| MemberStore.RunKeepsRows | packages/admin-cli/src/store.ts:307-401 | over any run of whole calls there is at most one row per organization and user, no row is dropped or re-owned, and no call leaves a null last login it did not find |
| MemberStore.AddWritesExactly | packages/admin-cli/src/store.ts:307-363 | adding is refused exactly for an organization or user that is not live, or for a member already; otherwise the pair has one live, never entered membership, in its old row's place or a new one, and no other row changed |
| MemberStore.RemoveWritesExactly | packages/admin-cli/src/store.ts:365-382 | removing succeeds exactly for a member, and deletes that membership alone |
| MemberStore.SwitchWritesExactly | packages/admin-cli/src/store.ts:384-401 | switching succeeds exactly for a member, and stamps that membership alone |
| MemberStore.CurrentIsTheLatestEntered | apps/api/src/services/application.service.ts:67-82 | as the API sorts, the current organization is that of a live membership no other was entered later than, and never one without a login while another has one |
| MemberStore.StaleDecisionMakesTwinsExactly | packages/admin-cli/src/store.ts:317-362 | a write decided on an earlier read breaks one-row-each exactly when it inserts beside a row that appeared since |
| MemberStore.InterleavedAddsMakeTwins | packages/admin-cli/src/store.ts:317-362 | the witness: two adds that both read before either writes |
| MemberStore.AddKeepsCurrentExactly | packages/admin-cli/src/store.ts:333-363 | adding or reviving a member leaves the user's current organization alone exactly when some live membership already sorts before a login of 0, under either null order |
| MemberStore.AddMovesANeverEnteredUser | apps/api/src/services/application.service.ts:67-82 | the witness: with nulls last, adding a member moves a user whose one membership was never entered; with nulls first it does not |
| MemberStore.SwitchMakesCurrentExactly | packages/admin-cli/src/store.ts:384-401 | switching makes the organization the only possible current one exactly when the clock sorts before every other organization's live login |
| MemberStore.RemoveKeepsCurrent | packages/admin-cli/src/store.ts:365-382 | a removed membership is never current, and removing one that was not leaves the current one alone |
| MemberStore.Find | packages/admin-cli/src/store.ts:317-326 | the existing row of a pair, deleted or not, if there is one |
| MemberStore.Store.Add | packages/admin-cli/src/store.ts:307-363 | `addMember`, with its refusals, revival and insertion |
| MemberStore.Store.Remove | packages/admin-cli/src/store.ts:365-382 | `removeMember` |
| MemberStore.Store.Switch | packages/admin-cli/src/store.ts:384-401 | `switchMember` |
| LoanSchedule.BalanceIsClosedForm | apps/api/src/demo/demo-data.ts:762-770 | the loop's balance after k periods is P (g^n - g^k) / (g^n - 1), for any loan, rate and term |
| LoanSchedule.BalanceClosesAtZero | apps/api/src/demo/demo-data.ts:764-777 | the balance is never negative and is exactly zero after n periods |
| LoanSchedule.PartsGrowAndSumToTheLoan | apps/api/src/demo/demo-data.ts:768-770 | the principal parts are positive, grow by the periodic rate each period, and sum to the loan |
| LoanSchedule.PrintedRows | apps/api/src/demo/demo-data.ts:767-778 | row k is numbered k and prints, each to half a cent, the level payment, the interest on the closed-form balance before it, the drop to the one after it and that balance; so it balances within 0.015, and the last balance prints zero |
| LoanSchedule.Amortize | apps/api/src/demo/demo-data.ts:766-779 | the loop's rows, for any payment |
| LoanSchedule.GenerateLoanSchedule | apps/api/src/demo/demo-data.ts:761-781 | for any positive loan, rate and term: as many rows as months, each balancing within 0.015, the last closing at zero |
| LoanSchedule.DemoSchedule | apps/api/src/demo/demo-data.ts:471-475 | the demo company's 500,000 at 6.5% over 60 months: sixty rows in order, each balance within half a cent of its closed form, the last zero |
| Transactions.SampleIsAPrefix | apps/api/src/demo/demo-data.ts:689-721 | for any seed and refs and n <= m, the first n rows of the m-row dataset are the n-row dataset |
| Transactions.RowsAreRandomAccess | apps/api/src/demo/demo-data.ts:701-720 | row j is made seven draws per row on, whatever the row count |
| Transactions.EveryRowIsSound | apps/api/src/demo/demo-data.ts:704-719 | for any seed and non-empty refs every foreign key and channel is drawn from its list, every time lies in the history window, every quantity and amount in its range |
| Transactions.RowFollowsItsFirstDraws | apps/api/src/demo/demo-data.ts:706-708 | a row's first draw decides how far through the window it lies, its second the quantity, evenly |
| Transactions.RowIsPriced | apps/api/src/demo/demo-data.ts:709 | the third decides a unit price in whole cents, evenly, and the amount is exactly quantity times price |
| Transactions.RowFollowsItsLastDraws | apps/api/src/demo/demo-data.ts:712-718 | the fourth to seventh decide customer, product, site and channel, each item its equal share |
| Transactions.IntIsUniform | apps/api/src/demo/demo-data.ts:66-68 | each integer of the range has its own equal share of the draws |
| Transactions.RangeIsUniform | apps/api/src/demo/demo-data.ts:71-75 | a ranged draw is spread evenly over its range, to half of its last decimal |
| Transactions.KnownSeeds | apps/api/src/demo/demo-data.ts:28-40 | the seeds of known strings |
| Transactions.KnownMixes | apps/api/src/demo/demo-data.ts:28-50 | known values of both mixers |
| Transactions.IdsAreDistinct | apps/api/src/demo/demo-data.ts:711 | no two rows share an id, also beyond nine digits |
| Transactions.PadReadsBack | apps/api/src/demo/demo-data.ts:498 | a padded numeral has exactly the width asked, or its own if longer, and reads back as its number |
| Transactions.NinePlaces | apps/api/src/demo/demo-data.ts:711 | a row number below a billion fills its nine places exactly |
| Transactions.IntStaysInBounds | apps/api/src/demo/demo-data.ts:66-68 | an integer draw lies in [min, max] |
| Transactions.RangeStaysInBounds | apps/api/src/demo/demo-data.ts:71-75 | a rounded draw between whole bounds lies within them, both included |
| Transactions.EmptyListHasNoKey | apps/api/src/demo/demo-data.ts:712-714 | why refs must be non-empty: an empty list yields no key |
| Transactions.Rng.Float | apps/api/src/demo/demo-data.ts:42-63 | one draw, advancing the hidden counter by one |
| Transactions.Rng.Int | apps/api/src/demo/demo-data.ts:66-68 | one integer draw, in bounds |
| Transactions.Rng.Range | apps/api/src/demo/demo-data.ts:71-75 | one rounded draw |
| Transactions.NextRow | apps/api/src/demo/demo-data.ts:705-719 | one pass of the loop makes the row of the current counter and leaves the counter seven draws on |
| Transactions.Generate | apps/api/src/demo/demo-data.ts:703-720 | the loop yields exactly the dataset of the counter it started at |
| Transactions.SynthesizeTransactions | apps/api/src/demo/demo-data.ts:28-50 | the generator seeds mulberry32 with the first word of xmur3 |
| Csv.ParseUndoesPrint | apps/api/src/demo/csv-reader.ts:15-43 | the parser undoes the printer of section 2 of RFC 4180 for every non-empty list of fields, whatever they contain and whichever were quoted without need |
| Csv.ParseDistributesExactly | apps/api/src/demo/csv-reader.ts:19-40 | parse(a + "," + b) is parse(a) followed by parse(b) exactly when a has an even number of quotes |
| Csv.QuoteFlagIsParity | apps/api/src/demo/csv-reader.ts:18-34 | the quote flag is the parity of the quotes read, doubled ones included |
| Csv.ParseCsvLine | apps/api/src/demo/csv-reader.ts:15-43 | the index loop with its skip computes the parse of the line |
| Csv.ReadCsvRows | apps/api/src/demo/csv-reader.ts:46-67 | the reader's loop: blank lines skipped, first other line as headers, missing fields empty |
| Csv.RecordHasItsFields | apps/api/src/demo/csv-reader.ts:61-64 | with distinct headers a record has every header and nothing else, each with its own field |
| Csv.BlankLineExactly | apps/api/src/demo/csv-reader.ts:55 | a printed line is skipped as blank exactly when it is one empty unquoted field |
| Csv.FieldsReadBack | apps/api/src/demo/csv-reader.ts:54-66 | reading a printed table gives, row by row, exactly the headers as keys, each with the field printed in its column (its last, for a repeated header), or the empty string beyond the row's end, exactly when no row prints as a blank line |
| Csv.RecordKeepsTheLast | apps/api/src/demo/csv-reader.ts:61-64 | a record's value under a header is the field in the header's last column, empty beyond the fields |
| Csv.BlankRowsAreLost | apps/api/src/demo/csv-reader.ts:55 | the records are never more than the rows, and fewer exactly when a row prints as a blank line |
| Csv.LinesRoundTrip | apps/api/src/demo/csv-reader.ts:46-67 | a whole printed file, as lines, reads back field by field exactly when no row, and not the header of a table with rows, prints as a blank line |
| Csv.FileRoundTrip | apps/api/src/demo/csv-reader.ts:46-67 | the same for the file's text, under either line ending, for fields without a line break |
| Csv.LinesUndoJoin | apps/api/src/demo/csv-reader.ts:49-54 | splitting a text into lines undoes joining lines that hold no break |
| Csv.NoBreakIsReadBack | apps/api/src/demo/csv-reader.ts:7-8 | no column or value read from any text holds a line break |
| DeviceFlow.EverySlowDownCountsForever | packages/cli-env/src/auth0.ts:171-180 | after k `slow_down` answers every later wait is exactly the server's interval plus 5k seconds, besides the request's own time |
| DeviceFlow.PollsAreBounded | packages/cli-env/src/auth0.ts:142-184 | with a positive interval I and lifetime E at most floor(E / I) + 1 polls are made |
| DeviceFlow.PollForToken | packages/cli-env/src/auth0.ts:142-184 | the loop ends within that many polls, with the token or refusal of its last poll, or expired with every answer so far asking for another |
| DeviceFlow.Loop | packages/cli-env/src/auth0.ts:148-184 | the loop itself, for any expiry time |
| Sessions.EnvironmentsDoNotInterfere | packages/cli-env/src/auth0.ts:160-236 | under any interleaving at awaits of login, logout and getToken in which other environments' calls do not write after a failed read, an environment's session is what its own calls alone would have left |
| Sessions.OthersAreUntouchedExactly | packages/cli-env/src/auth0.ts:77-85 | a call leaves another environment's session alone exactly when there is none or the call does not write after a failed read; otherwise it drops it |
| Sessions.SessionSurvivesExactly | packages/cli-env/src/auth0.ts:77-96 | over any run of other environments' calls a session survives unchanged exactly when none of them writes after a failed read |
| Sessions.LogoutHoldsExactly | packages/cli-env/src/auth0.ts:188-236 | after a logout a session can be held without a login exactly when a refresh of that environment was under way, or the logout could not read the session it was to clear |
| Sessions.StaysLoggedOut | packages/cli-env/src/auth0.ts:188-236 | with none under way it stays logged out through any run without its login |
| Sessions.RefreshStoresExactly | packages/cli-env/src/auth0.ts:220-235 | an answered refresh leaves the session it granted, with the old refresh token when none came; a refused one leaves the file alone |
| Sessions.CredentialsStore.CacheLogin | packages/cli-env/src/auth0.ts:160-169 | a granted login's read-modify-write |
| Sessions.CredentialsStore.ClearSession | packages/cli-env/src/auth0.ts:188-194 | `logout` |
| Sessions.CredentialsStore.RequestToken | packages/cli-env/src/auth0.ts:200-219 | getToken up to its refresh |
| Sessions.CredentialsStore.StoreRefreshed | packages/cli-env/src/auth0.ts:220-236 | getToken after its refresh: re-read, keep the old refresh token when none came, write, return what was written |
| Stacks.WaitForStackOperation | packages/devops-cli/src/stacks.ts:96-137 | succeeds only when the newest event of the whole log with its own token, its stack's name and the stack type is UPDATE_COMPLETE, fails when that says one of the five bad ends, never ends either way if no event ever carries its token, and stops within floor(wait / poll) + 2 polls |
| Stacks.StatusIsTheNewest | packages/devops-cli/src/stacks.ts:117-123 | the status read from a log is that of the first event with the token, the stack's name and the stack type, and empty when there is none |
| Stacks.PollEvents | packages/devops-cli/src/stacks.ts:102-136 | the loop itself: every earlier read was undecided and in time, the last one decides |
| Stacks.PageSpeaksForTheLog | packages/devops-cli/src/stacks.ts:104-123 | one page of newest events speaks for the whole log as soon as it holds an event of this operation |
| Stacks.ForeignEventsAreInvisible | packages/devops-cli/src/stacks.ts:117-123 | events of other operations, anywhere in the log, change nothing |
| Stacks.ReadsAreSpaced | packages/devops-cli/src/stacks.ts:130-135 | read k comes at least k poll intervals after the start |
| Stacks.UpdateBackendParams | packages/devops-cli/src/stacks.ts:145-188 | refuses before any request exactly when a key is not `in` the deployed parameters; otherwise sends one request, waits on its own operation only when accepted, and reports a change exactly when the wait sees that operation's newest stack-level event at UPDATE_COMPLETE |
| Stacks.RequestIsTheOverlayExactly | packages/devops-cli/src/stacks.ts:151-171 | the request comes to the parameters deployed on arrival overlaid with the overrides, exactly when no override is outside the template and no parameter left alone has an inherited name |
| Stacks.InheritedNameIsDropped | packages/devops-cli/src/stacks.ts:152-171 | the witness: an override named `toString` is neither refused nor sent |
| DatabaseUrl.CredentialsSurviveTheTunnel | packages/cli-env/src/connection.ts:44-50 | for any bytes in user and password, rewriting a composed URL changes the endpoint and nothing else, and the password read back before or after is the secret's |
| DatabaseUrl.ComposedUrlParses | packages/cli-env/src/db-url.ts:66-82 | a composed URL parses back to its parts |
| DatabaseUrl.ComposesExactly | packages/cli-env/src/db-url.ts:66-82 | the composed text, written out, for every secret with a username and a password; no other is composed |
| DatabaseUrl.EncodesByteExactly | packages/cli-env/src/db-url.ts:74-81 | letters, digits and nine marks stay as they are, every other byte becomes a percent sign and two upper-case digits |
| DatabaseUrl.PartsParse | packages/cli-env/src/db-url.ts:72-82 | any URL assembled from escaped credentials and delimiter-free parts parses to those parts, or is refused when host or port cannot be one |
| DatabaseUrl.FallbackReadsExactly | apps/api/src/db/credentials.util.ts:42-48 | for any bytes and any delimiter-free target, the password read back is the secret's exactly when endpoint and port can be a URL's, and empty otherwise |
| DatabaseUrl.RewrittenParses | packages/cli-env/src/connection.ts:44-50 | a rewritten URL parses to the original with host and port replaced |
| DatabaseUrl.RewritesExactly | packages/cli-env/src/connection.ts:44-50 | the rewritten text of any URL, with or without credentials; and no password is read from one that does not parse or decode |
| DatabaseUrl.DecodeUndoesEncode | apps/api/src/db/credentials.util.ts:42-48 | percent-decoding undoes percent-encoding for every byte string |
| DatabaseUrl.EncodeEscapes | packages/cli-env/src/db-url.ts:74-76 | an encoded component holds no delimiter, and is non-empty when its source is |
| DatabaseUrl.ComposedUrlIsInjective | packages/cli-env/src/db-url.ts:66-82 | different secrets, or different targets, never compose to the same URL |
| DatabaseUrl.EncodingIsInjective | packages/cli-env/src/db-url.ts:74-76 | different component bytes never encode to the same text |
| EnvConnection.NoTunnelIsLost | packages/cli-env/src/connection.ts:57-109 | in any interleaving of `db()` and `dispose()` from a fresh connection, every tunnel ever opened is either listed once and open or closed exactly once, and a dispose closes all that are open |
| EnvConnection.OneTunnelExactly | packages/cli-env/src/connection.ts:74-103 | over any run of calls for one database, disposes and failed openings included, there is never more than one tunnel open or opening exactly when no call comes while one is still opening |
| EnvConnection.AskOpensExactly | packages/cli-env/src/connection.ts:74-102 | at any moment of any run, asking for a database opens a tunnel exactly when the tunnel opened last, of those still open, is not for it |
| EnvConnection.ReturningOpensAgain | packages/cli-env/src/connection.ts:75-101 | the witness: where the local port admits several, a, b, a, each awaited, opens three tunnels, two of them for a |
| EnvConnection.ExclusivePortKeepsOne | packages/cli-env/src/connection.ts:92-95 | as long as no tunnel gets ready on the port while another is open, there is never more than one, whatever the calls |
| EnvConnection.RepeatedCallsReuse | packages/cli-env/src/connection.ts:74-75 | asking again right after the tunnel settled hands out the same handle |
| EnvConnection.TunnelIsHandedOut | packages/cli-env/src/connection.ts:74-102 | a call gets the open handle of its own database, or starts a tunnel and gets that; one that fails leaves no trace |
| EnvConnection.DisposeIsFinalExactly | packages/cli-env/src/connection.ts:63-109 | a disposed connection can come to hold an open tunnel unasked exactly when one was still opening |
| EnvConnection.CloseAllClosesEach | packages/cli-env/src/connection.ts:64-66 | the closing loop closes each listed tunnel once and no other |
| EnvConnection.Connection.Request | packages/cli-env/src/connection.ts:74-94 | `db()` up to its tunnel |
| EnvConnection.Connection.TunnelOpened | packages/cli-env/src/connection.ts:96-102 | `db()` once its tunnel is ready |
| EnvConnection.Connection.DisposeAll | packages/cli-env/src/connection.ts:63-67 | `dispose()` |

## Left out

- RequestCancellation.StepKeeps: one request at a time; the per-request registry stands for the process-wide weak map, whose keys the driver never shares between requests. Logging, the idempotent patching of the prototype and queries outside a request are not modelled.
- JobsWorker.RunStaysInStepExactly: a `failed` event delayed past a re-delivery, a user cancellation or sweep racing the run, an execution waking after it was declared lost, and a transition whose database write itself fails are not modelled.
- JobsWorker.CloseEffect: the processor, its result payload and progress events are not modelled; only the counts the batch classifier reads are.
- PasswordResolver.FetchesAreBounded: for a positive ttl, as the configured and default ones are; the AWS client is the step that returns a secret or nothing.
- SystemPrincipal.BootsAgree: without deletes, which only an operator's hand or a truncate makes; `ADeleteUnguardsABoot` shows what one does.
- OrgStore.AuditReplays: runs of the admin store's calls. The API also updates that row and, after committing, that log; its own writers are not modelled. One timestamp per call; the operator's user and the tier table are read as of the write; a tier is never audited by the code. Entry ids and constant columns are not modelled.
- OrgStore.WrittenStationIsLiveExactly: others may add, rename and remove stations, and a removal is for good, as the API's is.
- MemberStore.SwitchMakesCurrentExactly: the second lookup of the selected organization, which yields none when it was deleted, is not modelled; a tie may be answered either way.
- LoanSchedule.GenerateLoanSchedule: exact reals for binary floating point, so rounding drift, and the clamp that hides it, are not exercised.
- Transactions.EveryRowIsSound: draws are exact fractions, `** 0.7` is any map of [0, 1) into itself, and times stay in milliseconds rather than ISO text. Strings are code units.
- Transactions.RangeStaysInBounds: for whole bounds and two decimals, the only ones this generator uses.
- Csv.FileRoundTrip: decoding bytes into characters belongs to the runtime.
- DeviceFlow.PollForToken: requires a positive interval, as section 3.2 of RFC 8628 supplies; the code takes any number the server sends, and with zero would poll as fast as answers come until expiry. Whole-second server times.
- Sessions.EnvironmentsDoNotInterfere: calls of one process, whose file access is synchronous between awaits; two processes may overwrite each other, as the source's own comment accepts.
- Stacks.WaitForStackOperation: requires a positive poll interval, as the constant is.
- DatabaseUrl.CredentialsSurviveTheTunnel: the endpoint is a host name, the ports are decimal, and database name and SSL mode hold no delimiter; the normalizations of the URL standard for other inputs (IPv6 brackets, dot segments, leading zeros of a port, further percent-encoding) are not modelled. Credentials are their UTF-8 bytes, so a lone surrogate, which the encoder refuses, is not modelled.
- EnvConnection.Connection.Request: opening a tunnel through AWS is the step that makes it ready or fails; the port it got is not modelled.
- The other dataset generators (shipments, portfolio, cash flows, inventory): loops over the same draws whose rows add only easier facts.
- Routing, middleware, user interface, registries, exit codes, secret masking, prompt text, and the AWS, Stripe, GitHub, Auth0 and Redis calls themselves: plumbing with no invariant of their own.
- Listing and lookup reads of the admin store: settled by one query each.
