# Wakey: a verified model of its durable state machines

Wakey is a self-hosted SRE agent: it takes in log events, counts them per fingerprint, opens
and maintains tickets on a forge, investigates, proposes fixes, and watches whether a merged
fix holds. This project models the parts of it that have to be right across crashes, retries
and interleavings, and proves what they keep.

Code that changes things in place is modelled by classes with loops and `modifies` clauses
(`SQLiteStorage`, `IngestPipeline`, `DeliveryWorker`, `ConnectStore`, `Broker`,
`ConnectClient`, `SlidingWindowCounters`, `RcaBudget`, `AuditLog`, `ReproFirstFixer`,
`FixProposalDelivery`, `VerificationWatcher`, `FixExecutor`). Each method is proved equal to a
specification function of the old state, and the theorems are about runs of those functions.

| files | component |
|---|---|
| `Basics`, `Text`, `Models`, `Paths` | shared vocabulary, decimal numbers, joined text, lexical paths |
| `IngestStore`, `DeliveryQueue`, `PipelineSpec`, `PipelineProofs`, `IngestAnswers`, `IngestRuns`, `IngestTheorems`, `IngestService`, `IngestWorker` | durable ingest: tables, one pipeline pass with a crash possible between any two effects, what each event leads to, workers, whole runs |
| `ConnectSpec`, `PairingRuns`, `RelayRuns`, `ConnectStore`, `RelayService` | pairing broker and event relay, with handlers interleaved at every wait |
| `Windows`, `Ceilings` | sliding-window counters and the hourly ceilings and admission window built on them |
| `Audit` | hash-chained audit log |
| `FixLoop`, `FixAttempt`, `FixDelivery`, `PackExtract` | repro-first fix loop, one attempt as a sequence of effects, draft delivery, workspace archives |
| `Verification`, `WorkStates` | verdicts on merged fixes; work states across all passes |
| `Luhn`, `Segmenter` | card-number check; cutting a payload into events |

## How failures are modelled

An ingest pass carries the number of storage transactions that will still succeed and what
becomes of the process at the next one (an exception, or death). Forge calls answer as the
port contract allows: accepted, definitely refused, failed ambiguously having landed or not, or
the process dies during the call. So a crash may fall between any two effects, and every
theorem over runs quantifies over all of them. The dispatch lock makes one `handle_event` one
step; claims, completions, stumbles, restarts and other passes interleave freely.

A fix attempt is the sequence of its effects (workspace, fixer, verifier, branch, commit, draft,
label, row writes, audit entries); any of them can raise, into the executor's own handler, or
be where the process dies. A relay receive can break off at any save or acknowledgement, and a
watcher pass at any forge call, row write or audit entry.

Broker handlers read a record, call GitHub and write; each stretch between two waits is one
step, and any number of handlers may be in flight.

## What the code does that its documentation does not say

- **Remote tickets.** Recovery re-arms a reservation without asking the forge, so every crash
  between the remote accept and the bind can cost one more ticket. The bound "one plus the
  faults" is proved (`TicketsBounded`), and met for every number of faults (`TicketBoundIsMet`).
- **Severity.** A fingerprint's severity is described as the highest seen
  (`src/wakey/core/models.py:22`); stored is the last one (`SeverityIsLast`), which is the
  highest exactly when no earlier event outranks it (`SeverityIsHighestIff`). `SeverityCanDrop`
  is a run where it is not.
- **Audit log.** The docstring of chain verification promises that a deleted row is detected.
  Deleting the last rows is not: what verifies is exactly any beginning of the table
  (`OnlyPrefixesVerify`, `DeletionDetected`).
- **Sliding windows.** The docstring of `count_in_window` gives a half-open interval. The count is
  that of the half-open interval exactly when no held time is one window old to the instant and
  no time within the interval was evicted (`HalfOpenIff`); `EdgeStillCounts` is the edge.
- **Pairing admission.** Sixty pairing starts a minute are documented
  (`docs/recipes/wakey-connect.md:102`). A closed minute sees more exactly when it reaches into two
  windows that follow each other and they let in more than 60 in it together
  (`MoreThanSixtyIff`); never more than 119, and 119 happen (`AdmissionsHold`,
  `AdmissionBoundIsMet`).
- **Slow-down replies.** The interval grows by five seconds over what the handler had read. It
  grows over what is stored exactly when no other reply changed it in between
  (`SlowDownLengthens`); `OverlappingSlowDowns` is a run where two replies lengthen it once.
- **Draft delivery.** A delivery adds a second draft exactly when the search for a branch name,
  from the stored one or from the first, ends on another name than the first draft's
  (`SecondDraftIff`): an earlier name can be created by now, or the draft's own cannot and a later
  one can. A run has at most one draft exactly when no delivery of it does so (`OneDraftIff`).
  Both ways happen (`PassingFailureSplits`, `LostBindingSplits`); the second because a delivery
  that raises has its stored name written back.
- **Fix attempts.** A comment says that the executor reports every failure and never raises
  (`src/wakey/agents/fix_executor.py:270`). An attempt raises exactly when the announcement of a
  human's fix or the reserving write does, or when the guarded block does and then the handler's
  row write or audit entry does too (`RaisesIff`). It leaves the fingerprint fixing exactly when
  it reserved and its block was then stopped before the next row write, by a death or by an
  exception whose handler could not write (`LeftFixingIff`). Both conditions are read off the
  fates of the effects. `CanBeLeftFixing` and `CanRaiseOtherwise` are attempts that end so: left
  fixing, and raising with the row untouched, put back, or bound to a branch.
- **Pack and extract.** A packed workspace comes back unchanged exactly when its first file is
  at top level (`RoundTrip`); otherwise the first directory is taken for an archive root.
- **Fix results.** Laying the published files over the original snapshot gives what the last
  run saw exactly when no original file outgrew the snapshot size cap (`OverlayIsTested`);
  `OverlayCanFail` is a successful run where one did.
- **Deploys.** With 25 or more recorded deploys, an unrelated one among the newest pushes the last
  of them out of view. That turns a fix into a confirmed one exactly when the pushed one was the
  only earliest deploy of the fix and the time since the next one is long enough and quiet, and
  what was seen between the two was not (`OtherDeploysHelpIff`).
- **Retry.** The autonomy dial is asked before a fix, not before a retry: a proposal is retried
  while its service observes (`RetriedWhileObserving`).

## Model

| member | source | states |
|---|---|---|
| IngestTheorems.TicketsBounded | src/wakey/ingest/pipeline.py:198-261 | over every run, with crashes and redelivery anywhere, tickets made for a fingerprint number at most one plus the passes in which the forge took a ticket and a fault kept it from being bound |
| IngestTheorems.TicketBoundIsMet | src/wakey/core/storage.py:478-493 | for every n there is a run with exactly n such faults and n + 1 tickets: recovery re-arms without asking the forge |
| IngestTheorems.LostAreFaults | src/wakey/ingest/pipeline.py:225-261 | the tickets a fingerprint has lost number at most the passes that landed one and were then stopped, by a named fault, before binding it |
| IngestTheorems.FaultsAreTickets | src/wakey/ingest/pipeline.py:225-261 | over every run the faults counted never exceed the tickets made, and these never exceed the faults by more than one |
| IngestTheorems.BoundStays | src/wakey/ingest/pipeline.py:155-181 | a bound fingerprint keeps its ticket and never gets another, in any step |
| IngestTheorems.CountsAreExact | src/wakey/core/storage.py:587-625 | in every reachable state a fingerprint's occurrences equal the stored events marked counted and bound to it |
| IngestTheorems.CompletedIsDispatched | src/wakey/ingest/worker.py:75-104 | every event of a completed delivery is counted and dispatched |
| IngestTheorems.CommentsAreLogarithmic | src/wakey/ingest/pipeline.py:265-287 | c remembered recurrence comments need 2^(c+1) <= anchor <= occurrences; posted comments are those plus the ones whose row write failed |
| IngestTheorems.SeverityIsLast | src/wakey/core/storage.py:645-707 | over every run a fingerprint's stored severity is that of the event claimed for it last, whatever else happens to the row |
| IngestTheorems.SeverityIsHighestIff | src/wakey/core/models.py:22 | the stored severity is the highest seen exactly when no earlier event outranks the last |
| IngestTheorems.SeverityCanDrop | src/wakey/core/models.py:22 | a run in which a critical event and then an informational one leave the fingerprint informational |
| IngestTheorems.DeliveriesAreOwned | src/wakey/core/storage.py:401-476 | in every reachable state one row per key, one owner per row, owners only of rows in processing, pending rows below the attempt cap |
| IngestTheorems.TerminalForever | src/wakey/core/storage.py:436-476 | a completed or failed delivery is never changed again, by any continuation |
| IngestTheorems.DrainIsBounded | src/wakey/ingest/worker.py:52-73 | without arrivals and restarts, claims plus the attempts left never exceed the attempts left at the start |
| IngestTheorems.FailedIffUsedUp | src/wakey/core/storage.py:460-476 | in every reachable state a delivery is given up exactly when its attempts are used up |
| IngestTheorems.AttemptsAreFailures | src/wakey/core/storage.py:460-476 | over every run a delivery's attempts equal the failures recorded for it; claims, deaths and restarts cost it none |
| IngestTheorems.RestartArms | src/wakey/core/storage.py:478-493 | a restart puts every delivery in processing back to pending with its attempts, arms every reservation without a ticket, and touches nothing else |
| IngestAnswers.TicketedIff | src/wakey/policy/gate.py:36-71 | with writes and forge working and room under the cap, an event of an unbound, unreserved fingerprint makes and binds a ticket exactly when it is an error or worse, no work is under way and no human wants quiet, and it is critical or reaches the count or the rate; any other only counts |
| IngestAnswers.CappedOnlyCounts | src/wakey/ingest/pipeline.py:198-209 | over the hourly cap even an alarming event only counts |
| IngestAnswers.DispatchedOnlyCounts | src/wakey/ingest/pipeline.py:85-103 | an event whose policy already ran changes nothing but its own count |
| IngestAnswers.OthersUntouched | src/wakey/ingest/pipeline.py:85-123 | no event touches another fingerprint's row or tickets, however the pass ends |
| IngestAnswers.RecurrenceIs | src/wakey/ingest/pipeline.py:265-287 | an event of a fingerprint with a ticket reopens one closed for silence, comments exactly at a count of at least four and twice the last comment's, and otherwise only counts |
| IngestAnswers.InterruptedIsBound | src/wakey/ingest/pipeline.py:125-181 | an unbound reservation two minutes old whose ticket the forge reports is bound to it, and none is made |
| IngestAnswers.InterruptedIsRearmed | src/wakey/ingest/pipeline.py:125-153 | one the forge does not report is armed again, and the event counts as for a new fingerprint |
| IngestAnswers.FreshReservationWaits | src/wakey/ingest/pipeline.py:139-142 | a younger queued reservation is left alone |
| IngestAnswers.FailedCreateLeaves | src/wakey/ingest/pipeline.py:225-253 | a definite refusal gives the reservation back and raises; an unclear failure binds the ticket the forge then reports, or keeps the reservation and raises |
| IngestAnswers.CutOffLeaves | src/wakey/ingest/pipeline.py:211-253 | the reservation is written before the forge is called, and a pass cut off in the call or before the binding leaves it behind |
| IngestRuns.Reachable | src/wakey/core/storage.py:587-707 | the joint invariant of events, fingerprints, forge and deliveries holds after every run |
| IngestRuns.HandleKeeps | src/wakey/ingest/pipeline.py:85-123 | one event, however it ends, keeps counts, tickets and comments sound, and ends normally only with the event dispatched |
| PipelineProofs.DispatchKeeps | src/wakey/ingest/pipeline.py:104-123 | recovery and policy keep identity, count and a bound ticket, and the ticket and comment invariants |
| PipelineProofs.LostOnlyByFault | src/wakey/forge/port.py:52-67 | within one pass a ticket is lost only when one landed, the pass failed and the row stayed unbound |
| PipelineProofs.ClaimCounts | src/wakey/core/storage.py:587-625 | claiming an event keeps counts equal to marked events, whether it is new, repeated or bound elsewhere |
| DeliveryQueue.StepKeeps | src/wakey/core/storage.py:401-493 | every queue step keeps single ownership, worker positions and row soundness |
| DeliveryQueue.StepKeepsKeys | src/wakey/core/storage.py:401-418 | every queue step keeps delivery keys unique |
| DeliveryQueue.TerminalStays | src/wakey/core/storage.py:436-493 | one queue step leaves a completed or failed row as it was |
| DeliveryQueue.StepBurns | src/wakey/core/storage.py:460-476 | a claim is paid for by the attempts left of the row it takes |
| DeliveryQueue.FailureIs | src/wakey/core/storage.py:460-476 | only a recorded failure raises a row's attempts; it goes back to pending while attempts are left and fails with the last |
| DeliveryQueue.RestartIs | src/wakey/core/storage.py:487-493 | a restart resets exactly the rows in processing and keeps their attempts |
| IngestService.SQLiteStorage.ClaimEvent | src/wakey/core/storage.py:587-625 | one transaction: insert, count once, bind, or nothing at all when it fails |
| IngestService.SQLiteStorage.RecordOccurrence | src/wakey/core/storage.py:645-707 | whatever the incoming fingerprint carries: a known one gets its counter and content moved and keeps the lifecycle columns of the table, a new one is inserted with its count |
| IngestService.SQLiteStorage.SaveFingerprint | src/wakey/core/storage.py:718-744 | a full row write that inserts an unknown fingerprint and never changes the service of a known one |
| IngestService.SQLiteStorage.MarkEventDispatched | src/wakey/core/storage.py:796-798 | the dispatched mark is set or, on failure, nothing changes |
| IngestService.SQLiteStorage.SaveDelivery | src/wakey/core/storage.py:401-418 | a known key changes nothing, a new one is appended pending with no attempts; the answer says which |
| IngestService.SQLiteStorage.ClaimNextDelivery | src/wakey/core/storage.py:420-434 | the oldest pending row, and only it, moves to processing |
| IngestService.SQLiteStorage.CompleteDelivery | src/wakey/core/storage.py:436-443 | the claimed row becomes completed and no other row changes |
| IngestService.SQLiteStorage.FailDelivery | src/wakey/core/storage.py:460-476 | one more attempt is counted; the row is pending exactly while that is below the cap, and failed otherwise |
| IngestService.SQLiteStorage.RecoverStaleDeliveries | src/wakey/core/storage.py:478-493 | every row in processing is pending again and every unbound reservation is re-armed |
| IngestService.IngestPipeline.RecoverInterruptedReservation | src/wakey/ingest/pipeline.py:125-153 | equals the specified recovery of a reservation, including each failure |
| IngestService.IngestPipeline.CreateTicket | src/wakey/ingest/pipeline.py:198-253 | equals the specified reserve, create, reconcile and bind, including each failure |
| IngestService.IngestPipeline.UpdateTicket | src/wakey/ingest/pipeline.py:265-287 | equals the specified reopen or throttled comment, including each failure |
| IngestService.IngestPipeline.HandleEvent | src/wakey/ingest/pipeline.py:85-123 | the whole method equals the pass the run theorems and `IngestAnswers` are about |
| IngestWorker.DeliveryWorker.ProcessNext | src/wakey/ingest/worker.py:52-73 | the oldest pending row is completed when every event went through, pending again or failed with its attempts used up when one raised, and left in processing by a death; no other row changes |
| IngestWorker.DeliveryWorker.Drain | src/wakey/ingest/worker.py:52-73 | with no arrivals the worker stops after at most the sum of the attempts left of the pending rows |
| IngestWorker.WorkerPassIsRun | src/wakey/ingest/worker.py:52-104 | what the worker does with a delivery is a run of the ingest machine, so every run theorem is about it |
| PairingRuns.Reachable | src/wakey/forge/connect_server.py:97-146 | the pairing invariant holds after every interleaving of handlers, revocations and cleanup |
| PairingRuns.MovesAreAllowed | src/wakey/forge/connect_store.py:83-157 | every step moves a pairing only pending to pending or selecting, selecting to connected with a listed repository, anything to revoked, or deletes a stale unconnected one |
| PairingRuns.RevokedAndConnectedAreFinal | src/wakey/forge/connect_store.py:118-157 | revoked is never left, and a connected pairing keeps its repository until revoked |
| PairingRuns.ConnectedWasListed | src/wakey/forge/connect_server.py:124-137 | the repository of a connected pairing was in the list GitHub gave for it |
| PairingRuns.NoAba | src/wakey/forge/connect_store.py:118-133 | when the compare-and-swap on the state name succeeds, the row still has the credential, deadline and device code, choices or binding the handler read; only a pending row's interval and due times may differ |
| PairingRuns.TokensOnlyWhileConnected | src/wakey/forge/connect_server.py:138-146 | a token is returned only for a pairing still connected after minting, and for its repository |
| PairingRuns.PollsAreApart | src/wakey/forge/connect_store.py:135-144 | two claimed polls of one pairing are at least five seconds apart (section 3.5 of RFC 8628) |
| PairingRuns.SlowDownLengthens | src/wakey/forge/connect_server.py:103-105 | a slow-down reply lengthens the stored interval by five exactly when nothing changed it since it was read |
| PairingRuns.RevokedIff | src/wakey/forge/connect_server.py:97-122 | over every interleaving a pairing becomes revoked exactly by its own disconnect or webhook, or by GitHub's refusal of its own claimed poll |
| PairingRuns.AnswerIs | src/wakey/forge/connect_server.py:101-118 | what each answer of GitHub leaves, at any time: a wait or a lost answer nothing, a slow-down a longer interval, a grant the listed choices, a refusal a revoked row, and only on a row still in the phase it was read in |
| PairingRuns.ChoiceIs | src/wakey/forge/connect_server.py:123-137 | a granted choice connects a pairing still selecting to exactly that repository, and otherwise nothing changes |
| PairingRuns.ClaimIs | src/wakey/forge/connect_store.py:135-144 | GitHub is asked exactly when the pairing is still pending and its time has come |
| PairingRuns.TokenIs | src/wakey/forge/connect_server.py:138-146 | a minted token goes out exactly when the pairing still is connected |
| PairingRuns.BeginIs | src/wakey/forge/connect_store.py:107-116 | pending and selecting rows are read until they expire, connected ones always |
| PairingRuns.PairIs | src/wakey/forge/connect_store.py:83-105 | a pairing is made exactly while fewer than a thousand are unfinished and not expired, and making it removes exactly what has expired |
| PairingRuns.OverlappingSlowDowns | src/wakey/forge/connect_server.py:97-111 | a run in which two overlapping polls are both told to slow down and the interval grows once |
| ConnectStores.ConnectStore.AdmitPairing | src/wakey/forge/connect_store.py:62-74 | the admission row after one attempt, and whether it was admitted |
| ConnectStores.ConnectStore.Create | src/wakey/forge/connect_store.py:83-105 | sweep, capacity and insertion in one transaction; a refusal or a key clash undoes the sweep |
| ConnectStores.ConnectStore.Read | src/wakey/forge/connect_store.py:107-116 | finds the row of a credential just when it is neither revoked nor expired |
| ConnectStores.ConnectStore.Write | src/wakey/forge/connect_store.py:118-133 | succeeds just when the row still is in the state read, and changes nothing otherwise |
| ConnectStores.ConnectStore.ClaimPoll | src/wakey/forge/connect_store.py:135-144 | at most one claim per interval, only while pending |
| ConnectStores.ConnectStore.RevokeId | src/wakey/forge/connect_store.py:150-157 | the row is revoked and blanked and its queue deleted, together |
| ConnectStores.ConnectStore.Enqueue | src/wakey/forge/connect_store.py:164-181 | purge, duplicate check, capacity and insertion in one transaction; a full queue undoes the purge |
| ConnectStores.ConnectStore.Events | src/wakey/forge/connect_store.py:183-195 | refused unless the credential opens a connected row; otherwise hands out distinct, unacknowledged, recent events, oldest first, at most 25, leaving out none that is older |
| ConnectStores.ConnectStore.Acknowledge | src/wakey/forge/connect_store.py:197-203 | refused just when the credential opens no row; otherwise marks that one event of its own queue |
| ConnectStores.Broker.PairCreates | src/wakey/forge/connect_server.py:82-89 | a new pairing with its interval raised to five seconds and its lifetime cut to fifteen minutes, or a refusal at capacity, as one step of the machine |
| ConnectStores.Broker.PollAnswers | src/wakey/forge/connect_server.py:97-122 | what the poll handler does with GitHub's answer is one step of the pairing machine |
| ConnectStores.Broker.SelectReads | src/wakey/forge/connect_server.py:123-134 | takes the offered repository with that id if there is one, as one step of the machine |
| ConnectStores.Broker.TokenReturns | src/wakey/forge/connect_server.py:138-146 | the token goes out only if the credential still opens its row after minting, as one step of the machine; that it opens no other row is kept by every handler |
| RelayRuns.Reachable | src/wakey/forge/connect_server.py:200-224 | the relay invariant holds after every run of broker, webhooks and deployments |
| RelayRuns.AcknowledgedIsSavedOnce | src/wakey/forge/connect_client.py:126-139 | an acknowledged event is in the deployment's own table, each deployment holds each event once, and no queue has more than 1000 waiting |
| RelayRuns.NothingAcceptedIsLost | src/wakey/forge/connect_store.py:164-203 | an accepted event of a live pairing younger than a day is saved at the deployment or still deliverable |
| RelayRuns.LeavesOnlyByRevocationOrAge | src/wakey/forge/connect_store.py:150-181 | an event leaves the broker only when its pairing is revoked or it is over a day old |
| RelayRuns.BatchesMatchTheirBinding | src/wakey/forge/connect_server.py:204-224 | every webhook handed out was itself about the installation and repository its pairing was bound to |
| RelayService.Relay | src/wakey/forge/connect_server.py:200-224 | one webhook spread over the connected records, stopping at the first full queue |
| RelayService.RelayReaches | src/wakey/forge/connect_server.py:200-224 | once a webhook has gone through its records, each pairing is revoked with its queue gone, or has the event queued, or gained nothing, exactly as the webhook withdraws its grant, is about its installation and repository, or neither |
| RelayService.BlockedIff | src/wakey/forge/connect_store.py:164-181 | relaying stops only at a pairing the event is for, where it is not queued yet and a thousand others of the last day wait |
| RelayService.SpreadIsRelayed | src/wakey/forge/connect_server.py:204-224 | one record's turn in that loop is a step of the relay machine |
| RelayService.ConnectClient.Receive | src/wakey/forge/connect_client.py:126-139 | nothing unless connected and served; otherwise each event of the batch is saved locally, then acknowledged, up to the save or acknowledgement that fails |
| RelayService.BrokenReceiveLosesNothing | src/wakey/forge/connect_client.py:126-139 | wherever a receive breaks off, each event of its batch is saved or will be sent again, and is sent again exactly when its acknowledgement did not land |
| RelayService.ReceiveSettles | src/wakey/core/storage.py:401-418 | a complete receive leaves its batch saved once and acknowledged, and everything else as it was |
| Windows.SlidingWindowCounters.Record | src/wakey/fingerprints/windows.py:42-53 | the table after recording: expired, appended, moved to the end, and evicted down to the limit |
| Windows.SlidingWindowCounters.CountInWindow | src/wakey/fingerprints/windows.py:55-64 | the number of unexpired times, expiring the rest in place |
| Windows.EdgeStillCounts | src/wakey/fingerprints/windows.py:55-64 | a time exactly one window old is counted |
| Windows.SlidingWindowCounters.Prune | src/wakey/fingerprints/windows.py:66-72 | every key is expired and the result is how many times went |
| Windows.SlidingWindowCounters.EvictOverLimit | src/wakey/fingerprints/windows.py:85-88 | the first keys go until the limit is kept |
| Windows.CountAgrees | src/wakey/fingerprints/windows.py:55-83 | a count never exceeds the recorded times in [now - window, now], and equals them just when nothing in the window was evicted |
| Windows.HalfOpenIff | src/wakey/fingerprints/windows.py:55-64 | over every orderly run the count is that of the recorded times in (now - window, now] exactly when no held time is exactly one window old and none in the interval was evicted |
| Windows.RunsAgree | src/wakey/fingerprints/windows.py:35-88 | over every run with per-key clocks that do not go back: a count never exceeds the recorded times in [now - window, now], equals them exactly when none of them was evicted, and at most max_keys keys are held |
| Windows.EvictsLeastRecent | src/wakey/fingerprints/windows.py:49-53 | every evicted key was last recorded before every key that stays |
| Windows.EvictsOnlyWhenFull | src/wakey/fingerprints/windows.py:85-88 | nothing is evicted while there is room or the key is already held |
| Windows.EvictsNoMoreThanItMust | src/wakey/fingerprints/windows.py:85-88 | if anything was evicted, the table is full afterwards |
| Ceilings.RcaBudget.TryTake | src/wakey/agents/rca.py:148-160 | the budget's new state and answer, from the counters and the token list |
| Ceilings.BudgetHolds | src/wakey/agents/rca.py:137-160 | at every instant t, accepted dispatches in [t - 3600, t] and their tokens in (t - 3600, t] are within the caps |
| Ceilings.TakenIff | src/wakey/agents/rca.py:148-160 | over every run a dispatch is let through exactly when the hour up to it holds fewer than the cap and its tokens fit |
| Ceilings.OverCap | src/wakey/ingest/pipeline.py:198-209 | the attempt is recorded first and then counted |
| Ceilings.TicketCapHolds | src/wakey/ingest/pipeline.py:198-209 | at every instant the tickets created for a service in the last hour are within its cap while it is never evicted |
| Ceilings.TicketAllowedIff | src/wakey/ingest/pipeline.py:198-209 | an attempt makes its ticket exactly when the attempts of the hour up to it, refused ones included, are within the cap, while the service is never evicted |
| Ceilings.AdmissionsHold | src/wakey/forge/connect_store.py:62-74 | no closed minute sees more than 119 admissions |
| Ceilings.MoreThanSixtyIff | src/wakey/forge/connect_store.py:62-74 | a closed minute sees more than 60 admissions exactly when it reaches into two windows that follow each other and they let in more than 60 in it together |
| Ceilings.AdmissionBoundIsMet | src/wakey/forge/connect_store.py:62-74 | 119 admissions in one closed minute do happen |
| Audit.AuditLog.RecordAudit | src/wakey/core/storage.py:814-835 | a row chained to the last one is appended |
| Audit.AuditLog.VerifyAuditChain | src/wakey/core/storage.py:837-856 | true just when every row links, otherwise the index of the first row that does not |
| Audit.AuditLog.BackfillAuditChain | src/wakey/core/storage.py:858-886 | unhashed rows are chained in turn, starting from the last hash before them |
| Audit.AppendKeepsVerified | src/wakey/core/storage.py:814-835 | a verified table stays verified when a row is recorded |
| Audit.BackfillVerifies | src/wakey/core/storage.py:858-886 | backfilling a verified table followed by unhashed rows verifies and changes no field |
| Audit.BackfillKeepsHashed | src/wakey/core/storage.py:858-886 | a row that carries a hash is never touched, whatever the table, and every row ends with one |
| Audit.HeadFixesTable | src/wakey/core/storage.py:809-856 | two verified tables with the same last hash have the same length, bodies and hashes |
| Audit.HashesDistinct | src/wakey/core/storage.py:809-856 | all entry hashes of a verified table are distinct |
| Audit.OnlyPrefixesVerify | src/wakey/core/storage.py:837-856 | rows of a verified table put together in any way verify exactly when they are a beginning of it |
| Audit.DeletionDetected | src/wakey/core/storage.py:837-856 | deleting row i is detected exactly when it is not the last |
| Audit.EditDetected | src/wakey/core/storage.py:837-856 | changing a row's fields in place is detected exactly when the text hashed changes |
| Audit.BodyFixesFields | src/wakey/core/storage.py:809-812 | equal bodies are equal fields when only the details contain the separator |
| Audit.JoinIsAmbiguous | src/wakey/core/storage.py:809-812 | without that, different fields can have the same body |
| FixLoop.ReproFirstFixer.WriteProposedFiles | src/wakey/agents/fix.py:149-158 | all paths are checked before the first write, then files are written in order until one fails |
| FixLoop.ReproFirstFixer.Execute | src/wakey/agents/fix.py:282-340 | result and workspace equal the specified loop, for every proposer, runner and disk fault |
| FixLoop.SuccessIsProven | src/wakey/agents/fix.py:282-340 | on success the reproduction was red before any patch, the last run passed or only failed where the original did with a reproduced failure gone, and the reproduction is as first written |
| FixLoop.FirstTurnDecides | src/wakey/agents/fix.py:282-347 | with a red reproduction written, the first turn that does not merely fail decides: it is rejected, breaks on the disk, or is the fix, also when it leaves an already failing suite no worse; without one there is no fix |
| FixLoop.OnlyRedIsFixed | src/wakey/agents/fix.py:295-304 | a reproduction that passes, or adds no failure of its own, leads to no fix |
| FixLoop.OverlayIsTested | src/wakey/agents/fix.py:317-336 | the changed files over the original snapshot give the snapshot of the last run exactly when no original file outgrew the cap |
| FixLoop.OverlayCanFail | src/wakey/agents/fix.py:317-336 | a successful run in which a file outgrows the cap and the overlay is not what was tested |
| FixLoop.NothingOutside | src/wakey/agents/fix.py:109-158 | nothing changes outside the workspace root, however the loop ends |
| FixLoop.RejectionWritesNothing | src/wakey/agents/fix.py:342-347 | a rejected patch leaves the workspace as if the loop had ended before it |
| FixLoop.UntestedIsContained | src/wakey/agents/fix.py:369-411 | the path without tests is contained, writes nothing when rejected, and its overlay is the final snapshot exactly when no original file outgrew the cap |
| FixDelivery.BoundIsInverse | src/wakey/agents/fix_delivery.py:28-45 | the attempt read back from a stored branch name is the one it was made for |
| FixDelivery.FixProposalDelivery.EnsureBranch | src/wakey/agents/fix_delivery.py:171-194 | the first name from the bound attempt on that can be created, stored if it changed |
| FixDelivery.FixProposalDelivery.Deliver | src/wakey/agents/fix_delivery.py:101-169 | one delivery with the executor around it, for every point where it can raise or die |
| FixDelivery.AtMostOneDraft | src/wakey/agents/fix_delivery.py:101-194 | any sequence of failed, dying and successful deliveries opens at most one draft while creation fails only on foreign names |
| FixDelivery.DeliveryResumes | src/wakey/agents/fix_delivery.py:171-194 | after any failures a delivery that goes through binds the only draft there is; with every name foreign there is none |
| FixDelivery.ThreeNames | src/wakey/agents/fix_delivery.py:28-45 | three names are tried in order, and the first that is not foreign is used |
| FixDelivery.DeliveryLeaves | src/wakey/agents/fix_executor.py:265-274 | for every place a delivery can end, whether a draft is open and which name is stored |
| FixDelivery.DeathKeepsName | src/wakey/agents/fix_delivery.py:171-194 | a delivery that died after binding a name goes on under it, whatever other name has come free |
| FixDelivery.SecondDraftIff | src/wakey/agents/fix_delivery.py:171-194 | from any stored name and a first draft, the next delivery makes it two exactly when it gets as far as opening and its search strays: an earlier name can be created now, or the draft's own cannot, or is passed over, and a later one can |
| FixDelivery.OneDraftIff | src/wakey/agents/fix_delivery.py:101-194 | over any run, with other names failing each time, there is at most one draft exactly when no delivery met that condition in the state it started from |
| FixDelivery.PassingFailureSplits | src/wakey/agents/fix_delivery.py:179-194 | a passing failure to create the name in use opens a second draft |
| FixDelivery.LostBindingSplits | src/wakey/agents/fix_executor.py:270-274 | a delivery that raised after opening its draft loses the stored name, and the next opens a second draft under the first name once that can be created |
| PackExtract.ExtractTarball | src/wakey/agents/workspace.py:113-149 | the files left, and whether extraction raised, for every archive |
| PackExtract.NeverOutside | src/wakey/agents/workspace.py:126-144 | whatever the archive, everything written lies properly under the workspace |
| PackExtract.CapsKept | src/wakey/agents/workspace.py:119-138 | extraction that does not raise met no link or escape and kept the size and file caps |
| PackExtract.SingleRootRemoved | src/wakey/agents/workspace.py:133-149 | an archive whose files lie under one root, with directories and other members that are not links anywhere among them, extracts to the tree with exactly that root removed |
| PackExtract.OthersSkipped | src/wakey/agents/workspace.py:126-132 | members that are neither files nor links, and stay inside, make no difference to an extraction |
| PackExtract.PackWorkspace | src/wakey/agents/sandbox.py:177-197 | the regular files in listing order, or a refusal over the upload cap |
| PackExtract.RoundTrip | src/wakey/agents/sandbox.py:177-197 | extracting what was packed gives the workspace back exactly when within the caps and the first file is at top level |
| Verification.SuccessMeans | src/wakey/core/composition.py:400-433 | a fix is confirmed exactly when the window since the earliest matching deploy (or the merge) has passed without a bound or unbound event |
| Verification.RefutedMeans | src/wakey/policy/verification.py:31-46 | a fix is refuted exactly when its window is long enough, no event in it is of unknown fingerprint, and one is of this |
| Verification.CarriedIff | src/wakey/core/composition.py:383-398 | a deploy carries the fix when it is of the environment, not before the merge, and either commit name starts with the other |
| Verification.OtherDeploysCannotHelp | src/wakey/core/composition.py:383-398 | while all recorded deploys are looked at, a deploy that does not carry the fix never makes a success, and changes no verdict once a deploy is recorded |
| Verification.HiddenDeploysChangeNothing | src/wakey/core/composition.py:389-391 | a deploy recorded behind the 25 newest changes no verdict |
| Verification.OtherDeploysHelpIff | src/wakey/core/composition.py:383-433 | with 25 or more recorded deploys, one among the newest that does not carry the fix makes a success exactly when it pushes out the only earliest deploy of the fix, the next one confirms it, and what was seen between the two is forgotten; unless the pushed one was the only earliest, the verdict does not change |
| Verification.OtherDeploysCanHelpPastTheLimit | src/wakey/core/composition.py:389-391 | with 25 recorded deploys one more can |
| Verification.VerificationWatcher.RunOnce | src/wakey/policy/watcher.py:47-98 | every verifying fingerprint is judged and stored in turn, up to the forge call, row write or audit entry that fails, and no other is touched |
| Verification.TurnsAreJustified | src/wakey/policy/watcher.py:58-98 | a turn closes exactly what is confirmed, reopens as chronic exactly what is refuted, leaves the rest as it was, and never clears the chronic mark |
| Verification.QuietCounts | src/wakey/core/storage.py:627-643 | the stored count is zero exactly when no event in the window is bound to the fingerprint or to none |
| WorkStates.ObserveOnlyWatches | src/wakey/ingest/pipeline.py:216-224 | over every run a service kept in observe has no fingerprint queued for analysis, fixing, or with a proposal |
| WorkStates.StartsIff | src/wakey/agents/fix_executor.py:281-347 | an attempt starts exactly when everything it takes is there: a repository on the allowlist, tests or leave to go without, a model, and for a first fix a confident code-fix verdict, the dial, no proposal or fix under way, room under the cap and a human on a chronic fingerprint, for a retry a published proposal awaiting a human, feedback and fewer than two retries; otherwise nothing changes |
| WorkStates.RefusalIsTrue | src/wakey/agents/fix.py:76-96 | a refusal names a condition that really failed |
| WorkStates.FixingHasACause | src/wakey/agents/fix_executor.py:121-277 | over every run, restarts included, a fingerprint found fixing was put there by an attempt that had everything it takes to start and was cut short after its reserving write |
| WorkStates.ChronicUntilHuman | src/wakey/agents/fix_executor.py:310-347 | over every run, a chronic fingerprint stays chronic until a human starts an attempt on it |
| FixAttempt.AttemptLeaves | src/wakey/agents/fix_executor.py:171-277 | wherever its effects raise or the process dies, an attempt leaves the row untouched, fixing, put back, bound, or published, and nothing else |
| FixAttempt.GuardedRuns | src/wakey/agents/fix_executor.py:187-264 | the guarded block, with all its branches and early returns, is the list of effects its answers lay down, run until one stops it |
| FixAttempt.LeftFixingIff | src/wakey/agents/fix_executor.py:171-277 | a fingerprint is left fixing exactly when, by the fates of its effects and the answers it gets, the attempt reserves and its block is stopped before the next row write, by a death or by an exception whose handler cannot write; an attempt that returns never leaves it so |
| FixAttempt.RaisesIff | src/wakey/agents/fix_executor.py:166-277 | an exception comes out of an attempt exactly when the announcement or the reserving write raises, or the first effect that stops the guarded block raises and then the handler's row write or audit entry does |
| FixAttempt.ReturnLeaves | src/wakey/agents/fix_executor.py:185-277 | an attempt that returns hands a delivered proposal to a human with the chronic mark gone, or changes nothing but the state, to open or back to awaiting a human |
| FixAttempt.UndisturbedReturns | src/wakey/agents/fix_executor.py:185-264 | an attempt that nothing stops returns what its answers call for, with the row that goes with it |
| FixAttempt.CanBeLeftFixing | src/wakey/agents/fix_executor.py:270-274 | both ways to be left fixing: a death, and a failure whose handler cannot write either, so that the call raises |
| FixAttempt.CanRaiseOtherwise | src/wakey/agents/fix_executor.py:166-274 | attempts that raise and leave the row untouched, put back, or bound to a branch |
| WorkStates.CapIsKept | src/wakey/agents/fix_executor.py:353-382 | no attempt, wherever it stops, lifts the proposals counted for any repository above the cap of the service it was started for |
| WorkStates.DispatchMoves | src/wakey/ingest/pipeline.py:125-287 | ingest leaves a work state, makes it new or reopened, or reserves it as the autonomy dial says |
| WorkStates.FixExecutor.RunAttempt | src/wakey/agents/fix_executor.py:171-277 | the imperative attempt, effect by effect, leaves the row and ends as the specified one does, and touches no other row |
| WorkStates.FixExecutor.Execute | src/wakey/agents/fix_executor.py:111-169 | turned away while another fix runs; one attempt exactly when everything a first fix needs is there, and otherwise a refusal with the table unchanged |
| WorkStates.FixExecutor.Retry | src/wakey/agents/fix_executor.py:121-144 | turned away while another fix runs; one attempt on the proposal exactly when everything a retry needs is there, and otherwise a refusal with the table unchanged |
| WorkStates.RetriedWhileObserving | src/wakey/agents/fix_executor.py:281-308 | a proposal made on the fix dial is retried, and can be left fixing, after its service went back to observe, where a first fix is refused |
| Luhn.LuhnValid | src/wakey/security/redaction.py:42-55 | for any notion of digit: accepted exactly for decimal digits with separators whose checksum is a multiple of ten, rejected for anything that is no digit, and raising on digits without a decimal value |
| Luhn.WrongDigitCaught | src/wakey/security/redaction.py:42-55 | any single wrong digit in a valid number of any length is caught |
| Luhn.SwapCaught | src/wakey/security/redaction.py:42-55 | a swap of neighbouring digits goes unnoticed exactly for equal digits and 0 with 9 |
| Luhn.OneCheckDigit | src/wakey/security/redaction.py:42-55 | every prefix has exactly one check digit value, and an ASCII digit that has it |
| Luhn.SeparatorsIgnored | src/wakey/security/redaction.py:44-46 | spaces and dashes make no difference to any of the three answers |
| Segmenter.ParseEvents | src/wakey/ingest/normalizers.py:192-235 | the loop yields exactly the events and dead letters of the spans, in order |
| Segmenter.ReassembleTraceback | src/wakey/ingest/normalizers.py:172-189 | the block and the line reading goes on at |
| Segmenter.EachLineOnce | src/wakey/ingest/normalizers.py:192-235 | every line lies in exactly one span |
| Segmenter.SpansTile | src/wakey/ingest/normalizers.py:192-235 | spans follow each other without gaps or overlaps to the end |
| Segmenter.NothingDropped | src/wakey/ingest/normalizers.py:198-235 | events and dead letters together number the spans that do not start blank |
| Segmenter.OutcomeIs | src/wakey/ingest/normalizers.py:192-235 | what becomes of each span: blank lines are skipped, too long or unreadable ones are dead letters, everything else is an event, with its own id or one made from its place and text |
| Segmenter.StripIs | src/wakey/ingest/normalizers.py:203-205 | stripping takes exactly the white space at both ends |
| Segmenter.LongSpansAreTracebacks | src/wakey/ingest/normalizers.py:172-189 | only a traceback takes several lines, its frames are indented, and it leaves off only at the end, after its closing line, or before another head |
| Segmenter.GeneratedIdsDistinct | src/wakey/ingest/normalizers.py:86-89 | generated ids within a delivery are distinct when the digest keeps their texts apart |

## Left out

- HTTP routes, dashboard, CLI, prompts, model replies and real test runs: proposers, runners and verifiers are arbitrary inputs.
- The GitHub adapter's internal retries and pagination: one port call lands at most one issue.
- Encryption, signatures and SHA-256: encryption is the identity, and digests have a fixed length and do not collide on the texts at hand.
- Redaction patterns, fingerprint templates and traceback language parsers, which depend on library semantics.
- Severity heuristics, timestamps and attributes of parsed events; the message of a structured event is not taken apart.
- Races between full-row writers outside ingest: analysis, watcher, executor and lifecycle are single steps, which in the ingest machine move only the work state. A fix attempt may stop after any effect, but no other pass runs while it does.
- Audit reads with a row limit (retry counts, daily digests): the number of earlier retries is an input.
- Retention pruning, mixed time-zone text ordering, symlinks in path resolution: times are numbers and paths lexical.
- The Postgres backend and `core/queue.py`.
- Ids and credentials are random: `IngestTheorems` takes event ids as given, `ConnectStores.ConnectStore.Create` refuses a clash as the key constraints do, and `ConnectStores.Broker.PairCreates` is called with new ones.
- Directories without files: a write is blocked by a file or by a directory that holds one; any other disk failure is an input.
- Ceilings.TicketCapHolds: holds while the service is never evicted from the counters and its cap does not change, because an evicted service is counted afresh.
- Ceilings.BudgetHolds: within one process lifetime, because the counters are not persisted.
- Windows.RunsAgree: needs per-key clocks that do not go back, as the module's own documentation assumes.
- PackExtract.PackWorkspace: the sorted listing of the directory is an input, so the round trip is stated for any listing.
- Which characters count as digits, and with what value: a parameter of the Luhn check, of which only the ASCII digits are fixed.
- In `FixAttempt` the branch name found is the forge's answer; the search for it is in `FixDelivery`.
- FixDelivery.AtMostOneDraft: commits and labels are not modelled beyond where they can fail, since they are repeated on the same branch.
