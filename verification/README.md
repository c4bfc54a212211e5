# Heptalogos protocol model

A Dafny 4.11 model of the protocols that carry Heptalogos' durable promises, with proofs over
every run of them. `dafny verify dfyconfig.toml` checks the project.

Concurrent code is modelled as steps: one step is the code between two awaits of one caller, or
one step of the database server, a client, a timer or a process. `Apply` is one step, `Legal`
and `Run` are all interleavings, and `Inv` is the inductive invariant. Classes carry the fields
that the source updates; each method is one such piece and is proved equal to its step. Code
that runs in one piece is a method whose script names what every await brings.

| files | what they model |
|---|---|
| `host_fence.dfy`, `fence_safety.dfy`, `fence_rows.dfy` | the one-row HostOwnershipFence, its row locks, and every Host's transactions on it |
| `ownership_transfer.dfy`, `host_lease.dfy` | publication, revocation and the lease connection |
| `persistence_service.dfy`, `transaction_contexts.dfy` | admission and drain of the persistence service; transaction contexts as capabilities |
| `effect_operation.dfy`, `effect_row.dfy`, `effect_protocol.dfy`, `effect_invariant.dfy`, `effect_commit.dfy`, `effect_safety.dfy`, `effect_late_call.dfy`, `effect_histories.dfy`, `effect_outcomes.dfy` | EffectOperation: at most one external write, and rows that say what the ports said |
| `signal.dfy`, `signal_safety.dfy`, `signal_stranding.dfy`, `signal_rescans.dfy`, `signal_service.dfy` | the LISTEN connection of the signal service |
| `fair_scan.dfy`, `reconciler.dfy` | the fair scan and the reconciliation scan |
| `work_item.dfy`, `attempt.dfy` | WorkItem rows, their compare-and-set statements, and one execution of an attempt |
| `bootstrap_store.dfy`, `journal.dfy` | the crash-safe BootstrapState store and the serialized journal |
| `private_postgres.dfy` | the private PostgreSQL lifecycle with proof of stop |

The effect protocol is built on the fence: each of its mutation transactions is a transaction of
`HostFence`, and `RunsRefineTheFence` carries every guarantee of the fence over to it. Results of
I/O, clocks, credentials and identifiers are parameters of the steps.

Seven promises do not hold of the code as it stands. Each has its exact condition, and a concrete
run or input that shows it:

- a definite FAILED row does not mean that the external call is over: as long as that call has no
  outcome, the row is past DISPATCHING exactly if a recovery was committed, and definite exactly if
  a reconciliation was (`CallAfterFailed`, `LateCallIffRecovered`, `LateCallIsDefiniteIffRefined`);
- an adapter answer whose problem is a string that is not JSON is lost, and the row stays
  DISPATCHING until somebody recovers it (`AnswerIsLostIff`, `LostAnswersStayDispatching`,
  `FailureReportIsLost`);
- a written row whose request is a top-level string does not read back (`WrittenRowsReadBack`,
  `StringRequestIsMisread`);
- a listener of an open service can be left with no connection and no reconnect: exactly by a step
  in which an attempt of the current epoch, overtaken by a stale attempt's client, gives up, or in
  which a subscriber or the timer joins an attempt that is already decided, while nothing else is
  scheduled (`OpensUnlessOvertaken`, `ActivatesUnlessOvertaken`, `StepServed`, `ServedUnlessLost`,
  `LossesCanStrand`, `StaleAttemptStrandsAListener`, `JoiningADecidedAttemptStrands`);
- listeners can be left without a rescan after a reconnect (SIG-003 in `specs/execution/signal.md`):
  exactly by a loss of the active client while the timer of an earlier loss is still set, although
  a connection has come up since (`StepRemembers`, `RescanAfterLossUnlessForgotten`,
  `ForgottenLossesSkipTheRescan`, `SecondLossIsForgotten`);
- a rejected checkpoint stays in the journal when the directory sync after the rename fails
  (`JournalsAreLinearizable`, `RejectedCheckpointPersists`);
- a process that exits by itself after its start was in doubt can never be proven stopped through
  its handle (`DownCanBeProvenIffNotInDoubt`, `ExitInDoubtIsReachable`).

## Model

| member | source | states |
|---|---|---|
| `HostFence.InitInv` | packages/bootstrap/host-ownership/src/ownership-schema.ts:745-773 | the fence invariant (locks match transactions, locked rows are pinned, the log is exact, answers are sound) holds for the inserted row |
| `HostFence.StepInv` | packages/data/persistence/src/persistence-service.ts:261-304 | every step of any Host or of the server (begin, lock, reject, finish, issue, commit, abort, answer) keeps the fence invariant |
| `HostFence.RunInv` | packages/bootstrap/host-ownership/src/ownership-schema.ts:338-347 | the fence invariant over every run of every Host |
| `FenceSafety.MutationsCommitUnderTheirOwnToken` | packages/data/persistence/src/persistence-service.ts:104-138 | every committed mutation commits while the row holds exactly its own instance, token and boot |
| `FenceSafety.OldTokensAreFenced` | packages/bootstrap/host-ownership/src/host-ownership.ts:162-200 | once a publication or revocation commits behind a token's reign, no mutation or revocation of that token ever commits again |
| `FenceSafety.RevisionCountsTransfers` | packages/bootstrap/host-ownership/src/host-ownership.ts:186-191 | the revision is the start revision plus the number of committed publications and revocations; the instance never changes |
| `FenceSafety.NotCommittedIsFinal` | packages/bootstrap/host-ownership/src/host-ownership.ts:225-237 | a transaction answered as not committed is in no later log, whatever the server still does |
| `FenceSafety.AnsweredCommitsAreInTheLog` | packages/bootstrap/host-ownership/src/host-ownership.ts:200-224 | a normal return and committed_unverified are given only after the commit, whose entry rewrote exactly the row read under the lock |
| `FenceSafety.ReturnsWhileStillLast` | packages/bootstrap/host-ownership/src/host-ownership.ts:203-224 | when a publication or revocation may return normally, its own entry is the last transfer in the log, so nobody has taken the fence since and a publisher still owns the row |
| `FenceSafety.UncertainMeansUnknown` | packages/data/persistence/src/persistence-service.ts:294-297 | commit_uncertain decides nothing: the same client steps and answer precede a commit and an abort |
| `FenceSafety.UnimpededTransactionsReturn` | packages/bootstrap/host-ownership/src/host-ownership.ts:162-221 | over an unlocked row the transaction of an authority that the row accepts runs through, returns, and leaves exactly the published, revoked or untouched row |
| `FenceSafety.TransfersWaitForEnteredMutations` | packages/bootstrap/host-ownership/src/fence-queries.ts:20-25 | a mutation that entered the shared lock commits before the transfer, never behind it |
| `FenceRows.StorableRowsAreFenceRows` | packages/bootstrap/host-ownership/src/ownership-schema.ts:622-632 | the rows that the table constraints allow are exactly the readings of the model's fence rows |
| `FenceRows.ChecksDecideAcceptance` | packages/data/persistence/src/persistence-service.ts:104-138 | the three raw-row checks pass exactly on the rows the fence model accepts for a mutation, a publication and a revocation |
| `FenceRows.OnlyOwnRowsPass` | packages/data/persistence/src/persistence-service.ts:109-136 | any row set that passes the mutation check is one well-formed row naming the authority |
| `FenceRows.WritesAreRewrites` | packages/bootstrap/host-ownership/src/ownership-revocation.ts:216-249 | the written rows are the fence model's rewrites, and they pass the check made after COMMIT |
| `OwnershipTransfer.AuthorizedQuery` | packages/bootstrap/host-ownership/src/host-ownership.ts:42-52 | a query succeeds exactly with an active lease, authority before and after, and an answering server; which error each failure gives, and when the lease stays active |
| `OwnershipTransfer.Prepare` | packages/bootstrap/host-ownership/src/host-ownership.ts:162-199 | the transaction goes up to its COMMIT exactly if every query passes and the locked rows are the single well-formed row of the instance |
| `OwnershipTransfer.Publish` | packages/bootstrap/host-ownership/src/host-ownership.ts:153-238 | exactly when a publication returns (every step went through and the row then in the table carries its identities one revision after the locked row), with the locked revision and the next; when exactly the commit happens; commit_uncertain and the mismatch of instances by an exact condition; known_not_committed and committed_unverified are sound; a failed publication leaves the lease not active; on rows the table can hold only commit_uncertain and committed_unverified hide a commit, and on others one more error does, by an exact condition |
| `OwnershipTransfer.RevokeInSession` | packages/bootstrap/host-ownership/src/ownership-revocation.ts:183-260 | the revocation transaction: its commit flags, the row they stand for, and exactly when it comes to its result |
| `OwnershipTransfer.Revoke` | packages/bootstrap/host-ownership/src/ownership-revocation.ts:169-269 | exactly when a revocation returns, with the revision it revoked; only the current holder's row is revoked; when exactly the commit happens; sound classification through a failing connect or end of the admin session; on rows the table can hold only commit_uncertain and committed_unverified hide a commit, and on others one more error does, by an exact condition |
| `HostLease.LeaseIsSafe` | packages/bootstrap/host-ownership/src/host-lease-connection.ts:247-310 | over any order of events FENCED implies an aborted signal, an abort is never taken back, the client is ended at most once, and a lease that is over never becomes active again |
| `HostLease.FencedAcquisitionNeverCompletes` | packages/bootstrap/host-ownership/src/host-lease-connection.ts:312-338 | a lease lost while acquiring is never acquired |
| `HostLease.LostLeasesAreFenced` | packages/bootstrap/host-ownership/src/host-lease-connection.ts:247-285 | a client event, a fence call or a failing query fences a lease that is acquiring or active, and aborts its signal |
| `HostLease.LostForGood` | packages/bootstrap/host-ownership/src/host-lease-connection.ts:247-310 | in every run that contains such a loss the signal stays aborted and the lease is never active from then on |
| `HostLease.HeldIff` | packages/bootstrap/host-ownership/src/host-lease-connection.ts:312-338 | over every run a lease is active exactly if it was connected and locked with every authority check passed, and no client event, fence, close or failed query happened |
| `HostLease.ClosedOnce` | packages/bootstrap/host-ownership/src/host-lease-connection.ts:286-310 | however often it is closed, a lease ends its client once, and it is CLOSED, or FENCED and aborted if that end failed |
| `HostLease.HostLeaseConnection.OnClientEvent` | packages/bootstrap/host-ownership/src/host-lease-connection.ts:254-259 | error and end events leave an acquiring or active lease FENCED and aborted, and change nothing else |
| `HostLease.HostLeaseConnection.CompleteQuery` | packages/bootstrap/host-ownership/src/host-lease-connection.ts:274-285 | rows are returned only if the lease was active at completion; a failing query fences it |
| `HostLease.HostLeaseConnection.CloseConnection` | packages/bootstrap/host-ownership/src/host-lease-connection.ts:286-291 | the first close requests closing and ends the client once; later ones do nothing |
| `HostLease.HostLeaseConnection.OnEndSettled` | packages/bootstrap/host-ownership/src/host-lease-connection.ts:292-306 | a clean end closes, a failing one fences and aborts |
| `HostLease.HostLeaseConnection.OnConnected` | packages/bootstrap/host-ownership/src/host-lease-connection.ts:313-315 | the piece after connect: it goes on to the lock, or the lease is aborted and closing with its client ended |
| `HostLease.HostLeaseConnection.OnLockQueried` | packages/bootstrap/host-ownership/src/host-lease-connection.ts:316-338 | the lease becomes active exactly on an acquired lock with every authority check passed, closes when the lock is busy, and otherwise ends its client |
| `PersistenceServices.AdmitExecution` | packages/data/persistence/src/persistence-service.ts:176-194 | metadata is admitted exactly if it names the authority, or is absent outside a mutation |
| `PersistenceServices.DrainIsCorrect` | packages/data/persistence/src/persistence-service.ts:203-259 | drain is requested exactly when the service is not OPEN; destroy is called at most once and only when idle; states only advance |
| `PersistenceServices.DrainRequestedIff` | packages/data/persistence/src/persistence-service.ts:226-268 | over every run drain is requested exactly by a close, an abort or a lost authority in it, and the service is open exactly until then |
| `PersistenceServices.ActiveIsAdmittedMinusFinished` | packages/data/persistence/src/persistence-service.ts:256-304 | the active counter is exactly the transactions admitted minus those finished |
| `PersistenceServices.NothingAdmittedAfterDrain` | packages/data/persistence/src/persistence-service.ts:256-268 | no transaction is admitted once drain was requested |
| `PersistenceServices.LastFinisherDrains` | packages/data/persistence/src/persistence-service.ts:300-303 | under a requested drain the pool is destroyed exactly by the last transaction to finish |
| `PersistenceServices.PersistenceService.EnterTransaction` | packages/data/persistence/src/persistence-service.ts:256-268 | admission exactly if the service is open, authority active, and the metadata names the authority or is absent outside a mutation; the counter grows by it; a lost authority fences |
| `PersistenceServices.PersistenceService.LeaveTransaction` | packages/data/persistence/src/persistence-service.ts:300-303 | the counter goes down and an idle pending drain starts |
| `PersistenceServices.PersistenceService.OnAbort` | packages/data/persistence/src/persistence-service.ts:237-245 | the abort signal fences and requests the drain |
| `PersistenceServices.PersistenceService.CloseService` | packages/data/persistence/src/persistence-service.ts:324-328 | close requests the drain unless the service is closed |
| `PersistenceServices.PersistenceService.OnDestroySettled` | packages/data/persistence/src/persistence-service.ts:211-224 | the settled destroy closes the service and keeps the drain invariant |
| `TransactionContexts.MutationsPassTheFence` | packages/data/persistence/src/persistence-service.ts:269-293 | a context that resolves for a mutation belongs to a transaction that passed the fence, is not committed, and while open still holds the shared lock on its own Host's row |
| `TransactionContexts.ResolvesIffIssuedAndNotReleased` | packages/data/persistence/src/transaction-context.ts:38-70 | over every run a context resolves for a mutation to a transaction exactly if that transaction issued it and it was not released |
| `TransactionContexts.Registry.Issue` | packages/data/persistence/src/transaction-context.ts:38-49 | issuing is the issue step of the world |
| `TransactionContexts.Registry.ReleaseContext` | packages/data/persistence/src/transaction-context.ts:66-70 | releasing is the release step of the world |
| `TransactionContexts.Registry.ResolveForMutation` | packages/data/persistence/src/transaction-context.ts:52-63 | a mutation resolves live mutation contexts only |
| `TransactionContexts.StepInv` | packages/data/persistence/src/transaction-context.ts:38-70 | every live mutation context belongs to a verified, unfinished mutation, through every step of the database and the registry |
| `EffectOperations.DefiniteNeedsEvidence` | packages/execution/effect-operation/src/service.ts:154-242 | the exact adapter answers that yield a definite outcome, the same for dispatch and reconciliation |
| `EffectOperations.UnknownsKeepTheirProblem` | packages/execution/effect-operation/src/service.ts:154-193 | an UNCERTAIN answer keeps the problem it has, any other unknown outcome is the undetermined one, and a reconciliation yields none |
| `EffectOperations.AnswerIsLostIff` | packages/execution/effect-operation/src/service.ts:154-193 | an adapter answer cannot be normalized if and only if it is FAILED or UNCERTAIN with a problem that is a string but not JSON |
| `EffectOperations.StatementsAreLegal` | packages/execution/effect-operation/src/repository.ts:159-294 | every statement climbs a legal edge, keeps request and token and the row shape; none matches a definite outcome |
| `EffectOperations.EffectTable.Insert` | packages/execution/effect-operation/src/repository.ts:159-193 | insert, the existing row, or an identity conflict on another request; the inserted row field by field |
| `EffectOperations.EffectTable.Begin` | packages/execution/effect-operation/src/repository.ts:195-218 | the admission compare-and-set: its row is DISPATCHING under the token, and a miss returns the row it finds |
| `EffectOperations.EffectTable.Complete` | packages/execution/effect-operation/src/repository.ts:220-247 | the completion compare-and-set: its row ends in exactly the outcome given, and each miss is told apart |
| `EffectOperations.EffectTable.Recover` | packages/execution/effect-operation/src/repository.ts:249-269 | the recovery compare-and-set: its row is UNCERTAIN with the outcome given, and a miss returns the row it finds |
| `EffectOperations.EffectTable.Refine` | packages/execution/effect-operation/src/repository.ts:271-294 | the reconciliation compare-and-set: its row ends in exactly the outcome given, and each miss is told apart |
| `EffectRows.ReadRowsAreWellShaped` | packages/execution/effect-operation/src/contracts.ts:225-331 | a row that parses has the token and outcome its state demands, whatever the columns hold |
| `EffectRows.WrittenRowsReadBack` | packages/execution/effect-operation/src/contracts.ts:146-153 | a written row reads back as itself if and only if its request is not a top-level string |
| `EffectRows.StringRequestIsMisread` | packages/execution/effect-operation/src/contracts.ts:146-153 | a concrete row whose request is the string of a number reads back with the number |
| `EffectProtocol.InitInv` | packages/execution/effect-operation/src/service.ts:245-248 | the protocol invariant holds for an empty operation table |
| `EffectInvariant.StepsRefineTheFence` | packages/data/persistence/src/persistence-service.ts:261-304 | every step of the service is at most one step of the fenced database |
| `EffectCommit.StepInv` | packages/execution/effect-operation/src/service.ts:257-505 | every step of every concurrent call keeps the protocol invariant |
| `EffectCommit.RunInv` | packages/execution/effect-operation/src/service.ts:257-505 | the protocol invariant over every run |
| `EffectSafety.AtMostOneExternalWrite` | packages/execution/effect-operation/src/service.ts:349-433 | port.dispatch is called at most once per operation in the whole history, by the one admitted call, under concurrency, crashes, uncertain commits, takeover and recovery |
| `EffectSafety.OutcomesAreTruthful` | packages/execution/effect-operation/src/service.ts:384-430 | a definite outcome was reported for that operation by the called port or a reconciliation, or the call was never made |
| `EffectSafety.SkippedForGood` | packages/execution/effect-operation/src/service.ts:384-391 | once an aborted dispatch skipped the port, nobody ever calls it for that operation |
| `EffectSafety.RowsOnlyClimb` | packages/execution/effect-operation/src/repository.ts:195-294 | states only climb; request and token never change; a definite outcome is never touched |
| `EffectSafety.LedgerMatchesRows` | packages/execution/effect-operation/src/service.ts:277-342 | exactly one dispatch-started record iff the row is past PREPARED, exactly one outcome record iff past DISPATCHING, each with its Activity retained |
| `EffectSafety.RetentionNeverFails` | packages/execution/effect-operation/src/service.ts:365-430 | retaining never meets a retained Activity, and evidence never misses its Activity |
| `EffectSafety.StaleHostsCannotWrite` | packages/execution/effect-operation/src/repository.ts:220-247 | every committing call still owns the fence row, and a completion finds its token in it |
| `EffectSafety.LateCallIffRecovered` | packages/execution/effect-operation/src/service.ts:380-401 | as long as the admitted call has no outcome (the port call lies ahead, is in progress, or its caller ended without one), the row is past DISPATCHING exactly if a recovery was committed |
| `EffectSafety.RunsRefineTheFence` | packages/data/persistence/src/persistence-service.ts:261-304 | every run of the service is a run of the fenced database |
| `EffectLateCall.UnimpededMutationCommits` | packages/data/persistence/src/persistence-service.ts:269-293 | an unimpeded mutation runs through and commits exactly its own statement |
| `EffectLateCall.CallAfterFailed` | packages/execution/effect-operation/src/service.ts:380-401 | a concrete run in which the row is FAILED before the one external call is made |
| `EffectHistories.LateCallIsDefiniteIffRefined` | packages/execution/effect-operation/src/service.ts:380-401 | as long as the admitted call has no outcome, before and during the port call included, the row is definite exactly if a reconciliation of the operation was committed |
| `EffectHistories.LostAnswersStayDispatching` | packages/execution/effect-operation/src/service.ts:410-433 | after an answer that could not be normalized the row stays DISPATCHING in every continuation if and only if no recovery is committed |
| `EffectHistories.FailureReportIsLost` | packages/execution/effect-operation/src/service.ts:394-411 | a concrete run in which a reported failure is lost and the row is left DISPATCHING |
| `EffectOutcomes.AnswersAreRecorded` | packages/execution/effect-operation/src/repository.ts:220-240 | over every run: once the caller's second transaction is committed with its statement, the row records exactly the outcome the dispatch port answered, an unknown one until a reconciliation is committed |
| `EffectOutcomes.SkipsAreRecorded` | packages/execution/effect-operation/src/service.ts:384-392 | a dispatch aborted before the call records FAILED with that problem |
| `EffectOutcomes.ObservationsAreRecorded` | packages/execution/effect-operation/src/repository.ts:271-291 | once a reconciliation is committed with its statement, the row records exactly the outcome it observed |
| `EffectOutcomes.ReportedOutcomesAreRecorded` | packages/execution/effect-operation/src/service.ts:394-430 | from the raw answer to the row: positive evidence given anywhere in the run is the row's final outcome once the completion is committed |
| `EffectOutcomes.DispatchRecordsItsAnswer` | packages/execution/effect-operation/src/service.ts:340-430 | for every request and every evidence there is a run, an undisturbed dispatch, whose row ends saying what the port said |
| `Signals.StepInv` | packages/execution/signal/src/postgres-signal.ts:145-425 | every piece between awaits keeps the slot and attempt invariant |
| `SignalSafety.SignalIsSafe` | packages/execution/signal/src/postgres-signal.ts:197-345 | over all interleavings: a slot is active iff it is activeSlot, clients are ended at most once and none leaks, nothing is active after close, only the current client wakes listeners |
| `SignalSafety.OnlyTheCurrentAttemptActivates` | packages/execution/signal/src/postgres-signal.ts:223-289 | activation happens only to the attempt of the current epoch behind connectPromise, with nothing active before |
| `SignalSafety.OpensUnlessOvertaken` | packages/execution/signal/src/postgres-signal.ts:273-277 | when connect returns, the attempt goes on to LISTEN under the same exact condition |
| `SignalSafety.ActivatesUnlessOvertaken` | packages/execution/signal/src/postgres-signal.ts:262-289 | a successful attempt activates if and only if the service is open, its epoch is current and no other attempt created a client after it |
| `SignalSafety.StaleAttemptsNeverActivate` | packages/execution/signal/src/postgres-signal.ts:223-232 | an attempt whose epoch has passed never activates, however the run goes on |
| `SignalSafety.LiveOldAttemptsAreBehind` | packages/execution/signal/src/postgres-signal.ts:223-232 | every live attempt of an older epoch is in that position |
| `SignalSafety.EndingsAreFinal` | packages/execution/signal/src/postgres-signal.ts:392-425 | an ended client is never active again; a closed service never activates or wakes anything |
| `SignalSafety.LossSchedulesReconnect` | packages/execution/signal/src/postgres-signal.ts:333-375 | losing the current client ends it, starts a new epoch and leaves a reconnect pending |
| `SignalSafety.LastLeaveCloses` | packages/execution/signal/src/postgres-signal.ts:171-178 | the last listener's leaving drops and ends whatever client there was, and starts a new epoch |
| `SignalSafety.AbortCloses` | packages/execution/signal/src/postgres-signal.ts:418-425 | an abort drops and ends whatever client there was |
| `SignalSafety.StaleAttemptStrandsAListener` | packages/execution/signal/src/postgres-signal.ts:262-272 | a concrete run in which a stale attempt overwrites the connecting slot and a listener is left with no connection and no reconnect |
| `SignalSafety.StrandedUntilTheNextSubscriber` | packages/execution/signal/src/postgres-signal.ts:197-221 | such a service stays unconnected until somebody subscribes |
| `SignalStranding.StepServed` | packages/execution/signal/src/postgres-signal.ts:197-221 | one step leaves some listener without a connection, a scheduled reconnect or a rejection to come if and only if it is a losing step: an overtaken attempt of the current epoch gives up, or a subscriber or the timer joins an attempt that is already decided |
| `SignalStranding.ServedUnlessLost` | packages/execution/signal/src/postgres-signal.ts:345-375 | over every run from the start: every listener is served throughout if and only if no step of the run is a losing one |
| `SignalStranding.StrandedOnlyByLoss` | packages/execution/signal/src/postgres-signal.ts:262-289 | a run that ends with a stranded listener contains a losing step |
| `SignalStranding.LossesCanStrand` | packages/execution/signal/src/postgres-signal.ts:262-289 | after any losing step there is a continuation without a failure and without a new subscriber that ends with a stranded listener |
| `SignalStranding.JoiningADecidedAttemptStrands` | packages/execution/signal/src/postgres-signal.ts:161-167 | a concrete run in which nobody is overtaken: a failed subscriber leaves the reconnect without listeners, it gives up, and the next subscriber joins its promise and is stranded |
| `SignalRescans.ActivationRescansIff` | packages/execution/signal/src/postgres-signal.ts:282-289 | an attempt that activates goes on to its rescans exactly if it was started as a reconnect |
| `SignalRescans.RescansBeforeSettling` | packages/execution/signal/src/postgres-signal.ts:287-289 | between its activation and its settling a reconnect has run its rescans |
| `SignalRescans.StepRemembers` | packages/execution/signal/src/postgres-signal.ts:347-360 | one step forgets a rescan that is owed if and only if it is a loss of the active client while the timer of an earlier loss is set and the attempt counter is zero |
| `SignalRescans.RescanAfterLossUnlessForgotten` | packages/execution/signal/src/postgres-signal.ts:234-289 | over every run without such a step, every connection that follows a loss asks all its listeners to rescan |
| `SignalRescans.ForgottenLossesSkipTheRescan` | packages/execution/signal/src/postgres-signal.ts:361-375 | after any such step, in the continuation in which nothing fails, the timer reconnects and nobody is asked to rescan |
| `SignalRescans.SecondLossIsForgotten` | packages/execution/signal/src/postgres-signal.ts:285-289 | a concrete run to such a step: a subscription reconnects before the timer fires, and the new client is lost while it is still set |
| `SignalService.PostgresSignalService.AddListener` | packages/execution/signal/src/postgres-signal.ts:145-163 | admission and the start of a connection |
| `SignalService.PostgresSignalService.RejectListener` | packages/execution/signal/src/postgres-signal.ts:164-167 | a listener whose connection attempt was rejected is dropped, and nothing else changes |
| `SignalService.PostgresSignalService.FinishSubscribe` | packages/execution/signal/src/postgres-signal.ts:161-170 | a listener of a connected service is asked to rescan once, unless the reconnect asked it |
| `SignalService.PostgresSignalService.RescanAll` | packages/execution/signal/src/postgres-signal.ts:287-289 | a reconnect asks every listener |
| `SignalService.PostgresSignalService.OnRescanned` | packages/execution/signal/src/postgres-signal.ts:287-289 | a reconnect settles once every listener has been asked |
| `SignalService.PostgresSignalService.RemoveListener` | packages/execution/signal/src/postgres-signal.ts:171-178 | the last listener closes the client |
| `SignalService.PostgresSignalService.OnAbort` | packages/execution/signal/src/postgres-signal.ts:418-425 | the abort signal closes the service |
| `SignalService.PostgresSignalService.EnsureConnection` | packages/execution/signal/src/postgres-signal.ts:197-221 | join the current attempt or start one |
| `SignalService.PostgresSignalService.OnCredential` | packages/execution/signal/src/postgres-signal.ts:239-272 | the piece after the credential read |
| `SignalService.PostgresSignalService.OnOpened` | packages/execution/signal/src/postgres-signal.ts:273-277 | the piece after connect |
| `SignalService.PostgresSignalService.OnListened` | packages/execution/signal/src/postgres-signal.ts:278-298 | the piece after LISTEN, with the exact activation condition; a reconnect goes on to its rescans |
| `SignalService.PostgresSignalService.OnEnded` | packages/execution/signal/src/postgres-signal.ts:392-399 | the end of a disposed client settles its attempt, rejected or not as its catch clause decided |
| `SignalService.PostgresSignalService.OnPromise` | packages/execution/signal/src/postgres-signal.ts:212-219 | the promise callback clears its own attempt only |
| `SignalService.PostgresSignalService.HandleClientFailure` | packages/execution/signal/src/postgres-signal.ts:333-345 | only the current slot's failure counts |
| `SignalService.PostgresSignalService.HandleNotification` | packages/execution/signal/src/postgres-signal.ts:309-331 | exactly the listeners of the topic are woken, and only by the active, unended client; a malformed notification is refused |
| `SignalService.PostgresSignalService.CloseConnection` | packages/execution/signal/src/postgres-signal.ts:401-416 | both slots are dropped and ended, and the epoch passes |
| `SignalService.PostgresSignalService.OnTimer` | packages/execution/signal/src/postgres-signal.ts:361-374 | the reconnect timer |
| `SignalService.PostgresSignalService.OnRetry` | packages/execution/signal/src/postgres-signal.ts:370-373 | a rejected reconnect schedules the next |
| `FairScan.Selects` | packages/execution/work-queue/src/repository.ts:667-703 | the page query selects exactly the rows of the interval, ascending |
| `FairScan.PageIsFair` | packages/execution/work-queue/src/fair-scan.ts:48-64 | a page skips nothing before its last row, and one that ends the cycle leaves nothing out |
| `FairScan.NoRowTwice` | packages/execution/work-queue/src/fair-scan.ts:32-65 | within a cycle no row is returned twice, whatever happens to the table |
| `FairScan.SteadyRowsAreReturned` | packages/execution/work-queue/src/fair-scan.ts:32-65 | a row that waits through a cycle is returned by it exactly once |
| `FairScan.CyclesAreShort` | packages/execution/work-queue/src/fair-scan.ts:32-65 | an unfinished cycle has read at most n / limit pages for n rows at or below its ceiling, so it ends within n / limit + 1 |
| `FairScan.NoStarvation` | packages/execution/work-queue/src/reconciler.ts:180-204 | a steadily waiting row is returned by the time two cycles have ended, from any lane |
| `FairScan.FairScanLane.ReadPage` | packages/execution/work-queue/src/fair-scan.ts:32-65 | one read moves the lane and returns the page of the specification; it throws exactly if a query that it needs fails, and an idle lane over an empty table returns the empty page |
| `FairScan.FairScanLane.Reset` | packages/execution/work-queue/src/fair-scan.ts:18-21 | the lane starts a fresh cycle |
| `Reconciler.WokenRowsAreNewRevisions` | packages/execution/work-queue/src/repository.ts:1066-1169 | a woken row was still the listed revision, not stopped, and due or handled; it is pending at the next revision |
| `Reconciler.DueRowsAreWoken` | packages/execution/work-queue/src/reconciler.ts:165-197 | every listed row that is still there, not stopped, and due or handled is woken |
| `Reconciler.Wake` | packages/execution/work-queue/src/reconciler.ts:165-197 | the wake loops collect exactly the applied rows, and fail exactly if a statement does |
| `Reconciler.Collect` | packages/execution/work-queue/src/reconciler.ts:205-209 | candidates are the pending rows, one per (id, revision), the last value winning |
| `Reconciler.Offers` | packages/execution/work-queue/src/reconciler.ts:211-245 | each candidate is offered once and counted; a failing offer does not stop the loop |
| `Reconciler.RunScan` | packages/execution/work-queue/src/reconciler.ts:159-253 | when a scan succeeds; no revision is requested twice, and exactly the woken and pending ones are; both lanes advance; the counts are exact and account for every request |
| `Reconciler.ScanGate.Scan` | packages/execution/work-queue/src/reconciler.ts:255-272 | at most one scan runs; every caller gets it or starts it |
| `Reconciler.ScanGate.ScanEnds` | packages/execution/work-queue/src/reconciler.ts:257-266 | the running scan ends while its promise is still joined |
| `Reconciler.ScanGate.Settle` | packages/execution/work-queue/src/reconciler.ts:267-269 | the callback of an ended scan opens the gate if it is still the current one |
| `WorkItems.RowsStayCoherent` | packages/execution/work-queue/src/repository.ts:523-582 | every statement leaves a row the parser accepts, and a running row carries its own revision's attempt |
| `WorkItems.TerminalIsFinal` | packages/execution/work-queue/src/repository.ts:1265-1318 | a terminal row never changes again |
| `WorkItems.OneResultPerRevision` | packages/execution/work-queue/src/attempt-executor.ts:591-728 | over any history of deliveries, races, wakes and cancels, a revision is claimed at most once and leaves RUNNING at most once |
| `WorkItems.ClaimsAreSettledOrRunning` | packages/execution/work-queue/src/repository.ts:1018-1040 | claims are conserved: each has left RUNNING or is running still |
| `WorkItems.RequestsNeverWait` | packages/execution/work-queue/src/repository.ts:1171-1263 | a row that is PENDING, WAITING_DEPENDENCY or RETRY_WAIT never keeps a stop request: it ends on the spot |
| `WorkItems.RequestsWin` | packages/execution/work-queue/src/repository.ts:1277-1303 | a stop requested for a running row is its only possible end: CANCELLED for the cancel reason, or SUPERSEDED by the requested successor |
| `WorkItems.CancelsAreKept` | packages/execution/work-queue/src/repository.ts:1171-1216 | after a cancel every run leaves the row running under it or CANCELLED for its reason; a waiting row is cancelled at once |
| `WorkItems.SupersessionsAreKept` | packages/execution/work-queue/src/repository.ts:1218-1263 | after a supersession every run leaves the row running under it or SUPERSEDED by that successor; a waiting row is superseded at once |
| `WorkItems.RetriesWaitUntilDue` | packages/execution/work-queue/src/repository.ts:1089-1169 | a row put off waits with its class, reason and time, and a wake applies exactly when the time has come |
| `WorkItems.DependenciesAreAwaited` | packages/execution/work-queue/src/repository.ts:1042-1087 | a pending row waits for its handler and comes back at the next revision |
| `WorkItems.ClaimedResultsAreRecorded` | packages/execution/work-queue/src/repository.ts:1265-1318 | a claimed attempt of a row nobody stopped ends in exactly the outcome it commits, for good |
| `WorkItems.StaleStatementsDoNothing` | packages/execution/work-queue/src/repository.ts:792-817 | a statement changes only the revision, state and attempt it was made for |
| `WorkItems.WorkItemTable.Mutate` | packages/execution/work-queue/src/repository.ts:792-817 | one compare-and-set: NOT_FOUND, STALE, TERMINAL or APPLIED, and what a lost answer may hide |
| `Attempts.FailuresAreClassifiedSafely` | packages/execution/work-queue/src/attempt-executor.ts:171-222 | a failure is retried exactly on a complete RETRY answer, with its class, reason and time, and is never recorded as an uncertain effect |
| `Attempts.HandledAttemptsEndAsAnswered` | packages/execution/work-queue/src/attempt-executor.ts:640-728 | what the row and the result say after a handler ran, told by its output or by the classifier's answer, for every answer |
| `Attempts.UnhandledAttemptsEndByTheirCause` | packages/execution/work-queue/src/attempt-executor.ts:453-590 | what keeps a handler from running, and what then becomes of the row and the result |
| `Attempts.MutateWith` | packages/execution/work-queue/src/attempt-executor.ts:251-300 | the Activity marks stand exactly if the statement was applied |
| `Attempts.EndWith` | packages/execution/work-queue/src/attempt-executor.ts:112-136 | the ending mutation, its result, and the balance of the Activity |
| `Attempts.Preflight` | packages/execution/work-queue/src/attempt-executor.ts:453-553 | the early exits, each against its verdict |
| `Attempts.Claim` | packages/execution/work-queue/src/attempt-executor.ts:591-639 | a claim that is not applied releases the reservation |
| `Attempts.RunClaimed` | packages/execution/work-queue/src/attempt-executor.ts:640-728 | the reservation is executed once and one mutation records how the handler ended |
| `Attempts.ReserveAndRun` | packages/execution/work-queue/src/attempt-executor.ts:555-728 | each reservation is executed or released exactly once |
| `Attempts.Execute` | packages/execution/work-queue/src/attempt-executor.ts:410-731 | one delivery under any interference: reservation and Activity balance, terminal replay, results that report the row, the verdict when undisturbed; the completed Activity tells how the row was left, and a row put off waits as its handler asked |
| `BootstrapStore.SealRoundTrip` | packages/bootstrap/bootstrap-state/src/codec.ts:104-156 | a document parses to a body exactly if it is that body's seal and the body is in the schema |
| `BootstrapStore.LoadsIff` | packages/bootstrap/bootstrap-state/src/store.ts:66-109 | what a load finds, told by the two files alone: the sealed current state, else the sealed previous one, nothing if both are missing, corruption in every other case |
| `BootstrapStore.StoppedCommitsLeaveOldOrNew` | packages/bootstrap/bootstrap-state/src/store.ts:142-148 | wherever a commit stops, load finds the old or the new revision as current |
| `BootstrapStore.SmoothCommitsWriteIff` | packages/bootstrap/bootstrap-state/src/store.ts:112-171 | a commit that nothing stops writes exactly if the candidate is in the schema and follows the current revision, and leaves it as current and its predecessor as previous |
| `BootstrapStore.RevisionsAreConsecutive` | packages/bootstrap/bootstrap-state/src/store.ts:112-171 | over any run of commits with failures, current revisions are 1, 2, 3 with no gap and the previous file holds the last or its predecessor |
| `BootstrapStore.DamagedStateIsKept` | packages/bootstrap/bootstrap-state/src/store.ts:117-129 | a damaged or missing current file is never written over |
| `BootstrapStore.BootstrapStateStore.LoadState` | packages/bootstrap/bootstrap-state/src/store.ts:66-109 | load |
| `BootstrapStore.BootstrapStateStore.Commit` | packages/bootstrap/bootstrap-state/src/store.ts:112-171 | the files after a commit, when exactly it succeeds, and each refusal; its own verification never fails |
| `Journal.StepInv` | packages/bootstrap/bootstrap-state/src/keyed-serialization.ts:12-23 | every promise callback keeps the chain and file invariant |
| `Journal.SameKeyRunsAloneAndInOrder` | packages/bootstrap/bootstrap-state/src/keyed-serialization.ts:12-23 | operations of a key never overlap, run in call order, and a key is dropped only when nothing is queued |
| `Journal.JournalsAreLinearizable` | packages/bootstrap/bootstrap-state/src/journal.ts:129-140 | the file is the old content and the published entries in call order; it is the list of successful checkpoints if and only if no directory sync of that journal failed after its rename in the run |
| `Journal.CheckpointsResolveIff` | packages/bootstrap/bootstrap-state/src/journal.ts:129-140 | over every run a checkpoint resolves exactly if its file was renamed and synced, and is in the file exactly if it was renamed |
| `Journal.UndisturbedCheckpointsAreRecorded` | packages/bootstrap/bootstrap-state/src/journal.ts:129-140 | a checkpoint of an idle journal that nothing disturbs resolves with its entry at the end of the file |
| `Journal.RestartsAbandon` | packages/bootstrap/bootstrap-state/src/keyed-serialization.ts:8-9 | a restart leaves nothing queued or running, and no file changed |
| `Journal.LateFailuresAreLateSyncs` | packages/bootstrap/bootstrap-state/src/atomic-file.ts:26-35 | an entry stays behind a rejection exactly if such a sync failed |
| `Journal.RejectedCheckpointPersists` | packages/bootstrap/bootstrap-state/src/atomic-file.ts:20-36 | a concrete run in which a rejected checkpoint stays in the file |
| `Journal.OldestCanMove` | packages/bootstrap/bootstrap-state/src/keyed-serialization.ts:13-18 | the oldest unsettled operation of a key always has a next step |
| `Journal.BootstrapJournal.AddCheckpoint` | packages/bootstrap/bootstrap-state/src/keyed-serialization.ts:13-19 | an operation is chained behind the tail and becomes the tail |
| `Journal.BootstrapJournal.ReadEntries` | packages/bootstrap/bootstrap-state/src/journal.ts:152-202 | the read of the current entries |
| `Journal.BootstrapJournal.ReplaceFile` | packages/bootstrap/bootstrap-state/src/journal.ts:134-139 | append and replace, with a failure before or after the rename |
| `Journal.BootstrapJournal.Finally` | packages/bootstrap/bootstrap-state/src/keyed-serialization.ts:20-22 | the finally callback drops the key only if it is still the tail |
| `PrivatePostgres.AmbiguousStartsNeedARunningProof` | packages/bootstrap/private-postgres/src/lifecycle-machine.ts:58-106 | after an ambiguous start, stopped is reached only through a running proof, a stop command and a stopped proof |
| `PrivatePostgres.RequestsAreHonest` | packages/bootstrap/private-postgres/src/controller.ts:416-495 | one request keeps the tracker honest, and a normal stop means down with nothing in flight |
| `PrivatePostgres.StoppedMeansDown` | packages/bootstrap/private-postgres/src/controller.ts:654-766 | over any sequence of stops and restarts with any outcomes, a tracker that reads stopped tells the truth |
| `PrivatePostgres.StopIsProvenIff` | packages/bootstrap/private-postgres/src/controller.ts:416-495 | a stop is proven exactly if the process is seen down while no start is in doubt, or is seen running and then, after the command, gone; what the tracker says otherwise |
| `PrivatePostgres.StopReturnsIff` | packages/bootstrap/private-postgres/src/controller.ts:660-678 | when a stop request returns, for every handle and process, with the exact reason for each refusal |
| `PrivatePostgres.RestartReturnsIff` | packages/bootstrap/private-postgres/src/controller.ts:679-765 | when a restart request returns, with the exact reason for each refusal |
| `PrivatePostgres.StartReturnsIff` | packages/bootstrap/private-postgres/src/controller.ts:590-766 | a start returns exactly if the cluster was there and ready, or was brought up by this very start |
| `PrivatePostgres.FailedStartsSayWhy` | packages/bootstrap/private-postgres/src/controller.ts:767-778 | a start that failed says so exactly if its cleanup proved the process down, and otherwise that the cleanup is uncertain |
| `PrivatePostgres.DownIsProvenIff` | packages/bootstrap/private-postgres/src/controller.ts:438-449 | a stop of a process that is down returns normally exactly if it is allowed, its probe answers and the last start was not in doubt |
| `PrivatePostgres.DownCanBeProvenIffNotInDoubt` | packages/bootstrap/private-postgres/src/lifecycle-machine.ts:90-99 | a process that is down can be proven stopped by some requests if and only if its last start was not in doubt; otherwise no request ever changes the handle |
| `PrivatePostgres.ExitInDoubtIsReachable` | packages/bootstrap/private-postgres/src/controller.ts:451-462 | a concrete run into that state |
| `PrivatePostgres.FailedStartsAreCleanedUp` | packages/bootstrap/private-postgres/src/controller.ts:767-778 | a start that throws after issuing its command leaves the process proven down, or says start_cleanup_uncertain |
| `PrivatePostgres.Cluster.StopWithProof` | packages/bootstrap/private-postgres/src/controller.ts:416-495 | the probes, the command and the sends, none of them illegal, come to the specified detail and answer |
| `PrivatePostgres.Cluster.Bring` | packages/bootstrap/private-postgres/src/controller.ts:504-563 | where a start or restart can fail and what the tracker then says; no send is illegal |
| `PrivatePostgres.Cluster.Start` | packages/bootstrap/private-postgres/src/controller.ts:590-779 | the start with its cleanup comes to the specified handle and result |
| `PrivatePostgres.Cluster.Stop` | packages/bootstrap/private-postgres/src/controller.ts:660-678 | a stop comes to the specified handle and result; in sequential use no operation is ever in progress |
| `PrivatePostgres.Cluster.Restart` | packages/bootstrap/private-postgres/src/controller.ts:679-765 | a restart comes to the specified handle and result; in sequential use no operation is ever in progress |

## Left out

- HTTP routes, the CLI, generated clients, Product Host composition and third-party process supervision.
- Real SQL, drivers, query builders and state-chart libraries: only row locks held to the end of the transaction, compare-and-set updates, atomic commit and abort, the transition tables and a status probe are kept.
- SHA-256, UUIDv7 generation and the JSON canonicalizer: identifiers are numbers, digests and attempt ids are injective, canonical text is the value itself, and schema validation is a predicate.
- Timestamps, lineage references, problem texts, telemetry, credentials and timeouts as clock values.
- FenceSafety.OldTokensAreFenced: assumes that published tokens are fresh, since tokens are generated outside the protocol.
- HostFence.StepInv: a lock wait is a Lock step that is not enabled yet; a lock timeout is an Abort step.
- The ownership schema's provisioning and access-control convergence; only the text of its lock function and the initial row are used.
- PersistenceServices.DrainIsCorrect: does not model a callback that closes the service from inside its own admission.
- TransactionContexts.MutationsPassTheFence: does not model SQL that a caller sent through a live context but did not await before the context was released.
- EffectSafety.OutcomesAreTruthful: what the adapter reports is taken as its report; whether the external system did it is outside the model.
- EffectCommit.StepInv: takes a row to be read back as it was written; top-level string requests, for which `WrittenRowsReadBack` refutes that, are outside the protocol model: they are refused when inserted or read as another value.
- SignalService.PostgresSignalService.RescanAll: the rescans of one reconnect are one piece.
- SignalSafety.SignalIsSafe: the order of rescans and the back-off delay are not modelled; eventual connection is not claimed, since it does not hold.
- FairScan.NoStarvation: assumes that the table is read in the order of its index, as the query's ORDER BY says.
- Reconciler.RunScan: the anti-entropy timer and the start and stop of the loop are not modelled, only the scan and its gate.
- WorkItems.OneResultPerRevision: insertion and deduplication of WorkItems are not modelled; a history starts at an existing row.
- Attempts.Execute: the handler's cancellation monitor only aborts a signal and is left out; a handler may run again after a restart, only its durable result is single.
- BootstrapStore.RevisionsAreConsecutive: one writer and atomic replaces; a crash leaves each replace done or not done.
- Journal.JournalsAreLinearizable: validators of single entries are part of a refused replace.
- PrivatePostgres.StoppedMeansDown: one operation at a time, as the guards of the source suppose; overlapping stops and restarts of one handle are not modelled.
- PrivatePostgres.FailedStartsAreCleanedUp: nobody else starts the cluster, and a restart command that gives up in its stop phase leaves no start behind.
- The already-running disposition in the stopped invariant: its tracker stays at the initial state and stop and restart are refused.
- Exactly-once execution of work handlers.
