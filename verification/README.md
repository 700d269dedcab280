# Durable execution, verified

A Dafny model of how the agent platform carries out an approved mutation at most once, and of the
smaller state machines around it. `dafny verify dfyconfig.toml` checks all of it.

## What is modelled

**The ledger.** Runs, signed intents, dispatch claims, observation rows and their budgets are one
value (`Ledger.dfy`), and each database transaction of the agent and of the worker is a function on
it, since each of them locks the run row. `LedgerInvariants.dfy` and `LedgerHistory.dfy` show what
every transaction keeps and what no history can undo; `LedgerTheorems.dfy` states the promises, and
`LedgerAnswers.dfy` exactly what each transaction answers and adds.
`LedgerStore.dfy` is the agent's access as it works, with tables updated in place, proved against
those functions.

**Recovery reads.** `Projection.dfy` is the projection a reader is given, as one pass over the rows,
and how that verdict moves over time. `Cursor.dfy`, `Paging.dfy` and `RecoveryReads.dfy` are the
scoped cursors (section 5 of RFC 4648 without padding, the MAC of RFC 2104 as a parameter) and the
walks over pages.

**The protocol.** `Protocol.dfy` puts agent processes with their stop latches, coordinator calls,
workers with their dispatch permits, the send mutex and the ledger into one state machine. Actions
interleave freely; processes crash anywhere; a transaction may be refused before it commits, or
commit and lose its acknowledgement; a send may lose the connection that holds its mutex.
`ProtocolInvariants.dfy` keeps the invariant over every action, and `ProtocolTheorems.dfy` draws the
conclusions; `ProtocolProgress.dfy` says exactly when claims mint, sends open, calls advance and permits
are given, and holds a run in which all of it happens. `Invocation.dfy` holds the handoff's phases and
the failure classifier, `WireChecks.dfy` exactly what passes them, and
`RunGuards.dfy` the latch, the permit, the guard and the coordinator as objects. `BlockedAfterPost.dfy`
and `LostStops.dfy` show where the protocol does less than documented, and exactly when, on the
concrete run of `SampleRun.dfy`.

**Around it.** `FlowAuthority.dfy` is browser-flow authority and run inheritance;
`AuthoringTrace.dfy` and `AuthoringTransactions.dfy` the authoring trace as a list and as locked,
interleaving SQL; `EvidenceStore.dfy` the evidence store and its eviction loop; `Confirmations.dfy`
parked confirmations and their first-write-wins records; `ModelCatalog.dfy` the model catalog and
its fallback ladder.

## Conventions

Instants are microseconds of the database clock, which does not run backwards. SHA-256 is an
injective constructor, and whether a signature, a JSON Schema or a metadata size holds is a boolean
of the signed value. Fresh UUIDs, request identifiers, the worker's answers, fetched series and the
clock are parameters. Processes hold a provisioned signing key where one is needed.

## Where code and documentation differ

- A coordinator call is documented to report `blocked` only for a refusal before dispatch or a run
  already stopped. A call that has contacted the worker returns `blocked` also when it finds its
  latch set, and when the durable acceptance finds the intent past its retention, the run stopped
  meanwhile, the execution in conflict, an unsafe request id, or a store that answers
  `schema_invalid` or another reason the classifier does not count as uncertain; exactly then
  (`BlockedAfterPost.dfy`). The ledger stays truthful: no reader is told `not_dispatched` of it.
- The evidence budget is documented as evicting until the session fits. An eviction whose marker is
  longer than the payload it replaces ends the loop, although later payloads could still be evicted.
- The authoring trace's lock does not cover sweeps and deletions: one that commits inside the
  statement of an append about to extend a trace leaves a gap in the positions.
- A worker stop with a reason outside the list the `stop_reason` column admits (for example
  `identity_conflict`) violates that column's check, so neither the stop nor its fact is stored
  (`LostStops.dfy`).
- A stop attributed to an intent that was never registered is refused by the ledger: the latch is
  set, the durable stop is not (`LostStops.dfy`).

## Model

| member | source | states |
|---|---|---|
| `ExecutionProtocol.CheckedOriginalIsWorkerResult` | products/agent-platform/src/agent_service/services/execution_protocol.py:161-190 | a response that passes the original check carries a worker's signed result for this very request and attempt, with the digest of its own receipt, whose receipt succeeded exactly when the tool reported success |
| `WireChecks.RequestIsValidExactlyWhen` | products/agent-platform/src/agent_service/services/execution_protocol.py:77-87 | a request passes exactly as a well-formed, signed version 3 envelope of at most fifteen minutes |
| `WireChecks.PlainObservationIsValidExactlyWhen` | products/agent-platform/src/agent_service/services/execution_protocol.py:90-118 | what the observation builder signs passes the validator exactly for the plain kinds its author may write, with safe ids and a key |
| `WireChecks.ResultFactIsValidExactlyWhen` | products/agent-platform/src/agent_service/services/execution_protocol.py:103-118 | a result passes exactly with a signed receipt of this execution and attempt that tells success as the tool did |
| `WireChecks.PagePassesExactlyWhen` | products/agent-platform/src/agent_service/services/execution_protocol.py:187-190 | a recovery page passes exactly when each of its observations is valid and of this attempt |
| `WireChecks.OriginalIsVerifiedExactlyWhen` | products/agent-platform/src/agent_service/services/execution_protocol.py:161-199 | a reply is verified exactly as the original worker result of this request and attempt whose fact, receipt, page and tool result agree; every other one is `response_invalid` |
| `WireChecks.InadmissibleStopReasons` | products/execution-runtime/src/execution_runtime/contracts/execution-ledger-v1.sql:24-29 | the nine reasons the `stop_reason` column does not admit |
| `LedgerInvariants.FirstResultDecides` | products/execution-runtime/src/execution_runtime/services/execution_ledger.py:325-329 | comparing a new result with the first stored one finds every disagreement that is not flagged already |
| `LedgerInvariants.AgentAppendKeepsCore` | products/agent-platform/src/agent_service/services/execution_recovery.py:297-333 | an agent append keeps every table invariant and only touches one execution's state and at most one new row |
| `LedgerInvariants.WorkerAppendKeepsCore` | products/execution-runtime/src/execution_runtime/services/execution_ledger.py:300-353 | the same for a worker append, including the conflict slot a disagreeing receipt takes |
| `LedgerHistory.RegisterKeeps` | products/agent-platform/src/agent_service/services/execution_recovery.py:254-295 | registration keeps the whole ledger invariant and can only do what later states may do |
| `LedgerHistory.StopRunKeeps` | products/agent-platform/src/agent_service/services/execution_recovery.py:335-361 | so does a stop with or without its attributed fact |
| `LedgerHistory.AcceptKeeps` | products/agent-platform/src/agent_service/services/execution_recovery.py:363-393 | so does an acceptance |
| `LedgerHistory.ClaimKeeps` | products/execution-runtime/src/execution_runtime/services/execution_ledger.py:158-220 | so does a worker claim, fresh or duplicate |
| `LedgerHistory.FinishKeeps` | products/execution-runtime/src/execution_runtime/services/execution_ledger.py:269-293 | so does a worker report or stop, whatever its stop reason |
| `LedgerHistory.ForgetKeeps` | products/execution-runtime/src/execution_runtime/services/execution_ledger.py:369-414 | so does a retention sweep of any set of executions past their thirty days |
| `LedgerHistory.PlayKeeps` | products/agent-platform/src/agent_service/services/execution_recovery.py:195 | any history of transactions in clock order keeps the invariant, never undoes a stop, gives a stopped run no intent, claim or acceptance, and keeps every retained row, claim and flag |
| `LedgerHistory.ReachableIsOk` | products/agent-platform/src/agent_service/services/execution_recovery.py:195 | every ledger that any history reaches from the empty one satisfies the invariant |
| `LedgerTheorems.OnlyTheLatestIntentIsOpen` | products/agent-platform/src/agent_service/services/execution_recovery.py:222-295 | of two intents of one run the earlier has an acceptance whose receipt digest matches a stored worker result |
| `LedgerTheorems.AcceptanceRestsOnOwnedResult` | products/agent-platform/src/agent_service/services/execution_recovery.py:374-389 | every acceptance rests on a stored result, of the same receipt, from the owner of the execution's claim |
| `LedgerTheorems.StopIsFinal` | products/agent-platform/src/agent_service/services/execution_recovery.py:274-277 | after a durable stop no continuation gives the run an intent, a claim or an acceptance it did not have, and the stop stays as it was |
| `LedgerTheorems.NothingFollowsTheStop` | products/agent-platform/src/agent_service/services/execution_recovery.py:335-393 | no intent, claim or acceptance of a stopped run is dated after its stop |
| `LedgerTheorems.RefusalExcludesClaimForever` | products/agent-platform/src/agent_service/services/execution_recovery.py:345-361 | a recorded pre-dispatch refusal and a claim of one execution never meet, now or in any continuation |
| `LedgerTheorems.ReaderSeesEveryRow` | products/agent-platform/src/agent_service/services/execution_recovery.py:419-420 | `ordinary_count` is exactly the number of slotless rows and at most 64, each slot has at most one row, and an execution's rows are at most 70, fewer than the reader reads |
| `LedgerTheorems.AgentRowsAreBounded` | products/agent-platform/src/agent_service/services/execution_recovery.py:297-333 | agent rows of an execution never exceed 67 |
| `LedgerTheorems.AppendOutcomes` | products/agent-platform/src/agent_service/services/execution_recovery.py:297-333 | an agent append is exactly one of inserted, identical, conflict and overflow, each told from the ledger before it, and only an insertion changes the rows |
| `LedgerTheorems.ReservedFactsAlwaysLand` | products/agent-platform/src/agent_service/services/execution_recovery.py:315-333 | the first acceptance, stop and timeout with a fresh id always land, however full the ordinary budget is |
| `LedgerTheorems.AppendLeaves` | products/agent-platform/src/agent_service/services/execution_recovery.py:306-333 | each outcome leaves exactly its mark in the state: a counted repetition, a flagged conflict with its first digest kept, a flagged and counted overflow, a charged insertion |
| `LedgerTheorems.AppendIsDurable` | products/agent-platform/src/agent_service/services/execution_recovery.py:297-333 | an append acknowledged as inserted or identical is in the ledger, any other leaves the rows as they were |
| `LedgerTheorems.StopIsRefusedExactlyWhen` | products/agent-platform/src/agent_service/services/execution_recovery.py:335-361 | a stop is refused, and then changes nothing, exactly for a run that is not the caller's or a note that is improper, of an intent never registered, calling a claimed execution refused before dispatch, or with a fact not valid for the intent |
| `LedgerTheorems.StopIsDurable` | products/agent-platform/src/agent_service/services/execution_recovery.py:335-361 | an acknowledged stop is in the ledger, keeps an earlier one, and its fact is stored unless its id is taken or the budget is full |
| `LedgerTheorems.FinishIsDurable` | products/execution-runtime/src/execution_runtime/services/execution_ledger.py:269-281 | a worker report is refused, and then changes nothing, exactly when run or intent is missing, the fact is not valid, or it would stop an unstopped run for a reason the column does not admit; an acknowledged one is in the ledger together with its stop |
| `LedgerTheorems.WorkerStopIsLostExactlyWhen` | products/execution-runtime/src/execution_runtime/services/execution_ledger.py:283-293 | the worker's own stop is lost exactly when its report would be or when it calls a claimed execution refused before dispatch; otherwise the run is stopped |
| `LostStops.WorkerStopCanBeLost` | products/execution-runtime/src/execution_runtime/contracts/execution-ledger-v1.sql:24-29 | a reachable ledger in which the worker's stop of a claimed execution for `identity_conflict` leaves neither the stop nor its fact, where an admitted reason would have landed |
| `LostStops.CallStopLandsExactlyWhen` | products/agent-platform/src/agent_service/services/execution_run_guard.py:202-226 | in every possible system a latched call's stop leaves its run stopped exactly when it was already, or no send holds the mutex, the store does not refuse it, the run is the guard's and the note, if one can be built, names a registered intent of that run under the call's attempt and calls no claimed execution refused |
| `LostStops.RefusedRegistrationLeavesNoStop` | products/agent-platform/src/agent_service/services/execution_invocation.py:144-173 | a run in which registration is refused, the call returns `blocked` with its run latched, and the ledger has no stop |
| `LedgerTheorems.ForgetTakesWholeExecutions` | products/execution-runtime/src/execution_runtime/services/execution_ledger.py:369-414 | a retention sweep leaves nothing of the executions it takes and everything of the others |
| `LedgerTheorems.RegisterIsIdempotent` | products/agent-platform/src/agent_service/services/execution_recovery.py:262-270 | registering again answers the first attempt and changes nothing, whatever happened to the run, the window or admission in between, while the intent is retained |
| `LedgerAnswers.RunIsCreatedExactlyWhen` | products/agent-platform/src/agent_service/services/execution_recovery.py:210-220 | a run is created exactly under an unused id with session and owner of 1 to 256 characters |
| `LedgerAnswers.FreshRegistrationIsTakenExactlyWhen` | products/agent-platform/src/agent_service/services/execution_recovery.py:271-295 | a fresh registration is taken exactly when admission is on for one epoch, the run is not stopped, every intent of the run is accepted and not in conflict and the request is within its window; it adds exactly that intent, and every refusal has the first reason that applies |
| `LedgerAnswers.RegistrationAnswersOtherwise` | products/agent-platform/src/agent_service/services/execution_recovery.py:254-270 | the answers before freshness is considered: invalid, unsafe, no run, another's run, the identical intent's attempt, or a conflict |
| `LedgerAnswers.ClaimMintsExactlyWhen` | products/execution-runtime/src/execution_runtime/services/execution_ledger.py:180-215 | a claim of a registered, unclaimed request mints exactly when admission is on for one epoch, the run is not stopped, every earlier intent is settled, the request is within its window and the fact's id is new; it adds exactly the claim, observed for two minutes, and its fact, and every refusal has the first reason that applies |
| `LedgerAnswers.RepeatedClaimIsNoted` | products/execution-runtime/src/execution_runtime/services/execution_ledger.py:174-186 | a claim of a claimed execution answers `metadata_replay` and adds its fact to the ordinary budget, or flags the overflow |
| `LedgerAnswers.UnregisteredClaimIsRefused` | products/execution-runtime/src/execution_runtime/services/execution_ledger.py:164-173 | a claim of an unregistered request changes nothing and tells a missing request from a conflicting one |
| `LedgerAnswers.AcceptanceIsTakenExactlyWhen` | products/agent-platform/src/agent_service/services/execution_recovery.py:363-393 | the acceptance of a verified original is taken exactly when the request id is safe, the request registered, the run not stopped, the execution not in conflict, that result stored and the acceptance stored or new with room; whatever the tool reported, it stores the result's receipt and attempt under the current request, and every refusal has the first reason that applies |
| `LedgerAnswers.AgentFactIsAdmittedExactlyWhen` | products/agent-platform/src/agent_service/services/execution_recovery.py:297-305 | an agent's fact is admitted exactly when it is valid, the agent's own and of the intent's attempt |
| `LedgerAnswers.WorkerFactIsAdmittedExactlyWhen` | products/execution-runtime/src/execution_runtime/services/execution_ledger.py:300-324 | a worker's fact is admitted exactly when it is valid, of the intent's attempt and, for a new claim or result, from the claim's owner |
| `LedgerAnswers.WorkerAppendOutcomes` | products/execution-runtime/src/execution_runtime/services/execution_ledger.py:300-353 | a worker's append puts the execution in conflict exactly when it was, its id is stored with other content, or it is a result with another receipt; with budget left a new fact is stored |
| `LedgerAnswers.SweepTakesOnlyTheExpired` | products/execution-runtime/src/execution_runtime/contracts/execution-ledger-v1.sql:153-164 | a sweep takes what it is given exactly when all of it expired thirty days ago or more |
| `LedgerStore.ExecutionRecovery.Register` | products/agent-platform/src/agent_service/services/execution_recovery.py:254-295 | the in-place registration does what the transaction on ledger values does and keeps the invariant |
| `LedgerStore.ExecutionRecovery.Append` | products/agent-platform/src/agent_service/services/execution_recovery.py:297-333 | so does the in-place append |
| `LedgerStore.ExecutionRecovery.StopRun` | products/agent-platform/src/agent_service/services/execution_recovery.py:335-361 | so does the in-place stop |
| `LedgerStore.ExecutionRecovery.Accept` | products/agent-platform/src/agent_service/services/execution_recovery.py:363-393 | so does the in-place acceptance, which commits its append even when its outcome fails the call |
| `LedgerStore.ExecutionRecovery.CreateRun` | products/agent-platform/src/agent_service/services/execution_recovery.py:210-220 | so does the creation of a run |
| `Projection.ReadFacts` | products/agent-platform/src/agent_service/services/execution_recovery.py:421-434 | the pass over the rows keeps exactly the readable ones and raises the conflict exactly when it drops one |
| `Projection.Project` | products/agent-platform/src/agent_service/services/execution_recovery.py:395-472 | the projection read: refusals in order, one verdict from every readable fact whatever the window, and one keyset page of them |
| `Projection.CountingJudges` | products/agent-platform/src/agent_service/services/execution_recovery.py:435-439 | counting distinct receipts finds a conflict exactly when two readable results disagree or a row is unreadable |
| `Projection.VerdictMeans` | products/agent-platform/src/agent_service/services/execution_recovery.py:435-450 | in every reachable ledger nothing is unreadable, the conflict is the stored flag, a receipt is told exactly when an unflagged result is stored and is that of every stored result, and the state is the decision over the whole ledger |
| `Projection.StatesAreTold` | products/agent-platform/src/agent_service/services/execution_recovery.py:435-472 | for every reachable ledger and instant one condition per answer: `outcome_unknown` for a conflict or, without a result, an uncertain fact or a passed deadline (the claim's, or two minutes after an unclaimed registration); `result_recorded`, `dispatch_claimed`, `not_dispatched` and none otherwise; with the stop, the deadline and the need for verification |
| `Projection.ProjectionMovesForward` | products/agent-platform/src/agent_service/services/execution_recovery.py:419-472 | a claimed execution's state only moves forward as the ledger grows and time passes, a conflict is the only way back and is absorbing, and a recorded receipt never changes |
| `Projection.NotDispatchedIsForever` | products/agent-platform/src/agent_service/services/execution_recovery.py:439-450 | an execution told `not_dispatched` has no claim, and no continuation gives it one |
| `Cursor.BytesRoundTrip` | products/agent-platform/src/agent_service/services/execution_recovery.py:508 | base64 decoding of the encoding gives back every byte string |
| `Cursor.DecodeAcceptsExactlyMintedTokens` | products/agent-platform/src/agent_service/services/execution_recovery.py:501-523 | decoding answers a position exactly for the token minted for that position, from 1 to 2^63-1, in the same scope |
| `Cursor.EncodedPosition` | products/agent-platform/src/agent_service/services/execution_recovery.py:501-508 | a minted token has 54 characters and its first eight bytes are the position |
| `Cursor.SymbolsAreUrlSafe` | products/agent-platform/src/agent_service/services/execution_recovery.py:508 | tokens are spelled in the URL-safe alphabet, in its order |
| `Cursor.TokensAreScoped` | products/agent-platform/src/agent_service/services/execution_recovery.py:501-523 | a token of one read is taken by another exactly when their MACs of its position agree |
| `Paging.WalkServesPrefix` | products/agent-platform/src/agent_service/services/execution_recovery.py:451-456 | pages served so far are the beginning of the list and the token names where they end, even while the list grows at its end and page sizes change |
| `Paging.WalkServesEverything` | products/agent-platform/src/agent_service/services/execution_recovery.py:451-456 | following tokens to the end visits every item once and in order: the pages joined are the list the last request saw |
| `Paging.WalkEnds` | products/agent-platform/src/agent_service/services/execution_recovery.py:525-571 | every page but the last serves something, so a walk over n items ends within n + 1 requests |
| `Paging.WalkFillsItsPages` | products/agent-platform/src/agent_service/services/execution_recovery.py:451-456 | every page but the last one of a walk is full |
| `RecoveryReads.ApplyGrows` | products/agent-platform/src/agent_service/services/execution_recovery.py:327-333 | no transaction removes, reorders or inserts before a row of a retained execution |
| `RecoveryReads.ObservationsOnlyGrow` | products/agent-platform/src/agent_service/services/execution_recovery.py:419-456 | between two reads a retained execution's readable observations keep their places and grow only at the end, in position order |
| `RecoveryReads.OwnerRecovery` | products/agent-platform/src/agent_service/services/execution_recovery.py:573-604 | the owner's read answers one projected page with tokens of its own scope, refuses a foreign token, and tells anyone else nothing |
| `RecoveryReads.ObservationPagesServeEverything` | products/agent-platform/src/agent_service/services/execution_recovery.py:451-460 | following cursors from the start to the end, while the ledger goes on, serves every observation of the execution exactly once and in order, as the last read's ledger has them, in pages of twenty and so within four reads |
| `RecoveryReads.OwnerPagesServeEverything` | products/agent-platform/src/agent_service/services/execution_recovery.py:525-571 | paging an owner's executions to the end serves exactly the owner's executions, in registration order |
| `Invocation.ClassifierSeesThePost` | products/agent-platform/src/agent_service/services/execution_worker_client.py:175-226 | a handoff failure is classified uncertain exactly when the post had been attempted and as a pre-dispatch refusal exactly when it had not |
| `WireChecks.HandoffPostsExactlyWhen` | products/agent-platform/src/agent_service/services/execution_worker_client.py:175-203 | the worker is contacted exactly with a valid request, the credentials it calls for and no others, the signed arguments, a safe attempt id and a timeout of at most two minutes; with what each refusal means |
| `WireChecks.HandoffDeliversExactlyWhen` | products/agent-platform/src/agent_service/services/execution_worker_client.py:204-226 | a verified original comes back exactly from a readable 200 answer under this attempt's id; with the reason of every other exchange |
| `WireChecks.BlockingReasons` | products/agent-platform/src/agent_service/services/execution_invocation.py:33-69 | the reasons that are not uncertain, and the kind of fact each stop is attributed with |
| `ProtocolSteps.ApplyIsSteady` | products/execution-runtime/src/execution_runtime/services/execution_ledger.py:369-414 | intents and claims leave together and only past retention, a new intent is within its window, and only the transaction's own target becomes stopped |
| `ProtocolSteps.ClaimIsSteady` | products/execution-runtime/src/execution_runtime/services/execution_ledger.py:158-220 | a claim that mints was not there before, on an unstopped run within the signed window |
| `ProtocolInvariants.AcceptanceSupports` | products/agent-platform/src/agent_service/services/execution_run_guard.py:228-268 | a successful acceptance of a success happens on an unstopped, unconflicted run and leaves the claim, the owner's succeeded result and the acceptance row behind |
| `ProtocolInvariants.NextKeeps` | products/agent-platform/src/agent_service/services/execution_invocation.py:92-173 | every action of agents, workers, clock and failures keeps the protocol invariant |
| `ProtocolInvariants.PerformKeeps` | products/agent-platform/src/agent_service/services/execution_invocation.py:92-173 | so does every run of actions, in any interleaving |
| `ProtocolTheorems.PossibleLedgerIsReachable` | products/agent-platform/src/agent_service/services/execution_recovery.py:195 | the ledger inside every possible system is one the ledger theorems speak of |
| `ProtocolTheorems.DispatchedAtMostOnce` | products/execution-runtime/src/execution_runtime/services/execution_ledger.py:237-267 | no envelope is ever dispatched twice; two dispatches sharing an execution id or an approved call have signed expiries more than thirty days apart |
| `ProtocolProgress.SendOpensExactlyWhen` | products/execution-runtime/src/execution_runtime/services/execution_ledger.py:237-267 | an unused dispatch permit starts its tool call exactly when no send holds its run's mutex, its request is registered and claimed for its owner, admission is on for one epoch, the run is not stopped, the execution not in conflict and every earlier intent settled |
| `ProtocolProgress.ClaimMintsAPermitExactlyWhen` | products/execution-runtime/src/execution_runtime/services/execution_ledger.py:158-220 | in every possible system a claim mints a dispatch permit exactly when the store answers it and the ledger takes it |
| `ProtocolProgress.SentCall` | products/execution-runtime/src/execution_runtime/services/execution_ledger.py:237-267 | a possible system in which a dispatch permit has opened its send |
| `ProtocolProgress.SecondRequestFollowsTheFirst` | products/agent-platform/src/agent_service/services/execution_invocation.py:92-141 | a possible system in which a call was claimed, sent, reported, accepted and given a permit that burnt, and whose run takes a second request |
| `ProtocolProgress.CallAdvancesExactlyWhen` | products/agent-platform/src/agent_service/services/execution_invocation.py:113-133 | each step of a call before acceptance is passed exactly when the latch is not set, the ledger takes the registration, and the two phases of the handoff pass |
| `ProtocolProgress.OriginalReturnsExactlyWhen` | products/agent-platform/src/agent_service/services/execution_run_guard.py:228-268 | in every possible system a call returns its original exactly when the store answers and the ledger takes the acceptance, and mints a permit for its process, run, request and receipt exactly when the tool reported success besides |
| `ProtocolProgress.PermitBurnsExactlyWhen` | products/agent-platform/src/agent_service/services/execution_run_guard.py:127-133 | a permit burns exactly while its process lives and it is unburnt |
| `ProtocolTheorems.DispatchedIsClaimed` | products/agent-platform/src/agent_service/services/execution_recovery.py:439-450 | while a dispatched execution is retained, readers see its claim and never `not_dispatched` |
| `ProtocolTheorems.NotDispatchedIsTrue` | products/agent-platform/src/agent_service/services/execution_recovery.py:447-448 | an execution told `not_dispatched` was never dispatched and never will be, in any continuation of the whole system |
| `ProtocolTheorems.FailureBlocksTheRun` | products/agent-platform/src/agent_service/services/execution_invocation.py:113-173 | after a call returned `blocked` or `uncertain`, every call begun later in that process on that run neither registers nor posts and returns `blocked` with `run_stopped` |
| `ProtocolTheorems.SendsFollowAcceptances` | products/agent-platform/src/agent_service/services/execution_invocation.py:113-133 | whenever a call has registered and may contact the worker, every earlier intent of its run has its accepted result |
| `ProtocolTheorems.PermitsRestOnAcceptances` | products/agent-platform/src/agent_service/services/execution_run_guard.py:228-268 | a release permit rests on a claim, that owner's succeeded result and an acceptance of the same receipt written before the run's stop if any, and is consumed at most once |
| `ProtocolTheorems.PermitsAreMintedOnLiveRuns` | products/agent-platform/src/agent_service/services/execution_run_guard.py:228-268 | a permit is minted only by an acceptance on a run neither stopped nor in conflict |
| `ProtocolTheorems.NoStopDuringASend` | products/execution-runtime/src/execution_runtime/services/execution_ledger.py:237-267 | a tool call in flight meets a stop of its run only if its connection, and with it the run's mutex, was lost |
| `ProtocolTheorems.ALostSendCanMeetAStop` | products/execution-runtime/src/execution_runtime/services/execution_ledger.py:237-267 | and whenever it is lost, its run can be stopped while the call goes on |
| `BlockedAfterPost.BlockedCanFollowAPost` | products/agent-platform/src/agent_service/services/execution_invocation.py:144-173 | a run in which a call that has contacted the worker returns `blocked` because its run was stopped meanwhile |
| `BlockedAfterPost.BlockedBySchemaAfterAPost` | products/agent-platform/src/agent_service/services/execution_invocation.py:33-40 | a run in which it returns `blocked` for `schema_invalid` on a run that is neither stopped nor in conflict |
| `BlockedAfterPost.PostedCallIsBlockedExactlyWhen` | products/agent-platform/src/agent_service/services/execution_invocation.py:113-173 | in every possible system a posted call turns `blocked` exactly by the second look at a latch that is set, or by an acceptance that the store refuses with a reason that is not uncertain or that finds the intent gone, the run stopped, the execution in conflict or the request id unsafe; the worker's answer never does it |
| `BlockedAfterPost.BlockedReturnHasACause` | products/agent-platform/src/agent_service/services/execution_invocation.py:113-173 | every run that ends with a posted call blocked contains such a step |
| `BlockedAfterPost.AcceptanceFailureIsBlockedExactlyWhen` | products/agent-platform/src/agent_service/services/execution_recovery.py:363-393 | once a result has been verified, an acceptance the store does not fail ends in a reason that is not uncertain exactly when the intent is gone, the run is stopped, the execution is in conflict, or the current request id is not a safe one |
| `RunGuards.RunStopLatch.Mark` | products/agent-platform/src/agent_service/services/execution_run_guard.py:61-66 | the latch only grows and keeps each run's first reason |
| `RunGuards.SecretReleasePermit.Consume` | products/agent-platform/src/agent_service/services/execution_run_guard.py:127-133 | a permit burns once and only in the process that minted it |
| `RunGuards.OfferPermit` | products/agent-platform/src/agent_service/services/execution_run_guard.py:127-133 | however often and wherever it is offered, a permit burns at most once |
| `RunGuards.RunGuard.DurableStop` | products/agent-platform/src/agent_service/services/execution_run_guard.py:202-226 | the latch is set whatever becomes of the durable stop, and the answer is whether the ledger acknowledged it |
| `RunGuards.RunGuard.ReleasePermit` | products/agent-platform/src/agent_service/services/execution_run_guard.py:228-268 | a permit is fresh, unconsumed, bound to this process, run and receipt, and exists exactly for an accepted success on an unlatched run |
| `RunGuards.Coordinate` | products/agent-platform/src/agent_service/services/execution_invocation.py:92-173 | a call returns its original exactly when the latch is clear, the ledger takes the registration, the handoff posts and delivers, no other call latches the run meanwhile and the ledger takes the acceptance; a latched run is neither registered nor posted; any failure latches the run; a permit exists exactly for an accepted success, and the ledger then holds what it rests on |
| `FlowAuthority.ApprovalInForce` | products/agent-platform/src/agent_service/services/flow_approvals.py:210-263 | the approval the store holds is the latest recorded one with no kill since |
| `FlowAuthority.BindingInForce` | products/agent-platform/src/agent_service/services/flow_approvals.py:124-161 | the context the store holds is the latest observed binding with no kill since |
| `FlowAuthority.NavigateBoundAFlow` | products/agent-platform/src/agent_service/runtime_kernel.py:2481-2507 | the backward walk answers whether the last call frame with this id carried a skill id |
| `FlowAuthority.FramesMean` | products/agent-platform/src/agent_service/runtime_kernel.py:2398-2478 | which frames bind a flow and which kill it, and what is logged for them |
| `FlowAuthority.FlowKernel.Drain` | products/agent-platform/src/agent_service/runtime_kernel.py:2509-2541 | draining frames records exactly the bindings and kills they amount to, in order |
| `FlowAuthority.FlowKernel.StartTurn` | products/agent-platform/src/agent_service/runtime_kernel.py:300-324 | a fresh turn inherits the run of the latest approval that is not killed and within its TTL, and runs on the minted one exactly when there is none |
| `FlowAuthority.FlowKernel.Park` | products/agent-platform/src/agent_service/runtime_kernel.py:1854-1884 | a parked card carries its turn's run, and the bound flow exactly when the batch holds a browser write |
| `FlowAuthority.FlowKernel.Resume` | products/agent-platform/src/agent_service/runtime_kernel.py:2865-2911 | an approval is recorded exactly for an unrejected, approved browser-write batch in an identified write-class flow, with the card's run |
| `FlowAuthority.FlowKernel.Sign` | products/agent-platform/src/agent_service/runtime_kernel.py:2251-2396 | a browser write is signed exactly when the log warrants it (latest approval of a browser-write batch in a write-class flow, within its TTL, not killed since, naming the latest binding's skill and origin), under the approving card, and with admission on for the run bound to the current turn |
| `AuthoringTrace.ReplayKeeps` | products/agent-platform/src/agent_service/services/authoring_trace.py:265-297 | positions are exactly 1 to n within the cap and all rows share one status, over any operations |
| `AuthoringTrace.ClosedIsForever` | products/agent-platform/src/agent_service/services/authoring_trace.py:354-367 | a closed trace never grows, changes or reopens |
| `AuthoringTrace.InMemoryAuthoringTraceStore.AppendStep` | products/agent-platform/src/agent_service/services/authoring_trace.py:265-297 | the in-memory append is the list's, with its answer |
| `AuthoringTrace.InMemoryAuthoringTraceStore.CloseTrace` | products/agent-platform/src/agent_service/services/authoring_trace.py:354-367 | the in-memory close is the list's, and refuses a status that is not terminal |
| `AuthoringTransactions.InsertIsAppend` | products/agent-platform/src/agent_service/services/authoring_trace.py:470-528 | on a table that mirrors the list, the `MAX+1` insert is the `len+1` append, with the same answer |
| `AuthoringTransactions.CloseIsClose` | products/agent-platform/src/agent_service/services/authoring_trace.py:523-528 | the UPDATE of the drafts is the list's close, with the same answer |
| `AuthoringTransactions.LockedTableIsTheList` | products/agent-platform/src/agent_service/services/authoring_trace.py:785-818 | in every interleaving of locked appends and closes, with aborts anywhere and every sweep or deletion that does not hit an append about to extend a trace, the table is the list of the committed operations in the order they took effect and every transaction answered as the list does |
| `AuthoringTransactions.ReclaimBetweenIsHarmlessExactlyWhen` | products/agent-platform/src/agent_service/services/authoring_trace.py:534-545 | a sweep or deletion between an append's reading and its insert leaves a trace exactly when the rows read were none, closed, or at the cap |
| `AuthoringTransactions.HarmfulReclaimBreaksTheTrace` | products/agent-platform/src/agent_service/services/authoring_trace.py:943-956 | any other one leaves a table that is no trace as soon as the append commits |
| `AuthoringTransactions.UnlockedAppendReopens` | products/agent-platform/src/agent_service/services/authoring_trace.py:474-488 | without the lock a close between an append's reading and its insert leaves a draft row behind closed ones |
| `AuthoringTransactions.DisturbedAppendLeavesAHole` | products/agent-platform/src/agent_service/services/authoring_trace.py:530-545 | a sweep between the two, which takes no lock, leaves a trace that begins at position 2 |
| `EvidenceStore.PrepareFrames` | products/agent-platform/src/agent_service/services/evidence_store.py:46-70 | the entry cap cuts exactly the oversized result payloads, marks them, and drops or reorders no frame |
| `EvidenceStore.InMemoryEvidenceStore.EnforceBudget` | products/agent-platform/src/agent_service/services/evidence_store.py:155-168 | the eviction loop terminates with its running total equal to the true byte count at every test, and leaves the rows the eviction order gives |
| `EvidenceStore.InMemoryEvidenceStore.EvictOldest` | products/agent-platform/src/agent_service/services/evidence_store.py:242-258 | the oldest evictable payload goes, and the bytes freed are reported, never below zero |
| `EvidenceStore.EvictionMeans` | products/agent-platform/src/agent_service/services/evidence_store.py:242-258 | what an eviction takes and what it leaves |
| `EvidenceStore.EnforceOnlyThins` | products/agent-platform/src/agent_service/services/evidence_store.py:155-168 | eviction changes payloads and markers only, and keeps every size exact |
| `EvidenceStore.BudgetMissedExactlyWhen` | products/agent-platform/src/agent_service/services/evidence_store.py:155-168 | the session ends over budget with a payload still evictable exactly when some payload's eviction does not shrink its row before the budget is met and a later payload is evictable |
| `EvidenceStore.BudgetCanBeMissed` | products/agent-platform/src/agent_service/services/evidence_store.py:163-166 | for every size: two evictable rows over budget, the first of which eviction does not shrink, stay over budget with the second still evictable |
| `EvidenceStore.ShortPayloadsDoNotShrink` | products/agent-platform/src/agent_service/services/evidence_store.py:249-254 | in JSON an eviction shrinks its row exactly when the payload text is longer than 47 characters |
| `EvidenceStore.InMemoryEvidenceStore.SaveTurn` | products/agent-platform/src/agent_service/services/evidence_store.py:119-153 | over any saves the store holds every saved frame of every turn, in save order, changed at most in payload and marker |
| `EvidenceStore.SortHasTheRows` | products/agent-platform/src/agent_service/services/evidence_store.py:260-274 | loading sorts exactly the stored rows by turn |
| `EvidenceStore.SortKeepsFrames` | products/agent-platform/src/agent_service/services/evidence_store.py:260-274 | and keeps each turn's frames in their stored order |
| `EvidenceStore.InMemoryEvidenceStore.LoadTurns` | products/agent-platform/src/agent_service/services/evidence_store.py:170-190 | turns come back in ascending order, one group for each turn with saved frames, under its first request, holding every saved frame once and in save order |
| `Confirmations.FirstOutcomeStays` | products/agent-platform/src/agent_service/services/confirmation_records.py:157-175 | the first outcome written stays |
| `Confirmations.EvictOverCap` | products/agent-platform/src/agent_service/services/confirmation_records.py:246-251 | a session keeps at most 50 records, the newest ones, and no other session loses any |
| `Confirmations.ConfirmationDesk.Register` | products/agent-platform/src/agent_service/services/hitl_confirmations.py:600-628 | a new park replaces the session's entry and takes nothing |
| `Confirmations.ConfirmationDesk.Expire` | products/agent-platform/src/agent_service/services/hitl_confirmations.py:670-692 | an expiry takes exactly the matching entry that nobody took before, and its stream carries `expired` |
| `Confirmations.ConfirmationDesk.Resolve` | products/agent-platform/src/agent_service/services/hitl_confirmations.py:706-710 | resolving an id removes that park only and never a newer one |
| `Confirmations.MarkResolved` | products/agent-platform/src/agent_service/services/confirmation_records.py:157-175 | an outcome write by any caller decides the pending record of that id and session and leaves every other record alone |
| `Confirmations.ConfirmationDesk.Confirm` | products/agent-platform/src/agent_service/api/v2/routes.py:503-555 | the confirm route takes exactly the session's entry of this id that nobody took before and that is not overdue, and records an approval as approved and a denial as denied by the decider; otherwise nothing changes |
| `Confirmations.ConfirmationDesk.Finish` | products/agent-platform/src/agent_service/runtime_kernel.py:3295-3305 | the end of a stream writes the outcome it has carried from its take, removes only its own park and rewrites no outcome already recorded |
| `Confirmations.ConfirmationDesk.Serve` | products/agent-platform/src/agent_service/runtime_kernel.py:3340-3375 | over any sequence of parks, decisions, expiries and stream ends each confirmation is taken at most once, and every decided record is approved or denied as the decision that took it said, by its decider, or expired when an expiry took it |
| `ModelCatalog.DedupeKeepsEveryModelOnce` | products/agent-platform/src/agent_service/services/model_catalog.py:160-165 | deduplication keeps every model once |
| `ModelCatalog.FilteredLists` | products/agent-platform/src/agent_service/services/model_discovery.py:220-231 | a discovered series is the default first, then exactly the fetched models the filter admits, each once, in fetched order |
| `ModelCatalog.BuildEntries` | products/agent-platform/src/agent_service/services/model_catalog.py:179-220 | the entries of all series are built, and the whole list refused exactly for a duplicate or the reserved id |
| `ModelCatalog.BuildAliases` | products/agent-platform/src/agent_service/services/model_catalog.py:223-235 | each provider is aliased to the first entry with its default model, and there is no other alias |
| `ModelCatalog.CleanCatalogIsOk` | products/agent-platform/src/agent_service/services/model_catalog.py:179-235 | a list that is not refused holds and aliases every configured provider's default under that provider, and marks no other entry as default |
| `ModelCatalog.ExactlyOneDefault` | products/agent-platform/src/agent_service/services/model_catalog.py:179-220 | with the active provider configured a published catalog has exactly one default |
| `ModelCatalog.ModelDiscoveryService.ResolveSeries` | products/agent-platform/src/agent_service/services/model_discovery.py:233-268 | the served series lists the default and then exactly the admitted models, each once and in order, of the override, else of the last successful live fetch, else of the cache, else of the curated series |
| `ModelCatalog.ModelDiscoveryService.RefreshOnce` | products/agent-platform/src/agent_service/services/model_discovery.py:270-279 | over any history of fetches the published catalog stays valid, and a rejected refresh changes nothing |

## Left out

- SQL text, connection handling, lock polling, schema fingerprints and migrations: a transaction is
  one atomic step.
- `check_run` and `lookup` as entry points: they add argument checks to reads that are modelled.
- `summarize_execution_recovery` and the evidence labels: display of the verdict.
- The worker ledger's public `append`, which no route calls, its health and metrics reads, and its
  own projection, which repeats the agent's.
- The worker route's choice of response bodies, audit events and metrics; the gateway call itself.
- Cancellation of a coordinator call, which leaves it at the stage it had reached.
- Python's token, header and timeout objects: credentials are absent, unusable or usable.
- In the evidence store, `created_at` and the agent role of a turn, session deletion, and the SQL
  backend of the row primitives.
- In the authoring trace, step origins, target declarations and the choice of which idle sessions a
  sweep reclaims; each session's trace is modelled on its own.
- In flow authority, card texts, the delegated-identity check (one boolean) and the signing of the
  approved batch itself; turns of one session are serial, as the chat routes make them.
- In confirmations, the SQL record store, inbox queries and session deletion.
- In the model catalog, reading credentials from the environment, which stays fixed while the
  service runs, and the HTTP fetch.
- Change-request card formatting, prose redaction, streaming, telemetry, settings and deployment.
