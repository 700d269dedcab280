/** What each transaction answers, told from the ledger before it: which registrations, claims and
    acceptances are taken, what they add, and the reason every other one is given. */
module LedgerAnswers {
  import opened Basics
  import opened ExecutionProtocol
  import opened Ledger
  import opened LedgerInvariants
  import opened LedgerHistory
  import opened LedgerTheorems

  /** An intent that no longer stands in the way of its run. */
  predicate Settled(db: Ledger, i: Uuid) {
    Accepted(db.rows, i) && !Conflicted(db, i)
  }

  ghost predicate RunIsSettled(db: Ledger, runId: Uuid) {
    forall i :: i in db.intents && db.intents[i].envelope.runId == runId ==> Settled(db, i)
  }

  /** The caller's own run. */
  predicate OwnRun(db: Ledger, runId: Uuid, sessionId: string, ownerUserId: string) {
    runId in db.runs && db.runs[runId].sessionId == sessionId && db.runs[runId].ownerUserId == ownerUserId
  }

  /** Nothing is registered under this execution id or this approved call. */
  ghost predicate Unheard(db: Ledger, e: Envelope) {
    forall i :: i in db.intents ==>
      && i != e.executionId
      && !(db.intents[i].envelope.confirmId == e.confirmId && db.intents[i].envelope.callId == e.callId)
  }

  // ---- Runs -------------------------------------------------------------------------------

  lemma RunIsCreatedExactlyWhen(db: Ledger, runId: Uuid, sessionId: string, ownerUserId: string)
    ensures var step := CreateRun(db, runId, sessionId, ownerUserId);
      && (step.out.Ok? <==> 1 <= |sessionId| <= 256 && 1 <= |ownerUserId| <= 256 && runId !in db.runs)
      && (step.out.Ok? ==> step.db == db.(runs := db.runs[runId := Run(sessionId, ownerUserId, None)]))
      && (step.out.Err? ==> step.db == db)
  {
  }

  // ---- Registration -----------------------------------------------------------------------

  /** A fresh registration is taken exactly when admission is on here and in the ledger for one epoch,
      the run is not stopped, every intent of the run is settled and the request is within its window;
      it then adds exactly this intent. Every other answer has the first reason that applies. */
  lemma FreshRegistrationIsTakenExactlyWhen(db: Ledger, cfg: Config, e: Envelope, attemptId: string, now: Time)
    requires ValidateRequest(e, cfg.keyed).None? && SafeRequestId(attemptId)
    requires OwnRun(db, e.runId, e.sessionId, e.ownerUserId) && Unheard(db, e)
    ensures var step := Register(db, cfg, e, attemptId, now);
      && (step.out.Ok? <==>
            && cfg.enabled && db.admissionEnabled
            && cfg.epoch == Some(db.admissionEpoch) && db.admissionEpoch == e.admissionEpoch
            && db.runs[e.runId].stop.None? && RunIsSettled(db, e.runId)
            && e.requestedAt <= now < e.expiresAt)
      && (step.out.Ok? ==>
            && step.out.value == attemptId
            && step.db == db.(intents := db.intents[e.executionId := Intent(e, attemptId, now, db.nextIntent)],
                              states := db.states[e.executionId := ObservationState(0, 0, 0, false, false, None)],
                              nextIntent := db.nextIntent + 1))
      && (step.out.Err? ==>
            && step.db == db
            && step.out.reason ==
                 (if !cfg.enabled || !db.admissionEnabled then AdmissionDisabled
                  else if cfg.epoch != Some(e.admissionEpoch) || db.admissionEpoch != e.admissionEpoch then
                    EpochMismatch
                  else if db.runs[e.runId].stop.Some? then RunStopped
                  else if !RunIsSettled(db, e.runId) then PredecessorUnresolved
                  else if now < e.requestedAt then RequestNotYetValid
                  else RequestExpired))
  {
    hide ValidateRequest, SafeRequestId, Accepted;
    assert !CallTaken(db, e);
    assert Unresolved(db, e.runId, None) <==> !RunIsSettled(db, e.runId);
  }

  /** The answers that come before freshness is considered. */
  lemma RegistrationAnswersOtherwise(db: Ledger, cfg: Config, e: Envelope, attemptId: string, now: Time)
    requires ValidateRequest(e, cfg.keyed).Some? || !SafeRequestId(attemptId)
             || !OwnRun(db, e.runId, e.sessionId, e.ownerUserId) || !Unheard(db, e)
    ensures var step := Register(db, cfg, e, attemptId, now);
      && step.db == db
      && step.out ==
           (if ValidateRequest(e, cfg.keyed).Some? then Err(ValidateRequest(e, cfg.keyed).value)
            else if !SafeRequestId(attemptId) then Err(BadRequest)
            else if e.runId !in db.runs then Err(RequestMissing)
            else if !OwnRun(db, e.runId, e.sessionId, e.ownerUserId) then Err(IdentityConflict)
            else if e.executionId in db.intents && db.intents[e.executionId].envelope == e then
              Ok(db.intents[e.executionId].attemptId)
            else Err(IdentityConflict))
  {
    hide ValidateRequest, SafeRequestId;
    assert CallTaken(db, e) <==> !Unheard(db, e);
  }

  // ---- Claims -----------------------------------------------------------------------------

  /** Every intent of the run registered before this one is settled. */
  ghost predicate EarlierAreSettled(db: Ledger, intent: Intent) {
    forall i :: i in db.intents && Precedes(db.intents[i], intent) ==> Settled(db, i)
  }

  lemma EarlierSettled(db: Ledger, intent: Intent)
    ensures EarlierAreSettled(db, intent) <==> !PredecessorUnsettled(db, intent)
  {
    hide Accepted;
  }

  /** The worker's fact for a claim or a repeated claim. */
  function WorkerFact(e: Envelope, attemptId: string, requestId: string, id: Uuid, kind: Kind, reason: Reason,
                      owner: Option<Uuid>): Observation
  {
    Observation(id, e.executionId, e.runId, Sha256(e), Worker, kind, attemptId, requestId, reason, owner,
                None, None, None, true, true)
  }

  lemma ClaimFactIsValid(e: Envelope, attemptId: string, requestId: string, id: Uuid, owner: Uuid)
    requires SafeRequestId(attemptId)
    ensures ValidateObservation(WorkerFact(e, attemptId, requestId, id, ClaimCommitted, NoReason, Some(owner)), e, true)
         == if SafeRequestId(requestId) then None else Some(BadRequest)
    ensures ValidateObservation(WorkerFact(e, attemptId, requestId, id, DuplicateSeen, MetadataReplay, None), e, true)
         == if SafeRequestId(requestId) then None else Some(BadRequest)
  {
    hide SafeRequestId;
  }

  lemma RegisteredIsKnown(db: Ledger, now: Time, e: Uuid)
    requires LedgerOk(db, now) && e in db.intents
    ensures e in db.states && SafeRequestId(db.intents[e].attemptId) && db.intents[e].envelope.runId in db.runs
  {
    hide ValidateRequest, SafeRequestId, RowsOk, DatesOk, RefusalsOk, KeysOk, FactsOk;
    assert IntentOk(db.runs, db.intents[e], e, db.nextIntent);
  }

  /** An unclaimed execution's claim slot is free. */
  lemma UnclaimedSlotIsFree(db: Ledger, now: Time, e: Uuid)
    requires LedgerOk(db, now) && e in db.intents && e !in db.claims
    ensures !SlotTaken(db.rows, e, ClaimSlot)
  {
    hide ValidateRequest, ValidateObservation, IntentsOk, KeysOk, DatesOk, RefusalsOk, BudgetOk, ReceiptsOk, ChainOk;
    forall row | row in db.rows && row.fact.executionId == e ensures row.slot != Some(ClaimSlot) {
      assert FactOk(db.intents, db.claims, row.fact) && SlotFits(row.slot, row.fact.kind);
    }
  }

  /** A valid claim of a registered request mints exactly when the execution is unclaimed, admission is
      on here and in the ledger for one epoch, the run is not stopped, every earlier intent of the run
      is settled, the request is within its window and the fact's id is new; it then adds exactly the
      claim, with its two minutes, and its fact. */
  lemma ClaimMintsExactlyWhen(db: Ledger, cfg: Config, e: Envelope, requestId: string, owner: Uuid, id: Uuid, now: Time)
    requires LedgerOk(db, now) && cfg.keyed && Registered(db, e) && e.executionId !in db.claims
    requires SafeRequestId(requestId)
    ensures var step := ClaimDispatch(db, cfg, e, requestId, owner, id, now);
      var fact := WorkerFact(e, db.intents[e.executionId].attemptId, requestId, id, ClaimCommitted, NoReason,
                             Some(owner));
      && (step.out.Ok? <==>
            && cfg.enabled && db.admissionEnabled
            && cfg.epoch == Some(db.admissionEpoch) && db.admissionEpoch == e.admissionEpoch
            && !Stopped(db, e.runId) && EarlierAreSettled(db, db.intents[e.executionId])
            && e.requestedAt <= now < e.expiresAt && !IdTaken(db.rows, id))
      && (step.out.Ok? ==>
            && step.out.value == owner
            && step.db == db.(claims := db.claims[e.executionId := Claim(owner, now, now + 120_000_000)],
                              rows := db.rows + [Row(db.nextRow, now, Some(ClaimSlot), fact)],
                              nextRow := db.nextRow + 1))
      && (step.out.Err? ==>
            && step.db == db
            && step.out.reason ==
                 (if !cfg.enabled || !db.admissionEnabled then AdmissionDisabled
                  else if cfg.epoch != Some(e.admissionEpoch) || db.admissionEpoch != e.admissionEpoch then
                    EpochMismatch
                  else if Stopped(db, e.runId) then RunStopped
                  else if !EarlierAreSettled(db, db.intents[e.executionId]) then PredecessorUnresolved
                  else if now < e.requestedAt then RequestNotYetValid
                  else if e.expiresAt <= now then RequestExpired
                  else IntegrityConflict))
  {
    hide ValidateRequest, ValidateObservation, SafeRequestId, IdTaken, SlotTaken, LedgerOk, EarlierAreSettled,
         PredecessorUnsettled, FirstResult, Recorded;
    var intent := db.intents[e.executionId];
    var fact := WorkerFact(e, intent.attemptId, requestId, id, ClaimCommitted, NoReason, Some(owner));
    StillRegistered(db, now, e);
    RegisteredIsKnown(db, now, e.executionId);
    ClaimFactIsValid(e, intent.attemptId, requestId, id, owner);
    EarlierSettled(db, intent);
    UnclaimedSlotIsFree(db, now, e.executionId);
    assert fact == ClaimFact(e, intent, id, requestId, owner);
    ClaimAppend(db, InsertClaim(db, e.executionId, owner, now), intent, fact, now);
  }

  lemma ClaimAppend(before: Ledger, db: Ledger, intent: Intent, fact: Observation, now: Time)
    requires ValidateObservation(fact, intent.envelope, true).None? && fact.kind == ClaimCommitted
    requires fact.attemptId == intent.attemptId && !SlotTaken(db.rows, fact.executionId, ClaimSlot)
    requires fact.executionId in db.claims && fact.claimOwnerId == Some(db.claims[fact.executionId].ownerId)
    requires fact.executionId in db.states
    ensures !IdTaken(db.rows, fact.observationId) ==>
      WorkerAppend(db, intent, fact, true, now)
      == Step(db.(rows := db.rows + [Row(db.nextRow, now, Some(ClaimSlot), fact)], nextRow := db.nextRow + 1),
              Ok(Inserted))
    ensures IdTaken(db.rows, fact.observationId) ==>
      WorkerAppend(db, intent, fact, true, now).out in {Ok(Identical), Ok(Conflict)}
  {
    hide ValidateObservation, IdTaken, SlotTaken, FirstResult, Recorded;
  }

  /** A claim of a claimed execution mints nothing: it answers `metadata_replay` and adds its fact to the
      ordinary budget, or counts an overflow when that is full. */
  lemma RepeatedClaimIsNoted(db: Ledger, cfg: Config, e: Envelope, requestId: string, owner: Uuid, id: Uuid, now: Time)
    requires LedgerOk(db, now) && cfg.keyed && Registered(db, e) && e.executionId in db.claims
    requires SafeRequestId(requestId) && !IdTaken(db.rows, id)
    ensures e.executionId in db.states
    ensures var step := ClaimDispatch(db, cfg, e, requestId, owner, id, now);
      var fact := WorkerFact(e, db.intents[e.executionId].attemptId, requestId, id, DuplicateSeen, MetadataReplay,
                             None);
      var state := db.states[e.executionId];
      && step.out == Err(MetadataReplay) && step.db.claims == db.claims && step.db.intents == db.intents
      && (if state.ordinaryCount < 64 then
            && step.db.rows == db.rows + [Row(db.nextRow, now, None, fact)]
            && step.db.states == db.states[e.executionId := state.(ordinaryCount := state.ordinaryCount + 1)]
          else step.db.rows == db.rows && step.db.states[e.executionId].overflow)
  {
    hide ValidateRequest, ValidateObservation, SafeRequestId, IdTaken, SlotTaken, LedgerOk, FirstResult, Recorded;
    StillRegistered(db, now, e);
    RegisteredIsKnown(db, now, e.executionId);
    ClaimFactIsValid(e, db.intents[e.executionId].attemptId, requestId, id, owner);
  }

  /** A claim of a request that is not registered changes nothing. */
  lemma UnregisteredClaimIsRefused(db: Ledger, cfg: Config, e: Envelope, requestId: string, owner: Uuid, id: Uuid,
                                   now: Time)
    requires ValidateRequest(e, cfg.keyed).None? && !Registered(db, e)
    ensures ClaimDispatch(db, cfg, e, requestId, owner, id, now)
         == Step(db, Err(if Unheard(db, e) then RequestMissing else IdentityConflict))
  {
    hide ValidateRequest;
    assert CallTaken(db, e) <==> !Unheard(db, e);
  }

  // ---- Acceptance -------------------------------------------------------------------------

  /** The agent's acceptance of a worker's result: its receipt and attempt, under the current request. */
  function Acceptance(e: Envelope, result: Observation, id: Uuid, currentId: string): Observation {
    Observation(id, e.executionId, e.runId, Sha256(e), Agent, ResponseAccepted, result.attemptId, currentId, NoReason,
                None, result.receiptDigest, None, None, true, true)
  }

  lemma AcceptanceIsValid(e: Envelope, result: Observation, keyed: bool, id: Uuid, currentId: string)
    requires ValidateObservation(result, e, keyed).None? && result.kind == WorkerResult
    ensures ValidateObservation(Acceptance(e, result, id, currentId), e, keyed)
         == if SafeRequestId(currentId) then None else Some(BadRequest)
  {
    hide SafeRequestId;
  }

  /** A stored result names its intent's attempt and its claim's owner. */
  lemma StoredResultIsOwned(db: Ledger, now: Time, e: Envelope, row: Row)
    requires LedgerOk(db, now) && Registered(db, e) && row in db.rows && row.fact.kind == WorkerResult
    requires row.fact.executionId == e.executionId
    ensures row.fact.attemptId == db.intents[e.executionId].attemptId
    ensures e.executionId in db.claims && row.fact.claimOwnerId == Some(db.claims[e.executionId].ownerId)
  {
    hide ValidateRequest, ValidateObservation, RowsOk, DatesOk, RefusalsOk, KeysOk, IntentsOk;
    assert FactOk(db.intents, db.claims, row.fact);
  }

  /** Room for one more row of an agent's kind. */
  predicate HasRoom(db: Ledger, e: Uuid, slot: Slot) {
    !SlotTaken(db.rows, e, slot) || (e in db.states && db.states[e].ordinaryCount < 64)
  }

  /** The acceptance of a verified original is taken exactly when the current request id is safe, the
      request is registered, the run is not stopped, the execution not in conflict, that very result
      stored, and the acceptance stored already or new with room for it. It does not depend on what the
      tool reported. What is stored then is the result's receipt and attempt under the current request. */
  lemma AcceptanceIsTakenExactlyWhen(db: Ledger, now: Time, cfg: Config, e: Envelope, attemptId: string,
                                     original: VerifiedOriginal, id: Uuid, currentId: string)
    requires LedgerOk(db, now)
    requires VerifyOriginal(original.payload, e, cfg.keyed, attemptId, attemptId) == Ok(original)
    ensures var step := Accept(db, cfg, e, original, id, currentId, now);
      var fact := Acceptance(e, original.payload.fact, id, currentId);
      && (step.out.Ok? <==>
            && SafeRequestId(currentId) && Registered(db, e) && !Stopped(db, e.runId) && !Conflicted(db, e.executionId)
            && (exists row :: row in db.rows && row.fact == original.payload.fact)
            && (Recorded(db.rows, fact) || (!IdTaken(db.rows, id) && HasRoom(db, e.executionId, AcceptanceSlot))))
      && (step.out.Ok? ==> step.out.value == fact && Recorded(step.db.rows, fact))
      && (step.out.Err? ==>
            step.out.reason ==
              (if !SafeRequestId(currentId) then BadRequest
               else if e.runId !in db.runs then RequestMissing
               else if !OwnRun(db, e.runId, e.sessionId, e.ownerUserId) then IdentityConflict
               else if e.executionId !in db.intents then RequestMissing
               else if db.intents[e.executionId].envelope != e then IdentityConflict
               else if Stopped(db, e.runId) || Conflicted(db, e.executionId) then RunStopped
               else if !Recorded(db.rows, original.payload.fact) then ResponseInvalid
               else IntegrityConflict))
  {
    hide CheckOriginal, ValidateRequest, ValidateObservation, SafeRequestId, LedgerOk, IdTaken, SlotTaken, AgentAppend;
    var result := original.payload.fact;
    var fact := Acceptance(e, result, id, currentId);
    assert fact == AcceptanceFact(e, original, id, currentId);
    CheckedOriginalIsWorkerResult(original.payload, e, cfg.keyed, attemptId, attemptId);
    ValidNamesIntent(result, e, cfg.keyed);
    AcceptanceIsValid(e, result, cfg.keyed, id, currentId);
    if Registered(db, e) {
      StillRegistered(db, now, e);
      RegisteredIsKnown(db, now, e.executionId);
      if row :| row in db.rows && row.fact == result { StoredResultIsOwned(db, now, e, row); }
      var intent := db.intents[e.executionId];
      AppendIsDurable(db, intent, fact, cfg.keyed, now);
      if AgentRefusal(db, intent, fact, cfg.keyed).None? { AppendOutcomes(db, intent, fact, cfg.keyed, now); }
    }
  }

  // ---- Facts ------------------------------------------------------------------------------

  /** An agent's fact is admitted exactly when it is valid, the agent's own and of the intent's attempt. */
  lemma AgentFactIsAdmittedExactlyWhen(db: Ledger, now: Time, e: Uuid, fact: Observation, keyed: bool)
    requires LedgerOk(db, now) && e in db.intents
    ensures AgentRefusal(db, db.intents[e], fact, keyed).None? <==>
      && ValidateObservation(fact, db.intents[e].envelope, keyed).None?
      && fact.source == Agent && fact.attemptId == db.intents[e].attemptId
  {
    hide ValidateObservation, LedgerOk;
    RegisteredIsKnown(db, now, e);
    IntentHasItsId(db, now, e);
    if ValidateObservation(fact, db.intents[e].envelope, keyed).None? {
      ValidNamesIntent(fact, db.intents[e].envelope, keyed);
    }
  }

  lemma IntentHasItsId(db: Ledger, now: Time, e: Uuid)
    requires LedgerOk(db, now) && e in db.intents
    ensures db.intents[e].envelope.executionId == e
  {
  }

  /** A worker's fact is admitted exactly when it is valid, of the intent's attempt and, if it reports a
      claim or a result that is not stored yet, from the claim's owner. */
  lemma WorkerFactIsAdmittedExactlyWhen(db: Ledger, now: Time, e: Uuid, fact: Observation, keyed: bool)
    requires LedgerOk(db, now) && e in db.intents && fact.source == Worker
    ensures WorkerRefusal(db, db.intents[e], fact, keyed).None? <==>
      && ValidateObservation(fact, db.intents[e].envelope, keyed).None?
      && fact.attemptId == db.intents[e].attemptId
      && (|| IdTaken(db.rows, fact.observationId) || fact.kind !in {WorkerResult, ClaimCommitted}
          || (e in db.claims && fact.claimOwnerId == Some(db.claims[e].ownerId)))
  {
    hide ValidateObservation, LedgerOk, IdTaken, Backed;
    RegisteredIsKnown(db, now, e);
    IntentHasItsId(db, now, e);
    if ValidateObservation(fact, db.intents[e].envelope, keyed).None? {
      ValidNamesIntent(fact, db.intents[e].envelope, keyed);
    }
  }

  /** A worker's append puts the execution in conflict exactly when it was already, when its id is
      stored with other content, or when it is a result with another receipt than a stored one. With
      budget left, a new fact is stored. */
  lemma WorkerAppendOutcomes(db: Ledger, now: Time, e: Uuid, fact: Observation, keyed: bool)
    requires LedgerOk(db, now) && e in db.intents && WorkerRefusal(db, db.intents[e], fact, keyed).None?
    ensures var step := WorkerAppend(db, db.intents[e], fact, keyed, now);
      && step.out.Ok? && fact.executionId == e && e in db.states
      && (Conflicted(step.db, e) <==>
            || Conflicted(db, e) || (IdTaken(db.rows, fact.observationId) && !Recorded(db.rows, fact))
            || (!IdTaken(db.rows, fact.observationId) && fact.kind == WorkerResult
                && OtherReceipt(db.rows, e, fact.receiptDigest)))
      && (!IdTaken(db.rows, fact.observationId) && db.states[e].ordinaryCount < 64 ==>
            step.out == Ok(Inserted) && |step.db.rows| == |db.rows| + 1 && step.db.rows[|db.rows|].fact == fact)
  {
    hide ValidateObservation, LedgerOk, IdTaken, SlotTaken, Backed, OtherReceipt, Recorded;
    var intent := db.intents[e];
    IntentHasItsId(db, now, e);
    ValidNamesIntent(fact, intent.envelope, keyed);
    RegisteredIsKnown(db, now, e);
    LedgerHasReceipts(db, now);
    FirstResultDecides(db, e, fact.receiptDigest);
    FirstResultTells(db.rows, e, fact.receiptDigest);
  }

  lemma LedgerHasReceipts(db: Ledger, now: Time)
    requires LedgerOk(db, now)
    ensures ReceiptsOk(db.states, db.rows)
  {
  }

  lemma FirstResultTells(rows: seq<Row>, e: Uuid, digest: Option<Digest<Receipt>>)
    ensures FirstResult(rows, e).Some? && FirstResult(rows, e).value.fact.receiptDigest != digest ==>
              OtherReceipt(rows, e, digest)
  {
    FirstResultIsStored(rows, e);
  }

  /** A sweep takes what it is given exactly when all of it expired thirty days ago or more. */
  lemma SweepTakesOnlyTheExpired(db: Ledger, gone: set<Uuid>, now: Time)
    ensures (forall e :: e in gone ==>
               e in db.intents && db.intents[e].envelope.expiresAt + 30 * 86_400 * 1_000_000 <= now)
      ==> Apply(db, ForgetOp(gone), now) == Forget(db, gone)
    ensures !(forall e :: e in gone ==>
                e in db.intents && db.intents[e].envelope.expiresAt + 30 * 86_400 * 1_000_000 <= now)
      ==> Apply(db, ForgetOp(gone), now) == db
  {
    hide Keep;
  }
}
