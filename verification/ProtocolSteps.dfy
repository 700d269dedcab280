/** What one transaction may do to the intents, the claims and the stops, told apart by the
    transaction: the facts the whole-protocol invariants rest on. */
module ProtocolSteps {
  import opened Basics
  import opened ExecutionProtocol
  import opened Ledger
  import opened LedgerInvariants
  import opened LedgerHistory
  import opened Protocol

  /** Only an append's own tables differ. */
  ghost predicate Appends(db: Ledger, after: Ledger) {
    after == db.(states := after.states, rows := after.rows, nextRow := after.nextRow)
  }

  lemma LandAppends(db: Ledger, fact: Observation, wanted: Option<Slot>, now: Time)
    requires fact.executionId in db.states
    ensures Appends(db, Land(db, fact, wanted, now).0) && Appends(db, Replay(db, fact).0)
  {
    hide SlotTaken, Recorded;
  }

  lemma AppendsOnly(db: Ledger, intent: Intent, fact: Observation, keyed: bool, now: Time)
    ensures Appends(db, AgentAppend(db, intent, fact, keyed, now).db)
    ensures Appends(db, WorkerAppend(db, intent, fact, keyed, now).db)
  {
    hide AgentRefusal, WorkerRefusal, Land, Replay, FirstResult;
    if AgentRefusal(db, intent, fact, keyed).None? || WorkerRefusal(db, intent, fact, keyed).None? {
      assert fact.executionId in db.states by { AppendNeedsState(db, intent, fact, keyed); }
      LandAppends(db, fact, Reserved(fact.kind), now);
      LandAppends(SetState(db, fact.executionId, MarkConflict(db.states[fact.executionId], fact)), fact,
                  Some(ConflictSlot), now);
    }
  }

  lemma AppendNeedsState(db: Ledger, intent: Intent, fact: Observation, keyed: bool)
    requires AgentRefusal(db, intent, fact, keyed).None? || WorkerRefusal(db, intent, fact, keyed).None?
    ensures fact.executionId in db.states
  {
  }

  /** Intents and claims leave together and only past their retention; a new intent is current. */
  ghost predicate Steady(db: Ledger, after: Ledger, now: Time) {
    && (forall i :: i in db.intents ==>
          if i in after.intents then
            after.intents[i] == db.intents[i]
            && (i in db.claims ==> i in after.claims && after.claims[i] == db.claims[i])
          else
            db.intents[i].envelope.expiresAt + RETENTION <= now)
    && (forall i :: i in after.intents && i !in db.intents ==> now < after.intents[i].envelope.expiresAt)
  }

  /** A run that has become stopped was the target of this transaction. */
  ghost predicate StopsOnly(db: Ledger, after: Ledger, target: Option<Uuid>) {
    forall r: Uuid :: Stopped(after, r) && !Stopped(db, r) ==> target == Some(r)
  }

  function Target(op: Op): Option<Uuid> {
    if op.ReportOp? && op.stopReason.Some? then Some(op.envelope.runId) else StopTarget(op)
  }

  lemma AppendIsSteady(db: Ledger, after: Ledger, now: Time)
    requires Appends(db, after)
    ensures Steady(db, after, now) && StopsOnly(db, after, None)
  {
  }

  lemma AppendThenStop(db: Ledger, after: Ledger, r: Uuid, reason: Reason, now: Time)
    requires Appends(db, after)
    ensures Steady(db, SetStop(after, r, reason, now), now) && StopsOnly(db, SetStop(after, r, reason, now), Some(r))
  {
  }

  lemma RegisterIsSteady(db: Ledger, cfg: Config, e: Envelope, attemptId: string, now: Time)
    ensures var after := Register(db, cfg, e, attemptId, now).db; Steady(db, after, now) && StopsOnly(db, after, None)
    ensures Register(db, cfg, e, attemptId, now).out.Ok? ==> Registered(Register(db, cfg, e, attemptId, now).db, e)
  {
    hide ValidateRequest, SafeRequestId, Unresolved, AdmissionRefusal, CheckRun, CallTaken;
    if !CallTaken(db, e) { FreshIsUnregistered(db, e); }
  }

  lemma StopRunIsSteady(db: Ledger, cfg: Config, r: Uuid, s: string, o: string, reason: Reason,
                        note: Option<Attribution>, now: Time)
    ensures var after := StopRun(db, cfg, r, s, o, reason, note, now).db;
      Steady(db, after, now) && StopsOnly(db, after, Some(r))
  {
    hide ValidateRequest, ValidateObservation, AgentAppend, CheckRun, SetStop, Steady, StopsOnly, STOP_REASONS;
    AppendIsSteady(db, db, now);
    WidenTarget(db, db, r);
    if StopRefusal(db, cfg, r, s, o, note).None? {
      var stored := if reason in STOP_REASONS then reason else ResponseInvalid;
      if note.None? {
        AppendThenStop(db, db, r, stored, now);
      } else {
        var intent := db.intents[note.value.envelope.executionId];
        AppendsOnly(db, intent, note.value.fact, cfg.keyed, now);
        AppendThenStop(db, AgentAppend(db, intent, note.value.fact, cfg.keyed, now).db, r, stored, now);
      }
    }
  }

  lemma WidenTarget(db: Ledger, after: Ledger, r: Uuid)
    requires StopsOnly(db, after, None)
    ensures StopsOnly(db, after, Some(r))
  {
  }

  lemma AcceptIsSteady(db: Ledger, cfg: Config, e: Envelope, original: VerifiedOriginal, id: Uuid, currentId: string,
                       now: Time)
    ensures var after := Accept(db, cfg, e, original, id, currentId, now).db;
      Steady(db, after, now) && StopsOnly(db, after, None)
  {
    hide CheckOriginal, ValidateObservation, AgentAppend, CheckRun, Steady, StopsOnly, Recorded;
    AppendIsSteady(db, db, now);
    if AcceptRefusal(db, cfg, e, original, id, currentId).None? {
      var intent := db.intents[e.executionId];
      var fact := AcceptanceFact(e, original, id, currentId);
      AppendsOnly(db, intent, fact, cfg.keyed, now);
      AppendIsSteady(db, AgentAppend(db, intent, fact, cfg.keyed, now).db, now);
    }
  }

  /** A claim that mints was not there before, on a live run within the signed window. */
  lemma ClaimIsSteady(db: Ledger, cfg: Config, e: Envelope, requestId: string, owner: Uuid, id: Uuid, now: Time)
    ensures var after := ClaimDispatch(db, cfg, e, requestId, owner, id, now).db;
      Steady(db, after, now) && StopsOnly(db, after, None)
    ensures var step := ClaimDispatch(db, cfg, e, requestId, owner, id, now);
      step.out.Ok? ==>
        && Registered(db, e) && e.executionId !in db.claims && !Stopped(db, e.runId) && now < e.expiresAt
        && step.db.intents == db.intents && step.db.runs == db.runs
        && step.db.claims == db.claims[e.executionId := Claim(owner, now, now + OBSERVE_WINDOW)]
  {
    hide ValidateRequest, WorkerAppend, WorkerAdmissionRefusal, PredecessorUnsettled, CallTaken, CheckRun;
    if ValidateRequest(e, cfg.keyed).None? && ClaimIdentityRefusal(db, e).None? {
      var intent := db.intents[e.executionId];
      var claimed := InsertClaim(db, e.executionId, owner, now);
      AppendsOnly(db, intent, DuplicateFact(e, intent, id, requestId), cfg.keyed, now);
      AppendsOnly(claimed, intent, ClaimFact(e, intent, id, requestId, owner), cfg.keyed, now);
    }
  }

  lemma FinishIsSteady(db: Ledger, cfg: Config, e: Envelope, fact: Observation, stop: Option<Reason>, now: Time)
    ensures var after := Finish(db, cfg, e, fact, stop, now).db;
      && Steady(db, after, now) && StopsOnly(db, after, Some(e.runId)) && (stop.None? ==> StopsOnly(db, after, None))
  {
    hide WorkerAppend, SetStop, Steady, StopsOnly, STOP_REASONS;
    AppendIsSteady(db, db, now);
    WidenTarget(db, db, e.runId);
    if Registered(db, e) {
      var after := WorkerAppend(db, db.intents[e.executionId], fact, cfg.keyed, now).db;
      AppendsOnly(db, db.intents[e.executionId], fact, cfg.keyed, now);
      AppendIsSteady(db, after, now);
      WidenTarget(db, after, e.runId);
      if stop.Some? { AppendThenStop(db, after, e.runId, stop.value, now); }
    }
  }

  lemma SmallOpsAreSteady(db: Ledger, op: Op, now: Time)
    requires op.CreateRunOp? || op.ForgetOp? || op.AdmissionOp?
    ensures Steady(db, Apply(db, op, now), now) && StopsOnly(db, Apply(db, op, now), None)
  {
    hide Keep;
  }

  lemma ApplyIsSteady(db: Ledger, op: Op, now: Time)
    ensures Steady(db, Apply(db, op, now), now) && StopsOnly(db, Apply(db, op, now), Target(op))
  {
    hide CreateRun, Register, StopRun, Accept, ClaimDispatch, Finish, Forget, Steady, StopsOnly;
    AppendIsSteady(db, db, now);
    match op
    case RegisterOp(cfg, e, a) => RegisterIsSteady(db, cfg, e, a, now);
    case StopRunOp(cfg, r, s, o, reason, note) => StopRunIsSteady(db, cfg, r, s, o, reason, note, now);
    case AcceptOp(cfg, e, original, id, c) => AcceptIsSteady(db, cfg, e, original, id, c, now);
    case ClaimOp(cfg, e, q, owner, id) => ClaimIsSteady(db, cfg, e, q, owner, id, now);
    case ReportOp(cfg, e, fact, stop) =>
      FinishIsSteady(db, cfg, e, fact, stop, now);
      WidenTarget(db, db, e.runId);
    case WorkerStopOp(cfg, e, fact, reason) =>
      FinishIsSteady(db, cfg, e, fact, Some(reason), now);
      WidenTarget(db, db, e.runId);
    case _ => SmallOpsAreSteady(db, op, now);
  }
}
