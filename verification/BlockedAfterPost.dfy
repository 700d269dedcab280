/** `blocked` is documented as "positively refused before dispatch, or the run was already
    stopped". A call can return it after it has contacted the worker: here is a run that does, and
    exactly which steps make a call do so. */
module BlockedAfterPost {
  import opened Basics
  import opened ExecutionProtocol
  import opened Ledger
  import opened LedgerInvariants
  import opened LedgerHistory
  import opened Invocation
  import opened Protocol
  import opened ProtocolInvariants
  import opened ProtocolTheorems
  import opened SampleRun

  // ---- Acceptance -------------------------------------------------------------------------

  /** The refusals of an acceptance, once its original has been verified. */
  lemma AcceptanceRefusals(db: Ledger, now: Time, cfg: Config, e: Envelope, attemptId: string,
                           original: VerifiedOriginal, factId: Uuid, currentId: string)
    requires Reachable(db, now) && Registered(db, e)
    requires VerifyOriginal(original.payload, e, cfg.keyed, attemptId, attemptId) == Ok(original)
    ensures var refusal := AcceptRefusal(db, cfg, e, original, factId, currentId);
      if !SafeRequestId(currentId) then refusal == Some(BadRequest)
      else if Stopped(db, e.runId) || Conflicted(db, e.executionId) then refusal == Some(RunStopped)
      else refusal.None? || refusal == Some(ResponseInvalid)
  {
    hide Reachable, CheckOriginal, ValidateRequest, ValidateObservation, SafeRequestId, RowsOk, DatesOk,
         RefusalsOk, KeysOk;
    ReachableIsOk(db, now);
    CheckedOriginalIsWorkerResult(original.payload, e, cfg.keyed, attemptId, attemptId);
    AcceptanceFactIsValid(original, e, cfg.keyed, factId, currentId);
    ValidNamesIntent(original.payload.fact, e, cfg.keyed);
    assert IntentOk(db.runs, db.intents[e.executionId], e.executionId, db.nextIntent);
    if Recorded(db.rows, original.payload.fact) {
      var row :| row in db.rows && row.fact == original.payload.fact;
      assert FactOk(db.intents, db.claims, row.fact);
    }
  }

  /** An intent that is not there, for instance one past its retention, is refused as such. */
  lemma UnregisteredRefusals(db: Ledger, cfg: Config, e: Envelope, attemptId: string, original: VerifiedOriginal,
                             factId: Uuid, currentId: string)
    requires !Registered(db, e)
    requires VerifyOriginal(original.payload, e, cfg.keyed, attemptId, attemptId) == Ok(original)
    ensures AcceptRefusal(db, cfg, e, original, factId, currentId)
         in {Some(BadRequest), Some(RequestMissing), Some(IdentityConflict)}
  {
    hide CheckOriginal, ValidateObservation, SafeRequestId;
    CheckedOriginalIsWorkerResult(original.payload, e, cfg.keyed, attemptId, attemptId);
    AcceptanceFactIsValid(original, e, cfg.keyed, factId, currentId);
  }

  /** An acceptance that the store does not fail turns a verified result into `blocked` exactly when
      the intent is no longer there, the run has been stopped, the execution is in conflict, or the
      current request id is not one the ledger takes. Its other failures are `uncertain`. */
  lemma AcceptanceFailureIsBlockedExactlyWhen(db: Ledger, now: Time, cfg: Config, e: Envelope, attemptId: string,
                                              original: VerifiedOriginal, factId: Uuid, currentId: string)
    requires Reachable(db, now)
    requires VerifyOriginal(original.payload, e, cfg.keyed, attemptId, attemptId) == Ok(original)
    ensures var answer := Accept(db, cfg, e, original, factId, currentId, now).out;
      answer.Err? && !IsUncertain(answer.reason)
      <==> !SafeRequestId(currentId) || !Registered(db, e) || Stopped(db, e.runId) || Conflicted(db, e.executionId)
  {
    hide Reachable, AgentAppend, AcceptRefusal, VerifyOriginal, SafeRequestId, Registered;
    if Registered(db, e) {
      AcceptanceRefusals(db, now, cfg, e, attemptId, original, factId, currentId);
    } else {
      UnregisteredRefusals(db, cfg, e, attemptId, original, factId, currentId);
    }
  }

  lemma AcceptanceFactIsValid(original: VerifiedOriginal, e: Envelope, keyed: bool, factId: Uuid, currentId: string)
    requires ValidateObservation(original.payload.fact, e, keyed).None?
    requires original.payload.fact.kind == WorkerResult
    ensures ValidateObservation(AcceptanceFact(e, original, factId, currentId), e, keyed)
         == if SafeRequestId(currentId) then None else Some(BadRequest)
  {
    hide SafeRequestId;
  }

  // ---- The call ---------------------------------------------------------------------------

  /** The call whose stage an action may change. */
  function Actor(a: Action): Option<nat> {
    if a.Check? || a.RegisterCall? || a.Post? || a.Receive? || a.Recheck? || a.AcceptCall? || a.SetLatch? || a.StopCall?
    then Some(a.id) else None
  }

  lemma OthersLeaveTheCall(s: System, a: Action, id: nat)
    requires id in s.calls && Actor(a) != Some(id)
    ensures id in Next(s, a).calls && Next(s, a).calls[id] == s.calls[id]
  {
    hide Apply, Register, Accept, ClaimDispatch, OpenSendRefusal, BeforePost, AfterPost, StopNote;
  }

  /** What makes the acceptance of a verified result end in a reason that is not uncertain. */
  predicate AcceptanceBlocks(db: Ledger, c: Call, fault: Fault) {
    match fault
    case Healthy =>
      || !SafeRequestId(c.currentId) || !Registered(db, c.envelope)
      || Stopped(db, c.envelope.runId) || Conflicted(db, c.envelope.executionId)
    case RefusedEarly(reason) => !IsUncertain(reason)
    case CommitLost => false
  }

  /** The two steps that block a call after its post: the second look at the latch, and an acceptance
      that ends as above. A store that refuses the acceptance with `schema_invalid` is among them. */
  predicate Blocks(s: System, a: Action, id: nat) {
    && Live(s, id)
    && var c := s.calls[id];
       || (a == Recheck(id) && c.stage.Verified? && InLatch(s, c))
       || (a.AcceptCall? && a.id == id && c.stage.Releasing? && AcceptanceBlocks(s.db, c, a.fault))
  }

  /** The call is on its way to return `blocked`. */
  predicate IsBlocked(stage: Stage) {
    match stage
    case Failing(reason) => !IsUncertain(reason)
    case Latched(reason) => !IsUncertain(reason)
    case Returned(outcome) => outcome.Blocked?
    case _ => false
  }

  lemma AcceptStepBlocks(s: System, id: nat, factId: Uuid, fault: Fault)
    requires SystemOk(s) && Reachable(s.db, s.now) && id in s.calls && s.calls[id].stage.Releasing?
    ensures var after := NextAccept(s, id, factId, fault);
      id in after.calls && (IsBlocked(after.calls[id].stage) <==> AcceptanceBlocks(s.db, s.calls[id], fault))
  {
    hide LedgerOk, MintsOk, PermitsOk, GatesOk, Reachable, Accept, Apply, VerifyOriginal, SafeRequestId, Registered;
    var c := s.calls[id];
    assert CallOk(s.db, s.now, s.latch, c);
    AcceptanceFailureIsBlockedExactlyWhen(s.db, s.now, c.cfg, c.envelope, c.attemptId, c.stage.original, factId,
                                          c.currentId);
  }

  lemma ReceiveNeverBlocks(s: System, id: nat, x: Exchange)
    requires id in s.calls
    ensures id in NextReceive(s, id, x).calls && !IsBlocked(NextReceive(s, id, x).calls[id].stage)
  {
    hide CheckOriginal, ReplyShape;
  }

  /** Of a posted call's other steps only the second look at the latch can block it. */
  lemma OtherStepsBlock(s: System, a: Action, id: nat)
    requires id in s.calls && !IsBlocked(s.calls[id].stage) && Actor(a) == Some(id) && !a.Receive? && !a.AcceptCall?
    requires !s.calls[id].stage.Begun? && !s.calls[id].stage.Unlatched? && !s.calls[id].stage.Prepared?
    ensures id in Next(s, a).calls && (IsBlocked(Next(s, a).calls[id].stage) <==> Blocks(s, a, id))
  {
    hide Apply, AcceptanceBlocks, NextRegister, NextPost, NextReceive, NextAccept;
  }

  /** A posted call becomes blocked by exactly those steps; the worker's answer, whatever it is, never
      blocks it. */
  lemma PostedCallIsBlockedExactlyWhen(s: System, a: Action, id: nat)
    requires Possible(s) && id in s.calls && s.calls[id].posted && !IsBlocked(s.calls[id].stage)
    ensures id in Next(s, a).calls && (IsBlocked(Next(s, a).calls[id].stage) <==> Blocks(s, a, id))
  {
    hide Possible, LedgerOk, MintsOk, PermitsOk, GatesOk, VerifyOriginal, AcceptanceBlocks, IsBlocked, Kept,
         NextRegister, NextPost, NextReceive, NextAccept, NextStop, NextClaim, NextOpen, Guarded, Move, Apply;
    PossibleIsOk(s);
    PossibleLedgerIsReachable(s);
    assert CallOk(s.db, s.now, s.latch, s.calls[id]);
    if Actor(a) != Some(id) {
      OthersLeaveTheCall(s, a, id);
    } else if a.Receive? {
      if Live(s, id) && s.calls[id].stage.Posted? { ReceiveNeverBlocks(s, id, a.exchange); }
    } else if a.AcceptCall? {
      if Live(s, id) && s.calls[id].stage.Releasing? { AcceptStepBlocks(s, id, a.factId, a.fault); }
    } else {
      OtherStepsBlock(s, a, id);
    }
  }

  /** In every run that ends with a posted call blocked, one of its steps was one of those. */
  lemma {:induction false} BlockedReturnHasACause(s: System, actions: seq<Action>, id: nat)
    requires Possible(s) && id !in s.calls && id in Perform(s, actions).calls
    requires Perform(s, actions).calls[id].posted && IsBlocked(Perform(s, actions).calls[id].stage)
    ensures exists k :: 0 <= k < |actions| && Blocks(Perform(s, actions[..k]), actions[k], id)
  {
    hide Possible, Next, Blocks, IsBlocked;
    var init, last := actions[..|actions| - 1], actions[|actions| - 1];
    var before := Perform(s, init);
    PossibleContinues(s, init);
    PostingStartsUnblocked(before, last, id);
    if before.calls[id].posted && !IsBlocked(before.calls[id].stage) {
      PostedCallIsBlockedExactlyWhen(before, last, id);
    } else {
      BlockedReturnHasACause(s, init, id);
      var k :| 0 <= k < |init| && Blocks(Perform(s, init[..k]), init[k], id);
      assert actions[..k] == init[..k];
    }
  }

  /** A call that is blocked and posted was posted already. */
  lemma PostingStartsUnblocked(s: System, a: Action, id: nat)
    requires id in Next(s, a).calls && Next(s, a).calls[id].posted && IsBlocked(Next(s, a).calls[id].stage)
    ensures id in s.calls && s.calls[id].posted
  {
    hide Apply, Register, Accept, ClaimDispatch, OpenSendRefusal, BeforePost, AfterPost, StopNote;
    if id in s.calls && Actor(a) != Some(id) { OthersLeaveTheCall(s, a, id); }
  }

  // ---- A run that returns `blocked` after the post ----------------------------------------

  const ORIGINAL := VerifiedOriginal(REPLY, "a", "a")

  /** The worker claimed the request, and its verified result has arrived. */
  lemma DeliveredCall() returns (s: System)
    ensures Possible(s)
    ensures s == Start(true, 7, 0).(db := CLAIMED,
                                    calls := map[0 := CALL.(posted := true, stage := Releasing(ORIGINAL))],
                                    mints := [Mint(REQUEST, 6, false, false)])
  {
    hide Possible, VerifyOriginal;
    ReplyIsVerified();
    var s0 := ClaimedCall();
    var receive := Receive(0, Response(Some("a"), 200, REPLY));
    var s1 := Next(s0, receive);
    PossibleNext(s0, receive);
    s := Next(s1, Recheck(0));
    PossibleNext(s1, Recheck(0));
  }

  /** A failing call latches its run and returns. */
  lemma FailingCallReturns(s: System, reason: Reason) returns (after: System)
    requires Possible(s) && 0 in s.calls && s.dead == {} && s.calls[0].stage == Failing(reason)
    ensures Possible(after) && 0 in after.calls && after.calls[0] == s.calls[0].(stage := Returned(Report(reason)))
  {
    hide Possible, Apply, StopNote;
    var latched := Next(s, SetLatch(0));
    PossibleNext(s, SetLatch(0));
    after := Next(latched, StopCall(0, 9, Healthy));
    PossibleNext(latched, StopCall(0, 9, Healthy));
  }

  lemma StopSample()
    ensures Apply(CLAIMED, StopRunOp(CFG, 1, "s", "o", Shutdown, None), 0)
         == CLAIMED.(runs := map[1 := Run("s", "o", Some(Stop(0, Shutdown)))])
  {
  }

  /** Another process stops the run before the acceptance: the call returns `blocked`, although the
      worker was contacted. */
  lemma BlockedCanFollowAPost() returns (s: System)
    ensures Possible(s) && 0 in s.calls && s.calls[0].posted
    ensures s.calls[0].stage.Returned? && s.calls[0].stage.outcome.Blocked?
  {
    hide Possible, VerifyOriginal, SafeRequestId, Accept, Apply;
    StopSample();
    var s0 := DeliveredCall();
    var stop := Others(StopRunOp(CFG, 1, "s", "o", Shutdown, None));
    var s1 := Next(s0, stop);
    PossibleNext(s0, stop);
    PossibleLedgerIsReachable(s1);
    ReplyIsVerified();
    AcceptanceFailureIsBlockedExactlyWhen(s1.db, s1.now, CFG, REQUEST, "a", ORIGINAL, 9, "a");
    var s2 := Next(s1, AcceptCall(0, 9, Healthy));
    PossibleNext(s1, AcceptCall(0, 9, Healthy));
    s := FailingCallReturns(s2, s2.calls[0].stage.reason);
  }

  /** A store that refuses the acceptance with `schema_invalid` does the same on a run that is neither
      stopped nor in conflict. */
  lemma BlockedBySchemaAfterAPost() returns (s: System)
    ensures Possible(s) && 0 in s.calls && s.calls[0].posted
    ensures s.calls[0].stage == Returned(Blocked(SchemaInvalid))
  {
    hide Possible, Accept, Apply;
    var s0 := DeliveredCall();
    var accept := AcceptCall(0, 9, RefusedEarly(SchemaInvalid));
    var s1 := Next(s0, accept);
    PossibleNext(s0, accept);
    s := FailingCallReturns(s1, SchemaInvalid);
  }
}
