/** What does happen: exactly when a claim mints, a send opens, a call advances, an acceptance mints a
    permit and a permit burns, in every possible system; and one run in which all of it does. */
module ProtocolProgress {
  import opened Basics
  import opened ExecutionProtocol
  import opened Ledger
  import opened LedgerInvariants
  import opened LedgerHistory
  import opened LedgerTheorems
  import opened LedgerAnswers
  import opened Invocation
  import opened Protocol
  import opened ProtocolInvariants
  import opened ProtocolTheorems
  import opened SampleRun

  // ---- The worker -------------------------------------------------------------------------

  /** Admission is on here and in the ledger, for one epoch. */
  predicate Admits(db: Ledger, cfg: Config, epoch: Uuid) {
    cfg.enabled && db.admissionEnabled && cfg.epoch == Some(db.admissionEpoch) && db.admissionEpoch == epoch
  }

  /** An unused dispatch permit starts its tool call exactly when no send holds its run's mutex, its
      request is registered and claimed for its owner, admission is on, the run is not stopped, the
      execution not in conflict and every earlier intent of the run settled. Used it is in any case. */
  lemma SendOpensExactlyWhen(s: System, k: nat, cfg: Config)
    requires Possible(s) && k < |s.mints| && !s.mints[k].used
    ensures var after := Next(s, OpenSend(k, cfg));
      var m := s.mints[k];
      var e := m.envelope;
      && |after.mints| == |s.mints| && after.mints[k].used && after.db == s.db
      && (after.mints[k].sent <==>
            && e.runId !in s.gates
            && e.executionId in s.db.intents && s.db.intents[e.executionId].envelope == e
            && e.executionId in s.db.claims && s.db.claims[e.executionId].ownerId == m.owner
            && Admits(s.db, cfg, e.admissionEpoch) && !Stopped(s.db, e.runId) && !Conflicted(s.db, e.executionId)
            && EarlierAreSettled(s.db, s.db.intents[e.executionId]))
      && (after.mints[k].sent ==> InFlight(after, e))
  {
    hide Possible, LedgerOk, PermitsOk, CallsOk, GatesOk, PredecessorUnsettled, EarlierAreSettled;
    PossibleIsOk(s);
    var e := s.mints[k].envelope;
    if Registered(s.db, e) {
      EarlierSettled(s.db, s.db.intents[e.executionId]);
      RegisteredIsKnown(s.db, s.now, e.executionId);
    }
  }

  /** A worker's claim mints a dispatch permit exactly when the store answers it and the ledger takes it. */
  lemma ClaimMintsAPermitExactlyWhen(s: System, cfg: Config, e: Envelope, requestId: string, owner: Uuid, factId: Uuid,
                                     fault: Fault)
    requires Possible(s) && ValidateRequest(e, cfg.keyed).None? && SafeRequestId(requestId)
    ensures var after := Next(s, ClaimSend(cfg, e, requestId, owner, factId, fault));
      if && fault.Healthy? && Registered(s.db, e) && e.executionId !in s.db.claims
         && Admits(s.db, cfg, e.admissionEpoch)
         && !Stopped(s.db, e.runId) && EarlierAreSettled(s.db, s.db.intents[e.executionId])
         && e.requestedAt <= s.now < e.expiresAt && !IdTaken(s.db.rows, factId)
      then after.mints == s.mints + [Mint(e, owner, false, false)]
      else after.mints == s.mints
  {
    hide Possible, LedgerOk, MintsOk, PermitsOk, CallsOk, GatesOk, ValidateRequest, SafeRequestId, ClaimDispatch,
         EarlierAreSettled, IdTaken, Apply;
    PossibleIsOk(s);
    KeyedWhenValid(e, cfg.keyed);
    if !Registered(s.db, e) {
      UnregisteredClaimIsRefused(s.db, cfg, e, requestId, owner, factId, s.now);
    } else if e.executionId in s.db.claims {
      ClaimedIsNotMinted(s.db, cfg, e, requestId, owner, factId, s.now);
    } else {
      ClaimMintsExactlyWhen(s.db, cfg, e, requestId, owner, factId, s.now);
    }
  }

  lemma KeyedWhenValid(e: Envelope, keyed: bool)
    requires ValidateRequest(e, keyed).None?
    ensures keyed
  {
  }

  lemma ClaimedIsNotMinted(db: Ledger, cfg: Config, e: Envelope, requestId: string, owner: Uuid, id: Uuid, now: Time)
    requires e.executionId in db.claims
    ensures ClaimDispatch(db, cfg, e, requestId, owner, id, now).out.Err?
  {
    hide ValidateRequest, WorkerAppend;
  }

  // ---- The call ---------------------------------------------------------------------------

  /** The acceptance of this call's verified result is taken. */
  ghost predicate AcceptanceTaken(s: System, c: Call, original: VerifiedOriginal, factId: Uuid) {
    var fact := LedgerAnswers.Acceptance(c.envelope, original.payload.fact, factId, c.currentId);
    && SafeRequestId(c.currentId) && Registered(s.db, c.envelope)
    && !Stopped(s.db, c.envelope.runId) && !Conflicted(s.db, c.envelope.executionId)
    && (exists row :: row in s.db.rows && row.fact == original.payload.fact)
    && (|| Recorded(s.db.rows, fact)
        || (!IdTaken(s.db.rows, factId) && HasRoom(s.db, c.envelope.executionId, AcceptanceSlot)))
  }

  /** A call about to accept returns its original exactly when the store answers and the ledger takes the
      acceptance; a permit, for this process, run, request and receipt, is minted exactly when the tool
      reported success besides. */
  lemma OriginalReturnsExactlyWhen(s: System, id: nat, factId: Uuid, fault: Fault)
    requires Possible(s) && id in s.calls && s.calls[id].process !in s.dead && s.calls[id].stage.Releasing?
    ensures var c := s.calls[id];
      var original := c.stage.original;
      var success := original.payload.report.status == Success;
      var after := Next(s, AcceptCall(id, factId, fault));
      && id in after.calls
      && (if fault.Healthy? && AcceptanceTaken(s, c, original, factId)
          then after.calls[id].stage == Returned(Original(success, success))
          else after.calls[id].stage.Failing?)
      && after.permits ==
           (if fault.Healthy? && AcceptanceTaken(s, c, original, factId) && success
            then s.permits + [Permit(c.process, c.guard.runId, c.envelope, original.payload.fact.receiptDigest, 0)]
            else s.permits)
  {
    hide Possible, LedgerOk, MintsOk, PermitsOk, GatesOk, VerifyOriginal, SafeRequestId, Accept, Apply, IdTaken,
         HasRoom, Recorded;
    PossibleIsOk(s);
    var c := s.calls[id];
    assert CallOk(s.db, s.now, s.latch, c);
    AcceptanceIsTakenExactlyWhen(s.db, s.now, c.cfg, c.envelope, c.attemptId, c.stage.original, factId, c.currentId);
  }

  /** The earlier steps: the latch is passed exactly when it is not set, the intent registered exactly when
      the store answers and the ledger takes it, the worker contacted and its answer verified exactly when
      the handoff's two phases pass. */
  lemma CallAdvancesExactlyWhen(s: System, id: nat, fault: Fault, x: Exchange)
    requires id in s.calls && s.calls[id].process !in s.dead
    ensures var c := s.calls[id];
      var latched := (c.process, c.guard.runId) in s.latch;
      && (c.stage.Begun? ==>
            Next(s, Check(id)) == Move(s, id, if latched then Failing(RunStopped) else Unlatched))
      && (c.stage.Unlatched? ==>
            (Next(s, RegisterCall(id, fault)).calls[id].stage.Prepared? <==>
               fault.Healthy? && Register(s.db, c.cfg, c.envelope, c.attemptId, s.now).out.Ok?))
      && (c.stage.Prepared? ==>
            (Next(s, Post(id)).calls[id].stage.Posted? <==>
               BeforePost(c.envelope, c.handoff, c.cfg.keyed, c.attemptId).None?))
      && (c.stage.Prepared? ==>
            Next(s, Post(id)).calls[id].posted == (c.posted || Next(s, Post(id)).calls[id].stage.Posted?))
      && (c.stage.Posted? ==>
            (Next(s, Receive(id, x)).calls[id].stage.Verified? <==>
               AfterPost(x, c.envelope, c.cfg.keyed, c.attemptId).Ok?))
      && (c.stage.Verified? ==>
            Next(s, Recheck(id)) == Move(s, id, if latched then Failing(RunStopped) else Releasing(c.stage.original)))
  {
    hide Apply, Register, BeforePost, AfterPost;
  }

  /** A permit burns exactly while its process lives and it is unburnt. */
  lemma PermitBurnsExactlyWhen(s: System, k: nat)
    requires k < |s.permits|
    ensures Next(s, Consume(k)).permits[k].uses
         == s.permits[k].uses + (if s.permits[k].process !in s.dead && s.permits[k].uses == 0 then 1 else 0)
  {
  }

  // ---- A run in which it all happens ------------------------------------------------------

  const POSTED := CALL.(posted := true, stage := Posted)

  /** The worker's permit opens its send. */
  lemma SentCall() returns (s: System)
    ensures Possible(s) && |s.mints| == 1 && s.mints[0].sent
    ensures s == Start(true, 7, 0).(db := CLAIMED, calls := map[0 := POSTED], mints := [Mint(REQUEST, 6, true, true)],
                                    gates := map[1 := Gate(REQUEST, true)])
  {
    hide Possible, OpenSendRefusal;
    var s0 := ClaimedCall();
    SendOpensExactlyWhen(s0, 0, CFG);
    s := Next(s0, OpenSend(0, CFG));
    PossibleNext(s0, OpenSend(0, CFG));
  }

  const REPORTED := CLAIMED.(rows := CLAIMED.rows + [Row(2, 0, Some(ResultSlot), RESULT)], nextRow := 3)

  lemma ReportSample()
    ensures Apply(CLAIMED, ReportOp(CFG, REQUEST, RESULT, None), 0) == REPORTED
  {
    hide ValidateRequest, SafeRequestId;
    RequestIsValid();
    assert ValidateObservation(RESULT, REQUEST, true).None?;
    assert WorkerRefusal(CLAIMED, CLAIMED.intents[2], RESULT, true).None?;
    assert FirstResult(CLAIMED.rows, 2).None? by { FirstResultIsStored(CLAIMED.rows, 2); }
  }

  /** Its tool returns, the result is stored and the mutex released. */
  lemma ReportedCall() returns (s: System)
    ensures Possible(s)
    ensures s == Start(true, 7, 0).(db := REPORTED, calls := map[0 := POSTED], mints := [Mint(REQUEST, 6, true, true)])
  {
    hide Possible, Apply;
    ReportSample();
    var s0 := SentCall();
    var s1 := Next(s0, ToolReturned(1));
    PossibleNext(s0, ToolReturned(1));
    var s2 := Next(s1, FinishSend(1, CFG, RESULT, None));
    PossibleNext(s1, FinishSend(1, CFG, RESULT, None));
    s := Next(s2, CloseSend(1));
    PossibleNext(s2, CloseSend(1));
  }

  /** The call verifies the result and is about to accept it. */
  lemma ReleasingCall() returns (s: System)
    ensures Possible(s)
    ensures s == Start(true, 7, 0).(db := REPORTED, mints := [Mint(REQUEST, 6, true, true)],
                                    calls := map[0 := POSTED.(stage := Releasing(VerifiedOriginal(REPLY, "a", "a")))])
  {
    hide Possible, VerifyOriginal;
    ReplyIsVerified();
    var s0 := ReportedCall();
    var receive := Receive(0, Response(Some("a"), 200, REPLY));
    var s1 := Next(s0, receive);
    PossibleNext(s0, receive);
    s := Next(s1, Recheck(0));
    PossibleNext(s1, Recheck(0));
  }

  const ACCEPTANCE := LedgerAnswers.Acceptance(REQUEST, RESULT, 9, "a")
  const ACCEPTED := REPORTED.(rows := REPORTED.rows + [Row(3, 0, Some(AcceptanceSlot), ACCEPTANCE)], nextRow := 4)
  const ORIGINAL := VerifiedOriginal(REPLY, "a", "a")

  lemma SampleAppends()
    ensures AgentAppend(REPORTED, REPORTED.intents[2], ACCEPTANCE, true, 0) == Step(ACCEPTED, Ok(Inserted))
  {
    hide ValidateObservation, SafeRequestId;
    RequestIsValid();
    assert ValidateObservation(RESULT, REQUEST, true).None? by { ResultSampleIsValid(); }
    AcceptanceIsValid(REQUEST, RESULT, true, 9, "a");
  }

  lemma ResultSampleIsValid()
    ensures ValidateObservation(RESULT, REQUEST, true).None?
  {
    hide SafeRequestId;
    RequestIsValid();
  }

  lemma AcceptSample()
    ensures Accept(REPORTED, CFG, REQUEST, ORIGINAL, 9, "a", 0) == Step(ACCEPTED, Ok(ACCEPTANCE))
  {
    hide ValidateObservation, SafeRequestId, CheckOriginal, AgentAppend;
    RequestIsValid();
    ReplyIsVerified();
    ResultSampleIsValid();
    AcceptanceIsValid(REQUEST, RESULT, true, 9, "a");
    SampleAppends();
    assert REPORTED.rows[1].fact == RESULT;
  }

  /** It accepts it and is given its permit. */
  lemma AcceptedCall() returns (s: System)
    ensures Possible(s)
    ensures s == Start(true, 7, 0).(db := ACCEPTED, mints := [Mint(REQUEST, 6, true, true)],
                                    calls := map[0 := POSTED.(stage := Returned(Original(true, true)))],
                                    permits := [Permit(0, 1, REQUEST, RESULT.receiptDigest, 0)])
  {
    hide Possible, Accept;
    AcceptSample();
    var s0 := ReleasingCall();
    s := Next(s0, AcceptCall(0, 9, Healthy));
    PossibleNext(s0, AcceptCall(0, 9, Healthy));
  }

  const SECOND := REQUEST.(executionId := 20, confirmId := 21, callId := "d")

  lemma SecondIsValid()
    ensures ValidateRequest(SECOND, true).None? && SafeRequestId("b")
  {
  }

  lemma SecondIsTaken()
    ensures Register(ACCEPTED, CFG, SECOND, "b", 0).out == Ok("b")
  {
    hide Register, SafeRequestId, ValidateRequest;
    SecondIsValid();
    assert ACCEPTED.rows[1].fact == RESULT && ACCEPTED.rows[2].fact == ACCEPTANCE;
    assert IsAcceptance(ACCEPTED.rows[2], 2) && IsResult(ACCEPTED.rows[1], 2);
    assert Settled(ACCEPTED, 2);
    FreshRegistrationIsTakenExactlyWhen(ACCEPTED, CFG, SECOND, "b", 0);
  }

  /** The permit burns, and the run takes a second request. */
  lemma SecondRequestFollowsTheFirst() returns (s: System)
    ensures Possible(s) && s.mints == [Mint(REQUEST, 6, true, true)]
    ensures s.calls == map[0 := POSTED.(stage := Returned(Original(true, true)))]
    ensures s.permits == [Permit(0, 1, REQUEST, RESULT.receiptDigest, 1)]
    ensures Register(s.db, CFG, SECOND, "b", s.now).out == Ok("b")
  {
    hide Possible, Register;
    SecondIsTaken();
    var s0 := AcceptedCall();
    s := Next(s0, Consume(0));
    PossibleNext(s0, Consume(0));
  }
}
