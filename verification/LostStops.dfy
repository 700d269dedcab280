/** Stops that do not reach the ledger: the worker's, when the `stop_reason` column does not admit its
    reason, and a call's, when its registration was refused. Here are runs in which they are lost, and
    exactly when a call's stop lands. */
module LostStops {
  import opened Basics
  import opened ExecutionProtocol
  import opened Ledger
  import opened LedgerInvariants
  import opened LedgerHistory
  import opened LedgerTheorems
  import opened Invocation
  import opened Protocol
  import opened ProtocolInvariants
  import opened ProtocolTheorems
  import opened SampleRun

  // ---- The worker's stop ------------------------------------------------------------------

  /** The worker's note that its send gate found another owner. */
  const UNCERTAIN := Observe(REQUEST, 11, Worker, TransportUncertain, "a", "a", IdentityConflict)

  /** In a reachable ledger with the request registered and claimed, the worker's stop for
      `identity_conflict` is refused: the run is not stopped and the fact is not stored. The same stop
      with an admitted reason would have landed. */
  lemma WorkerStopCanBeLost() returns (s: System)
    ensures Possible(s) && Reachable(s.db, s.now) && Registered(s.db, REQUEST) && REQUEST.executionId in s.db.claims
    ensures var step := WorkerStop(s.db, CFG, REQUEST, UNCERTAIN, IdentityConflict, s.now);
      step.out.Err? && !Stopped(step.db, REQUEST.runId) && !Recorded(step.db.rows, UNCERTAIN)
    ensures WorkerStop(s.db, CFG, REQUEST, UNCERTAIN, TransportError, s.now).out.Ok?
  {
    hide Possible, Reachable, WorkerStop, ValidateRequest, SafeRequestId;
    RequestIsValid();
    s := ClaimedCall();
    PossibleLedgerIsReachable(s);
    assert ValidateObservation(UNCERTAIN, REQUEST, true).None?;
    WorkerStopIsLostExactlyWhen(s.db, CFG, REQUEST, UNCERTAIN, IdentityConflict, s.now);
    WorkerStopIsLostExactlyWhen(s.db, CFG, REQUEST, UNCERTAIN, TransportError, s.now);
  }

  // ---- A call's stop ----------------------------------------------------------------------

  /** What lets a latched call's note into the ledger: its envelope is of the guarded run and is
      registered under the call's own attempt, and it does not call a claimed execution refused. */
  predicate NoteLands(db: Ledger, c: Call, reason: Reason) {
    && c.envelope.runId == c.guard.runId && Registered(db, c.envelope)
    && db.intents[c.envelope.executionId].attemptId == c.attemptId
    && !(StopKind(reason) == PreDispatchRefused && c.envelope.executionId in db.claims)
  }

  /** The stop a latched call attempts puts its run's stop into the ledger exactly when it was there
      already, or no send holds the mutex, the store does not refuse it, the run is the guard's, and
      the note, if the call can build one, lands. A call whose registration was refused leaves its run
      latched and not stopped. */
  lemma CallStopLandsExactlyWhen(s: System, id: nat, factId: Uuid, fault: Fault)
    requires Possible(s) && id in s.calls && s.calls[id].stage.Latched?
    ensures var c := s.calls[id];
      var r, reason := c.guard.runId, c.stage.reason;
      var note := StopNote(c.envelope, c.cfg.keyed, c.attemptId, c.currentId, reason, factId);
      Stopped(NextStop(s, id, factId, fault).db, r) <==>
        || Stopped(s.db, r)
        || (&& r !in s.gates && !fault.RefusedEarly?
            && CheckRun(s.db, r, c.guard.sessionId, c.guard.ownerUserId).None?
            && (note.None? || NoteLands(s.db, c, reason)))
  {
    hide Possible, LedgerOk, MintsOk, PermitsOk, GatesOk, CallsOk, ValidateRequest, ValidateObservation, CheckRun,
         StopRun, NoteLands, STOP_REASONS;
    var c := s.calls[id];
    var r, reason := c.guard.runId, c.stage.reason;
    var note := StopNote(c.envelope, c.cfg.keyed, c.attemptId, c.currentId, reason, factId);
    PossibleIsOk(s);
    StopIsRefusedExactlyWhen(s.db, c.cfg, r, c.guard.sessionId, c.guard.ownerUserId, reason, note, s.now);
    StopIsDurable(s.db, c.cfg, r, c.guard.sessionId, c.guard.ownerUserId, reason, note, s.now);
    if note.Some? { CallNoteIsRefusedExactlyWhen(s.db, s.now, c, reason, factId); }
  }

  lemma CallNoteIsRefusedExactlyWhen(db: Ledger, now: Time, c: Call, reason: Reason, factId: Uuid)
    requires LedgerOk(db, now)
    requires StopNote(c.envelope, c.cfg.keyed, c.attemptId, c.currentId, reason, factId).Some?
    ensures var note := StopNote(c.envelope, c.cfg.keyed, c.attemptId, c.currentId, reason, factId).value;
      ProperNote(c.cfg, c.guard.runId, note) && !NoteIsRefused(db, c.cfg, note) <==> NoteLands(db, c, reason)
  {
    hide ValidateRequest, RowsOk, DatesOk, RefusalsOk, KeysOk, FactsOk, SafeRequestId;
    if Registered(db, c.envelope) {
      assert IntentOk(db.runs, db.intents[c.envelope.executionId], c.envelope.executionId, db.nextIntent);
    }
  }

  /** A call begins, and the request expires. */
  lemma LateCall() returns (s: System)
    ensures Possible(s) && s == Start(true, 7, 0).(now := MAX_LIFETIME, db := CREATED, calls := map[0 := CALL])
  {
    hide Possible, Apply;
    var s0 := BegunCall();
    s := Next(s0, Tick(MAX_LIFETIME));
    PossibleNext(s0, Tick(MAX_LIFETIME));
  }

  /** Registration is refused. */
  lemma RefusedCall() returns (s: System)
    ensures Possible(s)
    ensures s == Start(true, 7, 0).(now := MAX_LIFETIME, db := CREATED, latch := {(0, 1)},
                                    calls := map[0 := CALL.(stage := Latched(RequestExpired))])
  {
    hide Possible, Register, Apply;
    ExpiredSample();
    RegisterApplies();
    var s0 := LateCall();
    var s1 := Next(s0, RegisterCall(0, Healthy));
    PossibleNext(s0, RegisterCall(0, Healthy));
    assert s1 == s0.(calls := map[0 := CALL.(stage := Failing(RequestExpired))]);
    s := Next(s1, SetLatch(0));
    PossibleNext(s1, SetLatch(0));
  }

  lemma RegisterApplies()
    ensures Apply(CREATED, RegisterOp(CFG, REQUEST, "a"), MAX_LIFETIME)
         == Register(CREATED, CFG, REQUEST, "a", MAX_LIFETIME).db
  {
    hide Register;
  }

  /** The call returns with its run latched, and the ledger knows of no stop. */
  lemma RefusedRegistrationLeavesNoStop() returns (s: System)
    ensures Possible(s) && 0 in s.calls && s.calls[0].stage == Returned(Blocked(RequestExpired))
    ensures InLatch(s, s.calls[0]) && !Stopped(s.db, 1)
  {
    hide Possible, Apply, StopNote, CheckRun;
    ExpiredSample();
    var s0 := RefusedCall();
    s := Next(s0, StopCall(0, 12, Healthy));
    PossibleNext(s0, StopCall(0, 12, Healthy));
    CallStopLandsExactlyWhen(s0, 0, 12, Healthy);
  }

  lemma ExpiredSample()
    ensures Register(CREATED, CFG, REQUEST, "a", MAX_LIFETIME) == Step(CREATED, Err(RequestExpired))
    ensures StopNote(REQUEST, true, "a", "a", RequestExpired, 12).Some?
  {
    hide ValidateRequest, SafeRequestId;
    RequestIsValid();
  }
}
