/** The agent's ledger access as it works: tables updated in place, one method per transaction.
    Each method is proved to do what the transaction's function on ledger values says, and so
    keeps the ledger invariant. */
module LedgerStore {
  import opened Basics
  import opened ExecutionProtocol
  import opened Tables = Ledger
  import opened LedgerInvariants
  import opened LedgerHistory

  class ExecutionRecovery {
    const cfg: Config
    var admissionEnabled: bool
    var admissionEpoch: Uuid
    var runs: map<Uuid, Run>
    var intents: map<Uuid, Intent>
    var claims: map<Uuid, Claim>
    var states: map<Uuid, ObservationState>
    var rows: seq<Row>
    var nextIntent: nat
    var nextRow: nat

    function Contents(): Tables.Ledger
      reads this
    {
      Tables.Ledger(admissionEnabled, admissionEpoch, runs, intents, claims, states, rows, nextIntent, nextRow)
    }

    constructor (cfg: Config, db: Tables.Ledger)
      ensures this.cfg == cfg && Contents() == db
    {
      this.cfg := cfg;
      admissionEnabled, admissionEpoch := db.admissionEnabled, db.admissionEpoch;
      runs, intents, claims, states := db.runs, db.intents, db.claims, db.states;
      rows, nextIntent, nextRow := db.rows, db.nextIntent, db.nextRow;
    }

    /** Transactions other parties commit meanwhile. */
    method Absorb(events: seq<Event>)
      modifies this
      ensures Contents() == Play(old(Contents()), events)
    {
      hide Apply;
      var k := 0;
      assert events[..0] == [];
      while k < |events|
        invariant 0 <= k <= |events|
        invariant Contents() == Play(old(Contents()), events[..k])
      {
        assert events[..k + 1][..k] == events[..k];
        var db := Apply(Contents(), events[k].op, events[k].at);
        admissionEnabled, admissionEpoch := db.admissionEnabled, db.admissionEpoch;
        runs, intents, claims, states := db.runs, db.intents, db.claims, db.states;
        rows, nextIntent, nextRow := db.rows, db.nextIntent, db.nextRow;
        k := k + 1;
      }
      assert events[..k] == events;
    }

    method CreateRun(runId: Uuid, sessionId: string, ownerUserId: string, now: Time) returns (r: Result<Uuid>)
      modifies this`runs
      ensures Contents() == Tables.CreateRun(old(Contents()), runId, sessionId, ownerUserId).db
      ensures r == Tables.CreateRun(old(Contents()), runId, sessionId, ownerUserId).out
      ensures LedgerOk(old(Contents()), now) ==> LedgerOk(Contents(), now)
    {
      hide LedgerOk;
      ghost var before := Contents();
      if !BoundedName(sessionId) || !BoundedName(ownerUserId) { return Err(BadRequest); }
      if runId in runs { return Err(StoreUnavailable); }
      runs := runs[runId := Run(sessionId, ownerUserId, None)];
      r := Ok(runId);
      if LedgerOk(before, now) { CreateRunKeeps(before, runId, sessionId, ownerUserId, now); }
    }

    method Register(e: Envelope, attemptId: string, now: Time) returns (r: Result<string>)
      modifies this`intents, this`states, this`nextIntent
      ensures Contents() == Tables.Register(old(Contents()), cfg, e, attemptId, now).db
      ensures r == Tables.Register(old(Contents()), cfg, e, attemptId, now).out
      ensures LedgerOk(old(Contents()), now) ==> LedgerOk(Contents(), now)
    {
      hide LedgerOk, ValidateRequest, SafeRequestId, CallTaken, FreshRefusal, CheckRun;
      ghost var before := Contents();
      if LedgerOk(before, now) { RegisterKeeps(before, cfg, e, attemptId, now); }
      var invalid := ValidateRequest(e, cfg.keyed);
      if invalid.Some? { return Err(invalid.value); }
      if !SafeRequestId(attemptId) { return Err(BadRequest); }
      var missing := CheckRun(Contents(), e.runId, e.sessionId, e.ownerUserId);
      if missing.Some? { return Err(missing.value); }
      if CallTaken(Contents(), e) || Registered(Contents(), e) {
        if !Registered(Contents(), e) { return Err(IdentityConflict); }
        return Ok(intents[e.executionId].attemptId);
      }
      var refusal := FreshRefusal(Contents(), cfg, e, now);
      if refusal.Some? { return Err(refusal.value); }
      intents := intents[e.executionId := Intent(e, attemptId, now, nextIntent)];
      nextIntent := nextIntent + 1;
      states := states[e.executionId := EMPTY_STATE];
      r := Ok(attemptId);
    }

    /** A fact whose identifier is stored already. */
    method Repeat(fact: Observation) returns (r: Appended)
      requires fact.executionId in states
      modifies this`states
      ensures (Contents(), r) == Replay(old(Contents()), fact)
    {
      hide Recorded;
      var e := fact.executionId;
      if Recorded(rows, fact) {
        states := states[e := states[e].(duplicateCount := Saturate(states[e].duplicateCount))];
        return Identical;
      }
      states := states[e := MarkConflict(states[e], fact)];
      r := Conflict;
    }

    /** A new fact: into its reserved slot, into the ordinary budget, or overflow. */
    method Insert(fact: Observation, now: Time) returns (r: Appended)
      requires fact.executionId in states
      modifies this`states, this`rows, this`nextRow
      ensures (Contents(), r) == Land(old(Contents()), fact, Reserved(fact.kind), now)
    {
      hide SlotTaken;
      var e := fact.executionId;
      var state, slot := states[e], Reserved(fact.kind);
      if slot.Some? && SlotTaken(rows, e, slot.value) { slot := None; }
      if slot.None? && state.ordinaryCount >= ORDINARY_LIMIT {
        states := states[e := state.(overflow := true, overflowCount := Saturate(state.overflowCount))];
        return Overflow;
      }
      rows := rows + [Row(nextRow, now, slot, fact)];
      nextRow := nextRow + 1;
      if slot.None? { states := states[e := state.(ordinaryCount := state.ordinaryCount + 1)]; }
      r := Inserted;
    }

    /** One agent observation: duplicate, conflict, overflow, or a new row. */
    method Append(intent: Intent, fact: Observation, now: Time) returns (r: Result<Appended>)
      modifies this`states, this`rows, this`nextRow
      ensures Contents() == AgentAppend(old(Contents()), intent, fact, cfg.keyed, now).db
      ensures r == AgentAppend(old(Contents()), intent, fact, cfg.keyed, now).out
    {
      hide ValidateObservation, IdTaken, Replay, Land;
      var refusal := AgentRefusal(Contents(), intent, fact, cfg.keyed);
      if refusal.Some? { return Err(refusal.value); }
      var outcome;
      if IdTaken(rows, fact.observationId) { outcome := Repeat(fact); } else { outcome := Insert(fact, now); }
      r := Ok(outcome);
    }

    /** The run's first stop stays. */
    method MarkStopped(runId: Uuid, reason: Reason, now: Time)
      modifies this`runs
      ensures Contents() == SetStop(old(Contents()), runId, reason, now)
    {
      if runId in runs && runs[runId].stop.None? {
        runs := runs[runId := runs[runId].(stop := Some(Stop(now, reason)))];
      }
    }

    method StopRun(runId: Uuid, sessionId: string, ownerUserId: string, reason: Reason, note: Option<Attribution>,
                   now: Time)
      returns (r: Result<()>)
      modifies this`runs, this`states, this`rows, this`nextRow
      ensures Contents() == Tables.StopRun(old(Contents()), cfg, runId, sessionId, ownerUserId, reason, note, now).db
      ensures r == Tables.StopRun(old(Contents()), cfg, runId, sessionId, ownerUserId, reason, note, now).out
      ensures LedgerOk(old(Contents()), now) ==> LedgerOk(Contents(), now)
    {
      hide LedgerOk, AgentAppend, ValidateRequest, AgentRefusal, STOP_REASONS, CheckRun, SetStop;
      ghost var before := Contents();
      if LedgerOk(before, now) { StopRunKeeps(before, cfg, runId, sessionId, ownerUserId, reason, note, now); }
      var refusal := StopRefusal(Contents(), cfg, runId, sessionId, ownerUserId, note);
      if refusal.Some? { return Err(refusal.value); }
      if note.Some? {
        var appended := Append(intents[note.value.envelope.executionId], note.value.fact, now);
      }
      MarkStopped(runId, if reason in STOP_REASONS then reason else ResponseInvalid, now);
      r := Ok(());
    }

    method Accept(e: Envelope, original: VerifiedOriginal, id: Uuid, currentId: string, now: Time)
      returns (r: Result<Observation>)
      modifies this`states, this`rows, this`nextRow
      ensures Contents() == Tables.Accept(old(Contents()), cfg, e, original, id, currentId, now).db
      ensures r == Tables.Accept(old(Contents()), cfg, e, original, id, currentId, now).out
      ensures LedgerOk(old(Contents()), now) ==> LedgerOk(Contents(), now)
    {
      hide LedgerOk, AgentAppend, CheckOriginal, ValidateObservation, Recorded, CheckRun;
      ghost var before := Contents();
      if LedgerOk(before, now) { AcceptKeeps(before, cfg, e, original, id, currentId, now); }
      var refusal := AcceptRefusal(Contents(), cfg, e, original, id, currentId);
      if refusal.Some? { return Err(refusal.value); }
      var fact := AcceptanceFact(e, original, id, currentId);
      var appended := Append(intents[e.executionId], fact, now);
      if appended.Ok? && appended.value in {Inserted, Identical} { return Ok(fact); }
      r := Err(IntegrityConflict);
    }
  }
}
