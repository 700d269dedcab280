/** Every transaction keeps the ledger invariant, and what a whole history of transactions can
    and cannot change. */
module LedgerHistory {
  import opened Basics
  import opened ExecutionProtocol
  import opened Ledger
  import opened LedgerInvariants

  // ---- What may change between two moments ------------------------------------------------

  ghost predicate RunsPersist(before: map<Uuid, Run>, after: map<Uuid, Run>) {
    forall r :: r in before ==>
      && r in after && after[r].sessionId == before[r].sessionId && after[r].ownerUserId == before[r].ownerUserId
      && (before[r].stop.Some? ==> after[r].stop == before[r].stop)
  }

  /** A stopped run gains no intent. */
  ghost predicate NoNewIntents(before: Ledger, after: Ledger) {
    forall i :: i in after.intents && Stopped(before, after.intents[i].envelope.runId) ==>
      i in before.intents && before.intents[i] == after.intents[i]
  }

  /** A stopped run gains no dispatch claim. */
  ghost predicate NoNewClaims(before: Ledger, after: Ledger) {
    forall i :: i in after.claims && i in after.intents && Stopped(before, after.intents[i].envelope.runId) ==>
      i in before.claims && before.claims[i] == after.claims[i]
  }

  /** A stopped run gains no acceptance. */
  ghost predicate NoNewAcceptances(before: Ledger, after: Ledger) {
    forall row :: row in after.rows && row.fact.kind == ResponseAccepted && Stopped(before, row.fact.runId) ==>
      row in before.rows
  }

  predicate InRetention(intents: map<Uuid, Intent>, e: Uuid, now: Time) {
    e in intents && now < intents[e].envelope.expiresAt + RETENTION
  }

  /** Within its retention an execution keeps its intent, its claim, its flag and its rows. */
  ghost predicate Retained(before: Ledger, after: Ledger, now: Time) {
    && (forall e :: InRetention(before.intents, e, now) ==> e in after.intents && after.intents[e] == before.intents[e])
    && (forall e :: InRetention(before.intents, e, now) && e in before.claims ==>
          e in after.claims && after.claims[e] == before.claims[e])
    && (forall e :: InRetention(before.intents, e, now) && Flagged(before.states, e) ==> Flagged(after.states, e))
    && (forall row :: row in before.rows && InRetention(before.intents, row.fact.executionId, now) ==>
          row in after.rows)
  }

  ghost predicate Later(before: Ledger, after: Ledger, now: Time) {
    && RunsPersist(before.runs, after.runs)
    && NoNewIntents(before, after) && NoNewClaims(before, after) && NoNewAcceptances(before, after)
    && Retained(before, after, now)
  }

  lemma StopsAreTransitive(a: Ledger, b: Ledger, c: Ledger)
    requires RunsPersist(a.runs, b.runs)
    requires NoNewIntents(a, b) && NoNewIntents(b, c) && NoNewClaims(a, b) && NoNewClaims(b, c)
    requires NoNewAcceptances(a, b) && NoNewAcceptances(b, c)
    ensures NoNewIntents(a, c) && NoNewClaims(a, c) && NoNewAcceptances(a, c)
  {
    assert forall r :: Stopped(a, r) ==> Stopped(b, r);
  }

  lemma RetentionIsTransitive(a: Ledger, b: Ledger, c: Ledger, now: Time, end: Time)
    requires Retained(a, b, now) && Retained(b, c, end) && now <= end
    ensures Retained(a, c, end)
  {
    hide RETENTION;
    forall e | InRetention(a.intents, e, end)
      ensures InRetention(a.intents, e, now) && InRetention(b.intents, e, end)
    {
    }
  }

  lemma LaterIsTransitive(a: Ledger, b: Ledger, c: Ledger, now: Time, end: Time)
    requires Later(a, b, now) && Later(b, c, end) && now <= end
    ensures Later(a, c, end)
  {
    hide NoNewIntents, NoNewClaims, NoNewAcceptances, Retained;
    StopsAreTransitive(a, b, c);
    RetentionIsTransitive(a, b, c, now, end);
  }

  // ---- One lemma per kind of change -------------------------------------------------------

  lemma AppendIsLater(db: Ledger, after: Ledger, fact: Observation, now: Time)
    requires AppendEffect(db, after, fact, now)
    requires fact.kind == ResponseAccepted ==> !Stopped(db, fact.runId)
    ensures Later(db, after, now)
  {
  }

  lemma StopIsLater(db: Ledger, runId: Uuid, reason: Reason, now: Time)
    ensures Later(db, SetStop(db, runId, reason, now), now)
  {
    SameBesidesRuns(db, SetStop(db, runId, reason, now), now);
  }

  /** Only the runs differ. */
  lemma SameBesidesRuns(db: Ledger, after: Ledger, now: Time)
    requires after == db.(runs := after.runs)
    ensures NoNewIntents(db, after) && NoNewClaims(db, after) && NoNewAcceptances(db, after) && Retained(db, after, now)
  {
  }

  lemma StopKeepsDates(db: Ledger, runId: Uuid, reason: Reason, now: Time)
    requires DatesOk(db, now)
    ensures DatesOk(SetStop(db, runId, reason, now), now)
  {
    assert forall r :: StopTime(SetStop(db, runId, reason, now).runs, r, now) == StopTime(db.runs, r, now);
  }

  lemma StopKeeps(db: Ledger, runId: Uuid, reason: Reason, now: Time)
    requires CoreOk(db, now)
    ensures CoreOk(SetStop(db, runId, reason, now), now) && Later(db, SetStop(db, runId, reason, now), now)
  {
    hide ValidateRequest, RowsOk, FactsOk, KeysOk, DatesOk, Later;
    RowsIgnoreRuns(db, SetStop(db, runId, reason, now));
    StopKeepsDates(db, runId, reason, now);
    StopIsLater(db, runId, reason, now);
  }

  lemma RowsIgnoreRuns(db: Ledger, after: Ledger)
    requires RowsOk(db) && after == db.(runs := after.runs)
    ensures RowsOk(after)
  {
  }

  /** A new run row touches no clause that reads the rows it replaces. */
  lemma NewRunKeeps(db: Ledger, after: Ledger, r: Uuid, now: Time)
    requires LedgerOk(db, now) && r !in db.runs && r in after.runs && after.runs[r].stop.None?
    requires after == db.(runs := db.runs[r := after.runs[r]])
    ensures LedgerOk(after, now)
  {
    hide ValidateRequest, RowsOk, FactsOk, KeysOk, DatesOk;
    RowsIgnoreRuns(db, after);
    DatesIgnoreNewRuns(db, after, r, now);
    assert RefusalsOk(after.runs, after.claims, after.rows);
  }

  lemma DatesIgnoreNewRuns(db: Ledger, after: Ledger, r: Uuid, now: Time)
    requires DatesOk(db, now) && r !in db.runs && r in after.runs && after.runs[r].stop.None?
    requires after == db.(runs := db.runs[r := after.runs[r]])
    ensures DatesOk(after, now)
  {
    assert forall x :: StopTime(after.runs, x, now) == StopTime(db.runs, x, now);
  }

  lemma CreateRunKeeps(db: Ledger, runId: Uuid, sessionId: string, ownerUserId: string, now: Time)
    requires LedgerOk(db, now)
    ensures var after := CreateRun(db, runId, sessionId, ownerUserId).db; LedgerOk(after, now) && Later(db, after, now)
  {
    hide LedgerOk;
    var after := CreateRun(db, runId, sessionId, ownerUserId).db;
    if after != db { NewRunKeeps(db, after, runId, now); }
  }

  lemma InsertIntentKeepsTables(db: Ledger, e: Envelope, attemptId: string, now: Time)
    requires TablesOk(db) && !CallTaken(db, e) && ValidateRequest(e, true).None? && SafeRequestId(attemptId)
    requires CheckRun(db, e.runId, e.sessionId, e.ownerUserId).None?
    ensures TablesOk(InsertIntent(db, e, attemptId, now))
  {
    hide ValidateRequest, SafeRequestId, FactsOk, KeysOk;
    var after := InsertIntent(db, e, attemptId, now);
    InsertIntentKeepsKeys(db, e, attemptId, now);
    InsertIntentKeepsFacts(db, e, attemptId, now);
  }

  lemma InsertIntentKeepsKeys(db: Ledger, e: Envelope, attemptId: string, now: Time)
    requires IntentsOk(db.runs, db.intents, db.nextIntent) && KeysOk(db.intents) && !CallTaken(db, e)
    ensures KeysOk(InsertIntent(db, e, attemptId, now).intents) && e.executionId !in db.intents
  {
    hide ValidateRequest;
  }

  lemma InsertIntentKeepsFacts(db: Ledger, e: Envelope, attemptId: string, now: Time)
    requires FactsOk(db.intents, db.claims, db.rows) && e.executionId !in db.intents
    ensures FactsOk(InsertIntent(db, e, attemptId, now).intents, db.claims, db.rows)
  {
    hide ValidateObservation;
  }

  lemma {:induction false} NoRowsNoOrdinary(rows: seq<Row>, e: Uuid)
    requires forall row :: row in rows ==> row.fact.executionId != e
    ensures Ordinary(rows, e) == 0
  {
    if rows != [] {
      assert rows[|rows| - 1] in rows;
      NoRowsNoOrdinary(rows[..|rows| - 1], e);
    }
  }

  lemma InsertIntentKeepsRows(db: Ledger, e: Envelope, attemptId: string, now: Time)
    requires TablesOk(db) && RowsOk(db) && e.executionId !in db.intents && !Unresolved(db, e.runId, None)
    ensures RowsOk(InsertIntent(db, e, attemptId, now))
  {
    hide ValidateRequest, ValidateObservation, Ascending, RowKeysOk, AcceptancesOk, KeysOk;
    var after := InsertIntent(db, e, attemptId, now);
    assert forall row :: row in db.rows ==> FactOk(db.intents, db.claims, row.fact);
    NoRowsNoOrdinary(db.rows, e.executionId);
    assert BudgetOk(after.states, after.rows);
    assert ReceiptsOk(after.states, after.rows);
    forall i, j | i in after.intents && j in after.intents && Precedes(after.intents[i], after.intents[j])
      ensures Accepted(after.rows, i)
    {
      if j == e.executionId {
        assert IntentOk(db.runs, db.intents[i], i, db.nextIntent);
        assert !Unsettled(db, i);
      } else {
        assert IntentOk(db.runs, db.intents[j], j, db.nextIntent);
      }
    }
  }

  lemma InsertIntentKeepsDates(db: Ledger, e: Envelope, attemptId: string, now: Time)
    requires TablesOk(db) && DatesOk(db, now) && e.executionId !in db.intents && !Stopped(db, e.runId)
    ensures DatesOk(InsertIntent(db, e, attemptId, now), now)
  {
    hide IntentsOk, KeysOk, FactsOk;
  }

  lemma InsertIntentIsLater(db: Ledger, e: Envelope, attemptId: string, now: Time)
    requires e.executionId !in db.intents && !Stopped(db, e.runId) && e.executionId !in db.claims
    ensures Later(db, InsertIntent(db, e, attemptId, now), now)
  {
  }

  lemma RegisterKeeps(db: Ledger, cfg: Config, e: Envelope, attemptId: string, now: Time)
    requires LedgerOk(db, now)
    ensures var after := Register(db, cfg, e, attemptId, now).db; LedgerOk(after, now) && Later(db, after, now)
  {
    hide TablesOk, RowsOk, DatesOk, RefusalsOk, Later, Unresolved, CallTaken, SafeRequestId;
    LaterIsReflexive(db, now);
    if Register(db, cfg, e, attemptId, now).db != db {
      FreshIsUnregistered(db, e);
      InsertIntentKeepsTables(db, e, attemptId, now);
      InsertIntentKeepsRows(db, e, attemptId, now);
      InsertIntentKeepsDates(db, e, attemptId, now);
      assert e.executionId !in db.claims by { ClaimsAreRegistered(db); }
      InsertIntentIsLater(db, e, attemptId, now);
    }
  }

  lemma ClaimsAreRegistered(db: Ledger)
    requires TablesOk(db)
    ensures db.claims.Keys <= db.intents.Keys && db.states.Keys == db.intents.Keys
  {
  }

  lemma FreshIsUnregistered(db: Ledger, e: Envelope)
    requires !CallTaken(db, e)
    ensures e.executionId !in db.intents
  {
  }

  lemma StopRunKeeps(db: Ledger, cfg: Config, runId: Uuid, sessionId: string, ownerUserId: string,
                     reason: Reason, note: Option<Attribution>, now: Time)
    requires LedgerOk(db, now)
    ensures var after := StopRun(db, cfg, runId, sessionId, ownerUserId, reason, note, now).db;
            LedgerOk(after, now) && Later(db, after, now)
  {
    hide CoreOk, AgentAppend, Later, ValidateRequest, ValidateObservation, STOP_REASONS;
    var after := StopRun(db, cfg, runId, sessionId, ownerUserId, reason, note, now).db;
    LaterIsReflexive(db, now);
    if StopRefusal(db, cfg, runId, sessionId, ownerUserId, note).None? {
      var stored := if reason in STOP_REASONS then reason else ResponseInvalid;
      if note.None? {
        StopKeeps(db, runId, stored, now);
      } else {
        var e := note.value.envelope;
        var intent := db.intents[e.executionId];
        var noted := AgentAppend(db, intent, note.value.fact, cfg.keyed, now).db;
        AgentAppendKeepsCore(db, intent, note.value.fact, cfg.keyed, now);
        AppendIsLater(db, noted, note.value.fact, now);
        StopKeeps(noted, runId, stored, now);
        LaterIsTransitive(db, noted, after, now, now);
        assert note.value.fact.executionId == e.executionId && note.value.fact.runId == runId by {
          ValidNamesIntent(note.value.fact, e, cfg.keyed);
        }
      }
    }
  }

  lemma ValidNamesIntent(fact: Observation, e: Envelope, keyed: bool)
    requires ValidateObservation(fact, e, keyed).None?
    ensures fact.executionId == e.executionId && fact.runId == e.runId && ObservationShape(fact)
    ensures ValidateObservation(fact, e, true).None?
  {
  }

  lemma AcceptKeeps(db: Ledger, cfg: Config, e: Envelope, original: VerifiedOriginal, id: Uuid, currentId: string,
                    now: Time)
    requires LedgerOk(db, now)
    ensures var after := Accept(db, cfg, e, original, id, currentId, now).db;
      LedgerOk(after, now) && Later(db, after, now)
  {
    hide CoreOk, AgentAppend, Later, ValidateRequest, ValidateObservation, PageRefusal;
    LaterIsReflexive(db, now);
    if AcceptRefusal(db, cfg, e, original, id, currentId).None? {
      var fact := AcceptanceFact(e, original, id, currentId);
      var intent := db.intents[e.executionId];
      var after := AgentAppend(db, intent, fact, cfg.keyed, now).db;
      AcceptedFactIsAcceptable(db, cfg, e, original, id, currentId);
      AgentAppendKeepsCore(db, intent, fact, cfg.keyed, now);
      AppendIsLater(db, after, fact, now);
    }
  }

  lemma AcceptedFactIsAcceptable(db: Ledger, cfg: Config, e: Envelope, original: VerifiedOriginal, id: Uuid,
                                 currentId: string)
    requires AcceptRefusal(db, cfg, e, original, id, currentId).None?
    ensures Acceptable(db, AcceptanceFact(e, original, id, currentId))
  {
    var result := original.payload.fact;
    CheckedOriginalIsWorkerResult(original.payload, e, cfg.keyed, original.attemptId, original.currentId);
    var row :| row in db.rows && row.fact == result;
    assert IsResult(row, e.executionId);
  }

  lemma WorkerAppendKeeps(db: Ledger, intent: Intent, fact: Observation, keyed: bool, now: Time)
    requires LedgerOk(db, now)
    requires intent.envelope.executionId in db.intents && db.intents[intent.envelope.executionId] == intent
    requires fact.source == Worker
    ensures var after := WorkerAppend(db, intent, fact, keyed, now).db;
            && CoreOk(after, now) && Later(db, after, now) && (fact.kind != PreDispatchRefused ==> LedgerOk(after, now))
            && (after == db || AppendEffect(db, after, fact, now))
  {
    hide CoreOk, WorkerAppend, Later, ValidateObservation, FirstResult;
    if WorkerRefusal(db, intent, fact, keyed).None? {
      WorkerAppendKeepsCore(db, intent, fact, keyed, now);
      ValidNamesIntent(fact, intent.envelope, keyed);
      AppendIsLater(db, WorkerAppend(db, intent, fact, keyed, now).db, fact, now);
    } else {
      assert WorkerAppend(db, intent, fact, keyed, now).db == db by {
        RefusedAppendIsNothing(db, intent, fact, keyed, now);
      }
      assert Later(db, db, now) by { LaterIsReflexive(db, now); }
    }
  }

  lemma RefusedAppendIsNothing(db: Ledger, intent: Intent, fact: Observation, keyed: bool, now: Time)
    requires WorkerRefusal(db, intent, fact, keyed).Some?
    ensures WorkerAppend(db, intent, fact, keyed, now).db == db
  {
  }

  lemma LaterIsReflexive(db: Ledger, now: Time)
    ensures Later(db, db, now)
  {
  }

  lemma InsertClaimIsLater(db: Ledger, e: Uuid, owner: Uuid, now: Time)
    requires e in db.intents && e !in db.claims && !Stopped(db, db.intents[e].envelope.runId)
    ensures Later(db, InsertClaim(db, e, owner, now), now)
  {
  }

  lemma InsertClaimKeepsFacts(db: Ledger, e: Uuid, owner: Uuid, now: Time)
    requires FactsOk(db.intents, db.claims, db.rows) && e !in db.claims
    ensures FactsOk(db.intents, InsertClaim(db, e, owner, now).claims, db.rows)
  {
    hide ValidateObservation;
  }

  lemma InsertClaimKeepsDates(db: Ledger, e: Uuid, owner: Uuid, now: Time)
    requires DatesOk(db, now) && e in db.intents && !Stopped(db, db.intents[e].envelope.runId)
    ensures DatesOk(InsertClaim(db, e, owner, now), now)
  {
    hide IntentDatesOk, AcceptanceDatesOk, StopsOk;
  }

  lemma InsertClaimKeeps(db: Ledger, e: Uuid, owner: Uuid, now: Time)
    requires LedgerOk(db, now) && e in db.intents && e !in db.claims && !Stopped(db, db.intents[e].envelope.runId)
    ensures LedgerOk(InsertClaim(db, e, owner, now), now) && Later(db, InsertClaim(db, e, owner, now), now)
  {
    hide RowsOk, KeysOk, IntentsOk, Later, DatesOk, ValidateObservation;
    InsertClaimIsLater(db, e, owner, now);
    InsertClaimKeepsFacts(db, e, owner, now);
    InsertClaimKeepsDates(db, e, owner, now);
    RowsIgnoreClaims(db, InsertClaim(db, e, owner, now));
    forall row | row in db.rows && row.fact.kind == PreDispatchRefused ensures row.fact.executionId != e {
      ValidNamesIntent(row.fact, db.intents[row.fact.executionId].envelope, true);
    }
  }

  lemma RowsIgnoreClaims(db: Ledger, after: Ledger)
    requires RowsOk(db) && after == db.(claims := after.claims)
    ensures RowsOk(after)
  {
  }

  lemma ClaimKeeps(db: Ledger, cfg: Config, e: Envelope, requestId: string, owner: Uuid, id: Uuid, now: Time)
    requires LedgerOk(db, now)
    ensures var after := ClaimDispatch(db, cfg, e, requestId, owner, id, now).db;
      LedgerOk(after, now) && Later(db, after, now)
  {
    hide LedgerOk, WorkerAppend, Later, ValidateRequest, FreshClaimRefusal, CallTaken;
    LaterIsReflexive(db, now);
    if ValidateRequest(e, cfg.keyed).None? && ClaimIdentityRefusal(db, e).None? {
      var intent := db.intents[e.executionId];
      if e.executionId in db.claims {
        WorkerAppendKeeps(db, intent, DuplicateFact(e, intent, id, requestId), cfg.keyed, now);
      } else if FreshClaimRefusal(db, cfg, e, now).None? {
        var claimed := InsertClaim(db, e.executionId, owner, now);
        assert !Stopped(db, e.runId) by { FreshClaimIsUnstopped(db, cfg, e, now); }
        InsertClaimKeeps(db, e.executionId, owner, now);
        WorkerAppendKeeps(claimed, intent, ClaimFact(e, intent, id, requestId, owner), cfg.keyed, now);
        var noted := WorkerAppend(claimed, intent, ClaimFact(e, intent, id, requestId, owner), cfg.keyed, now);
        LaterIsTransitive(db, claimed, noted.db, now, now);
      }
    }
  }

  lemma FreshClaimIsUnstopped(db: Ledger, cfg: Config, e: Envelope, now: Time)
    requires e.executionId in db.intents && FreshClaimRefusal(db, cfg, e, now).None?
    ensures !Stopped(db, e.runId) && e.requestedAt <= now < e.expiresAt
    ensures !PredecessorUnsettled(db, db.intents[e.executionId])
  {
  }

  lemma FinishKeeps(db: Ledger, cfg: Config, e: Envelope, fact: Observation, stopReason: Option<Reason>, now: Time)
    requires LedgerOk(db, now) && fact.source == Worker
    requires fact.kind == PreDispatchRefused ==> stopReason.Some? && e.executionId !in db.claims
    ensures var after := Finish(db, cfg, e, fact, stopReason, now).db; LedgerOk(after, now) && Later(db, after, now)
  {
    hide CoreOk, WorkerAppend, Later, STOP_REASONS, RefusalsOk, AppendEffect, SetStop;
    LaterIsReflexive(db, now);
    if e.runId in db.runs && Registered(db, e) {
      var intent := db.intents[e.executionId];
      var step := WorkerAppend(db, intent, fact, cfg.keyed, now);
      WorkerAppendKeeps(db, intent, fact, cfg.keyed, now);
      if step.out.Err? {
        assert step.db == db by { FailedAppendIsNothing(db, intent, fact, cfg.keyed, now); }
      } else if stopReason.Some? {
        assert fact.executionId == e.executionId && fact.runId == e.runId by {
          LandedNamesIntent(db, intent, fact, cfg.keyed, now);
        }
        StopKeeps(step.db, e.runId, stopReason.value, now);
        StoppedAppendKeepsRefusals(db, step.db, fact, e.runId, stopReason.value, now);
        LaterIsTransitive(db, step.db, SetStop(step.db, e.runId, stopReason.value, now), now, now);
      }
    }
  }

  lemma StoppedAppendKeepsRefusals(db: Ledger, noted: Ledger, fact: Observation, r: Uuid, reason: Reason, now: Time)
    requires RefusalsOk(db.runs, db.claims, db.rows) && (noted == db || AppendEffect(db, noted, fact, now))
    requires r in db.runs && fact.runId == r && (fact.kind == PreDispatchRefused ==> fact.executionId !in db.claims)
    ensures var after := SetStop(noted, r, reason, now); RefusalsOk(after.runs, after.claims, after.rows)
  {
  }

  lemma FailedAppendIsNothing(db: Ledger, intent: Intent, fact: Observation, keyed: bool, now: Time)
    requires WorkerAppend(db, intent, fact, keyed, now).out.Err?
    ensures WorkerAppend(db, intent, fact, keyed, now).db == db
  {
  }

  lemma LandedNamesIntent(db: Ledger, intent: Intent, fact: Observation, keyed: bool, now: Time)
    requires WorkerAppend(db, intent, fact, keyed, now).out.Ok?
    ensures fact.executionId == intent.envelope.executionId && fact.runId == intent.envelope.runId
  {
  }

  // ---- Retention --------------------------------------------------------------------------

  lemma {:induction false} KeepIsFilter(rows: seq<Row>, gone: set<Uuid>, row: Row)
    ensures row in Keep(rows, gone) <==> row in rows && row.fact.executionId !in gone
  {
    if rows != [] {
      KeepIsFilter(rows[..|rows| - 1], gone, row);
      assert row in rows <==> row in rows[..|rows| - 1] || row == rows[|rows| - 1];
    }
  }

  lemma {:induction false} KeepAscends(rows: seq<Row>, gone: set<Uuid>, limit: nat)
    requires Ascending(rows, limit)
    ensures Ascending(Keep(rows, gone), limit)
  {
    if rows != [] {
      var init := rows[..|rows| - 1];
      KeepAscends(init, gone, limit);
      forall k | 0 <= k < |Keep(init, gone)| ensures Keep(init, gone)[k].seqNo < rows[|rows| - 1].seqNo {
        KeepIsFilter(init, gone, Keep(init, gone)[k]);
      }
    }
  }

  lemma {:induction false} KeepCounts(rows: seq<Row>, gone: set<Uuid>, e: Uuid)
    requires e !in gone
    ensures Ordinary(Keep(rows, gone), e) == Ordinary(rows, e)
  {
    if rows != [] {
      var init := rows[..|rows| - 1];
      KeepCounts(init, gone, e);
      OrdinaryOfInsert(Keep(init, gone), rows[|rows| - 1], e);
    }
  }

  lemma KeepAccepts(rows: seq<Row>, gone: set<Uuid>, e: Uuid)
    requires e !in gone && Accepted(rows, e)
    ensures Accepted(Keep(rows, gone), e)
  {
    var a, r :| a in rows && r in rows && IsAcceptance(a, e) && IsResult(r, e)
                && a.fact.receiptDigest == r.fact.receiptDigest;
    KeepIsFilter(rows, gone, a);
    KeepIsFilter(rows, gone, r);
  }

  ghost predicate Filtered(rows: seq<Row>, kept: seq<Row>, gone: set<Uuid>) {
    forall row :: row in kept <==> row in rows && row.fact.executionId !in gone
  }

  lemma KeepFilters(rows: seq<Row>, gone: set<Uuid>)
    ensures Filtered(rows, Keep(rows, gone), gone)
  {
    forall row ensures row in Keep(rows, gone) <==> row in rows && row.fact.executionId !in gone {
      KeepIsFilter(rows, gone, row);
    }
  }

  lemma KeepBacks(rows: seq<Row>, gone: set<Uuid>, fact: Observation)
    requires fact.executionId !in gone && Backed(rows, fact)
    ensures Backed(Keep(rows, gone), fact)
  {
    var r :| r in rows && IsResult(r, fact.executionId) && r.fact.receiptDigest == fact.receiptDigest;
    KeepIsFilter(rows, gone, r);
  }

  lemma FilterKeepsReceipts(db: Ledger, after: Ledger, gone: set<Uuid>)
    requires ReceiptsOk(db.states, db.rows) && Filtered(db.rows, after.rows, gone) && after.states == db.states - gone
    ensures ReceiptsOk(after.states, after.rows)
  {
  }

  lemma FilterKeepsAccepted(db: Ledger, gone: set<Uuid>)
    requires ChainOk(db.intents, db.rows) && AcceptancesOk(db.rows)
    ensures ChainOk(db.intents - gone, Keep(db.rows, gone)) && AcceptancesOk(Keep(db.rows, gone))
  {
    hide Accepted, Backed;
    KeepFilters(db.rows, gone);
    forall e | e !in gone && Accepted(db.rows, e) ensures Accepted(Keep(db.rows, gone), e) {
      KeepAccepts(db.rows, gone, e);
    }
    forall a | a in db.rows && a.fact.kind == ResponseAccepted && a.fact.executionId !in gone
      ensures Backed(Keep(db.rows, gone), a.fact)
    {
      KeepBacks(db.rows, gone, a.fact);
    }
  }

  lemma ForgetKeepsRows(db: Ledger, gone: set<Uuid>)
    requires RowsOk(db)
    ensures RowsOk(Forget(db, gone))
  {
    hide Ascending, ReceiptsOk, ChainOk, AcceptancesOk, Keep;
    var after := Forget(db, gone);
    KeepFilters(db.rows, gone);
    KeepAscends(db.rows, gone, db.nextRow);
    FilterKeepsReceipts(db, after, gone);
    FilterKeepsAccepted(db, gone);
    forall e | e in after.states ensures after.states[e].ordinaryCount == Ordinary(after.rows, e) <= ORDINARY_LIMIT {
      KeepCounts(db.rows, gone, e);
    }
  }

  lemma ForgetKeepsTables(db: Ledger, gone: set<Uuid>)
    requires TablesOk(db)
    ensures TablesOk(Forget(db, gone))
  {
    hide ValidateRequest, ValidateObservation, Keep;
    KeepFilters(db.rows, gone);
  }

  lemma ForgetIsLater(db: Ledger, gone: set<Uuid>, now: Time)
    requires Forgettable(db, gone, now)
    ensures Later(db, Forget(db, gone), now)
  {
    hide Keep;
    KeepFilters(db.rows, gone);
  }

  lemma ForgetKeeps(db: Ledger, gone: set<Uuid>, now: Time)
    requires LedgerOk(db, now) && Forgettable(db, gone, now)
    ensures LedgerOk(Forget(db, gone), now) && Later(db, Forget(db, gone), now)
  {
    hide TablesOk, RowsOk, Keep, Later;
    ForgetKeepsTables(db, gone);
    ForgetKeepsRows(db, gone);
    ForgetIsLater(db, gone, now);
    KeepFilters(db.rows, gone);
  }

  // ---- Histories --------------------------------------------------------------------------

  lemma ApplyKeeps(db: Ledger, op: Op, now: Time)
    requires LedgerOk(db, now)
    ensures LedgerOk(Apply(db, op, now), now) && Later(db, Apply(db, op, now), now)
  {
    hide LedgerOk, Later, CreateRun, Register, StopRun, Accept, ClaimDispatch, Finish;
    LaterIsReflexive(db, now);
    match op
    case CreateRunOp(r, s, o) => CreateRunKeeps(db, r, s, o, now);
    case RegisterOp(cfg, e, a) => RegisterKeeps(db, cfg, e, a, now);
    case StopRunOp(cfg, r, s, o, reason, note) => StopRunKeeps(db, cfg, r, s, o, reason, note, now);
    case AcceptOp(cfg, e, original, id, c) => AcceptKeeps(db, cfg, e, original, id, c, now);
    case ClaimOp(cfg, e, q, owner, id) => ClaimKeeps(db, cfg, e, q, owner, id, now);
    case ReportOp(cfg, e, fact, stop) => if WorkerReport(fact) { FinishKeeps(db, cfg, e, fact, stop, now); }
    case WorkerStopOp(cfg, e, fact, reason) =>
      if fact.source == Worker && !(fact.kind == PreDispatchRefused && e.executionId in db.claims) {
        FinishKeeps(db, cfg, e, fact, Some(reason), now);
      }
    case ForgetOp(gone) => if Forgettable(db, gone, now) { ForgetKeeps(db, gone, now); }
    case AdmissionOp(enabled, epoch) => AdmissionKeeps(db, enabled, epoch, now);
  }

  lemma AdmissionKeeps(db: Ledger, enabled: bool, epoch: Uuid, now: Time)
    requires LedgerOk(db, now)
    ensures var after := db.(admissionEnabled := enabled, admissionEpoch := epoch);
      LedgerOk(after, now) && Later(db, after, now)
  {
  }

  lemma TimePasses(db: Ledger, now: Time, end: Time)
    requires LedgerOk(db, now) && now <= end
    ensures LedgerOk(db, end)
  {
    hide TablesOk, RowsOk;
  }

  /** A transaction committed at an instant of the database clock. */
  datatype Event = Event(op: Op, at: Time)

  /** Committed in clock order, all between `start` and `end`. */
  ghost predicate Timely(events: seq<Event>, start: Time, end: Time) {
    && start <= end
    && (forall k :: 0 <= k < |events| ==> start <= events[k].at <= end)
    && (forall j, k :: 0 <= j < k < |events| ==> events[j].at <= events[k].at)
  }

  function Play(db: Ledger, events: seq<Event>): Ledger {
    if events == [] then db
    else Apply(Play(db, events[..|events| - 1]), events[|events| - 1].op, events[|events| - 1].at)
  }

  /** Any history keeps the invariant, and can only do what `Later` allows. */
  lemma {:induction false} PlayKeeps(db: Ledger, events: seq<Event>, start: Time, end: Time)
    requires LedgerOk(db, start) && Timely(events, start, end)
    ensures LedgerOk(Play(db, events), end) && Later(db, Play(db, events), end)
  {
    hide LedgerOk, Later, Apply;
    if events == [] {
      TimePasses(db, start, end);
      LaterIsReflexive(db, end);
    } else {
      var last := events[|events| - 1];
      var before := Play(db, events[..|events| - 1]);
      PlayKeeps(db, events[..|events| - 1], start, last.at);
      ApplyKeeps(before, last.op, last.at);
      var after := Apply(before, last.op, last.at);
      TimePasses(after, last.at, end);
      LaterIsTransitive(db, before, after, last.at, last.at);
      LaterIsReflexive(after, end);
      LaterIsTransitive(db, after, after, last.at, end);
    }
  }

  ghost predicate Reachable(db: Ledger, now: Time) {
    exists enabled, epoch, events, start ::
      Timely(events, start, now) && db == Play(EmptyLedger(enabled, epoch), events)
  }

  lemma ReachableIsOk(db: Ledger, now: Time)
    requires Reachable(db, now)
    ensures LedgerOk(db, now)
  {
    hide LedgerOk, Later, Apply;
    var enabled, epoch, events, start :|
      Timely(events, start, now) && db == Play(EmptyLedger(enabled, epoch), events);
    EmptyIsOk(enabled, epoch, start);
    PlayKeeps(EmptyLedger(enabled, epoch), events, start, now);
  }

  lemma EmptyIsOk(enabled: bool, epoch: Uuid, now: Time)
    ensures LedgerOk(EmptyLedger(enabled, epoch), now)
  {
  }
}
