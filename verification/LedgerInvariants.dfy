/** What every reachable ledger satisfies, whatever the order of agent transactions, worker
    transactions, retention sweeps and admission changes. */
module LedgerInvariants {
  import opened Basics
  import opened ExecutionProtocol
  import opened Ledger

  // ---- The invariant, clause by clause ----------------------------------------------------

  ghost predicate IntentOk(runs: map<Uuid, Run>, intent: Intent, id: Uuid, limit: nat) {
    && intent.envelope.executionId == id
    && intent.envelope.runId in runs
    && runs[intent.envelope.runId].sessionId == intent.envelope.sessionId
    && runs[intent.envelope.runId].ownerUserId == intent.envelope.ownerUserId
    && ValidateRequest(intent.envelope, true).None? && SafeRequestId(intent.attemptId)
    && 0 < intent.seqNo < limit
  }

  ghost predicate IntentsOk(runs: map<Uuid, Run>, intents: map<Uuid, Intent>, limit: nat) {
    forall i :: i in intents ==> IntentOk(runs, intents[i], i, limit)
  }

  /** The two unique keys of the intents table besides the execution id. */
  ghost predicate KeysOk(intents: map<Uuid, Intent>) {
    forall i, j :: i in intents && j in intents
                   && (SameCall(intents[i].envelope, intents[j].envelope) || intents[i].seqNo == intents[j].seqNo)
                   ==> i == j
  }

  /** A stored fact still passes every check the recovery reader repeats. */
  ghost predicate FactOk(intents: map<Uuid, Intent>, claims: map<Uuid, Claim>, fact: Observation) {
    && fact.executionId in intents
    && ValidateObservation(fact, intents[fact.executionId].envelope, true).None?
    && fact.attemptId == intents[fact.executionId].attemptId
    && (fact.kind in {WorkerResult, ClaimCommitted} ==>
          fact.executionId in claims && fact.claimOwnerId == Some(claims[fact.executionId].ownerId))
  }

  ghost predicate FactsOk(intents: map<Uuid, Intent>, claims: map<Uuid, Claim>, rows: seq<Row>) {
    forall row :: row in rows ==> FactOk(intents, claims, row.fact)
  }

  ghost predicate Ascending(rows: seq<Row>, limit: nat) {
    && 0 < limit
    && (forall j, k :: 0 <= j < k < |rows| ==> rows[j].seqNo < rows[k].seqNo)
    && (forall k :: 0 <= k < |rows| ==> 0 < rows[k].seqNo < limit)
  }

  /** Observation ids are unique, and so is each reserved slot of each execution. */
  ghost predicate RowKeysOk(rows: seq<Row>) {
    forall a, b :: a in rows && b in rows
                   && (|| a.fact.observationId == b.fact.observationId
                       || (a.slot.Some? && a.slot == b.slot && a.fact.executionId == b.fact.executionId))
                   ==> a == b
  }

  /** A reserved slot holds the kind it is reserved for; the conflict slot holds a result. */
  predicate SlotFits(slot: Option<Slot>, kind: Kind) {
    slot.Some? ==> Reserved(kind) == slot || (slot == Some(ConflictSlot) && kind == WorkerResult)
  }

  ghost predicate SlotsOk(rows: seq<Row>) {
    forall row :: row in rows ==> SlotFits(row.slot, row.fact.kind)
  }

  /** The number of rows of an execution that hold no reserved slot. */
  function Ordinary(rows: seq<Row>, e: Uuid): nat {
    if rows == [] then 0
    else Ordinary(rows[..|rows| - 1], e)
         + (if rows[|rows| - 1].fact.executionId == e && rows[|rows| - 1].slot.None? then 1 else 0)
  }

  ghost predicate BudgetOk(states: map<Uuid, ObservationState>, rows: seq<Row>) {
    forall e :: e in states ==> states[e].ordinaryCount == Ordinary(rows, e) <= ORDINARY_LIMIT
  }

  ghost predicate Flagged(states: map<Uuid, ObservationState>, e: Uuid) {
    e in states && states[e].conflict
  }

  ghost predicate Disagree(a: Row, b: Row) {
    && a.fact.kind == WorkerResult && b.fact.kind == WorkerResult
    && a.fact.executionId == b.fact.executionId && a.fact.receiptDigest != b.fact.receiptDigest
  }

  /** Two different receipts for one execution always show in its conflict flag. */
  ghost predicate ReceiptsOk(states: map<Uuid, ObservationState>, rows: seq<Row>) {
    forall a, b :: a in rows && b in rows && Disagree(a, b) ==> Flagged(states, a.fact.executionId)
  }

  ghost predicate Precedes(a: Intent, b: Intent) {
    a.envelope.runId == b.envelope.runId && a.seqNo < b.seqNo
  }

  /** Every intent of a run but the one registered last has its accepted worker result. */
  ghost predicate ChainOk(intents: map<Uuid, Intent>, rows: seq<Row>) {
    forall i, j :: i in intents && j in intents && Precedes(intents[i], intents[j]) ==> Accepted(rows, i)
  }

  ghost predicate AcceptancesOk(rows: seq<Row>) {
    forall a :: a in rows && a.fact.kind == ResponseAccepted ==> Backed(rows, a.fact)
  }

  /** When a run was stopped, or the present when it was not. */
  function StopTime(runs: map<Uuid, Run>, r: Uuid, now: Time): Time {
    if r in runs && runs[r].stop.Some? then runs[r].stop.value.at else now
  }

  /** No stop lies in the future, and no intent, claim or acceptance of a stopped run is dated
      after its stop. */
  ghost predicate StopsOk(runs: map<Uuid, Run>, now: Time) {
    forall r :: r in runs ==> StopTime(runs, r, now) <= now
  }

  ghost predicate IntentDatesOk(runs: map<Uuid, Run>, intents: map<Uuid, Intent>, now: Time) {
    forall i :: i in intents ==> intents[i].registeredAt <= StopTime(runs, intents[i].envelope.runId, now)
  }

  ghost predicate ClaimDatesOk(runs: map<Uuid, Run>, intents: map<Uuid, Intent>, claims: map<Uuid, Claim>, now: Time) {
    forall i :: i in claims && i in intents ==> claims[i].claimedAt <= StopTime(runs, intents[i].envelope.runId, now)
  }

  ghost predicate AcceptanceDatesOk(runs: map<Uuid, Run>, rows: seq<Row>, now: Time) {
    forall row :: row in rows && row.fact.kind == ResponseAccepted ==>
      row.insertedAt <= StopTime(runs, row.fact.runId, now)
  }

  /** A recorded pre-dispatch refusal excludes a claim, and its run is stopped. */
  ghost predicate RefusalsOk(runs: map<Uuid, Run>, claims: map<Uuid, Claim>, rows: seq<Row>) {
    forall row :: row in rows && row.fact.kind == PreDispatchRefused ==>
      row.fact.executionId !in claims && row.fact.runId in runs && runs[row.fact.runId].stop.Some?
  }

  ghost predicate TablesOk(db: Ledger) {
    && 0 < db.nextIntent && db.states.Keys == db.intents.Keys && db.claims.Keys <= db.intents.Keys
    && IntentsOk(db.runs, db.intents, db.nextIntent) && KeysOk(db.intents)
    && FactsOk(db.intents, db.claims, db.rows)
  }

  ghost predicate RowsOk(db: Ledger) {
    && Ascending(db.rows, db.nextRow) && RowKeysOk(db.rows) && SlotsOk(db.rows)
    && BudgetOk(db.states, db.rows) && ReceiptsOk(db.states, db.rows)
    && ChainOk(db.intents, db.rows) && AcceptancesOk(db.rows)
  }

  ghost predicate DatesOk(db: Ledger, now: Time) {
    && StopsOk(db.runs, now) && IntentDatesOk(db.runs, db.intents, now)
    && ClaimDatesOk(db.runs, db.intents, db.claims, now) && AcceptanceDatesOk(db.runs, db.rows, now)
  }

  ghost predicate CoreOk(db: Ledger, now: Time) {
    TablesOk(db) && RowsOk(db) && DatesOk(db, now)
  }

  ghost predicate LedgerOk(db: Ledger, now: Time) {
    CoreOk(db, now) && RefusalsOk(db.runs, db.claims, db.rows)
  }

  // ---- Small facts about queries ----------------------------------------------------------

  lemma AcceptedGrows(rows: seq<Row>, row: Row, e: Uuid)
    requires Accepted(rows, e)
    ensures Accepted(rows + [row], e)
  {
    var a, r :| a in rows && r in rows && IsAcceptance(a, e) && IsResult(r, e)
                && a.fact.receiptDigest == r.fact.receiptDigest;
    assert a in rows + [row] && r in rows + [row];
  }

  lemma OrdinaryOfInsert(rows: seq<Row>, row: Row, e: Uuid)
    ensures Ordinary(rows + [row], e)
         == Ordinary(rows, e) + (if row.fact.executionId == e && row.slot.None? then 1 else 0)
  {
    assert (rows + [row])[..|rows|] == rows;
  }

  lemma {:induction false} FirstResultIsStored(rows: seq<Row>, e: Uuid)
    ensures FirstResult(rows, e).Some? <==> exists row :: row in rows && IsResult(row, e)
    ensures FirstResult(rows, e).Some? ==> FirstResult(rows, e).value in rows && IsResult(FirstResult(rows, e).value, e)
  {
    if rows != [] && !IsResult(rows[0], e) {
      FirstResultIsStored(rows[1..], e);
      if row :| row in rows && IsResult(row, e) { assert row in rows[1..]; }
    }
  }

  /** Comparing a new result with the first stored one finds a disagreement whenever the
      execution is not flagged already and any stored result disagrees. */
  lemma FirstResultDecides(db: Ledger, e: Uuid, digest: Option<Digest<Receipt>>)
    requires ReceiptsOk(db.states, db.rows)
    ensures OtherReceipt(db.rows, e, digest) && !Conflicted(db, e) ==>
              FirstResult(db.rows, e).Some? && FirstResult(db.rows, e).value.fact.receiptDigest != digest
  {
    FirstResultIsStored(db.rows, e);
    if OtherReceipt(db.rows, e, digest) && !Conflicted(db, e) {
      var row :| row in db.rows && IsResult(row, e) && row.fact.receiptDigest != digest;
      assert !Disagree(row, FirstResult(db.rows, e).value);
    }
  }

  // ---- Appends ----------------------------------------------------------------------------

  /** What one `_append` may do: touch the state of one execution, only raising its flag, and
      add at most the fact itself. */
  ghost predicate AppendEffect(db: Ledger, after: Ledger, fact: Observation, now: Time) {
    && after == db.(states := after.states, rows := after.rows, nextRow := after.nextRow)
    && after.states.Keys == db.states.Keys
    && (forall e :: Flagged(db.states, e) ==> Flagged(after.states, e))
    && (|| after.rows == db.rows
        || exists slot :: after.rows == db.rows + [Row(db.nextRow, now, slot, fact)])
  }

  /** The conditions under which a fact may be landed. */
  ghost predicate Landable(db: Ledger, fact: Observation) {
    && FactOk(db.intents, db.claims, fact)
    && !IdTaken(db.rows, fact.observationId)
    && (fact.kind == WorkerResult && OtherReceipt(db.rows, fact.executionId, fact.receiptDigest) ==>
          Flagged(db.states, fact.executionId))
    && (fact.kind == ResponseAccepted ==> Acceptable(db, fact))
  }

  ghost predicate Acceptable(db: Ledger, fact: Observation) {
    !Stopped(db, fact.runId) && Backed(db.rows, fact)
  }

  lemma InsertKeepsKeys(rows: seq<Row>, row: Row, limit: nat)
    requires Ascending(rows, limit) && RowKeysOk(rows)
    requires row.seqNo == limit && !IdTaken(rows, row.fact.observationId)
    requires row.slot.Some? ==> !SlotTaken(rows, row.fact.executionId, row.slot.value)
    ensures Ascending(rows + [row], limit + 1) && RowKeysOk(rows + [row])
  {
  }

  lemma InsertKeepsAccepted(intents: map<Uuid, Intent>, rows: seq<Row>, row: Row)
    requires ChainOk(intents, rows) && AcceptancesOk(rows)
    requires row.fact.kind == ResponseAccepted ==> Backed(rows, row.fact)
    ensures ChainOk(intents, rows + [row]) && AcceptancesOk(rows + [row])
  {
    forall e | Accepted(rows, e) ensures Accepted(rows + [row], e) {
      AcceptedGrows(rows, row, e);
    }
    forall fact | Backed(rows, fact) ensures Backed(rows + [row], fact) {
      var r :| r in rows && IsResult(r, fact.executionId) && r.fact.receiptDigest == fact.receiptDigest;
      assert r in rows + [row];
    }
  }

  lemma InsertKeepsReceipts(states: map<Uuid, ObservationState>, rows: seq<Row>, row: Row)
    requires ReceiptsOk(states, rows)
    requires row.fact.kind == WorkerResult && OtherReceipt(rows, row.fact.executionId, row.fact.receiptDigest) ==>
               Flagged(states, row.fact.executionId)
    ensures ReceiptsOk(states, rows + [row])
  {
    forall a, b | a in rows + [row] && b in rows + [row] && Disagree(a, b)
      ensures Flagged(states, a.fact.executionId)
    {
      if a !in rows || b !in rows {
        assert (if a in rows then a else b) in rows;
        assert IsResult(if a in rows then a else b, row.fact.executionId);
      }
    }
  }

  lemma RaisedFlagsKeepReceipts(states: map<Uuid, ObservationState>, after: map<Uuid, ObservationState>, rows: seq<Row>)
    requires ReceiptsOk(states, rows) && forall e :: Flagged(states, e) ==> Flagged(after, e)
    ensures ReceiptsOk(after, rows)
  {
  }

  lemma InsertKeepsBudget(states: map<Uuid, ObservationState>, after: map<Uuid, ObservationState>, rows: seq<Row>,
                          row: Row)
    requires BudgetOk(states, rows) && row.fact.executionId in states
    requires var e := row.fact.executionId;
             after == if row.slot.Some? then states
                      else states[e := states[e].(ordinaryCount := states[e].ordinaryCount + 1)]
    requires row.slot.None? ==> states[row.fact.executionId].ordinaryCount < ORDINARY_LIMIT
    ensures BudgetOk(after, rows + [row])
  {
    forall x | x in after ensures after[x].ordinaryCount == Ordinary(rows + [row], x) <= ORDINARY_LIMIT {
      OrdinaryOfInsert(rows, row, x);
    }
  }

  /** Raising a flag or a counter of one execution disturbs nothing. */
  lemma FlagKeepsCore(db: Ledger, e: Uuid, s: ObservationState, now: Time)
    requires CoreOk(db, now) && e in db.states
    requires s.ordinaryCount == db.states[e].ordinaryCount && (db.states[e].conflict ==> s.conflict)
    ensures CoreOk(SetState(db, e, s), now)
  {
    hide IntentsOk, KeysOk, FactsOk, Ascending, RowKeysOk, ChainOk, AcceptancesOk, Ordinary, Disagree,
         StopsOk, IntentDatesOk, ClaimDatesOk, AcceptanceDatesOk;
  }

  lemma InsertKeepsTables(db: Ledger, after: Ledger, row: Row)
    requires TablesOk(db) && FactOk(db.intents, db.claims, row.fact)
    requires after == db.(states := after.states, rows := db.rows + [row], nextRow := db.nextRow + 1)
    requires after.states.Keys == db.states.Keys
    ensures TablesOk(after)
  {
    hide IntentsOk, KeysOk, FactOk;
  }

  lemma InsertKeepsDates(db: Ledger, after: Ledger, row: Row, now: Time)
    requires DatesOk(db, now)
    requires after == db.(states := after.states, rows := db.rows + [row], nextRow := db.nextRow + 1)
    requires row.insertedAt == now && (row.fact.kind == ResponseAccepted ==> !Stopped(db, row.fact.runId))
    ensures DatesOk(after, now)
  {
    hide StopsOk, IntentDatesOk, ClaimDatesOk;
  }

  lemma InsertKeepsRows(db: Ledger, after: Ledger, row: Row)
    requires RowsOk(db) && Landable(db, row.fact) && row.fact.executionId in db.states
    requires row.seqNo == db.nextRow && SlotFits(row.slot, row.fact.kind)
    requires row.slot.Some? ==> !SlotTaken(db.rows, row.fact.executionId, row.slot.value)
    requires row.slot.None? ==> db.states[row.fact.executionId].ordinaryCount < ORDINARY_LIMIT
    requires var e := row.fact.executionId;
             after == db.(states := if row.slot.Some? then db.states
                                    else db.states[e := db.states[e].(ordinaryCount := db.states[e].ordinaryCount + 1)],
                          rows := db.rows + [row], nextRow := db.nextRow + 1)
    ensures RowsOk(after)
  {
    hide FactOk, Ascending, RowKeysOk, ChainOk, AcceptancesOk, BudgetOk, ReceiptsOk, OtherReceipt, IdTaken, SlotTaken,
         IsResult;
    InsertKeepsKeys(db.rows, row, db.nextRow);
    InsertKeepsAccepted(db.intents, db.rows, row);
    RaisedFlagsKeepReceipts(db.states, after.states, db.rows);
    InsertKeepsReceipts(after.states, db.rows, row);
    InsertKeepsBudget(db.states, after.states, db.rows, row);
  }

  lemma LandHasEffect(db: Ledger, fact: Observation, wanted: Option<Slot>, now: Time)
    requires fact.executionId in db.states
    ensures AppendEffect(db, Land(db, fact, wanted, now).0, fact, now)
  {
    hide SlotTaken;
  }

  lemma LandKeepsCore(db: Ledger, fact: Observation, wanted: Option<Slot>, now: Time)
    requires CoreOk(db, now) && Landable(db, fact) && fact.executionId in db.states && SlotFits(wanted, fact.kind)
    ensures CoreOk(Land(db, fact, wanted, now).0, now)
  {
    hide TablesOk, RowsOk, DatesOk, FactOk, SlotTaken, OtherReceipt, IdTaken;
    var e := fact.executionId;
    var s := db.states[e];
    var slot := if wanted.Some? && SlotTaken(db.rows, e, wanted.value) then None else wanted;
    if slot.None? && s.ordinaryCount >= ORDINARY_LIMIT {
      FlagKeepsCore(db, e, s.(overflow := true, overflowCount := Saturate(s.overflowCount)), now);
    } else {
      var after := Land(db, fact, wanted, now).0;
      var row := Row(db.nextRow, now, slot, fact);
      InsertKeepsTables(db, after, row);
      InsertKeepsDates(db, after, row, now);
      InsertKeepsRows(db, after, row);
    }
  }

  lemma ReplayKeepsCore(db: Ledger, fact: Observation, now: Time)
    requires CoreOk(db, now) && fact.executionId in db.states
    ensures CoreOk(Replay(db, fact).0, now) && AppendEffect(db, Replay(db, fact).0, fact, now)
  {
    hide CoreOk, Recorded;
    var e := fact.executionId;
    FlagKeepsCore(db, e, db.states[e].(duplicateCount := Saturate(db.states[e].duplicateCount)), now);
    FlagKeepsCore(db, e, MarkConflict(db.states[e], fact), now);
  }

  lemma AgentAppendKeepsCore(db: Ledger, intent: Intent, fact: Observation, keyed: bool, now: Time)
    requires CoreOk(db, now)
    requires intent.envelope.executionId in db.intents && db.intents[intent.envelope.executionId] == intent
    requires AgentRefusal(db, intent, fact, keyed).None?
    requires fact.kind == ResponseAccepted ==> Acceptable(db, fact)
    ensures AppendEffect(db, AgentAppend(db, intent, fact, keyed, now).db, fact, now)
    ensures CoreOk(AgentAppend(db, intent, fact, keyed, now).db, now)
  {
    hide CoreOk, Replay, Land, AppendEffect, IdTaken, OtherReceipt, Acceptable;
    if IdTaken(db.rows, fact.observationId) {
      ReplayKeepsCore(db, fact, now);
    } else {
      assert Landable(db, fact);
      LandHasEffect(db, fact, Reserved(fact.kind), now);
      LandKeepsCore(db, fact, Reserved(fact.kind), now);
    }
  }

  lemma EffectAfterFlag(db: Ledger, flagged: Ledger, after: Ledger, fact: Observation, now: Time)
    requires flagged == db.(states := flagged.states) && flagged.states.Keys == db.states.Keys
    requires forall e :: Flagged(db.states, e) ==> Flagged(flagged.states, e)
    requires AppendEffect(flagged, after, fact, now)
    ensures AppendEffect(db, after, fact, now)
  {
  }

  lemma WorkerAppendKeepsCore(db: Ledger, intent: Intent, fact: Observation, keyed: bool, now: Time)
    requires CoreOk(db, now)
    requires intent.envelope.executionId in db.intents && db.intents[intent.envelope.executionId] == intent
    requires WorkerRefusal(db, intent, fact, keyed).None?
    ensures AppendEffect(db, WorkerAppend(db, intent, fact, keyed, now).db, fact, now)
    ensures CoreOk(WorkerAppend(db, intent, fact, keyed, now).db, now)
  {
    hide Replay, Land, AppendEffect, IdTaken, FirstResult, OtherReceipt, CoreOk;
    var e := fact.executionId;
    if IdTaken(db.rows, fact.observationId) {
      ReplayKeepsCore(db, fact, now);
    } else {
      assert ReceiptsOk(db.states, db.rows) by { CoreHasReceipts(db, now); }
      FirstResultDecides(db, e, fact.receiptDigest);
      var first := FirstResult(db.rows, e);
      if fact.kind == WorkerResult && first.Some? && first.value.fact.receiptDigest != fact.receiptDigest {
        var flagged := SetState(db, e, MarkConflict(db.states[e], fact));
        FlagKeepsCore(db, e, MarkConflict(db.states[e], fact), now);
        LandHasEffect(flagged, fact, Some(ConflictSlot), now);
        LandKeepsCore(flagged, fact, Some(ConflictSlot), now);
        EffectAfterFlag(db, flagged, Land(flagged, fact, Some(ConflictSlot), now).0, fact, now);
      } else {
        LandHasEffect(db, fact, Reserved(fact.kind), now);
        LandKeepsCore(db, fact, Reserved(fact.kind), now);
      }
    }
  }

  lemma CoreHasReceipts(db: Ledger, now: Time)
    requires CoreOk(db, now)
    ensures ReceiptsOk(db.states, db.rows)
  {
  }
}
