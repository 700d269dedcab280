/** The ledger's promises, over every reachable ledger and every continuation of it. */
module LedgerTheorems {
  import opened Basics
  import opened ExecutionProtocol
  import opened Ledger
  import opened LedgerInvariants
  import opened LedgerHistory

  // ---- One unresolved intent per run ------------------------------------------------------

  /** Of two intents of one run, the earlier has its accepted worker result: a run never holds
      two intents without one. */
  lemma OnlyTheLatestIntentIsOpen(db: Ledger, now: Time, i: Uuid, j: Uuid)
    requires Reachable(db, now)
    requires i in db.intents && j in db.intents && i != j
    requires db.intents[i].envelope.runId == db.intents[j].envelope.runId
    ensures db.intents[i].seqNo != db.intents[j].seqNo
    ensures Accepted(db.rows, if db.intents[i].seqNo < db.intents[j].seqNo then i else j)
  {
    hide Accepted, ValidateRequest, ValidateObservation;
    ReachableIsOk(db, now);
    assert Precedes(db.intents[i], db.intents[j]) || Precedes(db.intents[j], db.intents[i]);
  }

  /** An acceptance rests on a stored result of the claim's owner, with the same receipt. */
  lemma AcceptanceRestsOnOwnedResult(db: Ledger, now: Time, a: Row)
    requires Reachable(db, now) && a in db.rows && a.fact.kind == ResponseAccepted
    ensures var e := a.fact.executionId;
      && e in db.claims
      && exists r :: r in db.rows && IsResult(r, e) && r.fact.receiptDigest == a.fact.receiptDigest
                  && r.fact.claimOwnerId == Some(db.claims[e].ownerId)
  {
    hide ValidateRequest, ValidateObservation, IntentsOk, KeysOk;
    ReachableIsOk(db, now);
    var r :| r in db.rows && IsResult(r, a.fact.executionId) && r.fact.receiptDigest == a.fact.receiptDigest;
    assert FactOk(db.intents, db.claims, r.fact);
  }

  // ---- A stop is final --------------------------------------------------------------------

  /** After a durable stop no continuation gives the run an intent, a claim or an acceptance it
      did not have, and the stop itself never changes. */
  lemma StopIsFinal(db: Ledger, now: Time, events: seq<Event>, end: Time, r: Uuid)
    requires Reachable(db, now) && Stopped(db, r) && Timely(events, now, end)
    ensures var after := Play(db, events);
      && Stopped(after, r) && after.runs[r].stop == db.runs[r].stop
      && (forall i :: i in after.intents && after.intents[i].envelope.runId == r ==>
            i in db.intents && db.intents[i] == after.intents[i])
      && (forall i :: i in after.claims && i in after.intents && after.intents[i].envelope.runId == r ==>
            i in db.claims && db.claims[i] == after.claims[i])
      && (forall row :: row in after.rows && row.fact.kind == ResponseAccepted && row.fact.runId == r ==>
            row in db.rows)
  {
    hide LedgerOk, Play;
    ReachableIsOk(db, now);
    PlayKeeps(db, events, now, end);
  }

  /** Nothing of a stopped run that could authorize anything is dated after its stop. */
  lemma NothingFollowsTheStop(db: Ledger, now: Time, i: Uuid)
    requires Reachable(db, now) && i in db.intents && Stopped(db, db.intents[i].envelope.runId)
    ensures var at := db.runs[db.intents[i].envelope.runId].stop.value.at;
      && db.intents[i].registeredAt <= at <= now
      && (i in db.claims ==> db.claims[i].claimedAt <= at)
      && (forall row :: row in db.rows && IsAcceptance(row, i) ==> row.insertedAt <= at)
  {
    hide ValidateRequest, RowsOk, KeysOk;
    ReachableIsOk(db, now);
    forall row | row in db.rows && IsAcceptance(row, i) ensures row.fact.runId == db.intents[i].envelope.runId {
      assert FactOk(db.intents, db.claims, row.fact);
    }
  }

  // ---- Refusals exclude claims ------------------------------------------------------------

  /** A recorded pre-dispatch refusal and a claim never meet: not in this ledger, and not in any
      later one. */
  lemma RefusalExcludesClaimForever(db: Ledger, now: Time, events: seq<Event>, end: Time, row: Row)
    requires Reachable(db, now) && row in db.rows && row.fact.kind == PreDispatchRefused && Timely(events, now, end)
    ensures row.fact.executionId !in db.claims
    ensures var after := Play(db, events);
      !(row.fact.executionId in after.claims && row.fact.executionId in after.intents
        && after.intents[row.fact.executionId].envelope.runId == row.fact.runId)
  {
    hide CoreOk, Play;
    ReachableIsOk(db, now);
    StopIsFinal(db, now, events, end, row.fact.runId);
  }

  // ---- Budgets ----------------------------------------------------------------------------

  function RowsOf(rows: seq<Row>, e: Uuid): seq<Row> {
    if rows == [] then []
    else if rows[|rows| - 1].fact.executionId == e then RowsOf(rows[..|rows| - 1], e) + [rows[|rows| - 1]]
    else RowsOf(rows[..|rows| - 1], e)
  }

  lemma {:induction false} RowsOfIsFilter(rows: seq<Row>, e: Uuid, row: Row)
    ensures row in RowsOf(rows, e) <==> row in rows && row.fact.executionId == e
  {
    if rows != [] {
      RowsOfIsFilter(rows[..|rows| - 1], e, row);
      assert row in rows <==> row in rows[..|rows| - 1] || row == rows[|rows| - 1];
    }
  }

  const EITHER: set<Source> := {Agent, Worker}

  predicate Of(row: Row, e: Uuid, authors: set<Source>) {
    row.fact.executionId == e && row.fact.source in authors
  }

  function CountBy(rows: seq<Row>, e: Uuid, authors: set<Source>): nat {
    if rows == [] then 0
    else CountBy(rows[..|rows| - 1], e, authors) + if Of(rows[|rows| - 1], e, authors) then 1 else 0
  }

  function SlotsUsed(rows: seq<Row>, e: Uuid, authors: set<Source>): set<Slot> {
    set row | row in rows && Of(row, e, authors) && row.slot.Some? :: row.slot.value
  }

  lemma SlotsOfInsert(init: seq<Row>, last: Row, e: Uuid, authors: set<Source>)
    requires last !in init && RowKeysOk(init + [last])
    ensures |SlotsUsed(init + [last], e, authors)|
         == |SlotsUsed(init, e, authors)| + (if Of(last, e, authors) && last.slot.Some? then 1 else 0)
  {
    if Of(last, e, authors) && last.slot.Some? {
      assert last in init + [last] && forall row :: row in init ==> row in init + [last];
      assert last.slot.value !in SlotsUsed(init, e, authors);
      assert SlotsUsed(init + [last], e, authors) == SlotsUsed(init, e, authors) + {last.slot.value};
    } else {
      assert SlotsUsed(init + [last], e, authors) == SlotsUsed(init, e, authors);
    }
  }

  lemma {:induction false} RowsAreOrdinaryOrSlotted(rows: seq<Row>, e: Uuid, authors: set<Source>, limit: nat)
    requires Ascending(rows, limit) && RowKeysOk(rows)
    ensures CountBy(rows, e, authors) <= Ordinary(rows, e) + |SlotsUsed(rows, e, authors)|
  {
    hide SlotsUsed;
    if rows != [] {
      var init, last := rows[..|rows| - 1], rows[|rows| - 1];
      assert rows == init + [last];
      assert RowKeysOk(init) by { assert forall row :: row in init ==> row in rows; }
      RowsAreOrdinaryOrSlotted(init, e, authors, limit);
      SlotsOfInsert(init, last, e, authors);
    }
  }

  lemma {:induction false} RowsOfIsCount(rows: seq<Row>, e: Uuid)
    ensures |RowsOf(rows, e)| == CountBy(rows, e, EITHER)
  {
    if rows != [] {
      RowsOfIsCount(rows[..|rows| - 1], e);
      assert rows[|rows| - 1].fact.source.Agent? || rows[|rows| - 1].fact.source.Worker?;
    }
  }

  lemma SixSlots(slots: set<Slot>)
    ensures |slots| <= 6
  {
    var all := {ClaimSlot, ResultSlot, TimeoutSlot, StopSlot, AcceptanceSlot, ConflictSlot};
    forall s | s in slots ensures s in all {
      assert s.ClaimSlot? || s.ResultSlot? || s.TimeoutSlot? || s.StopSlot? || s.AcceptanceSlot? || s.ConflictSlot?;
    }
    SubsetIsSmaller(slots, all);
  }

  lemma {:induction false} SubsetIsSmaller<T>(a: set<T>, b: set<T>)
    requires a <= b
    ensures |a| <= |b|
  {
    if a != {} {
      var x :| x in a;
      SubsetIsSmaller(a - {x}, b - {x});
    }
  }

  /** An execution never holds more rows than the recovery reader reads: at most 64 ordinary
      ones, counted exactly, and one per reserved slot. */
  lemma ReaderSeesEveryRow(db: Ledger, now: Time, e: Uuid)
    requires Reachable(db, now) && e in db.intents
    ensures e in db.states && db.states[e].ordinaryCount == Ordinary(db.rows, e) <= 64
    ensures |RowsOf(db.rows, e)| <= 70 < READ_LIMIT
    ensures forall a, b ::
              a in db.rows && b in db.rows && a.fact.executionId == e == b.fact.executionId && a.slot.Some?
              && a.slot == b.slot
              ==> a == b
  {
    hide ValidateRequest, ValidateObservation, ReceiptsOk, ChainOk, AcceptancesOk, DatesOk, IntentsOk, KeysOk, FactsOk;
    ReachableIsOk(db, now);
    RowsOfIsCount(db.rows, e);
    RowsAreOrdinaryOrSlotted(db.rows, e, EITHER, db.nextRow);
    SixSlots(SlotsUsed(db.rows, e, EITHER));
  }

  /** The agent's own rows of an execution never exceed 67: the ordinary budget and the three slots
      reserved for kinds the agent may author. */
  lemma AgentRowsAreBounded(db: Ledger, now: Time, e: Uuid)
    requires Reachable(db, now) && e in db.intents
    ensures CountBy(db.rows, e, {Agent}) <= 67
  {
    hide ValidateRequest, ReceiptsOk, ChainOk, AcceptancesOk, DatesOk, IntentsOk, KeysOk, SafeRequestId, Reachable;
    ReachableIsOk(db, now);
    RowsAreOrdinaryOrSlotted(db.rows, e, {Agent}, db.nextRow);
    var three := {TimeoutSlot, StopSlot, AcceptanceSlot};
    forall row | row in db.rows && row.fact.source == Agent && row.slot.Some? ensures row.slot.value in three {
      ValidNamesIntent(row.fact, db.intents[row.fact.executionId].envelope, true);
    }
    SubsetIsSmaller(SlotsUsed(db.rows, e, {Agent}), three);
  }

  /** The four outcomes of an agent append, each told from the ledger before it. */
  lemma AppendOutcomes(db: Ledger, intent: Intent, fact: Observation, keyed: bool, now: Time)
    requires AgentRefusal(db, intent, fact, keyed).None?
    ensures var e := fact.executionId; var step := AgentAppend(db, intent, fact, keyed, now);
      var room := Reserved(fact.kind).Some? && !SlotTaken(db.rows, e, Reserved(fact.kind).value);
      && step.out.Ok?
      && (step.out.value == Identical <==> Recorded(db.rows, fact))
      && (step.out.value == Conflict <==> IdTaken(db.rows, fact.observationId) && !Recorded(db.rows, fact))
      && (step.out.value == Overflow <==>
            !IdTaken(db.rows, fact.observationId) && !room && db.states[e].ordinaryCount >= ORDINARY_LIMIT)
      && (step.out.value == Inserted <==> step.db.rows != db.rows)
      && (step.out.value == Inserted ==>
            |step.db.rows| == |db.rows| + 1 && step.db.rows[..|db.rows|] == db.rows
            && step.db.rows[|db.rows|].fact == fact)
      && (step.out.value == Conflict ==> Conflicted(step.db, e))
  {
    hide ValidateObservation;
    if Recorded(db.rows, fact) {
      assert IdTaken(db.rows, fact.observationId);
    }
  }

  /** A counter of the state table, which stops at its largest value. */
  function Count(n: nat): nat {
    if n >= 2147483647 then n else n + 1
  }

  /** What each outcome leaves in the execution's state: a repetition is counted, a conflict flagged with
      its first digest kept, an overflow flagged and counted, an insertion charged to the budget when it
      takes no slot. */
  lemma AppendLeaves(db: Ledger, intent: Intent, fact: Observation, keyed: bool, now: Time)
    requires AgentRefusal(db, intent, fact, keyed).None?
    ensures var e := fact.executionId;
      var step := AgentAppend(db, intent, fact, keyed, now);
      var was := db.states[e];
      && step.out.Ok?
      && (step.out.value == Identical ==>
            step.db == db.(states := db.states[e := was.(duplicateCount := Count(was.duplicateCount))]))
      && (step.out.value == Conflict ==>
            var first := if was.firstConflict.None? then Some(Sha256(fact)) else was.firstConflict;
            step.db == db.(states := db.states[e := was.(conflict := true, firstConflict := first)]))
      && (step.out.value == Overflow ==>
            step.db == db.(states := db.states[e := was.(overflow := true, overflowCount := Count(was.overflowCount))]))
      && (step.out.value == Inserted ==>
            exists slot: Option<Slot> ::
              && step.db.rows == db.rows + [Row(db.nextRow, now, slot, fact)] && step.db.nextRow == db.nextRow + 1
              && step.db.states == (if slot.Some? then db.states
                                    else db.states[e := was.(ordinaryCount := was.ordinaryCount + 1)]))
  {
    hide ValidateObservation, IdTaken, SlotTaken, Recorded;
  }

  /** The first acceptance, stop and timeout of an execution always land, however full its
      ordinary budget is. */
  lemma ReservedFactsAlwaysLand(db: Ledger, intent: Intent, fact: Observation, keyed: bool, now: Time)
    requires AgentRefusal(db, intent, fact, keyed).None? && !IdTaken(db.rows, fact.observationId)
    requires fact.kind in {ResponseAccepted, RunStoppedKind, WaitExpiredKind}
    requires !SlotTaken(db.rows, fact.executionId, Reserved(fact.kind).value)
    ensures AgentAppend(db, intent, fact, keyed, now).out == Ok(Inserted)
    ensures AgentAppend(db, intent, fact, keyed, now).db.states == db.states
  {
  }

  // ---- Acknowledged effects ---------------------------------------------------------------

  /** An agent append that is acknowledged as inserted or identical is in the ledger; any other
      leaves the rows as they were. */
  lemma AppendIsDurable(db: Ledger, intent: Intent, fact: Observation, keyed: bool, now: Time)
    ensures var step := AgentAppend(db, intent, fact, keyed, now);
      if step.out in {Ok(Inserted), Ok(Identical)} then Recorded(step.db.rows, fact) else step.db.rows == db.rows
    ensures AgentAppend(db, intent, fact, keyed, now).db.runs == db.runs
  {
    hide ValidateObservation, IdTaken, SlotTaken;
    var step := AgentAppend(db, intent, fact, keyed, now);
    if step.out == Ok(Inserted) {
      assert step.db.rows[|step.db.rows| - 1].fact == fact;
    }
  }

  /** A note that may ride a stop of this run: a valid envelope of the run and a fact of a stop kind. */
  predicate ProperNote(cfg: Config, runId: Uuid, note: Attribution) {
    && ValidateRequest(note.envelope, cfg.keyed).None? && note.envelope.runId == runId
    && note.fact.kind in STOP_KINDS
  }

  /** What keeps a note, and with it the stop, out of the ledger: the intent was never registered, a
      claimed execution is called refused before dispatch, or the fact is not valid for the intent. */
  predicate NoteIsRefused(db: Ledger, cfg: Config, note: Attribution) {
    || !Registered(db, note.envelope)
    || (note.fact.kind == PreDispatchRefused && note.envelope.executionId in db.claims)
    || AgentRefusal(db, db.intents[note.envelope.executionId], note.fact, cfg.keyed).Some?
  }

  /** A stop is refused exactly for a run that is not the caller's or for a note that is improper or
      refused. An attributed stop of an intent that was never registered is among these: then neither
      the fact nor the stop is in the ledger. */
  lemma StopIsRefusedExactlyWhen(db: Ledger, cfg: Config, runId: Uuid, sessionId: string, ownerUserId: string,
                                 reason: Reason, note: Option<Attribution>, now: Time)
    ensures var step := StopRun(db, cfg, runId, sessionId, ownerUserId, reason, note, now);
      && (step.out.Err? <==>
            || CheckRun(db, runId, sessionId, ownerUserId).Some?
            || (note.Some? && (!ProperNote(cfg, runId, note.value) || NoteIsRefused(db, cfg, note.value))))
      && (step.out.Err? ==> step.db == db)
      && (step.out.Err? && note.Some? && ProperNote(cfg, runId, note.value)
          && CheckRun(db, runId, sessionId, ownerUserId).None? ==>
            var e := note.value.envelope.executionId;
            step.out.reason ==
              (if e !in db.intents then RequestMissing
               else if db.intents[e].envelope != note.value.envelope then IdentityConflict
               else if note.value.fact.kind == PreDispatchRefused && e in db.claims then ClaimCommitUnconfirmed
               else AgentRefusal(db, db.intents[e], note.value.fact, cfg.keyed).value))
      && (step.out.Err? && (note.None? || ProperNote(cfg, runId, note.value)) && runId !in db.runs ==>
            step.out.reason == RequestMissing)
  {
    hide ValidateRequest, AgentRefusal, STOP_REASONS, AgentAppend, SetStop;
  }

  /** An acknowledged stop is in the ledger: the run is stopped, its first stop stays, and the
      attributed fact is stored unless its id or the budget keeps it out. */
  lemma StopIsDurable(db: Ledger, cfg: Config, runId: Uuid, sessionId: string, ownerUserId: string, reason: Reason,
                      note: Option<Attribution>, now: Time)
    ensures var step := StopRun(db, cfg, runId, sessionId, ownerUserId, reason, note, now);
      if step.out.Err? then step.db == db
      else
        && Stopped(step.db, runId)
        && (Stopped(db, runId) ==> step.db.runs == db.runs)
        && (!Stopped(db, runId) ==>
              step.db.runs[runId].stop == Some(Stop(now, if reason in STOP_REASONS then reason else ResponseInvalid)))
        && (note.Some? && !IdTaken(db.rows, note.value.fact.observationId) ==>
              || Recorded(step.db.rows, note.value.fact)
              || db.states[note.value.envelope.executionId].ordinaryCount >= ORDINARY_LIMIT)
  {
    hide ValidateRequest, AgentAppend, STOP_REASONS, IdTaken, Recorded, SlotTaken;
    if StopRefusal(db, cfg, runId, sessionId, ownerUserId, note).None? && note.Some? {
      var e := note.value.envelope;
      var intent := db.intents[e.executionId];
      ValidNamesIntent(note.value.fact, e, cfg.keyed);
      AppendIsDurable(db, intent, note.value.fact, cfg.keyed, now);
      if !IdTaken(db.rows, note.value.fact.observationId) {
        FreshAppendLands(db, intent, note.value.fact, cfg.keyed, now);
      }
    }
  }

  lemma FreshAppendLands(db: Ledger, intent: Intent, fact: Observation, keyed: bool, now: Time)
    requires AgentRefusal(db, intent, fact, keyed).None? && !IdTaken(db.rows, fact.observationId)
    ensures db.states[fact.executionId].ordinaryCount < ORDINARY_LIMIT ==>
      AgentAppend(db, intent, fact, keyed, now).out == Ok(Inserted)
  {
    hide ValidateObservation, IdTaken, SlotTaken;
  }

  /** What keeps a worker report out of the ledger: no run, no such intent, a fact that is not valid
      for it, or a stop reason that the `stop_reason` column does not admit for a run it would stop. */
  predicate ReportIsLost(db: Ledger, cfg: Config, e: Envelope, fact: Observation, stopReason: Option<Reason>) {
    || e.runId !in db.runs || !Registered(db, e)
    || WorkerRefusal(db, db.intents[e.executionId], fact, cfg.keyed).Some?
    || (stopReason.Some? && !Stopped(db, e.runId) && stopReason.value !in STOP_REASONS)
  }

  /** A worker report is refused exactly when it is lost, and then changes nothing; an acknowledged
      one is in the ledger, together with its stop if it asked for one. */
  lemma FinishIsDurable(db: Ledger, cfg: Config, e: Envelope, fact: Observation, stopReason: Option<Reason>, now: Time)
    ensures var step := Finish(db, cfg, e, fact, stopReason, now);
      && (step.out.Err? <==> ReportIsLost(db, cfg, e, fact, stopReason))
      && (step.out.Err? ==> step.db == db)
      && (step.out in {Ok(Inserted), Ok(Identical)} ==> Recorded(step.db.rows, fact))
      && (step.out.Ok? && stopReason.Some? ==> Stopped(step.db, e.runId))
      && (step.out.Ok? && stopReason.None? ==> step.db.runs == db.runs)
  {
    hide WorkerAppend, STOP_REASONS, Recorded;
    if e.runId in db.runs && Registered(db, e) {
      WorkerAppendIsDurable(db, db.intents[e.executionId], fact, cfg.keyed, now);
    }
  }

  lemma WorkerAppendIsDurable(db: Ledger, intent: Intent, fact: Observation, keyed: bool, now: Time)
    ensures var step := WorkerAppend(db, intent, fact, keyed, now);
      && (step.out.Err? <==> WorkerRefusal(db, intent, fact, keyed).Some?)
      && (step.out.Err? ==> step.db == db) && step.db.runs == db.runs
      && (step.out in {Ok(Inserted), Ok(Identical)} ==> Recorded(step.db.rows, fact))
  {
    hide WorkerRefusal, IdTaken, SlotTaken, FirstResult;
    var step := WorkerAppend(db, intent, fact, keyed, now);
    assert WorkerRefusal(db, intent, fact, keyed).None? ==> fact.executionId in db.states by {
      WorkerAppendNeedsState(db, intent, fact, keyed);
    }
    if step.out == Ok(Inserted) {
      assert step.db.rows[|step.db.rows| - 1].fact == fact;
    }
  }

  lemma WorkerAppendNeedsState(db: Ledger, intent: Intent, fact: Observation, keyed: bool)
    ensures WorkerRefusal(db, intent, fact, keyed).None? ==> fact.executionId in db.states
  {
  }

  /** The worker's own stop is lost exactly when its report would be, or when it calls a claimed
      execution refused before dispatch. A lost stop leaves neither the stop nor its fact. */
  lemma WorkerStopIsLostExactlyWhen(db: Ledger, cfg: Config, e: Envelope, fact: Observation, reason: Reason, now: Time)
    ensures var step := WorkerStop(db, cfg, e, fact, reason, now);
      && (step.out.Err? <==>
            || (fact.kind == PreDispatchRefused && e.executionId in db.claims)
            || ReportIsLost(db, cfg, e, fact, Some(reason)))
      && (step.out.Err? ==> step.db == db)
      && (step.out.Ok? ==> Stopped(step.db, e.runId))
  {
    hide Finish, ReportIsLost;
    FinishIsDurable(db, cfg, e, fact, Some(reason), now);
  }

  /** A retention sweep leaves nothing of the executions it takes and everything of the others. */
  lemma ForgetTakesWholeExecutions(db: Ledger, gone: set<Uuid>, e: Uuid)
    ensures var after := Forget(db, gone);
      && (e in gone ==> e !in after.intents && e !in after.claims && e !in after.states && RowsOf(after.rows, e) == [])
      && (e !in gone ==>
            && (e in db.intents <==> e in after.intents) && (e in after.intents ==> after.intents[e] == db.intents[e])
            && (e in db.claims <==> e in after.claims) && (e in after.claims ==> after.claims[e] == db.claims[e])
            && RowsOf(after.rows, e) == RowsOf(db.rows, e))
  {
    hide Keep, RowsOf;
    KeptRows(db.rows, gone, e);
  }

  lemma {:induction false} KeptRows(rows: seq<Row>, gone: set<Uuid>, e: Uuid)
    ensures RowsOf(Keep(rows, gone), e) == if e in gone then [] else RowsOf(rows, e)
  {
    if rows != [] { KeptRows(rows[..|rows| - 1], gone, e); }
  }

  /** Registering again answers the first attempt and changes nothing, whatever has happened to the
      run, the window or admission in between, for as long as the intent is retained. */
  lemma RegisterIsIdempotent(db: Ledger, cfg: Config, e: Envelope, attemptId: string, now: Time, events: seq<Event>,
                             end: Time, again: Config, otherAttempt: string)
    requires Reachable(db, now) && Register(db, cfg, e, attemptId, now).out.Ok? && cfg.keyed && again.keyed
    requires Timely(events, now, end) && end < e.expiresAt + RETENTION && SafeRequestId(otherAttempt)
    ensures var first := Register(db, cfg, e, attemptId, now);
      var later := Play(first.db, events);
      Register(later, again, e, otherAttempt, end) == Step(later, first.out)
  {
    hide Reachable, Play, LedgerOk, SafeRequestId, CallTaken, FreshRefusal, ValidateRequest;
    var first := Register(db, cfg, e, attemptId, now);
    ReachableIsOk(db, now);
    RegisterKeeps(db, cfg, e, attemptId, now);
    PlayKeeps(first.db, events, now, end);
    RegisteredHasAttempt(db, cfg, e, attemptId, now);
    assert InRetention(first.db.intents, e.executionId, end);
    StillRegistered(Play(first.db, events), end, e);
  }

  lemma RegisteredHasAttempt(db: Ledger, cfg: Config, e: Envelope, attemptId: string, now: Time)
    requires Register(db, cfg, e, attemptId, now).out.Ok?
    ensures var step := Register(db, cfg, e, attemptId, now);
      Registered(step.db, e) && step.out == Ok(step.db.intents[e.executionId].attemptId)
  {
    hide ValidateRequest, SafeRequestId, CallTaken, FreshRefusal, CheckRun;
  }

  lemma StillRegistered(db: Ledger, now: Time, e: Envelope)
    requires LedgerOk(db, now) && Registered(db, e)
    ensures CheckRun(db, e.runId, e.sessionId, e.ownerUserId).None? && ValidateRequest(e, true).None?
  {
    hide ValidateRequest, RowsOk, DatesOk, RefusalsOk, KeysOk, FactsOk;
    assert IntentOk(db.runs, db.intents[e.executionId], e.executionId, db.nextIntent);
  }
}
