/** Paged recovery reads over the ledger: the lists they page are ordered, and an execution's
    observations only ever grow at their end while it is retained. */
module RecoveryReads {
  import opened Basics
  import opened ExecutionProtocol
  import opened Ledger
  import opened LedgerInvariants
  import opened LedgerHistory
  import opened LedgerTheorems
  import opened Cursor
  import opened Paging
  import opened Projection

  // ---- Observations -----------------------------------------------------------------------

  lemma LandGrows(db: Ledger, fact: Observation, wanted: Option<Slot>, now: Time)
    requires fact.executionId in db.states
    ensures db.rows <= Land(db, fact, wanted, now).0.rows && db.rows <= Replay(db, fact).0.rows
  {
    hide SlotTaken, Recorded;
  }

  lemma AgentAppendGrows(db: Ledger, intent: Intent, fact: Observation, keyed: bool, now: Time)
    ensures db.rows <= AgentAppend(db, intent, fact, keyed, now).db.rows
  {
    hide Land, Replay, ValidateObservation, IdTaken;
    if AgentRefusal(db, intent, fact, keyed).None? { LandGrows(db, fact, Reserved(fact.kind), now); }
  }

  lemma WorkerAppendGrows(db: Ledger, intent: Intent, fact: Observation, keyed: bool, now: Time)
    ensures db.rows <= WorkerAppend(db, intent, fact, keyed, now).db.rows
  {
    hide Land, Replay, ValidateObservation, IdTaken, FirstResult;
    if WorkerRefusal(db, intent, fact, keyed).None? {
      LandGrows(db, fact, Reserved(fact.kind), now);
      LandGrows(SetState(db, fact.executionId, MarkConflict(db.states[fact.executionId], fact)), fact,
                Some(ConflictSlot), now);
    }
  }

  lemma AgentOpsGrow(db: Ledger, op: Op, now: Time)
    requires op.StopRunOp? || op.AcceptOp?
    ensures db.rows <= Apply(db, op, now).rows
  {
    hide AgentAppend, ValidateRequest, ValidateObservation, CheckOriginal, Recorded, STOP_REASONS;
    match op
    case StopRunOp(cfg, r, s, o, reason, note) =>
      if StopRefusal(db, cfg, r, s, o, note).None? && note.Some? {
        AgentAppendGrows(db, db.intents[note.value.envelope.executionId], note.value.fact, cfg.keyed, now);
      }
    case AcceptOp(cfg, e, original, id, c) =>
      if AcceptRefusal(db, cfg, e, original, id, c).None? {
        AgentAppendGrows(db, db.intents[e.executionId], AcceptanceFact(e, original, id, c), cfg.keyed, now);
      }
  }

  lemma WorkerOpsGrow(db: Ledger, op: Op, now: Time)
    requires op.ClaimOp? || op.ReportOp? || op.WorkerStopOp?
    ensures db.rows <= Apply(db, op, now).rows
  {
    hide WorkerAppend, ValidateRequest, CallTaken, FreshClaimRefusal, STOP_REASONS;
    match op
    case ClaimOp(cfg, e, q, owner, id) =>
      if ValidateRequest(e, cfg.keyed).None? && ClaimIdentityRefusal(db, e).None? {
        var intent := db.intents[e.executionId];
        WorkerAppendGrows(db, intent, DuplicateFact(e, intent, id, q), cfg.keyed, now);
        WorkerAppendGrows(InsertClaim(db, e.executionId, owner, now), intent, ClaimFact(e, intent, id, q, owner),
                          cfg.keyed, now);
      }
    case ReportOp(cfg, e, fact, stop) =>
      if Registered(db, e) { WorkerAppendGrows(db, db.intents[e.executionId], fact, cfg.keyed, now); }
    case WorkerStopOp(cfg, e, fact, reason) =>
      if Registered(db, e) { WorkerAppendGrows(db, db.intents[e.executionId], fact, cfg.keyed, now); }
  }

  lemma {:induction false} RowsOfGrows(rows: seq<Row>, after: seq<Row>, e: Uuid)
    requires rows <= after
    ensures RowsOf(rows, e) <= RowsOf(after, e)
  {
    if |after| > |rows| {
      RowsOfGrows(rows, after[..|after| - 1], e);
    } else {
      assert rows == after;
    }
  }

  /** No transaction removes, reorders or inserts before a row of a retained execution. */
  lemma ApplyGrows(db: Ledger, op: Op, now: Time, e: Uuid)
    requires InRetention(db.intents, e, now)
    ensures RowsOf(db.rows, e) <= RowsOf(Apply(db, op, now).rows, e)
  {
    hide StopRun, Accept, ClaimDispatch, Finish, FreshRefusal, CallTaken, ValidateRequest, Keep, RowsOf;
    if op.ForgetOp? {
      if Forgettable(db, op.gone, now) { KeptRows(db.rows, op.gone, e); }
    } else {
      if op.StopRunOp? || op.AcceptOp? { AgentOpsGrow(db, op, now); }
      if op.ClaimOp? || op.ReportOp? || op.WorkerStopOp? { WorkerOpsGrow(db, op, now); }
      RowsOfGrows(db.rows, Apply(db, op, now).rows, e);
    }
  }

  lemma {:induction false} PlayGrows(db: Ledger, events: seq<Event>, now: Time, end: Time, e: Uuid)
    requires LedgerOk(db, now) && Timely(events, now, end) && InRetention(db.intents, e, end)
    ensures RowsOf(db.rows, e) <= RowsOf(Play(db, events).rows, e)
  {
    hide LedgerOk, Apply, RowsOf, Later;
    if events != [] {
      var last := events[|events| - 1];
      var before := events[..|events| - 1];
      PlayGrows(db, before, now, last.at, e);
      PlayKeeps(db, before, now, last.at);
      assert InRetention(Play(db, before).intents, e, last.at) by {
        StaysInRetention(db, Play(db, before), last.at, e);
      }
      ApplyGrows(Play(db, before), last.op, last.at, e);
    }
  }

  lemma StaysInRetention(db: Ledger, after: Ledger, now: Time, e: Uuid)
    requires Later(db, after, now) && InRetention(db.intents, e, now)
    ensures InRetention(after.intents, e, now)
  {
  }

  lemma {:induction false} RowsOfAscend(rows: seq<Row>, e: Uuid, limit: nat)
    requires Ascending(rows, limit)
    ensures Ascending(RowsOf(rows, e), limit)
  {
    hide Ascending;
    if rows == [] {
      assert RowsOf(rows, e) == rows;
    } else {
      var last := rows[|rows| - 1];
      AscendingParts(rows, limit);
      RowsOfAscend(rows[..|rows| - 1], e, last.seqNo);
      AscendingJoins(RowsOf(rows[..|rows| - 1], e), last, limit);
    }
  }

  lemma AscendingParts(rows: seq<Row>, limit: nat)
    requires rows != [] && Ascending(rows, limit)
    ensures Ascending(rows[..|rows| - 1], rows[|rows| - 1].seqNo) && rows[|rows| - 1].seqNo < limit
  {
  }

  lemma AscendingJoins(rows: seq<Row>, row: Row, limit: nat)
    requires Ascending(rows, row.seqNo) && row.seqNo < limit
    ensures Ascending(rows + [row], limit) && Ascending(rows, limit)
  {
  }

  /** Between two reads of a retained execution its readable observations keep their places and
      only grow at the end, in position order: what a walk over their pages relies on. */
  lemma ObservationsOnlyGrow(db: Ledger, now: Time, events: seq<Event>, end: Time, e: Uuid)
    requires Reachable(db, now) && Timely(events, now, end) && InRetention(db.intents, e, end)
    requires Play(db, events).nextRow <= POSITION_LIMIT
    ensures var after := Play(db, events);
      && e in after.intents
      && var earlier := ReadableRows(Stored(db, e), db.intents[e], ClaimOf(db, e), true);
         var view := ReadableRows(Stored(after, e), after.intents[e], ClaimOf(after, e), true);
         && earlier <= view && view == RowsOf(after.rows, e) && Ordered(view, Positions())
  {
    hide Play, Reachable, RowsOf, Stored, ReadableRows;
    var after := Play(db, events);
    ReachableIsOk(db, now);
    PlayKeeps(db, events, now, end);
    ReachableContinues(db, now, events, end);
    StoredIsEverything(db, now, e);
    StoredIsEverything(after, end, e);
    EveryRowIsReadable(db, now, e);
    EveryRowIsReadable(after, end, e);
    PlayGrows(db, events, now, end, e);
    RowsOfAscend(after.rows, e, after.nextRow);
  }

  /** One owner read of an execution's observations: the ledger and instant it saw, the token sent, and
      what it answered. */
  datatype Read = Read(db: Ledger, at: Time, token: Option<string>, items: seq<Row>, next: Option<string>)

  predicate OwnedBy(db: Ledger, e: Uuid, sessionId: string, ownerUserId: string) {
    && e in db.intents && db.intents[e].envelope.runId in db.runs
    && var run := db.runs[db.intents[e].envelope.runId]; run.sessionId == sessionId && run.ownerUserId == ownerUserId
  }

  /** The owner's read: decode the token of this scope, project, and mint the next token from the
      position returned. `None` is what anyone but the owner is told. */
  method OwnerRecovery(db: Ledger, at: Time, e: Uuid, mac: Mac, sessionId: string, ownerUserId: string,
                       token: Option<string>)
    returns (r: Result<Option<Read>>)
    requires MacOk(mac)
    ensures var scope := Observations(sessionId, ownerUserId, e);
      && (token.Some? && Decode(mac, scope, token.value).Err? ==> r == Err(BadRequest))
      && (r.Ok? ==> (r.value.Some? <==> OwnedBy(db, e, sessionId, ownerUserId)))
      && (r.Ok? && r.value.Some? ==>
            var read := r.value.value;
            read.db == db && read.at == at && read.token == token && Projected(read, e, mac, scope))
      && (OwnedBy(db, e, sessionId, ownerUserId) && ReadRefusal(db, e, true).None? ==>
            (r.Ok? <==> token.None? || Decode(mac, scope, token.value).Ok?))
  {
    hide Decode, Encode, PageOf, VerdictOf, ReadRefusal, Stored, ReadableRows;
    var scope := Observations(sessionId, ownerUserId, e);
    var after := None;
    if token.Some? {
      var position := Decode(mac, scope, token.value);
      if position.Err? {
        assert position.reason == BadRequest by { DecodeRefusal(mac, scope, token.value); }
        return Err(BadRequest);
      }
      after := Some(position.value);
    }
    if !OwnedBy(db, e, sessionId, ownerUserId) { return Ok(None); }
    var recovery := Project(db, e, at, true, after);
    if recovery.Err? { return Err(recovery.reason); }
    var next := recovery.value.next;
    var minted := if next.Some? then Some(Encode(mac, scope, next.value)) else None;
    r := Ok(Some(Read(db, at, token, recovery.value.page, minted)));
  }

  lemma DecodeRefusal(mac: Mac, scope: Scope, token: string)
    requires MacOk(mac) && Decode(mac, scope, token).Err?
    ensures Decode(mac, scope, token).reason == BadRequest
  {
  }

  /** The answer `Project` gives to a read, with positions spelled as tokens of the scope. */
  ghost predicate Projected(r: Read, e: Uuid, mac: Mac, scope: Scope)
    requires MacOk(mac)
  {
    && e in r.db.intents
    && (r.token.Some? ==> Decode(mac, scope, r.token.value).Ok?)
    && var after := if r.token.Some? then Some(Decode(mac, scope, r.token.value).value) else None;
       var page := PageOf(ReadView(r, e), Positions(), after, PAGE);
       r.items == page.items && r.next == if page.next.Some? then Some(Encode(mac, scope, page.next.value)) else None
  }

  ghost function ReadView(r: Read, e: Uuid): seq<Row>
    requires e in r.db.intents
  {
    ReadableRows(Stored(r.db, e), r.db.intents[e], ClaimOf(r.db, e), true)
  }

  /** The ledger of a later read is a continuation of an earlier one's, within the execution's retention. */
  ghost predicate Continues(earlier: Read, later: Read, e: Uuid) {
    && InRetention(earlier.db.intents, e, later.at)
    && exists events :: Timely(events, earlier.at, later.at) && later.db == Play(earlier.db, events)
  }

  /** A reader who starts without a token and follows each returned one, while the ledger goes on. */
  ghost predicate ReadWalk(trail: seq<Read>, e: Uuid, mac: Mac, scope: Scope)
    requires MacOk(mac)
  {
    trail != [] ==>
      var last := trail[|trail| - 1];
      var before := trail[..|trail| - 1];
      && Projected(last, e, mac, scope) && ReadWalk(before, e, mac, scope) && last.db.nextRow <= POSITION_LIMIT
      && if before == [] then
           last.token.None? && Reachable(last.db, last.at) && InRetention(last.db.intents, e, last.at)
         else
           var previous := before[|before| - 1];
           Continues(previous, last, e) && previous.next.Some? && last.token == previous.next
  }

  ghost function Visits(trail: seq<Read>, e: Uuid): seq<Visit<Row>>
    requires forall k :: 0 <= k < |trail| ==> e in trail[k].db.intents
  {
    if trail == [] then []
    else
      var r := trail[|trail| - 1];
      Visits(trail[..|trail| - 1], e) + [Visit(ReadView(r, e), PAGE, r.token, r.items, r.next)]
  }

  lemma {:induction false} VisitsHaveSize(trail: seq<Read>, e: Uuid)
    requires forall k :: 0 <= k < |trail| ==> e in trail[k].db.intents
    ensures |Visits(trail, e)| == |trail| && forall k :: 0 <= k < |trail| ==> Visits(trail, e)[k].size == 20
  {
    if trail != [] { VisitsHaveSize(trail[..|trail| - 1], e); }
  }

  lemma {:induction false} ReadsKnowTheExecution(trail: seq<Read>, e: Uuid, mac: Mac, scope: Scope)
    requires MacOk(mac) && ReadWalk(trail, e, mac, scope)
    ensures forall k :: 0 <= k < |trail| ==> e in trail[k].db.intents
  {
    hide Reachable, Stored, ReadableRows, PageOf, Decode, Encode, Continues, MacOk;
    if trail != [] { ReadsKnowTheExecution(trail[..|trail| - 1], e, mac, scope); }
  }

  lemma FirstReadIsOrdered(r: Read, e: Uuid)
    requires Reachable(r.db, r.at) && InRetention(r.db.intents, e, r.at) && r.db.nextRow <= POSITION_LIMIT
    ensures ReadView(r, e) == RowsOf(r.db.rows, e) && Ordered(ReadView(r, e), Positions())
  {
    hide Reachable, RowsOf, Stored, ReadableRows, Ordered;
    assert Play(r.db, []) == r.db;
    ObservationsOnlyGrow(r.db, r.at, [], r.at, e);
  }

  lemma NextReadGrows(earlier: Read, later: Read, e: Uuid)
    requires Reachable(earlier.db, earlier.at) && Continues(earlier, later, e) && later.db.nextRow <= POSITION_LIMIT
    ensures Reachable(later.db, later.at) && e in later.db.intents
    ensures ReadView(earlier, e) <= ReadView(later, e) && ReadView(later, e) == RowsOf(later.db.rows, e)
    ensures Ordered(ReadView(later, e), Positions())
  {
    hide Reachable, Play, RowsOf, Stored, ReadableRows, Ordered;
    var events :| Timely(events, earlier.at, later.at) && later.db == Play(earlier.db, events);
    ReachableContinues(earlier.db, earlier.at, events, later.at);
    ObservationsOnlyGrow(earlier.db, earlier.at, events, later.at, e);
  }

  /** A reader's answers are a walk over the growing list of the execution's observations. */
  lemma {:induction false} ReadsAreAWalk(trail: seq<Read>, e: Uuid, mac: Mac, scope: Scope)
    requires MacOk(mac) && ReadWalk(trail, e, mac, scope) && trail != []
    requires forall k :: 0 <= k < |trail| ==> e in trail[k].db.intents
    ensures Walk(Visits(trail, e), mac, scope, Positions()) && |Visits(trail, e)| == |trail|
    ensures var last := trail[|trail| - 1];
      && Reachable(last.db, last.at) && ReadView(last, e) == RowsOf(last.db.rows, e)
      && Visits(trail, e)[|trail| - 1] == Visit(ReadView(last, e), PAGE, last.token, last.items, last.next)
  {
    hide Reachable, RowsOf, ReadView, Ordered, Answered, Continues, MacOk;
    var last := trail[|trail| - 1];
    var before := trail[..|trail| - 1];
    if before == [] {
      FirstReadIsOrdered(last, e);
    } else {
      ReadsAreAWalk(before, e, mac, scope);
      NextReadGrows(before[|before| - 1], last, e);
    }
    var visits := Visits(trail, e);
    assert visits[..|visits| - 1] == Visits(before, e);
    ProjectionAnswers(last, e, mac, scope);
  }

  lemma ProjectionAnswers(r: Read, e: Uuid, mac: Mac, scope: Scope)
    requires MacOk(mac) && Projected(r, e, mac, scope) && Ordered(ReadView(r, e), Positions())
    ensures Answered(Visit(ReadView(r, e), PAGE, r.token, r.items, r.next), mac, scope, Positions())
  {
    hide PageOf, Decode, Encode, Stored, ReadableRows, Ordered;
  }

  /** Following cursors to the end serves every observation of the execution exactly once and in order,
      as the last read's ledger has them, in pages of twenty and so within four reads. */
  lemma ObservationPagesServeEverything(trail: seq<Read>, e: Uuid, mac: Mac, scope: Scope)
    requires MacOk(mac) && ReadWalk(trail, e, mac, scope) && trail != [] && trail[|trail| - 1].next.None?
    ensures forall k :: 0 <= k < |trail| ==> e in trail[k].db.intents
    ensures var rows := RowsOf(trail[|trail| - 1].db.rows, e);
      Served(Visits(trail, e)) == rows && (|trail| - 1) * 20 <= |rows| <= 70 && |trail| <= 4
  {
    hide ReadWalk, Walk, Served, Reachable, RowsOf, ReadView, Visits;
    ReadsKnowTheExecution(trail, e, mac, scope);
    ReadsAreAWalk(trail, e, mac, scope);
    WalkServesEverything(Visits(trail, e), mac, scope, Positions());
    VisitsHaveSize(trail, e);
    WalkFillsItsPages(Visits(trail, e), mac, scope, Positions(), 20);
    ReaderSeesEveryRow(trail[|trail| - 1].db, trail[|trail| - 1].at, e);
  }

  // ---- Executions of one owner ------------------------------------------------------------

  ghost predicate Owned(db: Ledger, i: Intent, sessionId: string, ownerUserId: string) {
    && i.envelope.executionId in db.intents && db.intents[i.envelope.executionId] == i
    && i.envelope.runId in db.runs
    && db.runs[i.envelope.runId].sessionId == sessionId && db.runs[i.envelope.runId].ownerUserId == ownerUserId
  }

  function Registration(): Intent -> nat {
    (i: Intent) => i.seqNo
  }

  /** The owner's executions in registration order, each once. */
  ghost predicate Listing(list: seq<Intent>, db: Ledger, sessionId: string, ownerUserId: string) {
    && (forall i :: i in list <==> Owned(db, i, sessionId, ownerUserId))
    && (forall j, k :: 0 <= j < k < |list| ==> list[j].seqNo < list[k].seqNo)
  }

  /** Paging the owner's executions of an unchanging ledger to the end serves every owned
      execution once, in registration order. */
  lemma OwnerPagesServeEverything(db: Ledger, now: Time, sessionId: string, ownerUserId: string, list: seq<Intent>,
                                  visits: seq<Visit<Intent>>, mac: Mac)
    requires Reachable(db, now) && Listing(list, db, sessionId, ownerUserId) && MacOk(mac)
    requires Walk(visits, mac, Executions(sessionId, ownerUserId), Registration())
    requires visits != [] && visits[|visits| - 1].view == list && visits[|visits| - 1].next.None?
    ensures forall i :: i in Served(visits) <==>
              i.envelope.executionId in db.intents && db.intents[i.envelope.executionId] == i
              && i.envelope.sessionId == sessionId && i.envelope.ownerUserId == ownerUserId
    ensures forall j, k :: 0 <= j < k < |Served(visits)| ==> Served(visits)[j].seqNo < Served(visits)[k].seqNo
  {
    hide Reachable, Walk, Served, ValidateRequest, RowsOk, DatesOk, FactsOk, KeysOk, RefusalsOk;
    WalkServesEverything(visits, mac, Executions(sessionId, ownerUserId), Registration());
    ReachableIsOk(db, now);
    forall i: Intent | i.envelope.executionId in db.intents && db.intents[i.envelope.executionId] == i
      ensures IntentOk(db.runs, i, i.envelope.executionId, db.nextIntent)
    {
    }
  }
}
