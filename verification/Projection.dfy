/** The recovery projection: what a reader is told about one execution, computed by one pass over
    its observation rows, and how that verdict moves as the ledger grows and time passes. */
module Projection {
  import opened Basics
  import opened ExecutionProtocol
  import opened Ledger
  import opened LedgerInvariants
  import opened LedgerHistory
  import opened LedgerTheorems
  import opened Paging

  datatype DispatchState = NotDispatched | DispatchClaimed | OutcomeUnknown | ResultRecorded

  datatype Verdict = Verdict(
    state: Option<DispatchState>, conflict: bool, receipt: Option<Receipt>, runStopped: bool,
    observeBy: Time, targetVerificationRequired: bool)

  /** `page` is the returned window; the verdict comes from every readable fact. */
  datatype Recovery =
    | NotFound
    | Available(verdict: Verdict, page: seq<Row>, next: Option<nat>, truncated: bool)

  const UNCERTAIN_KINDS: set<Kind> := {WaitExpiredKind, TransportUncertain, ResultPersistenceUnconfirmed}
  const PAGE: nat := 20

  // ---- The reader -------------------------------------------------------------------------

  function ClaimOf(db: Ledger, e: Uuid): Option<Claim> {
    if e in db.claims then Some(db.claims[e]) else None
  }

  /** The checks the reader repeats on every stored row. */
  predicate Readable(fact: Observation, intent: Intent, claim: Option<Claim>, keyed: bool) {
    && ValidateObservation(fact, intent.envelope, keyed).None?
    && fact.attemptId == intent.attemptId
    && (fact.kind in {WorkerResult, ClaimCommitted} ==>
          claim.Some? && fact.claimOwnerId == Some(claim.value.ownerId))
  }

  function ReadableRows(rows: seq<Row>, intent: Intent, claim: Option<Claim>, keyed: bool): seq<Row> {
    if rows == [] then []
    else
      var init := ReadableRows(rows[..|rows| - 1], intent, claim, keyed);
      if Readable(rows[|rows| - 1].fact, intent, claim, keyed) then init + [rows[|rows| - 1]] else init
  }

  function Deadline(intent: Intent, claim: Option<Claim>): Time {
    if claim.Some? then claim.value.observeBy else intent.registeredAt + OBSERVE_WINDOW
  }

  /** The reader's decision, in its order. */
  function Decide(conflict: bool, recorded: bool, uncertain: bool, expired: bool, claimed: bool, refused: bool)
    : Option<DispatchState>
  {
    if conflict then Some(OutcomeUnknown)
    else if recorded then Some(ResultRecorded)
    else if uncertain || expired then Some(OutcomeUnknown)
    else if claimed then Some(DispatchClaimed)
    else if refused then Some(NotDispatched)
    else None
  }

  function Stored(db: Ledger, e: Uuid): seq<Row> {
    var rows := RowsOf(db.rows, e);
    if |rows| <= READ_LIMIT then rows else rows[..READ_LIMIT]
  }

  /** The read's refusals, before it looks at any observation. */
  function ReadRefusal(db: Ledger, e: Uuid, keyed: bool): Option<Reason>
    requires e in db.intents
  {
    var envelope := db.intents[e].envelope;
    if ValidateRequest(envelope, keyed).Some? then ValidateRequest(envelope, keyed)
    else if envelope.runId !in db.runs || e !in db.states then Some(SchemaInvalid)
    else if db.runs[envelope.runId].sessionId != envelope.sessionId
            || db.runs[envelope.runId].ownerUserId != envelope.ownerUserId then Some(IntegrityConflict)
    else None
  }

  ghost predicate Clashing(rows: seq<Row>, intent: Intent, claim: Option<Claim>, keyed: bool) {
    || (exists row :: row in rows && !Readable(row.fact, intent, claim, keyed))
    || (exists a, b :: a in rows && b in rows && Disagree(a, b))
  }

  predicate HasKind(rows: seq<Row>, kinds: set<Kind>) {
    exists row :: row in rows && row.fact.kind in kinds
  }

  function RecordedReceipt(facts: seq<Row>): Option<Receipt> {
    if facts == [] then None
    else if facts[0].fact.kind == WorkerResult then facts[0].fact.receipt
    else RecordedReceipt(facts[1..])
  }

  /** What the stored rows say, without a loop: unreadable or disagreeing rows are a conflict, and
      of the readable ones only their kinds and the one receipt matter. */
  ghost function Judge(rows: seq<Row>, intent: Intent, claim: Option<Claim>, flagged: bool, stopped: bool,
                       now: Time, keyed: bool): Verdict
  {
    var facts := ReadableRows(rows, intent, claim, keyed);
    var conflict := flagged || Clashing(rows, intent, claim, keyed);
    var receipt := if conflict then None else RecordedReceipt(facts);
    var state := Decide(conflict, receipt.Some?, HasKind(facts, UNCERTAIN_KINDS), now >= Deadline(intent, claim),
                        claim.Some?, HasKind(facts, {PreDispatchRefused}) && stopped);
    Verdict(state, conflict, receipt, stopped, Deadline(intent, claim), claim.Some? || state == Some(OutcomeUnknown))
  }

  ghost function VerdictOf(db: Ledger, e: Uuid, now: Time, keyed: bool): Verdict
    requires e in db.intents && ReadRefusal(db, e, keyed).None?
  {
    var intent := db.intents[e];
    Judge(Stored(db, e), intent, ClaimOf(db, e), db.states[e].conflict, db.runs[intent.envelope.runId].stop.Some?,
          now, keyed)
  }

  function Positions(): Row -> nat {
    (row: Row) => row.seqNo
  }

  function ResultDigests(facts: seq<Row>): set<Option<Digest<Receipt>>> {
    set row | row in facts && row.fact.kind == WorkerResult :: row.fact.receiptDigest
  }

  lemma {:induction false} ReadableRowsFilter(rows: seq<Row>, intent: Intent, claim: Option<Claim>, keyed: bool)
    ensures forall row :: row in ReadableRows(rows, intent, claim, keyed) <==>
              row in rows && Readable(row.fact, intent, claim, keyed)
    ensures (forall row :: row in rows ==> Readable(row.fact, intent, claim, keyed)) ==>
              ReadableRows(rows, intent, claim, keyed) == rows
  {
    hide Readable;
    if rows != [] {
      ReadableRowsFilter(rows[..|rows| - 1], intent, claim, keyed);
      assert rows == rows[..|rows| - 1] + [rows[|rows| - 1]];
    }
  }

  lemma {:induction false} RecordedReceiptIsStored(facts: seq<Row>)
    requires forall row :: row in facts ==> ObservationShape(row.fact)
    ensures RecordedReceipt(facts).Some? <==> HasKind(facts, {WorkerResult})
    ensures RecordedReceipt(facts).Some? ==>
              exists row :: row in facts && row.fact.kind == WorkerResult && row.fact.receipt == RecordedReceipt(facts)
  {
    hide SafeRequestId, AuthorMayWrite;
    if facts != [] && facts[0].fact.kind != WorkerResult {
      RecordedReceiptIsStored(facts[1..]);
      assert facts == [facts[0]] + facts[1..];
    }
  }

  lemma TwoDigestsDisagree(facts: seq<Row>)
    requires forall a, b :: a in facts && b in facts ==> a.fact.executionId == b.fact.executionId
    ensures |ResultDigests(facts)| > 1 <==> exists a, b :: a in facts && b in facts && Disagree(a, b)
    ensures ResultDigests(facts) == {} <==> !HasKind(facts, {WorkerResult})
  {
    var digests := ResultDigests(facts);
    forall row | row in facts && row.fact.kind == WorkerResult ensures row.fact.receiptDigest in digests { }
    if |digests| > 1 {
      var x, y := TwoOf(digests);
      var a, b := RowWith(facts, x), RowWith(facts, y);
      assert Disagree(a, b);
    }
    if a, b :| a in facts && b in facts && Disagree(a, b) {
      SubsetIsSmaller({a.fact.receiptDigest, b.fact.receiptDigest}, digests);
    }
  }

  lemma TwoOf<T>(s: set<T>) returns (x: T, y: T)
    requires |s| > 1
    ensures x in s && y in s && x != y
  {
    x :| x in s;
    assert |s - {x}| == |s| - 1;
    y :| y in s - {x};
  }

  ghost function RowWith(facts: seq<Row>, digest: Option<Digest<Receipt>>): (row: Row)
    requires digest in ResultDigests(facts)
    ensures row in facts && row.fact.kind == WorkerResult && row.fact.receiptDigest == digest
  {
    var row :| row in facts && row.fact.kind == WorkerResult && row.fact.receiptDigest == digest;
    row
  }

  /** The pass over the stored rows: unreadable ones are dropped and raise the conflict. */
  method ReadFacts(rows: seq<Row>, intent: Intent, claim: Option<Claim>, flagged: bool, keyed: bool)
    returns (facts: seq<Row>, conflict: bool)
    ensures facts == ReadableRows(rows, intent, claim, keyed)
    ensures conflict <==> flagged || exists row :: row in rows && !Readable(row.fact, intent, claim, keyed)
  {
    hide Readable;
    facts, conflict := [], flagged;
    var i := 0;
    while i < |rows|
      invariant 0 <= i <= |rows|
      invariant facts == ReadableRows(rows[..i], intent, claim, keyed)
      invariant conflict <==> flagged || exists row :: row in rows[..i] && !Readable(row.fact, intent, claim, keyed)
    {
      assert rows[..i + 1] == rows[..i] + [rows[i]];
      if Readable(rows[i].fact, intent, claim, keyed) { facts := facts + [rows[i]]; } else { conflict := true; }
      i := i + 1;
    }
    assert rows[..i] == rows;
  }

  /** Counting the distinct receipts of the readable rows settles the conflict and the receipt. */
  lemma CountingJudges(rows: seq<Row>, intent: Intent, claim: Option<Claim>, keyed: bool)
    ensures var facts := ReadableRows(rows, intent, claim, keyed);
      && (Clashing(rows, intent, claim, keyed) <==>
            (exists row :: row in rows && !Readable(row.fact, intent, claim, keyed)) || |ResultDigests(facts)| > 1)
      && (RecordedReceipt(facts).Some? <==> |ResultDigests(facts)| > 0)
  {
    hide SafeRequestId, AuthorMayWrite, Disagree, ResultDigests, ReadableRows;
    var facts := ReadableRows(rows, intent, claim, keyed);
    ReadableRowsFilter(rows, intent, claim, keyed);
    TwoDigestsDisagree(facts);
    RecordedReceiptIsStored(facts);
  }

  /** The reader itself: one pass over the rows, then the decision. The verdict is the same for
      every window; the page is one keyset page of the readable rows. */
  method Project(db: Ledger, e: Uuid, now: Time, keyed: bool, after: Option<nat>) returns (r: Result<Recovery>)
    ensures r == Ok(NotFound) <==> e !in db.intents
    ensures e in db.intents && ReadRefusal(db, e, keyed).Some? ==> r == Err(ReadRefusal(db, e, keyed).value)
    ensures e in db.intents && ReadRefusal(db, e, keyed).None? ==>
      var page := PageOf(ReadableRows(Stored(db, e), db.intents[e], ClaimOf(db, e), keyed), Positions(), after, PAGE);
      r == Ok(Available(VerdictOf(db, e, now, keyed), page.items, page.next, page.next.Some? || db.states[e].overflow))
  {
    if e !in db.intents { return Ok(NotFound); }
    if ReadRefusal(db, e, keyed).Some? { return Err(ReadRefusal(db, e, keyed).value); }
    hide Readable, HasKind, ReadableRows, Clashing, ResultDigests, Beyond, RecordedReceipt, ValidateRequest, RowsOf;
    var intent, claim, rows := db.intents[e], ClaimOf(db, e), Stored(db, e);
    var facts, conflict := ReadFacts(rows, intent, claim, db.states[e].conflict, keyed);
    CountingJudges(rows, intent, claim, keyed);
    var digests := ResultDigests(facts);
    conflict := conflict || |digests| > 1;
    var receipt := if |digests| == 1 && !conflict then RecordedReceipt(facts) else None;
    var stopped := db.runs[intent.envelope.runId].stop.Some?;
    var state := Decide(conflict, receipt.Some?, HasKind(facts, UNCERTAIN_KINDS), now >= Deadline(intent, claim),
                        claim.Some?, HasKind(facts, {PreDispatchRefused}) && stopped);
    var page := PageOf(facts, Positions(), after, PAGE);
    r := Ok(Available(Verdict(state, conflict, receipt, stopped, Deadline(intent, claim),
                              claim.Some? || state == Some(OutcomeUnknown)),
                      page.items, page.next, page.next.Some? || db.states[e].overflow));
  }

  // ---- What the verdict means -------------------------------------------------------------

  ghost predicate HasRow(db: Ledger, e: Uuid, kinds: set<Kind>) {
    exists row :: row in db.rows && row.fact.executionId == e && row.fact.kind in kinds
  }

  lemma StoredIsEverything(db: Ledger, now: Time, e: Uuid)
    requires Reachable(db, now) && e in db.intents
    ensures Stored(db, e) == RowsOf(db.rows, e)
    ensures forall row :: row in Stored(db, e) <==> row in db.rows && row.fact.executionId == e
  {
    hide Reachable, RowsOf, Ordinary;
    ReaderSeesEveryRow(db, now, e);
    forall row ensures row in RowsOf(db.rows, e) <==> row in db.rows && row.fact.executionId == e {
      RowsOfIsFilter(db.rows, e, row);
    }
  }

  /** In a reachable ledger every stored row is readable, so nothing is dropped. */
  lemma EveryRowIsReadable(db: Ledger, now: Time, e: Uuid)
    requires Reachable(db, now) && e in db.intents
    ensures ReadRefusal(db, e, true).None?
    ensures forall row :: row in Stored(db, e) ==> Readable(row.fact, db.intents[e], ClaimOf(db, e), true)
    ensures ReadableRows(Stored(db, e), db.intents[e], ClaimOf(db, e), true) == Stored(db, e)
  {
    hide Reachable, RowsOf, Stored, ValidateRequest, ValidateObservation, RowsOk, DatesOk, RefusalsOk, ReadableRows,
         KeysOk;
    StoredIsEverything(db, now, e);
    ReachableIsOk(db, now);
    assert IntentOk(db.runs, db.intents[e], e, db.nextIntent);
    forall row | row in Stored(db, e) ensures Readable(row.fact, db.intents[e], ClaimOf(db, e), true) {
      assert FactOk(db.intents, db.claims, row.fact);
    }
    ReadableRowsFilter(Stored(db, e), db.intents[e], ClaimOf(db, e), true);
  }

  lemma StoredKinds(db: Ledger, now: Time, e: Uuid, kinds: set<Kind>)
    requires Reachable(db, now) && e in db.intents
    ensures HasKind(Stored(db, e), kinds) <==> HasRow(db, e, kinds)
  {
    hide Reachable, Stored;
    StoredIsEverything(db, now, e);
  }

  lemma ClashIsFlagged(db: Ledger, now: Time, e: Uuid)
    requires Reachable(db, now) && e in db.intents
    ensures e in db.states
    ensures Clashing(Stored(db, e), db.intents[e], ClaimOf(db, e), true) ==> db.states[e].conflict
  {
    hide Reachable, Stored, Readable, IntentsOk, KeysOk, FactsOk, ChainOk, AcceptancesOk, BudgetOk, RowKeysOk, DatesOk;
    ReachableIsOk(db, now);
    StoredIsEverything(db, now, e);
    EveryRowIsReadable(db, now, e);
  }

  lemma RefusedIsStopped(db: Ledger, now: Time, e: Uuid)
    requires Reachable(db, now) && e in db.intents && HasRow(db, e, {PreDispatchRefused})
    ensures Stopped(db, db.intents[e].envelope.runId) && e !in db.claims
  {
    hide Reachable, ValidateObservation, IntentsOk, KeysOk, RowsOk, DatesOk;
    ReachableIsOk(db, now);
    var row :| row in db.rows && row.fact.executionId == e && row.fact.kind == PreDispatchRefused;
    assert FactOk(db.intents, db.claims, row.fact);
    ValidNamesIntent(row.fact, db.intents[e].envelope, true);
  }

  /** Every stored result of an unflagged execution carries the receipt the reader tells. */
  lemma ReceiptIsTheOnlyOne(db: Ledger, now: Time, e: Uuid)
    requires Reachable(db, now) && e in db.intents
    ensures RecordedReceipt(Stored(db, e)).Some? <==> HasRow(db, e, {WorkerResult})
    ensures !Conflicted(db, e) ==> forall row :: row in db.rows && IsResult(row, e) ==>
              row.fact.receipt.Some? && row.fact.receipt == RecordedReceipt(Stored(db, e))
              && row.fact.receiptDigest == Some(Sha256(row.fact.receipt.value))
  {
    hide Reachable, Stored, RecordedReceipt, Clashing, SafeRequestId, AuthorMayWrite;
    StoredIsEverything(db, now, e);
    EveryRowIsReadable(db, now, e);
    RecordedReceiptIsStored(Stored(db, e));
    StoredKinds(db, now, e, {WorkerResult});
    if !Conflicted(db, e) {
      ClashIsFlagged(db, now, e);
      forall row | row in db.rows && IsResult(row, e)
        ensures row.fact.receipt.Some? && row.fact.receipt == RecordedReceipt(Stored(db, e))
        ensures row.fact.receiptDigest == Some(Sha256(row.fact.receipt.value))
      {
        assert row in Stored(db, e);
        var told :| told in Stored(db, e) && told.fact.kind == WorkerResult
                    && told.fact.receipt == RecordedReceipt(Stored(db, e));
        NoClashAgrees(Stored(db, e), db.intents[e], ClaimOf(db, e), row, told);
      }
    }
  }

  lemma NoClashAgrees(rows: seq<Row>, intent: Intent, claim: Option<Claim>, a: Row, b: Row)
    requires !Clashing(rows, intent, claim, true) && a in rows && b in rows
    requires a.fact.kind == WorkerResult == b.fact.kind
    ensures a.fact.receipt.Some? && a.fact.receipt == b.fact.receipt
    ensures a.fact.receiptDigest == Some(Sha256(a.fact.receipt.value))
  {
    hide SafeRequestId, AuthorMayWrite;
    assert Readable(a.fact, intent, claim, true) && Readable(b.fact, intent, claim, true);
    assert !Disagree(a, b);
  }

  /** In every reachable ledger the verdict is the decision over the whole ledger: the conflict is
      exactly the stored flag, and a receipt is told exactly when an unflagged result is stored. */
  lemma VerdictMeans(db: Ledger, now: Time, e: Uuid)
    requires Reachable(db, now) && e in db.intents
    ensures ReadRefusal(db, e, true).None?
    ensures var v := VerdictOf(db, e, now, true);
      && (v.conflict <==> Conflicted(db, e)) && v.observeBy == Deadline(db.intents[e], ClaimOf(db, e))
      && (v.receipt.Some? <==> !Conflicted(db, e) && HasRow(db, e, {WorkerResult}))
      && (v.receipt.Some? ==> forall row :: row in db.rows && IsResult(row, e) ==>
            row.fact.receipt == v.receipt && row.fact.receiptDigest == Some(Sha256(v.receipt.value)))
      && v.state == Decide(Conflicted(db, e), HasRow(db, e, {WorkerResult}), HasRow(db, e, UNCERTAIN_KINDS),
                           now >= Deadline(db.intents[e], ClaimOf(db, e)), e in db.claims,
                           HasRow(db, e, {PreDispatchRefused}))
  {
    hide Reachable, Stored, Clashing, HasKind, HasRow, RecordedReceipt, ReadableRows, Readable, ReadRefusal;
    EveryRowIsReadable(db, now, e);
    ClashIsFlagged(db, now, e);
    ReceiptIsTheOnlyOne(db, now, e);
    StoredKinds(db, now, e, UNCERTAIN_KINDS);
    StoredKinds(db, now, e, {PreDispatchRefused});
    if HasRow(db, e, {PreDispatchRefused}) { RefusedIsStopped(db, now, e); }
  }

  /** The instant from which silence counts as an unknown outcome: the claim's own, or two minutes after
      an unclaimed registration. */
  predicate Overdue(db: Ledger, e: Uuid, now: Time)
    requires e in db.intents
  {
    if e in db.claims then db.claims[e].observeBy <= now else db.intents[e].registeredAt + 120_000_000 <= now
  }

  /** The state a reader is told, for every reachable ledger and instant, one condition per answer. */
  lemma StatesAreTold(db: Ledger, now: Time, e: Uuid)
    requires Reachable(db, now) && e in db.intents
    ensures ReadRefusal(db, e, true).None?
    ensures var v := VerdictOf(db, e, now, true);
      var result := HasRow(db, e, {WorkerResult});
      var uncertain := HasRow(db, e, {WaitExpiredKind, TransportUncertain, ResultPersistenceUnconfirmed});
      var refused := HasRow(db, e, {PreDispatchRefused});
      var open := !Conflicted(db, e) && !result && !uncertain && !Overdue(db, e, now);
      && (v.state == Some(OutcomeUnknown) <==> Conflicted(db, e) || (!result && (uncertain || Overdue(db, e, now))))
      && (v.state == Some(ResultRecorded) <==> result && !Conflicted(db, e))
      && (v.state == Some(DispatchClaimed) <==> open && e in db.claims)
      && (v.state == Some(NotDispatched) <==> open && e !in db.claims && refused)
      && (v.state.None? <==> open && e !in db.claims && !refused)
      && (v.targetVerificationRequired <==> e in db.claims || v.state == Some(OutcomeUnknown))
      && (v.runStopped <==> Stopped(db, db.intents[e].envelope.runId))
      && v.observeBy ==
           (if e in db.claims then db.claims[e].observeBy else db.intents[e].registeredAt + 120_000_000)
  {
    hide Reachable, Stored, Clashing, HasKind, HasRow, RecordedReceipt, ReadableRows, Readable, ReadRefusal;
    VerdictMeans(db, now, e);
    RunIsKnown(db, now, e);
  }

  lemma RunIsKnown(db: Ledger, now: Time, e: Uuid)
    requires Reachable(db, now) && e in db.intents
    ensures db.intents[e].envelope.runId in db.runs
  {
    hide Reachable, ValidateRequest, SafeRequestId, RowsOk, DatesOk, RefusalsOk, KeysOk, FactsOk;
    ReachableIsOk(db, now);
    assert IntentOk(db.runs, db.intents[e], e, db.nextIntent);
  }

  // ---- How the verdict moves --------------------------------------------------------------

  function Rank(s: Option<DispatchState>): nat {
    match s
    case Some(ResultRecorded) => 2
    case Some(OutcomeUnknown) => 1
    case _ => 0
  }

  lemma {:induction false} ReachableContinues(db: Ledger, now: Time, events: seq<Event>, end: Time)
    requires Reachable(db, now) && Timely(events, now, end)
    ensures Reachable(Play(db, events), end)
  {
    hide Apply, Timely, Play;
    var enabled, epoch, past, start :| Timely(past, start, now) && db == Play(EmptyLedger(enabled, epoch), past);
    PlayJoins(EmptyLedger(enabled, epoch), past, events);
    TimelyJoins(past, events, start, now, end);
  }

  lemma TimelyJoins(past: seq<Event>, events: seq<Event>, start: Time, now: Time, end: Time)
    requires Timely(past, start, now) && Timely(events, now, end)
    ensures Timely(past + events, start, end)
  {
    var all := past + events;
    forall k | 0 <= k < |all| ensures start <= all[k].at <= end && (k < |past| ==> all[k].at <= now)
                                   && (k >= |past| ==> now <= all[k].at)
    {
      assert all[k] == if k < |past| then past[k] else events[k - |past|];
    }
    forall j, k | 0 <= j < k < |all| ensures all[j].at <= all[k].at {
      if k < |past| {
        assert past[j].at <= past[k].at;
      } else if j >= |past| {
        assert events[j - |past|].at <= events[k - |past|].at;
      }
    }
  }

  lemma {:induction false} PlayJoins(db: Ledger, past: seq<Event>, events: seq<Event>)
    ensures Play(db, past + events) == Play(Play(db, past), events)
  {
    hide Apply;
    if events == [] {
      assert past + events == past;
    } else {
      PlayJoins(db, past, events[..|events| - 1]);
      assert (past + events)[..|past + events| - 1] == past + events[..|events| - 1];
    }
  }

  /** A claimed execution within its retention only moves forward: its claim, its conflict and its
      receipt stay, and nothing but a conflict takes it back. */
  lemma ProjectionMovesForward(db: Ledger, now: Time, events: seq<Event>, end: Time, e: Uuid)
    requires Reachable(db, now) && Timely(events, now, end) && e in db.claims && InRetention(db.intents, e, end)
    ensures var after := Play(db, events);
      && e in after.intents && ReadRefusal(after, e, true).None? && ReadRefusal(db, e, true).None?
      && var was, later := VerdictOf(db, e, now, true), VerdictOf(after, e, end, true);
         && was.state.Some? && later.state.Some? && was.state != Some(NotDispatched)
         && later.state != Some(NotDispatched)
         && (was.conflict ==> later.conflict && later.state == Some(OutcomeUnknown))
         && (!later.conflict ==> Rank(was.state) <= Rank(later.state))
         && (was.receipt.Some? && !later.conflict ==> later.receipt == was.receipt)
         && later.observeBy == was.observeBy
  {
    hide Reachable, Play, HasRow, VerdictOf, ReadRefusal, LedgerOk;
    var after := Play(db, events);
    ReachableIsOk(db, now);
    PlayKeeps(db, events, now, end);
    ReachableContinues(db, now, events, end);
    VerdictMeans(db, now, e);
    VerdictMeans(after, end, e);
    RowsRemain(db, after, end, e, {WorkerResult});
    RowsRemain(db, after, end, e, UNCERTAIN_KINDS);
    if HasRow(db, e, {WorkerResult}) {
      var row := ResultRow(db, e);
      assert row in after.rows && IsResult(row, e);
    }
  }

  ghost function ResultRow(db: Ledger, e: Uuid): (row: Row)
    requires HasRow(db, e, {WorkerResult})
    ensures row in db.rows && IsResult(row, e)
  {
    var row :| row in db.rows && row.fact.executionId == e && row.fact.kind in {WorkerResult};
    row
  }

  lemma RowsRemain(db: Ledger, after: Ledger, end: Time, e: Uuid, kinds: set<Kind>)
    requires Later(db, after, end) && InRetention(db.intents, e, end)
    ensures HasRow(db, e, kinds) ==> HasRow(after, e, kinds)
  {
  }

  /** An execution told `not_dispatched` has no claim, and no continuation ever gives it one. */
  lemma NotDispatchedIsForever(db: Ledger, now: Time, events: seq<Event>, end: Time, e: Uuid)
    requires Reachable(db, now) && e in db.intents && Timely(events, now, end)
    requires ReadRefusal(db, e, true).None? && VerdictOf(db, e, now, true).state == Some(NotDispatched)
    ensures e !in db.claims
    ensures var after := Play(db, events);
      e in after.intents && after.intents[e].envelope.runId == db.intents[e].envelope.runId ==> e !in after.claims
  {
    hide Reachable, Play, VerdictOf, ReadRefusal;
    VerdictMeans(db, now, e);
    RefusedIsStopped(db, now, e);
    StopIsFinal(db, now, events, end, db.intents[e].envelope.runId);
  }
}
