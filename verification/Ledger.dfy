/** The durable execution ledger as a value, and each database transaction on it as a function
    from the ledger before to the ledger after and the answer given to the caller.

    Every agent and worker transaction locks the run row, so a transaction is one atomic step.
    A refusal rolls back: the ledger is then returned unchanged. */
module Ledger {
  import opened Basics
  import opened ExecutionProtocol

  datatype Stop = Stop(at: Time, reason: Reason)

  datatype Run = Run(sessionId: string, ownerUserId: string, stop: Option<Stop>)

  /** A registered request. The stored digest is always `Sha256(envelope)`, so it is not repeated. */
  datatype Intent = Intent(envelope: Envelope, attemptId: string, registeredAt: Time, seqNo: nat)

  datatype Claim = Claim(ownerId: Uuid, claimedAt: Time, observeBy: Time)

  datatype Slot = ClaimSlot | ResultSlot | TimeoutSlot | StopSlot | AcceptanceSlot | ConflictSlot

  datatype ObservationState = ObservationState(
    ordinaryCount: nat, duplicateCount: nat, overflowCount: nat,
    conflict: bool, overflow: bool, firstConflict: Option<Digest<Observation>>)

  /** One observation row. The stored content digest is always `Sha256(fact)`. */
  datatype Row = Row(seqNo: nat, insertedAt: Time, slot: Option<Slot>, fact: Observation)

  datatype Ledger = Ledger(
    admissionEnabled: bool, admissionEpoch: Uuid,
    runs: map<Uuid, Run>,
    intents: map<Uuid, Intent>,
    claims: map<Uuid, Claim>,
    states: map<Uuid, ObservationState>,
    rows: seq<Row>,
    nextIntent: nat, nextRow: nat)

  /** One process's view of its configuration. */
  datatype Config = Config(enabled: bool, epoch: Option<Uuid>, keyed: bool)

  /** A transaction's effect and answer. */
  datatype Step<+T> = Step(db: Ledger, out: Result<T>)

  const ORDINARY_LIMIT: nat := 64
  const COUNTER_LIMIT: nat := 2147483647
  const READ_LIMIT: nat := 71

  const EMPTY_STATE := ObservationState(0, 0, 0, false, false, None)

  const STOP_KINDS: set<Kind> := {WaitExpiredKind, TransportUncertain, PreDispatchRefused, RunStoppedKind}

  // ---- Queries ----------------------------------------------------------------------------

  predicate IsResult(row: Row, e: Uuid) {
    row.fact.executionId == e && row.fact.kind == WorkerResult
  }

  predicate IsAcceptance(row: Row, e: Uuid) {
    row.fact.executionId == e && row.fact.kind == ResponseAccepted
  }

  /** An acceptance joined to a worker result on the receipt digest. */
  predicate Accepted(rows: seq<Row>, e: Uuid) {
    exists a, r :: a in rows && r in rows && IsAcceptance(a, e) && IsResult(r, e)
                && a.fact.receiptDigest == r.fact.receiptDigest
  }

  predicate Conflicted(db: Ledger, e: Uuid) {
    e in db.states && db.states[e].conflict
  }

  predicate Unsettled(db: Ledger, e: Uuid) {
    Conflicted(db, e) || !Accepted(db.rows, e)
  }

  /** Some intent of the run, other than `except`, is conflicted or lacks its accepted result. */
  predicate Unresolved(db: Ledger, runId: Uuid, except: Option<Uuid>) {
    exists e :: e in db.intents && db.intents[e].envelope.runId == runId && Some(e) != except && Unsettled(db, e)
  }

  /** The worker's form of the same question: only intents registered before this one count. */
  predicate PredecessorUnsettled(db: Ledger, intent: Intent) {
    exists e :: e in db.intents && db.intents[e].envelope.runId == intent.envelope.runId
             && db.intents[e].seqNo < intent.seqNo && Unsettled(db, e)
  }

  predicate SameCall(a: Envelope, b: Envelope) {
    a.confirmId == b.confirmId && a.callId == b.callId
  }

  predicate CallTaken(db: Ledger, e: Envelope) {
    exists i :: i in db.intents && (i == e.executionId || SameCall(db.intents[i].envelope, e))
  }

  predicate Stopped(db: Ledger, runId: Uuid) {
    runId in db.runs && db.runs[runId].stop.Some?
  }

  predicate Registered(db: Ledger, e: Envelope) {
    e.executionId in db.intents && db.intents[e.executionId].envelope == e
  }

  predicate SlotTaken(rows: seq<Row>, e: Uuid, slot: Slot) {
    exists row :: row in rows && row.fact.executionId == e && row.slot == Some(slot)
  }

  predicate IdTaken(rows: seq<Row>, id: Uuid) {
    exists row :: row in rows && row.fact.observationId == id
  }

  predicate Recorded(rows: seq<Row>, fact: Observation) {
    exists row :: row in rows && row.fact == fact
  }

  /** Some stored result of the execution carries another receipt. The ledger compares with the
      first one; `FirstResultDecides` shows that to be the same test. */
  predicate OtherReceipt(rows: seq<Row>, e: Uuid, digest: Option<Digest<Receipt>>) {
    exists row :: row in rows && IsResult(row, e) && row.fact.receiptDigest != digest
  }

  /** A worker result of the same execution with the same receipt. */
  predicate Backed(rows: seq<Row>, fact: Observation) {
    exists r :: r in rows && IsResult(r, fact.executionId) && r.fact.receiptDigest == fact.receiptDigest
  }

  function FirstResult(rows: seq<Row>, e: Uuid): Option<Row> {
    if rows == [] then None
    else if IsResult(rows[0], e) then Some(rows[0])
    else FirstResult(rows[1..], e)
  }

  /** The identity checks on a run row, shared by every agent transaction. */
  function CheckRun(db: Ledger, runId: Uuid, sessionId: string, ownerUserId: string): Option<Reason> {
    if runId !in db.runs then Some(RequestMissing)
    else if db.runs[runId].sessionId != sessionId || db.runs[runId].ownerUserId != ownerUserId then
      Some(IdentityConflict)
    else None
  }

  function CheckIntent(db: Ledger, e: Envelope): Option<Reason> {
    if e.executionId !in db.intents then Some(RequestMissing)
    else if db.intents[e.executionId].envelope != e then Some(IdentityConflict)
    else None
  }

  // ---- Observation writes -----------------------------------------------------------------

  datatype Appended = Inserted | Identical | Conflict | Overflow

  function Reserved(kind: Kind): Option<Slot> {
    match kind
    case ClaimCommitted => Some(ClaimSlot)
    case WorkerResult => Some(ResultSlot)
    case WaitExpiredKind => Some(TimeoutSlot)
    case RunStoppedKind => Some(StopSlot)
    case ResponseAccepted => Some(AcceptanceSlot)
    case _ => None
  }

  function Saturate(n: nat): nat {
    if n < COUNTER_LIMIT then n + 1 else n
  }

  function SetState(db: Ledger, e: Uuid, s: ObservationState): Ledger {
    db.(states := db.states[e := s])
  }

  function MarkConflict(s: ObservationState, fact: Observation): ObservationState {
    s.(conflict := true, firstConflict := if s.firstConflict.Some? then s.firstConflict else Some(Sha256(fact)))
  }

  function InsertRow(db: Ledger, slot: Option<Slot>, fact: Observation, now: Time): Ledger {
    db.(rows := db.rows + [Row(db.nextRow, now, slot, fact)], nextRow := db.nextRow + 1)
  }

  /** The common tail of both `_append`s: a taken slot falls back to the ordinary budget, a full
      budget overflows, anything else lands. */
  function Land(db: Ledger, fact: Observation, wanted: Option<Slot>, now: Time): (Ledger, Appended)
    requires fact.executionId in db.states
  {
    var e := fact.executionId;
    var s := db.states[e];
    var slot := if wanted.Some? && SlotTaken(db.rows, e, wanted.value) then None else wanted;
    if slot.None? && s.ordinaryCount >= ORDINARY_LIMIT then
      (SetState(db, e, s.(overflow := true, overflowCount := Saturate(s.overflowCount))), Overflow)
    else if slot.None? then
      (InsertRow(SetState(db, e, s.(ordinaryCount := s.ordinaryCount + 1)), None, fact, now), Inserted)
    else
      (InsertRow(db, slot, fact, now), Inserted)
  }

  /** A fact whose identifier is already stored: identical content counts a duplicate, different
      content flags the execution. */
  function Replay(db: Ledger, fact: Observation): (Ledger, Appended)
    requires fact.executionId in db.states
  {
    var e := fact.executionId;
    var s := db.states[e];
    if Recorded(db.rows, fact) then
      (SetState(db, e, s.(duplicateCount := Saturate(s.duplicateCount))), Identical)
    else
      (SetState(db, e, MarkConflict(s, fact)), Conflict)
  }

  /** Refusals of the agent's `_append`, before it writes anything. */
  function AgentRefusal(db: Ledger, intent: Intent, fact: Observation, keyed: bool): Option<Reason> {
    if ValidateObservation(fact, intent.envelope, keyed).Some? then
      ValidateObservation(fact, intent.envelope, keyed)
    else if fact.source != Agent || fact.attemptId != intent.attemptId then Some(IdentityConflict)
    else if fact.executionId !in db.states then Some(SchemaInvalid)
    else None
  }

  function AgentAppend(db: Ledger, intent: Intent, fact: Observation, keyed: bool, now: Time): Step<Appended> {
    if AgentRefusal(db, intent, fact, keyed).Some? then
      Step(db, Err(AgentRefusal(db, intent, fact, keyed).value))
    else
      var (after, outcome) :=
        if IdTaken(db.rows, fact.observationId) then Replay(db, fact)
        else Land(db, fact, Reserved(fact.kind), now);
      Step(after, Ok(outcome))
  }

  /** Refusals of the worker's `_append`. The last two are reached only by an identifier that is
      not stored yet. */
  function WorkerRefusal(db: Ledger, intent: Intent, fact: Observation, keyed: bool): Option<Reason> {
    if ValidateObservation(fact, intent.envelope, keyed).Some? then
      ValidateObservation(fact, intent.envelope, keyed)
    else if fact.attemptId != intent.attemptId then Some(IdentityConflict)
    else if fact.executionId !in db.states then Some(SchemaInvalid)
    else if IdTaken(db.rows, fact.observationId) then None
    else if fact.kind in {WorkerResult, ClaimCommitted}
            && (fact.executionId !in db.claims || Some(db.claims[fact.executionId].ownerId) != fact.claimOwnerId) then
      Some(IdentityConflict)
    else if fact.kind == ResponseAccepted
            && (|| !Backed(db.rows, fact)
                || Stopped(db, fact.runId) || Conflicted(db, fact.executionId)) then
      Some(RunStopped)
    else None
  }

  function WorkerAppend(db: Ledger, intent: Intent, fact: Observation, keyed: bool, now: Time): Step<Appended> {
    if WorkerRefusal(db, intent, fact, keyed).Some? then
      Step(db, Err(WorkerRefusal(db, intent, fact, keyed).value))
    else if IdTaken(db.rows, fact.observationId) then
      var (after, outcome) := Replay(db, fact);
      Step(after, Ok(outcome))
    else
      var e := fact.executionId;
      var first := FirstResult(db.rows, e);
      var differs := fact.kind == WorkerResult && first.Some? && first.value.fact.receiptDigest != fact.receiptDigest;
      var flagged := if differs then SetState(db, e, MarkConflict(db.states[e], fact)) else db;
      var (after, outcome) := Land(flagged, fact, if differs then Some(ConflictSlot) else Reserved(fact.kind), now);
      Step(after, Ok(outcome))
  }

  // ---- Agent transactions -----------------------------------------------------------------

  predicate BoundedName(s: string) {
    0 < |s| <= 256
  }

  function CreateRun(db: Ledger, runId: Uuid, sessionId: string, ownerUserId: string): Step<Uuid> {
    if !BoundedName(sessionId) || !BoundedName(ownerUserId) then Step(db, Err(BadRequest))
    else if runId in db.runs then Step(db, Err(StoreUnavailable))
    else Step(db.(runs := db.runs[runId := Run(sessionId, ownerUserId, None)]), Ok(runId))
  }

  function AdmissionRefusal(db: Ledger, cfg: Config): Option<Reason> {
    if !cfg.enabled || !db.admissionEnabled then Some(AdmissionDisabled)
    else if cfg.epoch != Some(db.admissionEpoch) then Some(EpochMismatch)
    else None
  }

  function WindowRefusal(e: Envelope, now: Time): Option<Reason> {
    if e.requestedAt > now then Some(RequestNotYetValid)
    else if e.expiresAt <= now then Some(RequestExpired)
    else None
  }

  /** The checks `register` makes once it has found no earlier intent for this call. */
  function FreshRefusal(db: Ledger, cfg: Config, e: Envelope, now: Time): Option<Reason> {
    if AdmissionRefusal(db, cfg).Some? then AdmissionRefusal(db, cfg)
    else if cfg.epoch != Some(e.admissionEpoch) then Some(EpochMismatch)
    else if Stopped(db, e.runId) then Some(RunStopped)
    else if Unresolved(db, e.runId, None) then Some(PredecessorUnresolved)
    else WindowRefusal(e, now)
  }

  function InsertIntent(db: Ledger, e: Envelope, attemptId: string, now: Time): Ledger {
    db.(intents := db.intents[e.executionId := Intent(e, attemptId, now, db.nextIntent)],
        states := db.states[e.executionId := EMPTY_STATE],
        nextIntent := db.nextIntent + 1)
  }

  /** Registers an intent, or returns the attempt of an identical one. When a row exists for the
      execution or for the call, anything but an identical envelope is a conflict. */
  function Register(db: Ledger, cfg: Config, e: Envelope, attemptId: string, now: Time): Step<string> {
    if ValidateRequest(e, cfg.keyed).Some? then Step(db, Err(ValidateRequest(e, cfg.keyed).value))
    else if !SafeRequestId(attemptId) then Step(db, Err(BadRequest))
    else if CheckRun(db, e.runId, e.sessionId, e.ownerUserId).Some? then
      Step(db, Err(CheckRun(db, e.runId, e.sessionId, e.ownerUserId).value))
    else if Registered(db, e) then Step(db, Ok(db.intents[e.executionId].attemptId))
    else if CallTaken(db, e) then Step(db, Err(IdentityConflict))
    else if FreshRefusal(db, cfg, e, now).Some? then Step(db, Err(FreshRefusal(db, cfg, e, now).value))
    else Step(InsertIntent(db, e, attemptId, now), Ok(attemptId))
  }

  function SetStop(db: Ledger, runId: Uuid, reason: Reason, now: Time): Ledger {
    if runId !in db.runs || db.runs[runId].stop.Some? then db
    else db.(runs := db.runs[runId := db.runs[runId].(stop := Some(Stop(now, reason)))])
  }

  /** An attributed stop names the envelope it stops for and the fact to append with it. */
  datatype Attribution = Attribution(envelope: Envelope, fact: Observation)

  function StopRefusal(db: Ledger, cfg: Config, runId: Uuid, sessionId: string, ownerUserId: string,
                       note: Option<Attribution>): Option<Reason>
  {
    if note.Some? && ValidateRequest(note.value.envelope, cfg.keyed).Some? then
      ValidateRequest(note.value.envelope, cfg.keyed)
    else if note.Some? && (note.value.envelope.runId != runId || note.value.fact.kind !in STOP_KINDS) then
      Some(BadRequest)
    else if CheckRun(db, runId, sessionId, ownerUserId).Some? then CheckRun(db, runId, sessionId, ownerUserId)
    else if note.None? then None
    else if CheckIntent(db, note.value.envelope).Some? then CheckIntent(db, note.value.envelope)
    else if note.value.fact.kind == PreDispatchRefused && note.value.envelope.executionId in db.claims then
      Some(ClaimCommitUnconfirmed)
    else AgentRefusal(db, db.intents[note.value.envelope.executionId], note.value.fact, cfg.keyed)
  }

  /** The agent's stop: the attributed fact, if any, and the stop commit together. */
  function StopRun(db: Ledger, cfg: Config, runId: Uuid, sessionId: string, ownerUserId: string,
                   reason: Reason, note: Option<Attribution>, now: Time): Step<()>
  {
    if StopRefusal(db, cfg, runId, sessionId, ownerUserId, note).Some? then
      Step(db, Err(StopRefusal(db, cfg, runId, sessionId, ownerUserId, note).value))
    else
      var noted :=
        if note.None? then db
        else AgentAppend(db, db.intents[note.value.envelope.executionId], note.value.fact, cfg.keyed, now).db;
      Step(SetStop(noted, runId, if reason in STOP_REASONS then reason else ResponseInvalid, now), Ok(()))
  }

  /** The acceptance fact the agent signs for a verified original. */
  function AcceptanceFact(e: Envelope, original: VerifiedOriginal, id: Uuid, currentId: string): Observation {
    Observe(e, id, Agent, ResponseAccepted, original.payload.fact.attemptId, currentId, NoReason)
    .(receiptDigest := original.payload.fact.receiptDigest)
  }

  function AcceptRefusal(db: Ledger, cfg: Config, e: Envelope, original: VerifiedOriginal, id: Uuid,
                         currentId: string): Option<Reason>
  {
    var fact := AcceptanceFact(e, original, id, currentId);
    var result := original.payload.fact;
    if CheckOriginal(original.payload, e, cfg.keyed, original.attemptId, original.currentId).Some? then
      CheckOriginal(original.payload, e, cfg.keyed, original.attemptId, original.currentId)
    else if ValidateObservation(fact, e, cfg.keyed).Some? then ValidateObservation(fact, e, cfg.keyed)
    else if CheckRun(db, e.runId, e.sessionId, e.ownerUserId).Some? then
      CheckRun(db, e.runId, e.sessionId, e.ownerUserId)
    else if CheckIntent(db, e).Some? then CheckIntent(db, e)
    else if Stopped(db, e.runId) || e.executionId !in db.states || Conflicted(db, e.executionId) then
      Some(RunStopped)
    else if || !Recorded(db.rows, result)
            || e.executionId !in db.claims || Some(db.claims[e.executionId].ownerId) != result.claimOwnerId then
      Some(ResponseInvalid)
    else AgentRefusal(db, db.intents[e.executionId], fact, cfg.keyed)
  }

  /** Durable acceptance of the exact recorded worker result. The append commits even when its
      outcome then makes the call fail. */
  function Accept(db: Ledger, cfg: Config, e: Envelope, original: VerifiedOriginal, id: Uuid,
                  currentId: string, now: Time): Step<Observation>
  {
    var fact := AcceptanceFact(e, original, id, currentId);
    if AcceptRefusal(db, cfg, e, original, id, currentId).Some? then
      Step(db, Err(AcceptRefusal(db, cfg, e, original, id, currentId).value))
    else
      var step := AgentAppend(db, db.intents[e.executionId], fact, cfg.keyed, now);
      if step.out.Ok? && step.out.value in {Inserted, Identical} then Step(step.db, Ok(fact))
      else Step(step.db, Err(IntegrityConflict))
  }

  // ---- Worker transactions ----------------------------------------------------------------

  function DuplicateFact(e: Envelope, intent: Intent, id: Uuid, requestId: string): Observation {
    Observe(e, id, Worker, DuplicateSeen, intent.attemptId, requestId, MetadataReplay)
  }

  function ClaimFact(e: Envelope, intent: Intent, id: Uuid, requestId: string, owner: Uuid): Observation {
    Observe(e, id, Worker, ClaimCommitted, intent.attemptId, requestId, NoReason).(claimOwnerId := Some(owner))
  }

  function InsertClaim(db: Ledger, e: Uuid, owner: Uuid, now: Time): Ledger {
    db.(claims := db.claims[e := Claim(owner, now, now + OBSERVE_WINDOW)])
  }

  /** The identity checks of a claim, before it looks for an existing one. */
  function ClaimIdentityRefusal(db: Ledger, e: Envelope): Option<Reason> {
    if e.executionId !in db.intents then
      if CallTaken(db, e) then Some(IdentityConflict) else Some(RequestMissing)
    else if db.intents[e.executionId].envelope != e
            || CheckRun(db, e.runId, e.sessionId, e.ownerUserId).Some? then Some(IdentityConflict)
    else None
  }

  function WorkerAdmissionRefusal(db: Ledger, cfg: Config, e: Envelope): Option<Reason> {
    if !cfg.enabled || !db.admissionEnabled then Some(AdmissionDisabled)
    else if cfg.epoch != Some(e.admissionEpoch) || cfg.epoch != Some(db.admissionEpoch) then Some(EpochMismatch)
    else None
  }

  function FreshClaimRefusal(db: Ledger, cfg: Config, e: Envelope, now: Time): Option<Reason>
    requires e.executionId in db.intents
  {
    if WorkerAdmissionRefusal(db, cfg, e).Some? then WorkerAdmissionRefusal(db, cfg, e)
    else if Stopped(db, e.runId) then Some(RunStopped)
    else if PredecessorUnsettled(db, db.intents[e.executionId]) then Some(PredecessorUnresolved)
    else WindowRefusal(e, now)
  }

  /** The worker's single-use claim. `Ok(owner)` is the only answer that mints a dispatch permit. */
  function ClaimDispatch(db: Ledger, cfg: Config, e: Envelope, requestId: string, owner: Uuid, id: Uuid,
                         now: Time): Step<Uuid>
  {
    if ValidateRequest(e, cfg.keyed).Some? then Step(db, Err(ValidateRequest(e, cfg.keyed).value))
    else if ClaimIdentityRefusal(db, e).Some? then Step(db, Err(ClaimIdentityRefusal(db, e).value))
    else
      var intent := db.intents[e.executionId];
      if e.executionId in db.claims then
        var step := WorkerAppend(db, intent, DuplicateFact(e, intent, id, requestId), cfg.keyed, now);
        Step(step.db, Err(if step.out.Err? then step.out.reason else MetadataReplay))
      else if FreshClaimRefusal(db, cfg, e, now).Some? then
        Step(db, Err(FreshClaimRefusal(db, cfg, e, now).value))
      else
        var step := WorkerAppend(InsertClaim(db, e.executionId, owner, now), intent,
                                 ClaimFact(e, intent, id, requestId, owner), cfg.keyed, now);
        if step.out == Ok(Inserted) then Step(step.db, Ok(owner))
        else Step(db, Err(if step.out.Err? then step.out.reason else IntegrityConflict))
  }

  /** The final gate before the tool call: read only, under the run's send mutex. */
  function OpenSendRefusal(db: Ledger, cfg: Config, e: Envelope, owner: Uuid): Option<Reason> {
    if || !Registered(db, e) || e.executionId !in db.claims || db.claims[e.executionId].ownerId != owner then
      Some(IdentityConflict)
    else if WorkerAdmissionRefusal(db, cfg, e).Some? then WorkerAdmissionRefusal(db, cfg, e)
    else if e.runId !in db.runs || Stopped(db, e.runId) then Some(RunStopped)
    else if e.executionId !in db.states || Conflicted(db, e.executionId) then Some(IntegrityConflict)
    else if PredecessorUnsettled(db, db.intents[e.executionId]) then Some(PredecessorUnresolved)
    else None
  }

  /** The worker's metadata commit. A stop reason outside the column's closed list violates its
      CHECK constraint, which rolls the whole transaction back. */
  function Finish(db: Ledger, cfg: Config, e: Envelope, fact: Observation, stopReason: Option<Reason>,
                  now: Time): Step<Appended>
  {
    if e.runId !in db.runs || !Registered(db, e) then Step(db, Err(IdentityConflict))
    else
      var step := WorkerAppend(db, db.intents[e.executionId], fact, cfg.keyed, now);
      if step.out.Err? || stopReason.None? then step
      else if !Stopped(db, e.runId) && stopReason.value !in STOP_REASONS then Step(db, Err(StoreUnavailable))
      else Step(SetStop(step.db, e.runId, stopReason.value, now), step.out)
  }

  function WorkerStop(db: Ledger, cfg: Config, e: Envelope, fact: Observation, reason: Reason, now: Time)
    : Step<Appended>
  {
    if fact.kind == PreDispatchRefused && e.executionId in db.claims then Step(db, Err(ClaimCommitUnconfirmed))
    else Finish(db, cfg, e, fact, Some(reason), now)
  }

  /** Retention forgets whole executions, each at least thirty days past its signed expiry. */
  predicate Forgettable(db: Ledger, gone: set<Uuid>, now: Time) {
    forall e :: e in gone ==> e in db.intents && db.intents[e].envelope.expiresAt + RETENTION <= now
  }

  function Keep(rows: seq<Row>, gone: set<Uuid>): seq<Row> {
    if rows == [] then []
    else if rows[|rows| - 1].fact.executionId in gone then Keep(rows[..|rows| - 1], gone)
    else Keep(rows[..|rows| - 1], gone) + [rows[|rows| - 1]]
  }

  function Forget(db: Ledger, gone: set<Uuid>): Ledger {
    db.(intents := db.intents - gone, claims := db.claims - gone, states := db.states - gone,
        rows := Keep(db.rows, gone))
  }

  // ---- Histories --------------------------------------------------------------------------

  /** The facts the worker's handoff route commits with a stop of its own. */
  const WORKER_STOP_KINDS: set<Kind> := {TransportUncertain, PreDispatchRefused, ResultPersistenceUnconfirmed}

  /** The facts the worker's handoff route commits through `finish`. */
  predicate WorkerReport(fact: Observation) {
    fact.source == Worker && fact.kind in {WorkerResult, TransportUncertain, ResultPersistenceUnconfirmed}
  }

  datatype Op =
    | CreateRunOp(runId: Uuid, sessionId: string, ownerUserId: string)
    | RegisterOp(cfg: Config, envelope: Envelope, attemptId: string)
    | StopRunOp(cfg: Config, runId: Uuid, sessionId: string, ownerUserId: string, reason: Reason,
                note: Option<Attribution>)
    | AcceptOp(cfg: Config, envelope: Envelope, original: VerifiedOriginal, id: Uuid, currentId: string)
    | ClaimOp(cfg: Config, envelope: Envelope, requestId: string, owner: Uuid, id: Uuid)
    | ReportOp(cfg: Config, envelope: Envelope, fact: Observation, stopReason: Option<Reason>)
    | WorkerStopOp(cfg: Config, envelope: Envelope, fact: Observation, reason: Reason)
    | ForgetOp(gone: set<Uuid>)
    | AdmissionOp(enabled: bool, epoch: Uuid)

  function Apply(db: Ledger, op: Op, now: Time): Ledger {
    match op
    case CreateRunOp(r, s, o) => CreateRun(db, r, s, o).db
    case RegisterOp(cfg, e, a) => Register(db, cfg, e, a, now).db
    case StopRunOp(cfg, r, s, o, reason, note) => StopRun(db, cfg, r, s, o, reason, note, now).db
    case AcceptOp(cfg, e, original, id, c) => Accept(db, cfg, e, original, id, c, now).db
    case ClaimOp(cfg, e, q, owner, id) => ClaimDispatch(db, cfg, e, q, owner, id, now).db
    case ReportOp(cfg, e, fact, stop) => if WorkerReport(fact) then Finish(db, cfg, e, fact, stop, now).db else db
    case WorkerStopOp(cfg, e, fact, reason) =>
      if fact.source == Worker && fact.kind in WORKER_STOP_KINDS then WorkerStop(db, cfg, e, fact, reason, now).db
      else db
    case ForgetOp(gone) => if Forgettable(db, gone, now) then Forget(db, gone) else db
    case AdmissionOp(enabled, epoch) => db.(admissionEnabled := enabled, admissionEpoch := epoch)
  }

  function EmptyLedger(enabled: bool, epoch: Uuid): Ledger {
    Ledger(enabled, epoch, map[], map[], map[], map[], [], 1, 1)
  }
}
