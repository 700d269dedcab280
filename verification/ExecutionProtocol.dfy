/** The closed wire vocabulary of the v3 execution protocol: reason codes, signed envelopes,
    receipts and observations, with the validators that guard every ledger write.

    SHA-256 is an injective constructor (`Sha256`), and the verdict of an HMAC check is a
    boolean carried by the signed value (`authentic`): no property below depends on either
    one's arithmetic. Instants are microseconds on the database clock. */
module ExecutionProtocol {
  import opened Basics

  datatype Result<+T> = Ok(value: T) | Err(reason: Reason)

  datatype Digest<T> = Sha256(content: T)

  type Time = int

  const SECOND: Time := 1_000_000
  const DAY: Time := 86_400 * SECOND
  const OBSERVE_WINDOW: Time := 120 * SECOND
  const MAX_LIFETIME: Time := 900 * SECOND
  const RETENTION: Time := 30 * DAY

  datatype Reason =
    | NoReason
    | Unauthorized
    | BadRequest
    | SigningUnavailable
    | SignatureInvalid
    | ArgsDigestMismatch
    | RequestMissing
    | IdentityConflict
    | ProtocolUnsupported
    | RequestExpired
    | RequestNotYetValid
    | LifetimeInvalid
    | AdmissionDisabled
    | EpochMismatch
    | StoreUnavailable
    | SchemaInvalid
    | ClaimCommitUnconfirmed
    | GatewayNotConfigured
    | CredentialMissing
    | WaitExpired
    | TransportError
    | ResponseInvalid
    | ReceiptUnconfirmed
    | RunStopped
    | PredecessorUnresolved
    | SendLockUnavailable
    | Shutdown
    | IntegrityConflict
    | MetadataReplay

  /** The values the `stop_reason` column admits. */
  const STOP_REASONS: set<Reason> :=
    {WaitExpired, TransportError, ResponseInvalid, ReceiptUnconfirmed, RunStopped,
     PredecessorUnresolved, SendLockUnavailable, Shutdown, IntegrityConflict, MetadataReplay,
     StoreUnavailable, ClaimCommitUnconfirmed, RequestExpired, RequestNotYetValid,
     AdmissionDisabled, EpochMismatch, GatewayNotConfigured, CredentialMissing, RequestMissing,
     SchemaInvalid}

  /** `wellFormed` is the verdict of the JSON Schema and of the 8192-byte metadata limit. */
  datatype Envelope = Envelope(
    executionId: Uuid, confirmId: Uuid, callId: string, runId: Uuid, sessionId: string,
    ownerUserId: string, admissionEpoch: Uuid, toolName: string, argsDigest: nat,
    requestedAt: Time, expiresAt: Time, hasIdentity: bool,
    protocolVersion: int, wellFormed: bool, authentic: bool)

  datatype ReceiptStatus = Succeeded | Failed | TimedOut

  datatype Receipt = Receipt(
    executionId: Uuid, status: ReceiptStatus, outcomeDigest: nat, requestId: string,
    completedAt: Time, authentic: bool)

  datatype Source = Agent | Worker

  datatype Kind =
    | ClaimCommitted
    | WaitExpiredKind
    | TransportUncertain
    | PreDispatchRefused
    | WorkerResult
    | ResultPersistenceUnconfirmed
    | ResponseAccepted
    | RunStoppedKind
    | DuplicateSeen

  datatype ToolStatus = Success | Error | Denied

  datatype Observation = Observation(
    observationId: Uuid, executionId: Uuid, runId: Uuid, requestDigest: Digest<Envelope>,
    source: Source, kind: Kind, attemptId: string, requestId: string, reason: Reason,
    claimOwnerId: Option<Uuid>, receiptDigest: Option<Digest<Receipt>>,
    toolStatus: Option<ToolStatus>, receipt: Option<Receipt>,
    wellFormed: bool, authentic: bool)

  predicate IdCharacter(c: char) {
    'a' <= c <= 'z' || 'A' <= c <= 'Z' || '0' <= c <= '9' || c in "_.:-"
  }

  /** The request identifiers the ledger accepts: 1 to 256 characters of a closed alphabet. */
  predicate SafeRequestId(id: string) {
    1 <= |id| <= 256 && forall k :: 0 <= k < |id| ==> IdCharacter(id[k])
  }

  /** The first refusal of the request validator, in its order; `None` when the envelope is valid. */
  function ValidateRequest(e: Envelope, keyed: bool): Option<Reason> {
    if e.protocolVersion != 3 then Some(ProtocolUnsupported)
    else if !e.wellFormed then Some(BadRequest)
    else if !keyed then Some(SigningUnavailable)
    else if !e.authentic then Some(SignatureInvalid)
    else if !(0 < e.expiresAt - e.requestedAt <= MAX_LIFETIME) then Some(LifetimeInvalid)
    else None
  }

  /** Which side may author which kind. */
  predicate AuthorMayWrite(source: Source, kind: Kind) {
    match source
    case Agent =>
      kind in {WaitExpiredKind, TransportUncertain, PreDispatchRefused, ResponseAccepted, RunStoppedKind}
    case Worker =>
      kind in {ClaimCommitted, TransportUncertain, PreDispatchRefused, WorkerResult,
               ResultPersistenceUnconfirmed, RunStoppedKind, DuplicateSeen}
  }

  /** The observation schema: author, identifiers, and exactly the fields each kind carries. */
  predicate ObservationShape(o: Observation) {
    && o.wellFormed
    && AuthorMayWrite(o.source, o.kind)
    && SafeRequestId(o.attemptId)
    && SafeRequestId(o.requestId)
    && (o.receipt.Some? <==> o.kind == WorkerResult)
    && (o.toolStatus.Some? <==> o.kind == WorkerResult)
    && (o.claimOwnerId.Some? <==> o.kind in {ClaimCommitted, WorkerResult})
    && (o.receiptDigest.Some? <==> o.kind in {ResponseAccepted, WorkerResult})
  }

  /** The first refusal of the observation validator against the envelope it reports on. */
  function ValidateObservation(o: Observation, e: Envelope, keyed: bool): Option<Reason> {
    if !ObservationShape(o) then Some(BadRequest)
    else if !keyed || !o.authentic then Some(SignatureInvalid)
    else if o.executionId != e.executionId || o.runId != e.runId || o.requestDigest != Sha256(e) then
      Some(IdentityConflict)
    else if o.kind != WorkerResult then None
    else if !o.receipt.value.authentic then Some(SignatureInvalid)
    else if || o.receipt.value.executionId != e.executionId
            || o.receipt.value.requestId != o.attemptId
            || o.receiptDigest.value != Sha256(o.receipt.value)
            || (o.toolStatus.value == Success) != (o.receipt.value.status == Succeeded) then
      Some(IdentityConflict)
    else None
  }

  /** Builds and signs one plain observation; the fields of a claim, receipt or acceptance are
      filled in by the callers that write those kinds. */
  function Observe(e: Envelope, id: Uuid, source: Source, kind: Kind, attemptId: string,
                   requestId: string, reason: Reason): Observation
  {
    Observation(id, e.executionId, e.runId, Sha256(e), source, kind, attemptId, requestId, reason,
                None, None, None, None, true, true)
  }

  // ---- Worker responses -------------------------------------------------------------------

  datatype ReplyKind = OriginalResult | StatusOnly | RefusedReply | UnavailableReply

  datatype ToolReport = ToolReport(
    toolName: string, status: ToolStatus, timeoutCode: bool, hasError: bool, hasData: bool, digest: nat)

  /** The envelope fields a recovery page must echo. */
  datatype Echo = Echo(
    executionId: Uuid, runId: Uuid, admissionEpoch: Uuid, sessionId: string, confirmId: Uuid,
    callId: string, toolName: string, requestedAt: Time, expiresAt: Time)

  function EchoOf(e: Envelope): Echo {
    Echo(e.executionId, e.runId, e.admissionEpoch, e.sessionId, e.confirmId, e.callId, e.toolName,
         e.requestedAt, e.expiresAt)
  }

  datatype RecoveryPage = RecoveryPage(
    available: bool, runStopped: bool, integrityConflict: bool, receipt: Option<Receipt>,
    requestDigest: Digest<Envelope>, attemptId: string, claimed: bool,
    targetVerificationRequired: bool, echo: Echo, observations: seq<Observation>)

  /** A handoff response body; `wellFormed` is the verdict of its JSON Schema. */
  datatype Reply = Reply(
    kind: ReplyKind, requestId: string, report: ToolReport, fact: Observation,
    recovery: RecoveryPage, wellFormed: bool)

  /** The handoff-response schema: an original result always carries a worker result. */
  predicate ReplyShape(p: Reply) {
    p.wellFormed && (p.kind == OriginalResult ==> p.fact.kind == WorkerResult)
  }

  function ExpectedStatus(report: ToolReport): ReceiptStatus {
    if report.status == Success then Succeeded
    else if report.hasError && report.timeoutCode then TimedOut
    else Failed
  }

  /** The first refusal among the observations a recovery page carries. */
  function PageRefusal(page: seq<Observation>, e: Envelope, keyed: bool, attemptId: string): Option<Reason> {
    if page == [] then None
    else if ValidateObservation(page[0], e, keyed).Some? then ValidateObservation(page[0], e, keyed)
    else if page[0].attemptId != attemptId then Some(ResponseInvalid)
    else PageRefusal(page[1..], e, keyed, attemptId)
  }

  /** The unwrapped original-response validator: its refusals keep their own reason. */
  function CheckOriginal(p: Reply, e: Envelope, keyed: bool, attemptId: string, currentId: string)
    : Option<Reason>
  {
    if ValidateRequest(e, keyed).Some? then ValidateRequest(e, keyed)
    else if !ReplyShape(p) then Some(BadRequest)
    else if p.kind != OriginalResult then Some(MetadataReplay)
    else if ValidateObservation(p.fact, e, keyed).Some? then ValidateObservation(p.fact, e, keyed)
    else if || p.requestId != currentId || p.fact.requestId != currentId
            || p.fact.attemptId != attemptId || p.fact.source != Worker
            || p.report.toolName != e.toolName || p.fact.toolStatus != Some(p.report.status)
            || p.fact.receipt.value.status != ExpectedStatus(p.report)
            || p.fact.receipt.value.outcomeDigest != p.report.digest
            || (p.report.status == Success && (!p.report.hasData || p.report.hasError))
            || (p.report.status != Success && !p.report.hasError)
            || !p.recovery.available || p.recovery.runStopped || p.recovery.integrityConflict
            || p.recovery.receipt != p.fact.receipt || p.recovery.requestDigest != Sha256(e)
            || p.recovery.attemptId != attemptId || !p.recovery.claimed
            || !p.recovery.targetVerificationRequired || p.recovery.echo != EchoOf(e) then
      Some(ResponseInvalid)
    else PageRefusal(p.recovery.observations, e, keyed, attemptId)
  }

  /** An in-process validated response. Only `VerifyOriginal` builds one. */
  datatype VerifiedOriginal = VerifiedOriginal(payload: Reply, attemptId: string, currentId: string)

  /** Wire validation: every refusal is flattened to `ResponseInvalid`. */
  function VerifyOriginal(p: Reply, e: Envelope, keyed: bool, attemptId: string, currentId: string)
    : Result<VerifiedOriginal>
  {
    if CheckOriginal(p, e, keyed, attemptId, currentId).Some? then Err(ResponseInvalid)
    else Ok(VerifiedOriginal(p, attemptId, currentId))
  }

  /** What a passed check establishes about the carried fact: a worker's signed result for this
      very request, whose receipt succeeded exactly when the tool reported success. */
  lemma CheckedOriginalIsWorkerResult(p: Reply, e: Envelope, keyed: bool, attemptId: string, currentId: string)
    requires CheckOriginal(p, e, keyed, attemptId, currentId).None?
    ensures ValidateObservation(p.fact, e, keyed).None?
    ensures p.fact.kind == WorkerResult && p.fact.source == Worker && p.fact.attemptId == attemptId
    ensures p.fact.receiptDigest == Some(Sha256(p.fact.receipt.value))
    ensures p.report.status == Success <==> p.fact.receipt.value.status == Succeeded
  {
  }
}
