/** The wire validators told as one condition each: which requests, observations and replies pass, which
    handoffs contact the worker, and which reasons are not uncertain. */
module WireChecks {
  import opened Basics
  import opened ExecutionProtocol
  import opened Invocation

  /** A request passes exactly as a well-formed, signed version 3 envelope of at most fifteen minutes. */
  lemma RequestIsValidExactlyWhen(e: Envelope, keyed: bool)
    ensures ValidateRequest(e, keyed).None? <==>
      && e.protocolVersion == 3 && e.wellFormed && keyed && e.authentic
      && e.requestedAt < e.expiresAt <= e.requestedAt + 900_000_000
  {
  }

  /** The kinds an author may write that carry no claim, receipt or result. */
  predicate PlainKind(source: Source, kind: Kind) {
    match kind
    case WaitExpiredKind => source == Agent
    case TransportUncertain => true
    case PreDispatchRefused => true
    case RunStoppedKind => true
    case ResultPersistenceUnconfirmed => source == Worker
    case DuplicateSeen => source == Worker
    case _ => false
  }

  /** What the observation builder signs passes the validator exactly for those kinds. */
  lemma PlainObservationIsValidExactlyWhen(e: Envelope, id: Uuid, source: Source, kind: Kind, attemptId: string,
                                           requestId: string, reason: Reason, keyed: bool)
    ensures ValidateObservation(Observe(e, id, source, kind, attemptId, requestId, reason), e, keyed).None? <==>
      PlainKind(source, kind) && SafeRequestId(attemptId) && SafeRequestId(requestId) && keyed
  {
    hide SafeRequestId;
  }

  /** The worker's report of a tool result. */
  function ResultFact(e: Envelope, id: Uuid, attemptId: string, requestId: string, owner: Uuid, receipt: Receipt,
                      status: ToolStatus): Observation
  {
    Observation(id, e.executionId, e.runId, Sha256(e), Worker, WorkerResult, attemptId, requestId, NoReason,
                Some(owner), Some(Sha256(receipt)), Some(status), Some(receipt), true, true)
  }

  /** It passes exactly with a signed receipt of this execution and attempt that tells success as the tool
      did, whatever the tool reported. */
  lemma ResultFactIsValidExactlyWhen(e: Envelope, id: Uuid, attemptId: string, requestId: string, owner: Uuid,
                                     receipt: Receipt, status: ToolStatus, keyed: bool)
    ensures ValidateObservation(ResultFact(e, id, attemptId, requestId, owner, receipt, status), e, keyed).None? <==>
      && SafeRequestId(attemptId) && SafeRequestId(requestId) && keyed && receipt.authentic
      && receipt.executionId == e.executionId && receipt.requestId == attemptId
      && (status == Success <==> receipt.status == Succeeded)
  {
    hide SafeRequestId;
  }

  /** A reply whose recovery page and result agree with the request. */
  predicate Agrees(p: Reply, e: Envelope, attemptId: string) {
    && p.report.toolName == e.toolName && p.fact.toolStatus == Some(p.report.status)
    && (if p.report.status == Success then p.report.hasData && !p.report.hasError else p.report.hasError)
    && p.recovery.available && !p.recovery.runStopped && !p.recovery.integrityConflict && p.recovery.claimed
    && p.recovery.targetVerificationRequired && p.recovery.receipt == p.fact.receipt
    && p.recovery.requestDigest == Sha256(e) && p.recovery.attemptId == attemptId
    && p.recovery.echo == Echo(e.executionId, e.runId, e.admissionEpoch, e.sessionId, e.confirmId, e.callId, e.toolName,
                               e.requestedAt, e.expiresAt)
  }

  /** The receipt of a reply tells the tool's outcome, and its digest. */
  predicate ReceiptTells(p: Reply) {
    && p.fact.receipt.Some?
    && p.fact.receipt.value.outcomeDigest == p.report.digest
    && match p.fact.receipt.value.status
       case Succeeded => p.report.status == Success
       case TimedOut => p.report.status != Success && p.report.hasError && p.report.timeoutCode
       case Failed => p.report.status != Success && !(p.report.hasError && p.report.timeoutCode)
  }

  lemma {:induction false} PagePassesExactlyWhen(page: seq<Observation>, e: Envelope, keyed: bool, attemptId: string)
    ensures PageRefusal(page, e, keyed, attemptId).None? <==>
      forall k :: 0 <= k < |page| ==> ValidateObservation(page[k], e, keyed).None? && page[k].attemptId == attemptId
  {
    hide ValidateObservation;
    if page != [] { PagePassesExactlyWhen(page[1..], e, keyed, attemptId); }
  }

  /** A reply is verified exactly as the original worker result of this request and attempt whose fact,
      receipt, page and result agree. */
  lemma OriginalIsVerifiedExactlyWhen(p: Reply, e: Envelope, keyed: bool, attemptId: string, currentId: string)
    ensures VerifyOriginal(p, e, keyed, attemptId, currentId).Ok? <==>
      && ValidateRequest(e, keyed).None? && p.wellFormed && p.kind == OriginalResult
      && p.fact.kind == WorkerResult && p.fact.source == Worker && ValidateObservation(p.fact, e, keyed).None?
      && p.requestId == currentId && p.fact.requestId == currentId && p.fact.attemptId == attemptId
      && ReceiptTells(p) && Agrees(p, e, attemptId)
      && (forall k :: 0 <= k < |p.recovery.observations| ==>
            && ValidateObservation(p.recovery.observations[k], e, keyed).None?
            && p.recovery.observations[k].attemptId == attemptId)
    ensures VerifyOriginal(p, e, keyed, attemptId, currentId).Ok? ==>
      VerifyOriginal(p, e, keyed, attemptId, currentId).value == VerifiedOriginal(p, attemptId, currentId)
    ensures VerifyOriginal(p, e, keyed, attemptId, currentId).Err? ==>
      VerifyOriginal(p, e, keyed, attemptId, currentId).reason == ResponseInvalid
  {
    hide ValidateRequest, PageRefusal, SafeRequestId, AuthorMayWrite;
    PagePassesExactlyWhen(p.recovery.observations, e, keyed, attemptId);
  }

  /** The worker is contacted exactly with a valid request, the credentials it calls for and no others,
      the arguments that were signed, a safe attempt id and a timeout of at most two minutes. */
  lemma HandoffPostsExactlyWhen(e: Envelope, h: Handoff, keyed: bool, attemptId: string)
    ensures BeforePost(e, h, keyed, attemptId).None? <==>
      && ValidateRequest(e, keyed).None? && h.requester == (if e.hasIdentity then Usable else Absent)
      && h.delegated == Usable && h.configured && h.argsDigest == Some(e.argsDigest) && SafeRequestId(attemptId)
      && h.timeout.Some? && 0.0 < h.timeout.value <= 120.0
    ensures ValidateRequest(e, keyed).Some? ==> BeforePost(e, h, keyed, attemptId) == ValidateRequest(e, keyed)
    ensures var reason := BeforePost(e, h, keyed, attemptId);
      ValidateRequest(e, keyed).None? ==>
        && (reason == Some(GatewayNotConfigured) ==> !h.configured)
        && (reason == Some(ArgsDigestMismatch) ==> h.argsDigest != Some(e.argsDigest))
        && (reason == Some(CredentialMissing) ==> h.delegated != Usable || (e.hasIdentity && h.requester != Usable))
        && reason in {None, Some(GatewayNotConfigured), Some(ArgsDigestMismatch), Some(CredentialMissing),
                      Some(BadRequest)}
        && (reason == Some(BadRequest) ==>
              || (!e.hasIdentity && h.requester != Absent) || !SafeRequestId(attemptId)
              || h.timeout.None? || !(0.0 < h.timeout.value <= 120.0))
  {
    hide ValidateRequest, SafeRequestId;
  }

  /** A verified original comes back exactly from a readable 200 answer under this attempt's id. */
  lemma HandoffDeliversExactlyWhen(x: Exchange, e: Envelope, keyed: bool, attemptId: string)
    ensures AfterPost(x, e, keyed, attemptId).Ok? <==>
      && x.Response? && x.headerId == Some(attemptId) && x.status == 200
      && VerifyOriginal(x.payload, e, keyed, attemptId, attemptId).Ok?
    ensures AfterPost(x, e, keyed, attemptId).Err? ==>
      var told := x.Response? && x.headerId == Some(attemptId) && ReplyShape(x.payload)
                  && x.payload.requestId == attemptId;
      AfterPost(x, e, keyed, attemptId).reason ==
        (if x.TimedOutWaiting? then WaitExpired
         else if x.Broken? || (told && x.payload.kind in {RefusedReply, UnavailableReply}) then TransportError
         else if told && x.payload.kind == StatusOnly then MetadataReplay
         else ResponseInvalid)
  {
    hide ValidateRequest, ValidateObservation, PageRefusal;
  }

  /** The reasons that a call reports as `blocked`, and the fact each stop is attributed with. */
  lemma BlockingReasons(r: Reason)
    ensures !IsUncertain(r) <==>
      r in {NoReason, Unauthorized, BadRequest, SigningUnavailable, SignatureInvalid, ArgsDigestMismatch,
            RequestMissing, IdentityConflict, ProtocolUnsupported, RequestExpired, RequestNotYetValid,
            LifetimeInvalid, AdmissionDisabled, EpochMismatch, SchemaInvalid,
            GatewayNotConfigured, CredentialMissing, RunStopped, PredecessorUnresolved}
    ensures StopKind(r) == RunStoppedKind <==> r == RunStopped
    ensures StopKind(r) == WaitExpiredKind <==> r == WaitExpired
    ensures StopKind(r) == PreDispatchRefused <==> !IsUncertain(r) && r != RunStopped
    ensures StopKind(r) == TransportUncertain <==> IsUncertain(r) && r != WaitExpired
  {
  }

  /** The reasons the `stop_reason` column does not admit. */
  lemma InadmissibleStopReasons(r: Reason)
    ensures r !in STOP_REASONS <==>
      r in {NoReason, Unauthorized, BadRequest, SigningUnavailable, SignatureInvalid, ArgsDigestMismatch,
            IdentityConflict, ProtocolUnsupported, LifetimeInvalid}
  {
  }
}
