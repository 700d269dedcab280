/** The pure parts of one mutating invocation: the checks before the worker is contacted, the
    validation of what comes back, and how a failure is classified. */
module Invocation {
  import opened Basics
  import opened ExecutionProtocol

  // ---- Classification ---------------------------------------------------------------------

  const UNCERTAIN_REASONS: set<Reason> :=
    {TransportError, ResponseInvalid, MetadataReplay, ReceiptUnconfirmed, ClaimCommitUnconfirmed,
     SendLockUnavailable, StoreUnavailable, Shutdown, IntegrityConflict}

  /** The kind of the observation a stop is attributed with. */
  function StopKind(reason: Reason): Kind {
    if reason == WaitExpired then WaitExpiredKind
    else if reason == RunStopped then RunStoppedKind
    else if reason in UNCERTAIN_REASONS then TransportUncertain
    else PreDispatchRefused
  }

  predicate IsUncertain(reason: Reason) {
    reason == WaitExpired || reason in UNCERTAIN_REASONS
  }

  // ---- The handoff ------------------------------------------------------------------------

  /** A bearer token: absent, present but not a non-blank string, or usable. */
  datatype Credential = Absent | Unusable | Usable

  /** What the caller and the settings supply. `argsDigest` is `None` when the arguments are not
      an object, `timeout` is `None` when the setting is not a number. */
  datatype Handoff = Handoff(
    requester: Credential, delegated: Credential, configured: bool, argsDigest: Option<nat>,
    timeout: Option<real>)

  /** The refusals before any byte is sent, in order. */
  function BeforePost(e: Envelope, h: Handoff, keyed: bool, attemptId: string): Option<Reason> {
    if ValidateRequest(e, keyed).Some? then ValidateRequest(e, keyed)
    else if e.hasIdentity && h.requester != Usable then Some(CredentialMissing)
    else if !e.hasIdentity && h.requester != Absent then Some(BadRequest)
    else if !h.configured then Some(GatewayNotConfigured)
    else if h.delegated != Usable then Some(CredentialMissing)
    else if h.argsDigest != Some(e.argsDigest) then Some(ArgsDigestMismatch)
    else if !SafeRequestId(attemptId) then Some(BadRequest)
    else if h.timeout.None? || !(0.0 < h.timeout.value <= 120.0) then Some(BadRequest)
    else None
  }

  /** What became of the post. `Garbled` is any body or header the client cannot read. */
  datatype Exchange =
    | TimedOutWaiting
    | Broken
    | Garbled
    | Response(headerId: Option<string>, status: int, payload: Reply)

  function AfterPost(x: Exchange, e: Envelope, keyed: bool, attemptId: string): Result<VerifiedOriginal> {
    match x
    case TimedOutWaiting => Err(WaitExpired)
    case Broken => Err(TransportError)
    case Garbled => Err(ResponseInvalid)
    case Response(headerId, status, payload) =>
      if headerId != Some(attemptId) || !ReplyShape(payload) || payload.requestId != attemptId then Err(ResponseInvalid)
      else if payload.kind == StatusOnly then Err(MetadataReplay)
      else if payload.kind != OriginalResult then Err(TransportError)
      else if status != 200 then Err(ResponseInvalid)
      else VerifyOriginal(payload, e, keyed, attemptId, attemptId)
  }

  /** The whole exchange: a verified original, or a reason and whether the post was attempted. */
  datatype HandoffEnd = Delivered(original: VerifiedOriginal) | Failure(reason: Reason, posted: bool)

  function RunHandoff(e: Envelope, h: Handoff, keyed: bool, attemptId: string, x: Exchange): HandoffEnd {
    if BeforePost(e, h, keyed, attemptId).Some? then Failure(BeforePost(e, h, keyed, attemptId).value, false)
    else match AfterPost(x, e, keyed, attemptId)
      case Ok(original) => Delivered(original)
      case Err(reason) => Failure(reason, true)
  }

  /** The classifier tells the two phases of the handoff apart: a failure is uncertain exactly
      when the post had been attempted, and a pre-dispatch refusal exactly when it had not. */
  lemma ClassifierSeesThePost(e: Envelope, h: Handoff, keyed: bool, attemptId: string, x: Exchange)
    requires RunHandoff(e, h, keyed, attemptId, x).Failure?
    ensures var end := RunHandoff(e, h, keyed, attemptId, x);
      && (IsUncertain(end.reason) <==> end.posted)
      && (StopKind(end.reason) == PreDispatchRefused <==> !end.posted)
      && (StopKind(end.reason) in {WaitExpiredKind, TransportUncertain} <==> end.posted)
  {
    hide CheckOriginal, SafeRequestId, ReplyShape;
  }
}
