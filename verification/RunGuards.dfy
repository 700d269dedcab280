/** The agent-side guard of one run as it works: the process-local stop latch, the single-use
    secret-release permit, the durable stop behind the latch, and the coordinator of one call. */
module RunGuards {
  import opened Basics
  import opened ExecutionProtocol
  import opened Tables = Ledger
  import opened LedgerInvariants
  import opened LedgerHistory
  import opened LedgerStore
  import opened Invocation
  import opened Protocol
  import opened ProtocolSteps
  import opened ProtocolInvariants

  /** Set once per run and never cleared: the first reason stays. */
  class RunStopLatch {
    var marks: map<Uuid, Reason>

    predicate IsStopped(runId: Uuid)
      reads this
    {
      runId in marks
    }

    constructor ()
      ensures marks == map[]
    {
      marks := map[];
    }

    method Mark(runId: Uuid, reason: Reason)
      modifies this
      ensures IsStopped(runId) && marks.Keys == old(marks).Keys + {runId}
      ensures forall r :: r in old(marks) ==> marks[r] == old(marks)[r]
      ensures runId !in old(marks) ==> marks[runId] == if reason == NoReason then RunStopped else reason
    {
      if runId !in marks {
        marks := marks[runId := if reason == NoReason then RunStopped else reason];
      }
    }
  }

  /** Authority to reveal one already-held delivery, burnt once and only where it was minted. */
  class SecretReleasePermit {
    const process: Process
    const runId: Uuid
    const executionId: Uuid
    const digest: Option<Digest<Receipt>>
    var consumed: bool

    constructor (process: Process, runId: Uuid, executionId: Uuid, digest: Option<Digest<Receipt>>)
      ensures this.process == process && this.runId == runId && this.executionId == executionId && this.digest == digest
      ensures !consumed
    {
      this.process, this.runId, this.executionId, this.digest := process, runId, executionId, digest;
      consumed := false;
    }

    method Consume(caller: Process) returns (burnt: bool)
      modifies this
      ensures burnt <==> caller == process && !old(consumed)
      ensures consumed <==> old(consumed) || burnt
    {
      if caller != process || consumed { return false; }
      consumed := true;
      burnt := true;
    }
  }

  /** However often and wherever a permit is offered for consumption, it burns at most once. */
  method OfferPermit(permit: SecretReleasePermit, callers: seq<Process>) returns (burns: nat)
    modifies permit
    ensures burns <= 1
    ensures burns == 1 <==> !old(permit.consumed) && permit.process in callers
    ensures permit.consumed <==> old(permit.consumed) || burns == 1
  {
    burns := 0;
    for k := 0 to |callers|
      invariant burns == (if !old(permit.consumed) && permit.process in callers[..k] then 1 else 0)
      invariant permit.consumed <==> old(permit.consumed) || burns == 1
    {
      var burnt := permit.Consume(callers[k]);
      if burnt { burns := burns + 1; }
    }
    assert callers[..|callers|] == callers;
  }

  class RunGuard {
    const process: Process
    const identity: RunIdentity
    const recovery: ExecutionRecovery?
    const latch: RunStopLatch

    constructor (process: Process, identity: RunIdentity, recovery: ExecutionRecovery?, latch: RunStopLatch)
      ensures this.process == process && this.identity == identity && this.recovery == recovery && this.latch == latch
    {
      this.process, this.identity, this.recovery, this.latch := process, identity, recovery, latch;
    }

    predicate Stopped()
      reads latch
    {
      latch.IsStopped(identity.runId)
    }

    /** Sets the latch first, then attempts the durable stop; a refused write leaves the latch set. */
    method DurableStop(reason: Reason, note: Option<Attribution>, now: Time) returns (acknowledged: bool)
      modifies latch, recovery
      ensures Stopped() && latch.marks.Keys == old(latch.marks).Keys + {identity.runId}
      ensures recovery == null ==> !acknowledged
      ensures recovery != null ==>
        var step := StopRun(old(recovery.Contents()), recovery.cfg, identity.runId, identity.sessionId,
                            identity.ownerUserId, reason, note, now);
        recovery.Contents() == step.db && acknowledged == step.out.Ok?
      ensures recovery != null && LedgerOk(old(recovery.Contents()), now) ==> LedgerOk(recovery.Contents(), now)
    {
      hide StopRun, LedgerOk;
      latch.Mark(identity.runId, reason);
      if recovery == null { return false; }
      var r := recovery.StopRun(identity.runId, identity.sessionId, identity.ownerUserId, reason, note, now);
      acknowledged := r.Ok?;
    }

    /** A permit comes only from a durable acceptance of a success on an unlatched run. */
    method ReleasePermit(e: Envelope, original: VerifiedOriginal, factId: Uuid, currentId: string, now: Time)
      returns (r: Result<SecretReleasePermit?>)
      modifies recovery
      ensures Stopped() ==> r == Err(RunStopped)
      ensures !Stopped() && recovery == null ==> r == Err(ReceiptUnconfirmed)
      ensures recovery != null && Stopped() ==> recovery.Contents() == old(recovery.Contents())
      ensures recovery != null && !Stopped() ==>
        var step := Accept(old(recovery.Contents()), recovery.cfg, e, original, factId, currentId, now);
        && recovery.Contents() == step.db
        && (r.Ok? <==> step.out.Ok?) && (r.Err? ==> r.reason == step.out.reason)
      ensures r.Ok? ==> (r.value != null <==> original.payload.report.status == Success)
      ensures r.Ok? && r.value != null ==>
        && fresh(r.value) && !r.value.consumed && r.value.process == process
        && r.value.runId == identity.runId && r.value.executionId == e.executionId
        && r.value.digest == original.payload.fact.receiptDigest
      ensures recovery != null && LedgerOk(old(recovery.Contents()), now) ==> LedgerOk(recovery.Contents(), now)
    {
      hide Accept, LedgerOk;
      if Stopped() { return Err(RunStopped); }
      if recovery == null { return Err(ReceiptUnconfirmed); }
      var accepted := recovery.Accept(e, original, factId, currentId, now);
      if accepted.Err? { return Err(accepted.reason); }
      if original.payload.report.status != Success { return Ok(null); }
      var permit := new SecretReleasePermit(process, identity.runId, e.executionId,
                                            original.payload.fact.receiptDigest);
      r := Ok(permit);
    }
  }

  // ---- The coordinator --------------------------------------------------------------------

  /** What happens around one call: the worker's exchange, and what other parties commit and
      whether another call latches the run while this one waits for it. */
  datatype Surroundings = Surroundings(
    exchange: Exchange, meanwhile: seq<Event>, latched: bool, acceptId: Uuid, stopId: Uuid, start: Time, end: Time)

  /** The part that may raise: register, hand off, accept, release. */
  method Attempt(guard: RunGuard, e: Envelope, h: Handoff, attemptId: string, currentId: string, around: Surroundings)
    returns (r: Result<SecretReleasePermit?>, success: bool, posted: bool)
    requires guard.recovery != null && LedgerOk(guard.recovery.Contents(), around.start)
    requires Timely(around.meanwhile, around.start, around.end)
    modifies guard.recovery, guard.latch
    ensures old(guard.Stopped()) ==>
      r == Err(RunStopped) && !posted && guard.recovery.Contents() == old(guard.recovery.Contents())
    ensures !old(guard.Stopped()) ==>
      var registered := Register(old(guard.recovery.Contents()), guard.recovery.cfg, e, attemptId, around.start);
      && (posted <==> registered.out.Ok? && BeforePost(e, h, guard.recovery.cfg.keyed, attemptId).None?)
      && (!posted ==> r.Err? && guard.recovery.Contents() == registered.db)
    ensures posted && !guard.Stopped() && AfterPost(around.exchange, e, guard.recovery.cfg.keyed, attemptId).Ok? ==>
      var original := AfterPost(around.exchange, e, guard.recovery.cfg.keyed, attemptId).value;
      var registered := Register(old(guard.recovery.Contents()), guard.recovery.cfg, e, attemptId, around.start);
      var step := Accept(Play(registered.db, around.meanwhile), guard.recovery.cfg, e, original, around.acceptId,
                         currentId, around.end);
      guard.recovery.Contents() == step.db && (r.Ok? <==> step.out.Ok?)
    ensures r.Ok? ==>
      posted && !guard.Stopped() && AfterPost(around.exchange, e, guard.recovery.cfg.keyed, attemptId).Ok?
    ensures r.Ok? ==>
      var original := AfterPost(around.exchange, e, guard.recovery.cfg.keyed, attemptId).value;
      success == (original.payload.report.status == Success)
    ensures r.Ok? ==> (r.value != null <==> success)
    ensures r.Ok? && r.value != null ==>
      && fresh(r.value) && !r.value.consumed && r.value.executionId == e.executionId
      && Registered(guard.recovery.Contents(), e)
      && exists a, w :: RestsOn(guard.recovery.Contents(), e.executionId, r.value.digest, a, w)
    ensures LedgerOk(guard.recovery.Contents(), around.end)
    ensures old(guard.latch.marks).Keys <= guard.latch.marks.Keys
    ensures guard.Stopped() <==> old(guard.Stopped()) || (posted && around.latched)
  {
    hide Register, Accept, BeforePost, AfterPost, Play, LedgerOk, Later, RestsOn, Registered;
    success, posted := false, false;
    TimePasses(guard.recovery.Contents(), around.start, around.end);
    if guard.Stopped() { return Err(RunStopped), false, false; }
    var registered := guard.recovery.Register(e, attemptId, around.start);
    TimePasses(guard.recovery.Contents(), around.start, around.end);
    if registered.Err? { return Err(registered.reason), false, false; }
    var refusal := BeforePost(e, h, guard.recovery.cfg.keyed, attemptId);
    if refusal.Some? { return Err(refusal.value), false, false; }
    posted := true;
    PlayKeeps(guard.recovery.Contents(), around.meanwhile, around.start, around.end);
    guard.recovery.Absorb(around.meanwhile);
    if around.latched { guard.latch.Mark(guard.identity.runId, RunStopped); }
    var original := AfterPost(around.exchange, e, guard.recovery.cfg.keyed, attemptId);
    if original.Err? { return Err(original.reason), false, true; }
    ghost var before := guard.recovery.Contents();
    r := guard.ReleasePermit(e, original.value, around.acceptId, currentId, around.end);
    success := original.value.payload.report.status == Success;
    if r.Ok? && success {
      AcceptanceSupports(before, guard.recovery.cfg, e, original.value, around.acceptId, currentId, around.end);
    }
  }

  lemma StopLeavesIntents(db: Tables.Ledger, cfg: Config, id: RunIdentity, reason: Reason, note: Option<Attribution>,
                          now: Time)
    ensures StopRun(db, cfg, id.runId, id.sessionId, id.ownerUserId, reason, note, now).db.intents == db.intents
  {
    hide AgentAppend, ValidateRequest, AgentRefusal, CheckRun, STOP_REASONS;
    if StopRefusal(db, cfg, id.runId, id.sessionId, id.ownerUserId, note).None? && note.Some? {
      AppendsOnly(db, db.intents[note.value.envelope.executionId], note.value.fact, cfg.keyed, now);
    }
  }

  /** One approved mutating call. A call on a latched run neither registers nor posts; any failure
      latches the run and is classified; a permit exists only behind a durable acceptance whose
      claim, owned succeeded result and acceptance row the ledger then holds. */
  method Coordinate(guard: RunGuard, e: Envelope, h: Handoff, attemptId: string, currentId: string,
                    around: Surroundings)
    returns (outcome: Outcome, posted: bool, permit: SecretReleasePermit?)
    requires guard.recovery != null && LedgerOk(guard.recovery.Contents(), around.start)
    requires Timely(around.meanwhile, around.start, around.end)
    modifies guard.recovery, guard.latch
    ensures old(guard.Stopped()) ==>
      outcome == Blocked(RunStopped) && !posted
      && guard.recovery.Contents().intents == old(guard.recovery.Contents()).intents
    ensures !outcome.Original? ==> guard.Stopped() && permit == null
    ensures outcome.Original? ==> posted && !guard.Stopped()
    ensures outcome.Original? <==>
      var cfg := guard.recovery.cfg;
      var registered := Register(old(guard.recovery.Contents()), cfg, e, attemptId, around.start);
      var original := AfterPost(around.exchange, e, cfg.keyed, attemptId);
      && !old(guard.Stopped()) && registered.out.Ok? && BeforePost(e, h, cfg.keyed, attemptId).None?
      && !around.latched && original.Ok?
      && Accept(Play(registered.db, around.meanwhile), cfg, e, original.value, around.acceptId, currentId,
                around.end).out.Ok?
    ensures outcome.Original? ==>
      outcome.success == (AfterPost(around.exchange, e, guard.recovery.cfg.keyed, attemptId).value.payload.report.status
                          == Success)
    ensures outcome.Uncertain? || outcome.Blocked? ==> outcome == Report(outcome.reason)
    ensures permit != null <==> outcome == Original(true, true)
    ensures permit != null ==>
      && fresh(permit) && !permit.consumed && permit.executionId == e.executionId
      && Registered(guard.recovery.Contents(), e)
      && exists a, r :: RestsOn(guard.recovery.Contents(), e.executionId, permit.digest, a, r)
    ensures LedgerOk(guard.recovery.Contents(), around.end)
    ensures old(guard.latch.marks).Keys <= guard.latch.marks.Keys
  {
    hide Register, Accept, BeforePost, AfterPost, Play, LedgerOk, Later, RestsOn, Registered, Tables.StopRun;
    var r, success, contacted := Attempt(guard, e, h, attemptId, currentId, around);
    posted := contacted;
    if r.Ok? { return Original(success, success), posted, r.value; }
    var note := StopNote(e, guard.recovery.cfg.keyed, attemptId, currentId, r.reason, around.stopId);
    ghost var before := guard.recovery.Contents();
    var acknowledged := guard.DurableStop(r.reason, note, around.end);
    StopLeavesIntents(before, guard.recovery.cfg, guard.identity, r.reason, note, around.end);
    return Report(r.reason), posted, null;
  }
}
