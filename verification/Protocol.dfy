/** The whole protocol as one state machine: agent processes running coordinator calls behind a
    process-local stop latch, workers claiming and sending under the run's mutex, and the shared
    ledger. Any interleaving of the actions below, with any placement of crashes and store
    failures, is a run. An action that does not apply changes nothing. */
module Protocol {
  import opened Basics
  import opened ExecutionProtocol
  import opened Ledger
  import opened Invocation

  /** One incarnation of an agent process. A restart is a new incarnation with a clear latch. */
  type Process = nat

  datatype RunIdentity = RunIdentity(runId: Uuid, sessionId: string, ownerUserId: string)

  datatype Outcome =
    | Original(success: bool, permitted: bool)
    | Uncertain(reason: Reason)
    | Blocked(reason: Reason)

  /** Where a coordinator call stands. */
  datatype Stage =
    | Begun                                   // about to consult the latch
    | Unlatched                               // about to register
    | Prepared                                // registered, about to hand off
    | Posted                                  // waiting for the worker
    | Verified(original: VerifiedOriginal)    // about to consult the latch again
    | Releasing(original: VerifiedOriginal)   // about to accept durably
    | Failing(reason: Reason)                 // about to set the latch
    | Latched(reason: Reason)                 // about to attempt the durable stop
    | Returned(outcome: Outcome)

  /** `barred` records whether the latch was already set when the call began, `posted` whether
      the worker was contacted. */
  datatype Call = Call(
    process: Process, guard: RunIdentity, cfg: Config, envelope: Envelope, handoff: Handoff,
    attemptId: string, currentId: string, barred: bool, posted: bool, stage: Stage)

  /** A secret-release permit and how often it has been consumed. */
  datatype Permit = Permit(process: Process, runId: Uuid, envelope: Envelope, digest: Option<Digest<Receipt>>,
                           uses: nat)

  /** A dispatch permit the worker minted; `used` once the send gate consumed it, `sent` once the
      tool call was started with it. */
  datatype Mint = Mint(envelope: Envelope, owner: Uuid, used: bool, sent: bool)

  /** Who holds a run's send mutex, and whether its tool call is still in flight. */
  datatype Gate = Gate(envelope: Envelope, running: bool)

  /** `strays` are the tool calls still in flight whose connection, and with it the mutex, was lost. */
  datatype System = System(
    db: Ledger, now: Time, dead: set<Process>, latch: set<(Process, Uuid)>, calls: map<nat, Call>,
    permits: seq<Permit>, mints: seq<Mint>, gates: map<Uuid, Gate>, strays: seq<Envelope>)

  /** How a transaction may fail besides its own refusals: refused before it commits, or committed
      with the acknowledgement lost. */
  datatype Fault = Healthy | RefusedEarly(reason: Reason) | CommitLost

  datatype Action =
    | Tick(ticks: nat)
    | Others(op: Op)
    | Begin(id: nat, process: Process, guard: RunIdentity, cfg: Config, envelope: Envelope, handoff: Handoff,
            attemptId: string, currentId: string)
    | Check(id: nat)
    | RegisterCall(id: nat, fault: Fault)
    | Post(id: nat)
    | Receive(id: nat, exchange: Exchange)
    | Recheck(id: nat)
    | AcceptCall(id: nat, factId: Uuid, fault: Fault)
    | SetLatch(id: nat)
    | StopCall(id: nat, factId: Uuid, fault: Fault)
    | Consume(permit: nat)
    | Crash(process: Process)
    | ClaimSend(cfg: Config, envelope: Envelope, requestId: string, owner: Uuid, factId: Uuid, fault: Fault)
    | OpenSend(mint: nat, cfg: Config)
    | ToolReturned(runId: Uuid)
    | FinishSend(runId: Uuid, cfg: Config, fact: Observation, stopReason: Option<Reason>)
    | CloseSend(runId: Uuid)
    | StrayReturned(stray: nat)

  /** The answer a faulty transaction gives. */
  function Answer<T>(out: Result<T>, fault: Fault): Result<T> {
    match fault
    case Healthy => out
    case RefusedEarly(reason) => Err(reason)
    case CommitLost => Err(StoreUnavailable)
  }

  function Effect(db: Ledger, op: Op, now: Time, fault: Fault): Ledger {
    if fault.RefusedEarly? then db else Apply(db, op, now)
  }

  predicate Live(s: System, id: nat) {
    id in s.calls && s.calls[id].process !in s.dead
  }

  function Move(s: System, id: nat, stage: Stage): System
    requires id in s.calls
  {
    s.(calls := s.calls[id := s.calls[id].(stage := stage)])
  }

  predicate InLatch(s: System, c: Call) {
    (c.process, c.guard.runId) in s.latch
  }

  /** The latch check of `ensure_not_stopped`. */
  function Guarded(s: System, id: nat, next: Stage): System
    requires id in s.calls
  {
    Move(s, id, if InLatch(s, s.calls[id]) then Failing(RunStopped) else next)
  }

  /** The runs whose mutex a transaction takes before it may stop them. */
  function StopTarget(op: Op): Option<Uuid> {
    match op
    case StopRunOp(_, runId, _, _, _, _) => Some(runId)
    case WorkerStopOp(_, e, _, _) => Some(e.runId)
    case _ => None
  }

  /** Transactions of other calls, processes and operators. Claims go through `ClaimSend`, and a
      worker report that also stops its run goes through the gate it holds. */
  predicate Admitted(s: System, op: Op) {
    && !op.ClaimOp?
    && (op.ReportOp? ==> op.stopReason.None?)
    && (StopTarget(op).Some? ==> StopTarget(op).value !in s.gates)
  }

  /** The stop a failing call attempts: attributed when an observation can be built, bare
      otherwise. */
  function StopNote(e: Envelope, keyed: bool, attemptId: string, currentId: string, reason: Reason, factId: Uuid)
    : Option<Attribution>
  {
    var fact := Observe(e, factId, Agent, StopKind(reason), attemptId, currentId, reason);
    if StopKind(reason) == RunStoppedKind || ValidateObservation(fact, e, keyed).Some? then None
    else Some(Attribution(e, fact))
  }

  function StopOp(c: Call, reason: Reason, factId: Uuid): Op {
    StopRunOp(c.cfg, c.guard.runId, c.guard.sessionId, c.guard.ownerUserId, reason,
              StopNote(c.envelope, c.cfg.keyed, c.attemptId, c.currentId, reason, factId))
  }

  function Report(reason: Reason): Outcome {
    if IsUncertain(reason) then Uncertain(reason) else Blocked(reason)
  }

  function AcceptedOp(c: Call, original: VerifiedOriginal, factId: Uuid): Op {
    AcceptOp(c.cfg, c.envelope, original, factId, c.currentId)
  }

  function NextRegister(s: System, id: nat, fault: Fault): System
    requires id in s.calls
  {
    var c := s.calls[id];
    var answer := Answer(Register(s.db, c.cfg, c.envelope, c.attemptId, s.now).out, fault);
    Move(s.(db := Effect(s.db, RegisterOp(c.cfg, c.envelope, c.attemptId), s.now, fault)), id,
         if answer.Ok? then Prepared else Failing(answer.reason))
  }

  function NextPost(s: System, id: nat): System
    requires id in s.calls
  {
    var c := s.calls[id];
    var refusal := BeforePost(c.envelope, c.handoff, c.cfg.keyed, c.attemptId);
    if refusal.Some? then Move(s, id, Failing(refusal.value))
    else s.(calls := s.calls[id := c.(stage := Posted, posted := true)])
  }

  function NextReceive(s: System, id: nat, x: Exchange): System
    requires id in s.calls
  {
    var c := s.calls[id];
    match AfterPost(x, c.envelope, c.cfg.keyed, c.attemptId)
    case Ok(original) => Move(s, id, Verified(original))
    case Err(reason) => Move(s, id, Failing(reason))
  }

  /** Durable acceptance, and the permit when the accepted tool result is a success. */
  function NextAccept(s: System, id: nat, factId: Uuid, fault: Fault): System
    requires id in s.calls && s.calls[id].stage.Releasing?
  {
    var c := s.calls[id];
    var original := c.stage.original;
    var answer := Answer(Accept(s.db, c.cfg, c.envelope, original, factId, c.currentId, s.now).out, fault);
    var after := s.(db := Effect(s.db, AcceptedOp(c, original, factId), s.now, fault));
    var success := original.payload.report.status == Success;
    if answer.Err? then Move(after, id, Failing(answer.reason))
    else if !success then Move(after, id, Returned(Original(false, false)))
    else
      var permit := Permit(c.process, c.guard.runId, c.envelope, original.payload.fact.receiptDigest, 0);
      Move(after.(permits := s.permits + [permit]), id, Returned(Original(true, true)))
  }

  /** The durable stop; while a send holds the mutex it fails and changes nothing. */
  function NextStop(s: System, id: nat, factId: Uuid, fault: Fault): System
    requires id in s.calls && s.calls[id].stage.Latched?
  {
    var c := s.calls[id];
    var reason := c.stage.reason;
    var db := if c.guard.runId in s.gates then s.db else Effect(s.db, StopOp(c, reason, factId), s.now, fault);
    Move(s.(db := db), id, Returned(Report(reason)))
  }

  function NextClaim(s: System, cfg: Config, e: Envelope, requestId: string, owner: Uuid, factId: Uuid,
                     fault: Fault): System {
    var answer := Answer(ClaimDispatch(s.db, cfg, e, requestId, owner, factId, s.now).out, fault);
    var after := s.(db := Effect(s.db, ClaimOp(cfg, e, requestId, owner, factId), s.now, fault));
    if answer.Ok? then after.(mints := s.mints + [Mint(e, owner, false, false)]) else after
  }

  /** Consumes the dispatch permit, takes the mutex and repeats the durable checks; only then is
      the tool call started. */
  function NextOpen(s: System, k: nat, cfg: Config): System
    requires k < |s.mints|
  {
    var m := s.mints[k];
    if m.used then s
    else if m.envelope.runId in s.gates || OpenSendRefusal(s.db, cfg, m.envelope, m.owner).Some? then
      s.(mints := s.mints[k := m.(used := true)])
    else
      s.(mints := s.mints[k := m.(used := true, sent := true)],
         gates := s.gates[m.envelope.runId := Gate(m.envelope, true)])
  }

  function Next(s: System, a: Action): System {
    match a
    case Tick(ticks) => s.(now := s.now + ticks)
    case Others(op) => if Admitted(s, op) then s.(db := Apply(s.db, op, s.now)) else s
    case Begin(id, p, guard, cfg, e, h, attemptId, currentId) =>
      if id in s.calls || p in s.dead then s
      else
        var barred := (p, guard.runId) in s.latch;
        s.(calls := s.calls[id := Call(p, guard, cfg, e, h, attemptId, currentId, barred, false, Begun)])
    case Check(id) => if Live(s, id) && s.calls[id].stage.Begun? then Guarded(s, id, Unlatched) else s
    case RegisterCall(id, fault) =>
      if Live(s, id) && s.calls[id].stage.Unlatched? then NextRegister(s, id, fault) else s
    case Post(id) => if Live(s, id) && s.calls[id].stage.Prepared? then NextPost(s, id) else s
    case Receive(id, x) => if Live(s, id) && s.calls[id].stage.Posted? then NextReceive(s, id, x) else s
    case Recheck(id) =>
      if Live(s, id) && s.calls[id].stage.Verified? then Guarded(s, id, Releasing(s.calls[id].stage.original)) else s
    case AcceptCall(id, factId, fault) =>
      if Live(s, id) && s.calls[id].stage.Releasing? then NextAccept(s, id, factId, fault) else s
    case SetLatch(id) =>
      if Live(s, id) && s.calls[id].stage.Failing? then
        var c := s.calls[id];
        Move(s.(latch := s.latch + {(c.process, c.guard.runId)}), id, Latched(c.stage.reason))
      else s
    case StopCall(id, factId, fault) =>
      if Live(s, id) && s.calls[id].stage.Latched? then NextStop(s, id, factId, fault) else s
    case Consume(k) =>
      if k < |s.permits| && s.permits[k].process !in s.dead && s.permits[k].uses == 0 then
        s.(permits := s.permits[k := s.permits[k].(uses := s.permits[k].uses + 1)])
      else s
    case Crash(p) => s.(dead := s.dead + {p})
    case ClaimSend(cfg, e, requestId, owner, factId, fault) => NextClaim(s, cfg, e, requestId, owner, factId, fault)
    case OpenSend(k, cfg) => if k < |s.mints| then NextOpen(s, k, cfg) else s
    case ToolReturned(r) =>
      if r in s.gates then s.(gates := s.gates[r := s.gates[r].(running := false)]) else s
    case FinishSend(r, cfg, fact, stopReason) =>
      if r in s.gates && !s.gates[r].running then
        s.(db := Apply(s.db, ReportOp(cfg, s.gates[r].envelope, fact, stopReason), s.now))
      else s
    case CloseSend(r) =>
      var lost := if r in s.gates && s.gates[r].running then [s.gates[r].envelope] else [];
      s.(gates := s.gates - {r}, strays := s.strays + lost)
    case StrayReturned(k) => if k < |s.strays| then s.(strays := s.strays[..k] + s.strays[k + 1..]) else s
  }

  function Start(enabled: bool, epoch: Uuid, now: Time): System {
    System(EmptyLedger(enabled, epoch), now, {}, {}, map[], [], [], map[], [])
  }

  function Perform(s: System, actions: seq<Action>): System {
    if actions == [] then s else Next(Perform(s, actions[..|actions| - 1]), actions[|actions| - 1])
  }

  ghost predicate Possible(s: System) {
    exists enabled, epoch, now, actions :: s == Perform(Start(enabled, epoch, now), actions)
  }
}
