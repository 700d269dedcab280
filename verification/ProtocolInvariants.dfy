/** The invariant of the whole protocol, kept by every action, whatever the interleaving, the
    crashes and the store failures. */
module ProtocolInvariants {
  import opened Basics
  import opened ExecutionProtocol
  import opened Ledger
  import opened LedgerInvariants
  import opened LedgerHistory
  import opened LedgerTheorems
  import opened Invocation
  import opened Protocol
  import opened ProtocolSteps

  // ---- The invariant ----------------------------------------------------------------------

  /** A minted envelope stays claimed for its owner while it is registered; it leaves the ledger
      only past its retention. */
  ghost predicate Standing(db: Ledger, now: Time, e: Envelope, owner: Uuid) {
    if Registered(db, e) then e.executionId in db.claims && db.claims[e.executionId].ownerId == owner
    else e.expiresAt + RETENTION <= now
  }

  predicate Related(a: Envelope, b: Envelope) {
    a.executionId == b.executionId || SameCall(a, b)
  }

  ghost predicate MintsOk(db: Ledger, now: Time, mints: seq<Mint>) {
    && (forall k :: 0 <= k < |mints| ==> Standing(db, now, mints[k].envelope, mints[k].owner))
    && (forall j, k :: 0 <= j < k < |mints| && Related(mints[j].envelope, mints[k].envelope) ==>
          mints[j].envelope.expiresAt + RETENTION < mints[k].envelope.expiresAt)
    && (forall k :: 0 <= k < |mints| && mints[k].sent ==> mints[k].used)
  }

  /** The claim, the owner's succeeded result and the acceptance a permit rests on. */
  ghost predicate RestsOn(db: Ledger, e: Uuid, digest: Option<Digest<Receipt>>, a: Row, r: Row) {
    && e in db.claims
    && r in db.rows && IsResult(r, e) && r.fact.claimOwnerId == Some(db.claims[e].ownerId)
    && r.fact.receiptDigest == digest && r.fact.receipt.Some? && r.fact.receipt.value.status == Succeeded
    && a in db.rows && IsAcceptance(a, e) && a.fact.receiptDigest == digest
  }

  ghost predicate Supported(db: Ledger, p: Permit) {
    Registered(db, p.envelope) && exists a, r :: RestsOn(db, p.envelope.executionId, p.digest, a, r)
  }

  ghost predicate PermitsOk(db: Ledger, now: Time, permits: seq<Permit>) {
    forall k :: 0 <= k < |permits| ==>
      permits[k].uses <= 1 && (now < permits[k].envelope.expiresAt + RETENTION ==> Supported(db, permits[k]))
  }

  /** The stages of a call that has neither registered nor contacted the worker. */
  predicate Refused(stage: Stage) {
    stage in {Begun, Failing(RunStopped), Latched(RunStopped), Returned(Blocked(RunStopped))}
  }

  predicate Failed(stage: Stage) {
    stage.Latched? || (stage.Returned? && !stage.outcome.Original?)
  }

  predicate PastRegistration(stage: Stage) {
    stage.Prepared? || stage.Posted? || stage.Verified? || stage.Releasing?
  }

  ghost predicate CallOk(db: Ledger, now: Time, latch: set<(Process, Uuid)>, c: Call) {
    && (c.barred || Failed(c.stage) ==> (c.process, c.guard.runId) in latch)
    && (c.barred ==> Refused(c.stage) && !c.posted)
    && (c.posted ==> !c.stage.Begun? && !c.stage.Unlatched? && !c.stage.Prepared?)
    && (PastRegistration(c.stage) ==> Registered(db, c.envelope) || c.envelope.expiresAt + RETENTION <= now)
    && (c.stage.Verified? || c.stage.Releasing? ==>
          VerifyOriginal(c.stage.original.payload, c.envelope, c.cfg.keyed, c.attemptId, c.attemptId)
          == Ok(c.stage.original))
  }

  ghost predicate CallsOk(db: Ledger, now: Time, latch: set<(Process, Uuid)>, calls: map<nat, Call>) {
    forall id :: id in calls ==> CallOk(db, now, latch, calls[id])
  }

  /** No tool call is in flight behind the mutex of a stopped run. */
  ghost predicate GatesOk(db: Ledger, gates: map<Uuid, Gate>) {
    forall r :: r in gates ==> gates[r].envelope.runId == r && (gates[r].running ==> !Stopped(db, r))
  }

  ghost predicate SystemOk(s: System) {
    && LedgerOk(s.db, s.now) && MintsOk(s.db, s.now, s.mints) && PermitsOk(s.db, s.now, s.permits)
    && CallsOk(s.db, s.now, s.latch, s.calls) && GatesOk(s.db, s.gates)
  }

  // ---- The ledger moves under the rest ----------------------------------------------------

  lemma StandingStays(db: Ledger, after: Ledger, now: Time, e: Envelope, owner: Uuid)
    requires Steady(db, after, now) && Standing(db, now, e, owner)
    ensures Standing(after, now, e, owner)
  {
  }

  lemma MintsStay(db: Ledger, after: Ledger, now: Time, mints: seq<Mint>)
    requires Steady(db, after, now) && MintsOk(db, now, mints)
    ensures MintsOk(after, now, mints)
  {
    hide Steady, Standing;
    forall k | 0 <= k < |mints| ensures Standing(after, now, mints[k].envelope, mints[k].owner) {
      StandingStays(db, after, now, mints[k].envelope, mints[k].owner);
    }
  }

  lemma SupportStays(db: Ledger, after: Ledger, now: Time, p: Permit)
    requires Later(db, after, now) && now < p.envelope.expiresAt + RETENTION && Supported(db, p)
    ensures Supported(after, p)
  {
    hide NoNewIntents, NoNewClaims, NoNewAcceptances, RunsPersist;
    var e := p.envelope.executionId;
    var a, r :| RestsOn(db, e, p.digest, a, r);
    assert InRetention(db.intents, e, now);
    assert RestsOn(after, e, p.digest, a, r);
  }

  lemma PermitsStay(db: Ledger, after: Ledger, now: Time, permits: seq<Permit>)
    requires Later(db, after, now) && PermitsOk(db, now, permits)
    ensures PermitsOk(after, now, permits)
  {
    hide Later, Supported;
    forall k | 0 <= k < |permits| && now < permits[k].envelope.expiresAt + RETENTION
      ensures Supported(after, permits[k])
    {
      SupportStays(db, after, now, permits[k]);
    }
  }

  lemma CallStays(db: Ledger, after: Ledger, now: Time, latch: set<(Process, Uuid)>, more: set<(Process, Uuid)>,
                  c: Call)
    requires Steady(db, after, now) && CallOk(db, now, latch, c) && latch <= more
    ensures CallOk(after, now, more, c)
  {
    hide VerifyOriginal;
  }

  lemma CallsStay(db: Ledger, after: Ledger, now: Time, latch: set<(Process, Uuid)>, calls: map<nat, Call>)
    requires Steady(db, after, now) && CallsOk(db, now, latch, calls)
    ensures CallsOk(after, now, latch, calls)
  {
    hide Steady, CallOk;
    forall id | id in calls ensures CallOk(after, now, latch, calls[id]) {
      CallStays(db, after, now, latch, latch, calls[id]);
    }
  }

  /** A transaction that does not stop a run with a tool call in flight. */
  ghost predicate Gentle(op: Op, gates: map<Uuid, Gate>) {
    Target(op).Some? && Target(op).value in gates ==> !gates[Target(op).value].running
  }

  lemma LedgerMoves(s: System, op: Op)
    requires SystemOk(s) && Gentle(op, s.gates)
    ensures SystemOk(s.(db := Apply(s.db, op, s.now)))
  {
    hide LedgerOk, MintsOk, PermitsOk, CallsOk, Later, Steady, Apply;
    var after := Apply(s.db, op, s.now);
    ApplyKeeps(s.db, op, s.now);
    ApplyIsSteady(s.db, op, s.now);
    MintsStay(s.db, after, s.now, s.mints);
    PermitsStay(s.db, after, s.now, s.permits);
    CallsStay(s.db, after, s.now, s.latch, s.calls);
  }

  lemma FaultyMoves(s: System, op: Op, fault: Fault)
    requires SystemOk(s) && Gentle(op, s.gates)
    ensures SystemOk(s.(db := Effect(s.db, op, s.now, fault)))
  {
    hide SystemOk, Apply;
    if !fault.RefusedEarly? { LedgerMoves(s, op); } else { assert s.(db := s.db) == s; }
  }

  lemma CallMoves(s: System, id: nat, stage: Stage)
    requires SystemOk(s) && id in s.calls && CallOk(s.db, s.now, s.latch, s.calls[id].(stage := stage))
    ensures SystemOk(Move(s, id, stage))
  {
    hide LedgerOk, MintsOk, PermitsOk, GatesOk, CallOk;
  }

  lemma TimeMoves(s: System, ticks: nat)
    requires SystemOk(s)
    ensures SystemOk(s.(now := s.now + ticks))
  {
    hide LedgerOk, VerifyOriginal, Supported;
    TimePasses(s.db, s.now, s.now + ticks);
  }

  // ---- Every action keeps the invariant ---------------------------------------------------

  lemma RegisterCallKeeps(s: System, id: nat, fault: Fault)
    requires SystemOk(s) && id in s.calls && s.calls[id].stage.Unlatched?
    ensures SystemOk(NextRegister(s, id, fault))
  {
    hide LedgerOk, MintsOk, PermitsOk, GatesOk, Register, Steady, StopsOnly, VerifyOriginal;
    var c := s.calls[id];
    var op := RegisterOp(c.cfg, c.envelope, c.attemptId);
    FaultyMoves(s, op, fault);
    RegisterIsSteady(s.db, c.cfg, c.envelope, c.attemptId, s.now);
    var answer := Answer(Register(s.db, c.cfg, c.envelope, c.attemptId, s.now).out, fault);
    CallMoves(s.(db := Effect(s.db, op, s.now, fault)), id, if answer.Ok? then Prepared else Failing(answer.reason));
  }

  lemma PostKeeps(s: System, id: nat)
    requires SystemOk(s) && id in s.calls && s.calls[id].stage.Prepared?
    ensures SystemOk(NextPost(s, id))
  {
    hide LedgerOk, MintsOk, PermitsOk, GatesOk, BeforePost, VerifyOriginal;
  }

  lemma ReceiveKeeps(s: System, id: nat, x: Exchange)
    requires SystemOk(s) && id in s.calls && s.calls[id].stage.Posted?
    ensures SystemOk(NextReceive(s, id, x))
  {
    hide LedgerOk, MintsOk, PermitsOk, GatesOk, CheckOriginal;
    var c := s.calls[id];
    match AfterPost(x, c.envelope, c.cfg.keyed, c.attemptId) {
      case Ok(original) => CallMoves(s, id, Verified(original));
      case Err(reason) => CallMoves(s, id, Failing(reason));
    }
  }

  lemma GuardedKeeps(s: System, id: nat, next: Stage)
    requires SystemOk(s) && id in s.calls
    requires s.calls[id].stage.Begun? || s.calls[id].stage.Verified?
    requires next == if s.calls[id].stage.Begun? then Unlatched else Releasing(s.calls[id].stage.original)
    ensures SystemOk(Guarded(s, id, next))
  {
    hide LedgerOk, MintsOk, PermitsOk, GatesOk, VerifyOriginal;
    var c := s.calls[id];
    CallMoves(s, id, if InLatch(s, c) then Failing(RunStopped) else next);
  }

  lemma SetLatchKeeps(s: System, id: nat)
    requires SystemOk(s) && id in s.calls && s.calls[id].stage.Failing?
    ensures var c := s.calls[id];
      SystemOk(Move(s.(latch := s.latch + {(c.process, c.guard.runId)}), id, Latched(c.stage.reason)))
  {
    hide LedgerOk, MintsOk, PermitsOk, GatesOk, CallOk;
    var c := s.calls[id];
    var more := s.(latch := s.latch + {(c.process, c.guard.runId)});
    forall i | i in s.calls ensures CallOk(s.db, s.now, more.latch, s.calls[i]) {
      LatchGrows(s.db, s.now, s.latch, more.latch, s.calls[i]);
    }
    assert CallOk(s.db, s.now, more.latch, c.(stage := Latched(c.stage.reason))) by {
      LatchedIsOk(s.db, s.now, s.latch, c);
    }
    CallMoves(more, id, Latched(c.stage.reason));
  }

  lemma LatchGrows(db: Ledger, now: Time, latch: set<(Process, Uuid)>, more: set<(Process, Uuid)>, c: Call)
    requires CallOk(db, now, latch, c) && latch <= more
    ensures CallOk(db, now, more, c)
  {
  }

  lemma LatchedIsOk(db: Ledger, now: Time, latch: set<(Process, Uuid)>, c: Call)
    requires CallOk(db, now, latch, c) && c.stage.Failing?
    ensures CallOk(db, now, latch + {(c.process, c.guard.runId)}, c.(stage := Latched(c.stage.reason)))
  {
  }

  lemma StopCallKeeps(s: System, id: nat, factId: Uuid, fault: Fault)
    requires SystemOk(s) && id in s.calls && s.calls[id].stage.Latched?
    ensures SystemOk(NextStop(s, id, factId, fault))
  {
    hide LedgerOk, MintsOk, PermitsOk, GatesOk, VerifyOriginal, Apply, StopNote;
    var c := s.calls[id];
    var op := StopOp(c, c.stage.reason, factId);
    var after := if c.guard.runId in s.gates then s else s.(db := Effect(s.db, op, s.now, fault));
    if c.guard.runId !in s.gates { FaultyMoves(s, op, fault); }
    assert NextStop(s, id, factId, fault) == Move(after, id, Returned(Report(c.stage.reason)));
    CallMoves(after, id, Returned(Report(c.stage.reason)));
  }

  // ---- Acceptance and permits -------------------------------------------------------------

  /** A successful acceptance leaves behind all that its permit rests on. */
  lemma AcceptanceSupports(db: Ledger, cfg: Config, e: Envelope, original: VerifiedOriginal, id: Uuid,
                           currentId: string, now: Time)
    requires LedgerOk(db, now)
    requires Accept(db, cfg, e, original, id, currentId, now).out.Ok? && original.payload.report.status == Success
    ensures !Stopped(db, e.runId) && !Conflicted(db, e.executionId)
    ensures var after := Accept(db, cfg, e, original, id, currentId, now).db;
      Registered(after, e) && exists a, r :: RestsOn(after, e.executionId, original.payload.fact.receiptDigest, a, r)
  {
    hide CheckOriginal, ValidateObservation, ValidateRequest, AgentAppend, LedgerOk;
    var fact := AcceptanceFact(e, original, id, currentId);
    var result := original.payload.fact;
    var after := Accept(db, cfg, e, original, id, currentId, now).db;
    CheckedOriginalIsWorkerResult(original.payload, e, cfg.keyed, original.attemptId, original.currentId);
    ValidResultHasReceipt(result, e, cfg.keyed);
    AppendsOnly(db, db.intents[e.executionId], fact, cfg.keyed, now);
    var r :| r in db.rows && r.fact == result;
    assert r in after.rows by { AppendKeepsRows(db, db.intents[e.executionId], fact, cfg.keyed, now, r); }
    AppendIsDurable(db, db.intents[e.executionId], fact, cfg.keyed, now);
    var a :| a in after.rows && a.fact == fact;
    assert RestsOn(after, e.executionId, result.receiptDigest, a, r);
  }

  lemma ValidResultHasReceipt(o: Observation, e: Envelope, keyed: bool)
    requires ValidateObservation(o, e, keyed).None? && o.kind == WorkerResult
    ensures o.executionId == e.executionId && o.receipt.Some?
  {
  }

  lemma AppendKeepsRows(db: Ledger, intent: Intent, fact: Observation, keyed: bool, now: Time, row: Row)
    requires row in db.rows
    ensures row in AgentAppend(db, intent, fact, keyed, now).db.rows
  {
    hide ValidateObservation, IdTaken, SlotTaken, Recorded;
  }

  lemma AcceptCallKeeps(s: System, id: nat, factId: Uuid, fault: Fault)
    requires SystemOk(s) && id in s.calls && s.calls[id].stage.Releasing?
    ensures SystemOk(NextAccept(s, id, factId, fault))
  {
    hide LedgerOk, MintsOk, GatesOk, Accept, VerifyOriginal, RestsOn;
    var c := s.calls[id];
    var original := c.stage.original;
    var op := AcceptedOp(c, original, factId);
    FaultyMoves(s, op, fault);
    var moved := s.(db := Effect(s.db, op, s.now, fault));
    var answer := Answer(Accept(s.db, c.cfg, c.envelope, original, factId, c.currentId, s.now).out, fault);
    if answer.Ok? && original.payload.report.status == Success {
      AcceptanceSupports(s.db, c.cfg, c.envelope, original, factId, c.currentId, s.now);
      var permit := Permit(c.process, c.guard.runId, c.envelope, original.payload.fact.receiptDigest, 0);
      PermitAdded(moved, permit);
      CallMoves(moved.(permits := s.permits + [permit]), id, Returned(Original(true, true)));
    } else {
      CallMoves(moved, id, if answer.Err? then Failing(answer.reason) else Returned(Original(false, false)));
    }
  }

  lemma PermitAdded(s: System, permit: Permit)
    requires SystemOk(s) && Supported(s.db, permit) && permit.uses == 0
    ensures SystemOk(s.(permits := s.permits + [permit]))
  {
    hide LedgerOk, MintsOk, GatesOk, CallsOk, Supported;
  }

  // ---- The worker's side ------------------------------------------------------------------

  /** A fresh claim cannot concern an envelope, an execution or a call minted before, unless that
      one left the ledger past its retention. */
  lemma FreshMint(db: Ledger, now: Time, earlier: Envelope, owner: Uuid, e: Envelope)
    requires LedgerOk(db, now) && Standing(db, now, earlier, owner) && Related(earlier, e)
    requires Registered(db, e) && e.executionId !in db.claims && now < e.expiresAt
    ensures earlier.expiresAt + RETENTION < e.expiresAt
  {
    hide ValidateRequest, RowsOk, DatesOk, RefusalsOk, FactsOk, IntentsOk;
    assert Registered(db, earlier) ==> earlier.executionId == e.executionId;
  }

  lemma MintAdded(db: Ledger, after: Ledger, now: Time, mints: seq<Mint>, e: Envelope, owner: Uuid)
    requires LedgerOk(db, now) && MintsOk(db, now, mints) && MintsOk(after, now, mints)
    requires Registered(db, e) && e.executionId !in db.claims && now < e.expiresAt
    requires Registered(after, e) && e.executionId in after.claims && after.claims[e.executionId].ownerId == owner
    ensures MintsOk(after, now, mints + [Mint(e, owner, false, false)])
  {
    hide LedgerOk;
    forall j | 0 <= j < |mints| && Related(mints[j].envelope, e)
      ensures mints[j].envelope.expiresAt + RETENTION < e.expiresAt
    {
      FreshMint(db, now, mints[j].envelope, mints[j].owner, e);
    }
  }

  lemma ClaimSendKeeps(s: System, cfg: Config, e: Envelope, requestId: string, owner: Uuid, factId: Uuid, fault: Fault)
    requires SystemOk(s)
    ensures SystemOk(NextClaim(s, cfg, e, requestId, owner, factId, fault))
  {
    hide LedgerOk, MintsOk, PermitsOk, CallsOk, GatesOk, Steady, StopsOnly, ClaimDispatch;
    var op := ClaimOp(cfg, e, requestId, owner, factId);
    FaultyMoves(s, op, fault);
    ClaimIsSteady(s.db, cfg, e, requestId, owner, factId, s.now);
    if Answer(ClaimDispatch(s.db, cfg, e, requestId, owner, factId, s.now).out, fault).Ok? {
      assert ClaimDispatch(s.db, cfg, e, requestId, owner, factId, s.now).out == Ok(owner) by {
        ClaimAnswersOwner(s.db, cfg, e, requestId, owner, factId, s.now);
      }
      MintAdded(s.db, Apply(s.db, op, s.now), s.now, s.mints, e, owner);
    }
  }

  lemma ClaimAnswersOwner(db: Ledger, cfg: Config, e: Envelope, requestId: string, owner: Uuid, id: Uuid, now: Time)
    requires ClaimDispatch(db, cfg, e, requestId, owner, id, now).out.Ok?
    ensures ClaimDispatch(db, cfg, e, requestId, owner, id, now).out == Ok(owner)
  {
    hide ValidateRequest, WorkerAppend, FreshClaimRefusal, ClaimIdentityRefusal;
  }

  lemma OpenSendKeeps(s: System, k: nat, cfg: Config)
    requires SystemOk(s) && k < |s.mints|
    ensures SystemOk(NextOpen(s, k, cfg))
  {
    hide LedgerOk, PermitsOk, CallsOk, Standing, PredecessorUnsettled, WorkerAdmissionRefusal;
    var m := s.mints[k];
    assert MintsOk(s.db, s.now, s.mints[k := m.(used := true)]);
    assert MintsOk(s.db, s.now, s.mints[k := m.(used := true, sent := true)]);
  }

  lemma FinishSendKeeps(s: System, r: Uuid, cfg: Config, fact: Observation, stopReason: Option<Reason>)
    requires SystemOk(s) && r in s.gates && !s.gates[r].running
    ensures SystemOk(s.(db := Apply(s.db, ReportOp(cfg, s.gates[r].envelope, fact, stopReason), s.now)))
  {
    hide LedgerOk, PermitsOk, CallsOk, MintsOk, Apply;
    LedgerMoves(s, ReportOp(cfg, s.gates[r].envelope, fact, stopReason));
  }

  lemma BeginKeeps(s: System, a: Action)
    requires SystemOk(s) && a.Begin?
    ensures SystemOk(Next(s, a))
  {
    hide LedgerOk, MintsOk, PermitsOk, GatesOk, VerifyOriginal;
  }

  lemma ConsumeKeeps(s: System, k: nat)
    requires SystemOk(s)
    ensures SystemOk(Next(s, Consume(k)))
  {
    hide LedgerOk, MintsOk, CallsOk, GatesOk, RestsOn;
    if k < |s.permits| {
      var p := s.permits[k];
      assert Supported(s.db, p) == Supported(s.db, p.(uses := p.uses + 1));
    }
  }

  lemma GateActionsKeep(s: System, a: Action)
    requires SystemOk(s) && (a.Crash? || a.ToolReturned? || a.CloseSend? || a.StrayReturned?)
    ensures SystemOk(Next(s, a))
  {
    hide LedgerOk, MintsOk, PermitsOk, CallsOk;
  }

  lemma NextKeeps(s: System, a: Action)
    requires SystemOk(s)
    ensures SystemOk(Next(s, a))
  {
    hide SystemOk, NextRegister, NextPost, NextReceive, NextAccept, NextStop, NextClaim, NextOpen, Guarded, Move, Apply;
    match a
    case Tick(ticks) => TimeMoves(s, ticks);
    case Others(op) => if Admitted(s, op) { LedgerMoves(s, op); }
    case Check(id) => if Live(s, id) && s.calls[id].stage.Begun? { GuardedKeeps(s, id, Unlatched); }
    case RegisterCall(id, fault) => if Live(s, id) && s.calls[id].stage.Unlatched? { RegisterCallKeeps(s, id, fault); }
    case Post(id) => if Live(s, id) && s.calls[id].stage.Prepared? { PostKeeps(s, id); }
    case Receive(id, x) => if Live(s, id) && s.calls[id].stage.Posted? { ReceiveKeeps(s, id, x); }
    case Recheck(id) =>
      if Live(s, id) && s.calls[id].stage.Verified? { GuardedKeeps(s, id, Releasing(s.calls[id].stage.original)); }
    case AcceptCall(id, factId, fault) =>
      if Live(s, id) && s.calls[id].stage.Releasing? { AcceptCallKeeps(s, id, factId, fault); }
    case SetLatch(id) => if Live(s, id) && s.calls[id].stage.Failing? { SetLatchKeeps(s, id); }
    case StopCall(id, factId, fault) =>
      if Live(s, id) && s.calls[id].stage.Latched? { StopCallKeeps(s, id, factId, fault); }
    case ClaimSend(cfg, e, requestId, owner, factId, fault) =>
      ClaimSendKeeps(s, cfg, e, requestId, owner, factId, fault);
    case OpenSend(k, cfg) => if k < |s.mints| { OpenSendKeeps(s, k, cfg); }
    case FinishSend(r, cfg, fact, stopReason) =>
      if r in s.gates && !s.gates[r].running { FinishSendKeeps(s, r, cfg, fact, stopReason); }
    case Begin(_, _, _, _, _, _, _, _) => BeginKeeps(s, a);
    case Consume(k) => ConsumeKeeps(s, k);
    case _ => GateActionsKeep(s, a);
  }

  lemma {:induction false} PerformKeeps(s: System, actions: seq<Action>)
    requires SystemOk(s)
    ensures SystemOk(Perform(s, actions))
  {
    hide SystemOk, Next;
    if actions != [] {
      PerformKeeps(s, actions[..|actions| - 1]);
      NextKeeps(Perform(s, actions[..|actions| - 1]), actions[|actions| - 1]);
    }
  }

  lemma PossibleIsOk(s: System)
    requires Possible(s)
    ensures SystemOk(s)
  {
    hide Next, LedgerOk;
    var enabled, epoch, now, actions :| s == Perform(Start(enabled, epoch, now), actions);
    EmptyIsOk(enabled, epoch, now);
    PerformKeeps(Start(enabled, epoch, now), actions);
  }
}
