/** What the protocol promises, in every possible system state and every continuation of it. */
module ProtocolTheorems {
  import opened Basics
  import opened ExecutionProtocol
  import opened Ledger
  import opened LedgerInvariants
  import opened LedgerHistory
  import opened LedgerTheorems
  import opened Projection
  import opened Invocation
  import opened Protocol
  import opened ProtocolSteps
  import opened ProtocolInvariants

  // ---- The ledger of a possible system is reachable ---------------------------------------

  /** Every action commits at most one transaction. */
  lemma ActionIsATransaction(s: System, a: Action)
    ensures Next(s, a).db == s.db || exists op :: Next(s, a).db == Apply(s.db, op, s.now)
    ensures s.now <= Next(s, a).now && (a.Tick? ==> Next(s, a).db == s.db) && (!a.Tick? ==> Next(s, a).now == s.now)
  {
    hide Apply, Register, Accept, ClaimDispatch, OpenSendRefusal, BeforePost, AfterPost, StopNote;
  }

  lemma ReachableAfterOne(db: Ledger, now: Time, op: Op)
    requires Reachable(db, now)
    ensures Reachable(Apply(db, op, now), now)
  {
    hide Reachable, Apply;
    var events := [Event(op, now)];
    assert events[..0] == [];
    assert Play(db, events) == Apply(db, op, now);
    ReachableContinues(db, now, events, now);
  }

  lemma NextIsReachable(s: System, a: Action)
    requires Reachable(s.db, s.now)
    ensures Reachable(Next(s, a).db, Next(s, a).now)
  {
    hide Reachable, Next, Apply;
    var after := Next(s, a);
    ActionIsATransaction(s, a);
    if after.db != s.db {
      var op :| after.db == Apply(s.db, op, s.now);
      ReachableAfterOne(s.db, s.now, op);
    } else {
      assert Play(s.db, []) == s.db;
      ReachableContinues(s.db, s.now, [], after.now);
    }
  }

  lemma {:induction false} PerformIsReachable(s: System, actions: seq<Action>)
    requires Reachable(s.db, s.now)
    ensures Reachable(Perform(s, actions).db, Perform(s, actions).now)
  {
    hide Reachable, Next;
    if actions != [] {
      PerformIsReachable(s, actions[..|actions| - 1]);
      NextIsReachable(Perform(s, actions[..|actions| - 1]), actions[|actions| - 1]);
    }
  }

  /** So every theorem about reachable ledgers holds inside every possible system. */
  lemma PossibleLedgerIsReachable(s: System)
    requires Possible(s)
    ensures Reachable(s.db, s.now)
  {
    hide Next;
    var enabled, epoch, now, actions :| s == Perform(Start(enabled, epoch, now), actions);
    assert Play(EmptyLedger(enabled, epoch), []) == EmptyLedger(enabled, epoch) && Timely([], now, now);
    PerformIsReachable(Start(enabled, epoch, now), actions);
  }

  lemma {:induction false} PerformJoins(s: System, first: seq<Action>, second: seq<Action>)
    ensures Perform(s, first + second) == Perform(Perform(s, first), second)
  {
    hide Next;
    if second == [] {
      assert first + second == first;
    } else {
      PerformJoins(s, first, second[..|second| - 1]);
      assert (first + second)[..|first + second| - 1] == first + second[..|second| - 1];
    }
  }

  lemma PossibleContinues(s: System, actions: seq<Action>)
    requires Possible(s)
    ensures Possible(Perform(s, actions))
  {
    hide Next;
    var enabled, epoch, now, past :| s == Perform(Start(enabled, epoch, now), past);
    PerformJoins(Start(enabled, epoch, now), past, actions);
  }

  // ---- At most one dispatch ---------------------------------------------------------------

  /** No envelope is ever dispatched twice, in any run. Two dispatches that share an execution id
      or an approved call belong to requests whose signed expiries lie more than thirty days apart. */
  lemma DispatchedAtMostOnce(s: System, j: nat, k: nat)
    requires Possible(s) && j < k < |s.mints| && s.mints[j].sent && s.mints[k].sent
    ensures s.mints[j].envelope != s.mints[k].envelope
    ensures Related(s.mints[j].envelope, s.mints[k].envelope) ==>
              s.mints[j].envelope.expiresAt + RETENTION < s.mints[k].envelope.expiresAt
  {
    hide Possible, LedgerOk, PermitsOk, CallsOk, GatesOk, Standing;
    PossibleIsOk(s);
  }

  /** While a dispatched execution is within its retention, the ledger shows its claim: no reader
      is ever told it was not dispatched. */
  lemma DispatchedIsClaimed(s: System, k: nat)
    requires Possible(s) && k < |s.mints| && s.mints[k].sent
    requires s.now < s.mints[k].envelope.expiresAt + RETENTION
    ensures var e := s.mints[k].envelope.executionId;
      && e in s.db.intents && e in s.db.claims && ReadRefusal(s.db, e, true).None?
      && VerdictOf(s.db, e, s.now, true).state in {Some(DispatchClaimed), Some(OutcomeUnknown), Some(ResultRecorded)}
  {
    hide Possible, Reachable, LedgerOk, PermitsOk, CallsOk, GatesOk, VerdictOf, ReadRefusal, HasRow;
    PossibleIsOk(s);
    PossibleLedgerIsReachable(s);
    assert Standing(s.db, s.now, s.mints[k].envelope, s.mints[k].owner);
    VerdictMeans(s.db, s.now, s.mints[k].envelope.executionId);
  }

  /** An envelope that can no longer be claimed: registered, unclaimed and stopped, or expired. */
  ghost predicate Dead(s: System, e: Envelope) {
    && (if Registered(s.db, e) then e.executionId !in s.db.claims && Stopped(s.db, e.runId) else e.expiresAt <= s.now)
    && (forall k :: 0 <= k < |s.mints| ==> s.mints[k].envelope != e)
  }

  lemma DeadLedgerStays(db: Ledger, after: Ledger, now: Time, e: Envelope)
    requires Later(db, after, now) && Steady(db, after, now)
    requires if Registered(db, e) then e.executionId !in db.claims && Stopped(db, e.runId) else e.expiresAt <= now
    ensures if Registered(after, e) then e.executionId !in after.claims && Stopped(after, e.runId)
            else e.expiresAt <= now
  {
    hide Retained, NoNewAcceptances, NoNewIntents;
    if Registered(after, e) {
      assert e.executionId in db.intents;
    }
  }

  lemma DeadStays(s: System, a: Action, e: Envelope)
    requires LedgerOk(s.db, s.now) && Dead(s, e)
    ensures Dead(Next(s, a), e)
  {
    hide LedgerOk, Next, Later, Steady, Apply;
    var after := Next(s, a);
    ActionIsATransaction(s, a);
    if after.db != s.db {
      var op :| after.db == Apply(s.db, op, s.now);
      ApplyKeeps(s.db, op, s.now);
      ApplyIsSteady(s.db, op, s.now);
      DeadLedgerStays(s.db, after.db, s.now, e);
    }
    MintsOnlyGrow(s, a, e);
  }

  /** A new mint is a fresh claim on a live run. */
  lemma MintsOnlyGrow(s: System, a: Action, e: Envelope)
    requires Dead(s, e)
    ensures forall k :: 0 <= k < |Next(s, a).mints| ==> Next(s, a).mints[k].envelope != e
  {
    hide Apply, Register, Accept, ClaimDispatch, OpenSendRefusal, BeforePost, AfterPost, StopNote, Registered, Stopped;
    if a.ClaimSend? {
      ClaimIsSteady(s.db, a.cfg, a.envelope, a.requestId, a.owner, a.factId, s.now);
    }
  }

  lemma {:induction false} DeadForever(s: System, actions: seq<Action>, e: Envelope)
    requires SystemOk(s) && Dead(s, e)
    ensures Dead(Perform(s, actions), e)
  {
    hide SystemOk, Next, Dead;
    if actions != [] {
      var before := Perform(s, actions[..|actions| - 1]);
      DeadForever(s, actions[..|actions| - 1], e);
      PerformKeeps(s, actions[..|actions| - 1]);
      assert LedgerOk(before.db, before.now) by { SystemHasLedger(before); }
      DeadStays(before, actions[|actions| - 1], e);
    }
  }

  lemma SystemHasLedger(s: System)
    requires SystemOk(s)
    ensures LedgerOk(s.db, s.now)
  {
  }

  /** An execution told `not_dispatched` was never dispatched before, and no continuation of the
      system ever dispatches it. */
  lemma NotDispatchedIsTrue(s: System, actions: seq<Action>, e: Uuid)
    requires Possible(s) && e in s.db.intents && ReadRefusal(s.db, e, true).None?
    requires VerdictOf(s.db, e, s.now, true).state == Some(NotDispatched)
    ensures forall k :: 0 <= k < |s.mints| ==> s.mints[k].envelope != s.db.intents[e].envelope
    ensures var later := Perform(s, actions);
      forall k :: 0 <= k < |later.mints| ==> later.mints[k].envelope != s.db.intents[e].envelope
  {
    hide Possible, Reachable, VerdictOf, ReadRefusal, LedgerOk, Next;
    var envelope := s.db.intents[e].envelope;
    PossibleIsOk(s);
    PossibleLedgerIsReachable(s);
    VerdictMeans(s.db, s.now, e);
    RefusedIsStopped(s.db, s.now, e);
    IntentNamesItself(s.db, s.now, e);
    forall k | 0 <= k < |s.mints| ensures s.mints[k].envelope != envelope {
      assert Standing(s.db, s.now, s.mints[k].envelope, s.mints[k].owner);
    }
    DeadForever(s, actions, envelope);
  }

  lemma IntentNamesItself(db: Ledger, now: Time, e: Uuid)
    requires LedgerOk(db, now) && e in db.intents
    ensures db.intents[e].envelope.executionId == e && Registered(db, db.intents[e].envelope)
  {
  }

  // ---- The latch --------------------------------------------------------------------------

  /** Only the stage and the `posted` mark of a call ever change. */
  ghost predicate Kept(s: System, after: System, id: nat) {
    id in s.calls ==>
      id in after.calls && after.calls[id] == s.calls[id].(stage := after.calls[id].stage,
                                                           posted := after.calls[id].posted)
  }

  lemma StepsKeepCalls(s: System, acting: nat, id: nat, fault: Fault, x: Exchange, factId: Uuid)
    requires acting in s.calls
    ensures Kept(s, NextRegister(s, acting, fault), id) && Kept(s, NextPost(s, acting), id)
      && Kept(s, NextReceive(s, acting, x), id)
    ensures s.calls[acting].stage.Releasing? ==> Kept(s, NextAccept(s, acting, factId, fault), id)
    ensures s.calls[acting].stage.Latched? ==> Kept(s, NextStop(s, acting, factId, fault), id)
  {
    hide Apply, Register, Accept, BeforePost, AfterPost, StopNote;
  }

  predicate ByACall(a: Action) {
    a.Begin? || a.Check? || a.RegisterCall? || a.Post? || a.Receive? || a.Recheck? || a.AcceptCall? || a.SetLatch?
    || a.StopCall?
  }

  lemma OtherActionsLeaveCalls(s: System, a: Action)
    requires !ByACall(a)
    ensures Next(s, a).calls == s.calls
  {
    hide Apply, ClaimDispatch, OpenSendRefusal;
  }

  lemma LatchStepsKeepCalls(s: System, a: Action, id: nat)
    requires a.Begin? || a.Check? || a.Recheck? || a.SetLatch?
    ensures Kept(s, Next(s, a), id)
  {
  }

  lemma CallIsKept(s: System, a: Action, id: nat)
    ensures Kept(s, Next(s, a), id)
  {
    hide Apply, NextClaim, NextOpen, NextRegister, NextPost, NextReceive, NextAccept, NextStop, Guarded, Move;
    match a
    case RegisterCall(acting, fault) => if acting in s.calls { StepsKeepCalls(s, acting, id, fault, Broken, 0); }
    case Post(acting) => if acting in s.calls { StepsKeepCalls(s, acting, id, Healthy, Broken, 0); }
    case Receive(acting, x) => if acting in s.calls { StepsKeepCalls(s, acting, id, Healthy, x, 0); }
    case AcceptCall(acting, factId, fault) =>
      if acting in s.calls { StepsKeepCalls(s, acting, id, fault, Broken, factId); }
    case StopCall(acting, factId, fault) =>
      if acting in s.calls { StepsKeepCalls(s, acting, id, fault, Broken, factId); }
    case _ => if ByACall(a) { LatchStepsKeepCalls(s, a, id); } else { OtherActionsLeaveCalls(s, a); }
  }

  lemma {:induction false} CallRemains(s: System, actions: seq<Action>, id: nat)
    ensures Kept(s, Perform(s, actions), id)
  {
    hide Next;
    if actions != [] {
      CallRemains(s, actions[..|actions| - 1], id);
      CallIsKept(Perform(s, actions[..|actions| - 1]), actions[|actions| - 1], id);
    }
  }

  /** Once a call has returned `blocked` or `uncertain`, every call that begins later in the same
      process on the same run neither registers nor contacts the worker, and if it returns, it
      returns `blocked` with `run_stopped`. */
  lemma FailureBlocksTheRun(s: System, first: nat, begin: Action, actions: seq<Action>)
    requires Possible(s) && first in s.calls && s.calls[first].stage.Returned?
      && !s.calls[first].stage.outcome.Original?
    requires begin.Begin? && begin.id !in s.calls && begin.process !in s.dead
    requires begin.process == s.calls[first].process && begin.guard.runId == s.calls[first].guard.runId
    ensures var later := Perform(Next(s, begin), actions);
      && begin.id in later.calls
      && var c := later.calls[begin.id];
         Refused(c.stage) && !c.posted && (c.stage.Returned? ==> c.stage.outcome == Blocked(RunStopped))
  {
    hide Possible, LedgerOk, MintsOk, PermitsOk, GatesOk, VerifyOriginal;
    PossibleIsOk(s);
    assert CallOk(s.db, s.now, s.latch, s.calls[first]);
    var begun := Next(s, begin);
    assert begun.calls[begin.id].barred;
    BeginKeeps(s, begin);
    PerformKeeps(begun, actions);
    CallRemains(begun, actions, begin.id);
    var later := Perform(begun, actions);
    assert CallOk(later.db, later.now, later.latch, later.calls[begin.id]);
  }

  /** Whenever a call has registered its intent and may contact the worker, every earlier intent
      of that run has its accepted result. */
  lemma SendsFollowAcceptances(s: System, id: nat, i: Uuid)
    requires Possible(s) && id in s.calls && PastRegistration(s.calls[id].stage)
    requires s.now < s.calls[id].envelope.expiresAt + RETENTION
    ensures Registered(s.db, s.calls[id].envelope)
    ensures i in s.db.intents && Precedes(s.db.intents[i], s.db.intents[s.calls[id].envelope.executionId]) ==>
              Accepted(s.db.rows, i)
  {
    hide Possible, Accepted, MintsOk, PermitsOk, GatesOk, VerifyOriginal, TablesOk, DatesOk, RefusalsOk;
    PossibleIsOk(s);
    assert CallOk(s.db, s.now, s.latch, s.calls[id]);
  }

  // ---- Permits ----------------------------------------------------------------------------

  /** A secret-release permit rests on a claim, on that claim owner's succeeded result and on an
      acceptance of the same receipt, written before the run was stopped if it ever was; and it is
      consumed at most once. */
  lemma PermitsRestOnAcceptances(s: System, k: nat)
    requires Possible(s) && k < |s.permits| && s.now < s.permits[k].envelope.expiresAt + RETENTION
    ensures s.permits[k].uses <= 1
    ensures var p := s.permits[k];
      exists a, r :: RestsOn(s.db, p.envelope.executionId, p.digest, a, r)
                  && a.insertedAt <= StopTime(s.db.runs, p.envelope.runId, s.now)
  {
    hide Possible, MintsOk, CallsOk, GatesOk, RowsOk, RefusalsOk, ValidateRequest, KeysOk, IntentsOk;
    PossibleIsOk(s);
    var p := s.permits[k];
    assert Supported(s.db, p);
    var a, r :| RestsOn(s.db, p.envelope.executionId, p.digest, a, r);
    assert FactOk(s.db.intents, s.db.claims, a.fact);
    ValidNamesIntent(a.fact, p.envelope, true);
  }

  /** A permit is minted only by a durable acceptance on a run that is neither stopped nor, for
      this execution, in conflict. */
  lemma PermitsAreMintedOnLiveRuns(s: System, a: Action)
    requires Possible(s) && |Next(s, a).permits| > |s.permits|
    ensures a.AcceptCall? && a.id in s.calls
    ensures var e := s.calls[a.id].envelope; !Stopped(s.db, e.runId) && !Conflicted(s.db, e.executionId)
    ensures Next(s, a).permits[|s.permits|].envelope == s.calls[a.id].envelope
      && Next(s, a).permits[|s.permits|].uses == 0
  {
    hide Possible, Apply, Register, Accept, ClaimDispatch, OpenSendRefusal, BeforePost, AfterPost, StopNote,
         LedgerOk, MintsOk, PermitsOk, CallsOk, GatesOk, RestsOn;
    PossibleIsOk(s);
    if a.AcceptCall? && Live(s, a.id) && s.calls[a.id].stage.Releasing? {
      var c := s.calls[a.id];
      if a.fault.Healthy? && c.stage.original.payload.report.status == Success
         && Accept(s.db, c.cfg, c.envelope, c.stage.original, a.factId, c.currentId, s.now).out.Ok? {
        AcceptanceSupports(s.db, c.cfg, c.envelope, c.stage.original, a.factId, c.currentId, s.now);
      }
    }
  }

  /** The tool calls in flight: behind a run's mutex, or with their connection lost. */
  predicate InFlight(s: System, e: Envelope) {
    (e.runId in s.gates && s.gates[e.runId] == Gate(e, true)) || e in s.strays
  }

  /** A tool call is started only on an unstopped run, and while it holds the run's mutex no stop of
      that run commits: a call in flight meets a stop only if its connection was lost. */
  lemma NoStopDuringASend(s: System, e: Envelope)
    requires Possible(s) && InFlight(s, e) && Stopped(s.db, e.runId)
    ensures e in s.strays
  {
    hide Possible, LedgerOk, MintsOk, PermitsOk, CallsOk;
    PossibleIsOk(s);
  }

  /** And then it can: whenever a call in flight loses its connection, its run can be stopped while it
      goes on. */
  lemma ALostSendCanMeetAStop(s: System, r: Uuid, cfg: Config)
    requires Possible(s) && r in s.gates && s.gates[r].running && r in s.db.runs
    ensures var run, e := s.db.runs[r], s.gates[r].envelope;
      var stop := StopRunOp(cfg, r, run.sessionId, run.ownerUserId, Shutdown, None);
      var later := Next(Next(s, CloseSend(r)), Others(stop));
      e.runId == r && Stopped(later.db, r) && InFlight(later, e) && e in later.strays
  {
    hide Possible, LedgerOk, MintsOk, PermitsOk, CallsOk;
    PossibleIsOk(s);
  }
}
