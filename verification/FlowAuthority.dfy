/** Browser-flow authority: which writes the kernel may sign by itself, under which approval and
    for which run. The two per-session stores are tied to the log of what happened, so that a
    signature can be judged by the log alone. */
module FlowAuthority {
  import opened Basics

  const BROWSER_WRITE_TOOLS: set<string> :=
    {"web.click", "web.type", "web.select", "web.press_key", "web.upload_file", "web.evaluate"}

  const FLOW_KILLING_ERROR_CODES: set<string> :=
    {"BROWSER_REDIRECT_NOT_ALLOWED", "BROWSER_FLOW_DENIED", "BROWSER_FLOW_ORIGIN_DEVIATED",
     "BROWSER_FLOW_AUTHORITY_STALE"}

  /** A flow as the gateway reports it; an absent field is the empty string. */
  datatype Flow = Flow(skillId: string, origin: string, riskClass: string)

  function Identity(f: Flow): (string, string) {
    (f.skillId, f.origin)
  }

  /** A parked batch: the dotted names of its tools, the flow on its card if any, and its run. */
  datatype Card = Card(
    confirmId: Uuid, ownerUserId: string, tools: seq<string>, browserFlow: Option<Flow>, runId: Option<Uuid>)

  datatype Approval = Approval(
    confirmId: Uuid, ownerUserId: string, deciderUserId: string, skillId: string, origin: string, ttl: real,
    approvedAt: real, runId: Option<Uuid>)

  predicate Expired(a: Approval, now: real) {
    a.ttl <= 0.0 || now - a.approvedAt > a.ttl
  }

  predicate HasBrowserWrite(tools: seq<string>) {
    exists t :: t in tools && t in BROWSER_WRITE_TOOLS
  }

  /** An approval arms the authority only for a browser write in an identified write-class flow. */
  predicate Arms(card: Card) {
    && HasBrowserWrite(card.tools)
    && card.browserFlow.Some?
    && (card.browserFlow.value.skillId != "" || card.browserFlow.value.origin != "")
    && card.browserFlow.value.riskClass == "write"
  }

  // ---- The log ----------------------------------------------------------------------------

  datatype Event =
    | Bound(session: string, flow: Flow)
    | Killed(session: string)
    | Approved(session: string, card: Card, decider: string, ttl: real, at: real)

  function ApprovalOf(e: Event): Approval
    requires e.Approved? && e.card.browserFlow.Some?
  {
    var flow := e.card.browserFlow.value;
    Approval(e.card.confirmId, e.card.ownerUserId, e.decider, flow.skillId, flow.origin, e.ttl, e.at, e.card.runId)
  }

  /** The browser tools that write. */
  predicate Writes(tool: string) {
    || tool == "web.click" || tool == "web.type" || tool == "web.select" || tool == "web.press_key"
    || tool == "web.upload_file" || tool == "web.evaluate"
  }

  /** A batch with a browser write, parked in an identified flow of the write class. */
  predicate WriteBatch(card: Card) {
    && (exists t :: t in card.tools && Writes(t))
    && card.browserFlow.Some? && card.browserFlow.value.riskClass == "write"
    && !(card.browserFlow.value.skillId == "" && card.browserFlow.value.origin == "")
  }

  /** Event `k` is the session's latest approval, and nothing has killed the flow since. */
  ghost predicate LatestApproval(log: seq<Event>, session: string, k: int) {
    && 0 <= k < |log| && log[k].Approved? && log[k].session == session && WriteBatch(log[k].card)
    && forall j :: k < j < |log| && log[j].session == session ==> log[j].Bound?
  }

  /** Event `k` is the session's latest observed binding, and nothing has killed the flow since. */
  ghost predicate LatestBinding(log: seq<Event>, session: string, k: int) {
    && 0 <= k < |log| && log[k].Bound? && log[k].session == session
    && forall j :: k < j < |log| && log[j].session == session ==> log[j].Approved?
  }

  /** The same two questions, answered by one pass over the log. */
  function ApprovalIn(log: seq<Event>, session: string): Option<Approval> {
    if log == [] then None
    else
      var last := log[|log| - 1];
      if last.session != session || last.Bound? then ApprovalIn(log[..|log| - 1], session)
      else if last.Approved? && Arms(last.card) then Some(ApprovalOf(last))
      else None
  }

  function BindingIn(log: seq<Event>, session: string): Option<Flow> {
    if log == [] then None
    else
      var last := log[|log| - 1];
      if last.session != session || last.Approved? then BindingIn(log[..|log| - 1], session)
      else if last.Bound? then Some(last.flow)
      else None
  }

  lemma ArmsForWriteBatches(card: Card)
    ensures Arms(card) <==> WriteBatch(card)
  {
    assert forall t :: t in BROWSER_WRITE_TOOLS <==> Writes(t);
  }

  lemma {:induction false} ApprovalInForce(log: seq<Event>, session: string)
    ensures ApprovalIn(log, session).Some? <==> exists k :: LatestApproval(log, session, k)
    ensures forall k :: LatestApproval(log, session, k) ==> ApprovalIn(log, session) == Some(ApprovalOf(log[k]))
  {
    hide Arms, WriteBatch;
    if log != [] {
      var init, last := log[..|log| - 1], log[|log| - 1];
      if last.Approved? { ArmsForWriteBatches(last.card); }
      if last.session != session || last.Bound? {
        ApprovalInForce(init, session);
        forall k ensures LatestApproval(log, session, k) <==> LatestApproval(init, session, k) {
          if LatestApproval(init, session, k) { assert log[k] == init[k]; }
          if LatestApproval(log, session, k) { assert k < |init| && log[k] == init[k]; }
        }
      } else if last.Approved? && Arms(last.card) {
        assert LatestApproval(log, session, |log| - 1);
      }
    }
  }

  lemma {:induction false} BindingInForce(log: seq<Event>, session: string)
    ensures BindingIn(log, session).Some? <==> exists k :: LatestBinding(log, session, k)
    ensures forall k :: LatestBinding(log, session, k) ==> BindingIn(log, session) == Some(log[k].flow)
  {
    if log != [] {
      var init, last := log[..|log| - 1], log[|log| - 1];
      if last.session != session || last.Approved? {
        BindingInForce(init, session);
        forall k ensures LatestBinding(log, session, k) <==> LatestBinding(init, session, k) {
          if LatestBinding(init, session, k) { assert log[k] == init[k]; }
          if LatestBinding(log, session, k) { assert k < |init| && log[k] == init[k]; }
        }
      } else if last.Bound? {
        assert LatestBinding(log, session, |log| - 1);
      }
    }
  }

  // ---- Observed frames --------------------------------------------------------------------

  datatype FrameType = ToolCall | ToolResult | OtherEvidence | NotEvidence

  /** A trace frame; `bindsFlow` says that a call's parameters carry a skill id. */
  datatype Frame = Frame(
    frameType: FrameType, toolName: string, succeeded: bool, flow: Option<Flow>, errorCode: string, callId: string,
    bindsFlow: bool)

  predicate CallOf(f: Frame, callId: string) {
    f.frameType == ToolCall && f.callId == callId
  }

  /** The last call frame with this id carried a skill id. */
  predicate BoundAFlow(evidence: seq<Frame>, callId: string) {
    callId != "" &&
    exists k :: 0 <= k < |evidence| && CallOf(evidence[k], callId) && evidence[k].bindsFlow
             && forall j :: k < j < |evidence| ==> !CallOf(evidence[j], callId)
  }

  /** The backward walk over the turn's evidence. */
  method NavigateBoundAFlow(frame: Frame, evidence: seq<Frame>) returns (bound: bool)
    ensures bound <==> BoundAFlow(evidence, frame.callId)
  {
    if frame.callId == "" { return false; }
    var k := |evidence|;
    while k > 0
      invariant 0 <= k <= |evidence|
      invariant forall j :: k <= j < |evidence| ==> !CallOf(evidence[j], frame.callId)
    {
      k := k - 1;
      if CallOf(evidence[k], frame.callId) { return evidence[k].bindsFlow; }
    }
    bound := false;
  }

  predicate Binds(frame: Frame) {
    frame.frameType == ToolResult && frame.toolName == "web.navigate" && frame.succeeded && frame.flow.Some?
  }

  predicate Kills(frame: Frame, evidence: seq<Frame>) {
    && frame.frameType == ToolResult
    && (|| frame.errorCode in FLOW_KILLING_ERROR_CODES
        || (frame.toolName == "web.navigate" && frame.errorCode == "BROWSER_NAVIGATION_ERROR"
            && BoundAFlow(evidence, frame.callId)))
  }

  /** A recorded context defaults a missing risk class to `read`. */
  function Reflected(flow: Flow): Flow {
    flow.(riskClass := if flow.riskClass == "" then "read" else flow.riskClass)
  }

  function EvidenceAfter(evidence: seq<Frame>, frame: Frame): seq<Frame> {
    if frame.frameType != NotEvidence then evidence + [frame] else evidence
  }

  /** What one frame adds to the log: first the binding it reports, then the kill. */
  function EventsOf(session: string, frame: Frame, evidence: seq<Frame>): seq<Event> {
    (if Binds(frame) then [Bound(session, Reflected(frame.flow.value))] else [])
    + (if Kills(frame, EvidenceAfter(evidence, frame)) then [Killed(session)] else [])
  }

  /** A frame binds as the successful result of a navigation that carries a flow, read-class unless it
      says otherwise. It kills as a result that a redirect was refused, the flow denied, its origin left or
      its authority stale, or as the failure of a navigation whose last call carried a skill id. */
  lemma FramesMean(session: string, frame: Frame, evidence: seq<Frame>)
    ensures var result := frame.frameType == ToolResult;
      var seen := if frame.frameType == NotEvidence then evidence else evidence + [frame];
      var binds := result && frame.toolName == "web.navigate" && frame.succeeded && frame.flow.Some?;
      var kills := result && (|| frame.errorCode == "BROWSER_REDIRECT_NOT_ALLOWED"
                              || frame.errorCode == "BROWSER_FLOW_DENIED"
                              || frame.errorCode == "BROWSER_FLOW_ORIGIN_DEVIATED"
                              || frame.errorCode == "BROWSER_FLOW_AUTHORITY_STALE"
                              || (frame.toolName == "web.navigate" && frame.errorCode == "BROWSER_NAVIGATION_ERROR"
                                  && BoundAFlow(seen, frame.callId)));
      EventsOf(session, frame, evidence)
      == (if !binds then []
          else
            var f := frame.flow.value;
            [Bound(session, Flow(f.skillId, f.origin, if f.riskClass == "" then "read" else f.riskClass))])
         + (if kills then [Killed(session)] else [])
  {
    hide BoundAFlow;
  }

  function EventsOfAll(session: string, frames: seq<Frame>, evidence: seq<Frame>): seq<Event> {
    if frames == [] then []
    else EventsOf(session, frames[0], evidence) + EventsOfAll(session, frames[1..], EvidenceAfter(evidence, frames[0]))
  }

  // ---- The kernel -------------------------------------------------------------------------

  datatype FlowEnvelope = FlowEnvelope(
    confirmId: Uuid, ownerUserId: string, deciderUserId: string, callId: string, toolName: string, runId: Option<Uuid>)

  /** What the signing seam finds around a call. `admissible` is the delegated-identity check. */
  datatype Seam = Seam(tool: string, callId: string, armed: bool, keyed: bool, latched: bool, admissible: bool)

  /** The kernel's part in flow authority, with serial turns per session. `log` is what happened,
      and every method keeps the stores equal to what the log leaves in force. */
  class FlowKernel {
    const admission: bool
    const ttl: real
    var now: real
    var approvals: map<string, Approval>
    var contexts: map<string, Flow>
    var turns: map<string, Option<Uuid>>   // the run of each turn in progress
    var parked: map<string, Card>
    ghost var log: seq<Event>

    ghost predicate Reflects()
      reads this
    {
      && (forall s :: ApprovalIn(log, s) == if s in approvals then Some(approvals[s]) else None)
      && (forall s :: BindingIn(log, s) == if s in contexts then Some(contexts[s]) else None)
    }

    /** With admission on, a session's live authority belongs to the run of its turn in progress
        and to the run of its parked card. */
    ghost predicate RunsAgree()
      reads this
    {
      admission ==> forall s :: s in approvals && !Expired(approvals[s], now) ==>
        && approvals[s].runId.Some?
        && (s in turns ==> turns[s] == approvals[s].runId)
        && (s in parked ==> parked[s].runId == approvals[s].runId)
    }

    ghost predicate Valid()
      reads this
    {
      Reflects() && RunsAgree()
    }

    constructor (admission: bool, ttl: real)
      ensures Valid() && log == [] && this.admission == admission && this.ttl == ttl && turns == map[]
        && parked == map[]
    {
      this.admission, this.ttl, now := admission, ttl, 0.0;
      approvals, contexts, turns, parked, log := map[], map[], map[], map[], [];
    }

    method Tick(elapsed: real)
      requires Valid() && elapsed >= 0.0
      modifies this`now
      ensures Valid() && now == old(now) + elapsed
    {
      now := now + elapsed;
    }

    /** Event `k` is the session's latest approval, not killed since and within its TTL. */
    ghost predicate LiveAt(session: string, k: int)
      reads this
    {
      LatestApproval(log, session, k) && log[k].ttl > 0.0 && now - log[k].at <= log[k].ttl
    }

    function LiveApproval(session: string): Option<Approval>
      reads this
    {
      if session in approvals && !Expired(approvals[session], now) then Some(approvals[session]) else None
    }

    /** A fresh human turn inherits the run of a live authority, else runs on the one just minted,
        or on none when the ledger is unavailable. */
    method StartTurn(session: string, minted: Option<Uuid>) returns (run: Option<Uuid>)
      requires Valid() && session !in turns
      modifies this`turns
      ensures Valid() && turns == old(turns)[session := run]
      ensures !admission ==> run == None
      ensures admission ==> forall k :: LiveAt(session, k) ==> run == log[k].card.runId
      ensures admission && (forall k :: !LiveAt(session, k)) ==> run == minted
    {
      ApprovalInForce(log, session);
      if !admission {
        run := None;
      } else {
        var live := LiveApproval(session);
        run := if live.Some? && live.value.runId.Some? then live.value.runId else minted;
      }
      turns := turns[session := run];
      if LiveApproval(session).Some? {
        ghost var k :| LatestApproval(log, session, k);
        assert LiveAt(session, k);
      }
    }

    method EndTurn(session: string)
      requires Valid()
      modifies this`turns
      ensures Valid() && turns == old(turns) - {session}
    {
      turns := turns - {session};
    }

    /** Parks a batch and ends the stream. The card shows the bound flow exactly when the batch
        holds a browser write. */
    method Park(session: string, confirmId: Uuid, owner: string, tools: seq<string>)
      requires Valid() && session in turns
      modifies this`turns, this`parked
      ensures Valid() && turns == old(turns) - {session}
      ensures parked == old(parked)[session := Card(confirmId, owner, tools,
                if HasBrowserWrite(tools) then BindingIn(log, session) else None, old(turns)[session])]
    {
      var flow := if session in contexts && HasBrowserWrite(tools) then Some(contexts[session]) else None;
      parked := parked[session := Card(confirmId, owner, tools, flow, turns[session])];
      turns := turns - {session};
    }

    /** Resumes the parked batch with a decision. An approved batch is rejected for want of a key or
        of a verified identity and, with admission on, for a card without a run. */
    method Resume(session: string, approve: bool, decider: string, signable: bool) returns (card: Card)
      requires Valid() && session !in turns && session in parked
      modifies this
      ensures Valid() && card == old(parked)[session] && parked == old(parked) - {session}
      ensures turns == old(turns)[session := card.runId] && now == old(now) && contexts == old(contexts)
      ensures log == old(log) + (
                if approve && signable && (admission ==> card.runId.Some?) && WriteBatch(card)
                then [Approved(session, card, decider, ttl, now)] else [])
    {
      card := parked[session];
      ArmsForWriteBatches(card);
      var rejected := approve && (!signable || (admission && card.runId.None?));
      if approve && !rejected && Arms(card) {
        var flow := card.browserFlow.value;
        approvals := approvals[session := Approval(card.confirmId, card.ownerUserId, decider, flow.skillId,
                                                   flow.origin, ttl, now, card.runId)];
        Extend(Approved(session, card, decider, ttl, now));
        log := log + [Approved(session, card, decider, ttl, now)];
      } else {
        assert log + [] == log;
      }
      parked := parked - {session};
      turns := turns[session := card.runId];
    }

    lemma Extend(e: Event)
      ensures forall s :: ApprovalIn(log + [e], s) == (
                if e.session != s || e.Bound? then ApprovalIn(log, s)
                else if e.Approved? && Arms(e.card) then Some(ApprovalOf(e)) else None)
      ensures forall s :: BindingIn(log + [e], s) == (
                if e.session != s || e.Approved? then BindingIn(log, s) else if e.Bound? then Some(e.flow) else None)
    {
      assert (log + [e])[..|log|] == log;
    }

    /** A deleted session, or a frame that ends the flow, drops reflection and authority together. */
    method Kill(session: string)
      requires Valid()
      modifies this`approvals, this`contexts, this`log
      ensures Valid() && log == old(log) + [Killed(session)]
    {
      contexts, approvals := contexts - {session}, approvals - {session};
      Extend(Killed(session));
      log := log + [Killed(session)];
    }

    method Bind(session: string, flow: Flow)
      requires Valid()
      modifies this`contexts, this`log
      ensures Valid() && log == old(log) + [Bound(session, Reflected(flow))]
    {
      contexts := contexts[session := Reflected(flow)];
      Extend(Bound(session, Reflected(flow)));
      log := log + [Bound(session, Reflected(flow))];
    }

    /** One queued frame: evidence first, then the binding, then the invalidation. */
    method Observe(session: string, frame: Frame, evidence: seq<Frame>) returns (after: seq<Frame>)
      requires Valid()
      modifies this`approvals, this`contexts, this`log
      ensures Valid() && after == EvidenceAfter(evidence, frame)
      ensures log == old(log) + EventsOf(session, frame, evidence)
    {
      after := EvidenceAfter(evidence, frame);
      if Binds(frame) { Bind(session, frame.flow.value); }
      var killed := false;
      if frame.frameType == ToolResult {
        killed := frame.errorCode in FLOW_KILLING_ERROR_CODES;
        if !killed && frame.toolName == "web.navigate" && frame.errorCode == "BROWSER_NAVIGATION_ERROR" {
          killed := NavigateBoundAFlow(frame, after);
        }
      }
      if killed { Kill(session); }
    }

    /** The drain loop of a turn. */
    method Drain(session: string, frames: seq<Frame>, evidence: seq<Frame>) returns (after: seq<Frame>)
      requires Valid()
      modifies this`approvals, this`contexts, this`log
      ensures Valid() && log == old(log) + EventsOfAll(session, frames, evidence)
    {
      hide EventsOf, EvidenceAfter, Reflects, RunsAgree;
      after := evidence;
      var k := 0;
      while k < |frames|
        invariant 0 <= k <= |frames| && Valid()
        invariant log + EventsOfAll(session, frames[k..], after) == old(log) + EventsOfAll(session, frames, evidence)
      {
        ghost var before, seen := log, after;
        after := Observe(session, frames[k], after);
        assert frames[k..][1..] == frames[k + 1..];
        assert before + EventsOfAll(session, frames[k..], seen)
            == before + EventsOf(session, frames[k], seen) + EventsOfAll(session, frames[k + 1..], after);
        k := k + 1;
      }
      assert log + EventsOfAll(session, frames[k..], after) == log;
    }

    /** What the log must show for the kernel to sign a browser write by itself. */
    ghost predicate Warranted(session: string, k: int, m: int)
      reads this
    {
      && LiveAt(session, k)
      && LatestBinding(log, session, m) && Identity(log[m].flow) == Identity(log[k].card.browserFlow.value)
    }

    lemma WarrantIsInTheStores(session: string)
      requires Reflects()
      ensures (exists k, m :: Warranted(session, k, m)) <==>
        && LiveApproval(session).Some? && session in contexts
        && Identity(contexts[session]) == (approvals[session].skillId, approvals[session].origin)
      ensures forall k, m :: Warranted(session, k, m) ==> approvals[session] == ApprovalOf(log[k])
    {
      ApprovalInForce(log, session);
      BindingInForce(log, session);
      if session in approvals && session in contexts {
        var k :| LatestApproval(log, session, k);
        var m :| LatestBinding(log, session, m);
        if !Expired(approvals[session], now)
           && Identity(contexts[session]) == (approvals[session].skillId, approvals[session].origin) {
          assert Warranted(session, k, m);
        }
      }
    }

    /** Signs one browser write under the session's authority, exactly when the log warrants it: an
        approval of a browser-write batch in a write-class flow, the latest recorded, still within
        its TTL and not killed since, that names the same skill and origin as the latest observed
        binding. With admission on the envelope carries the run bound to the current turn. */
    method Sign(session: string, seam: Seam) returns (r: Option<FlowEnvelope>)
      requires Valid() && session in turns
      ensures r.Some? <==>
        && Writes(seam.tool) && seam.armed && seam.keyed && seam.callId != "" && seam.admissible
        && !(turns[session].Some? && seam.latched)
        && exists k, m :: Warranted(session, k, m)
      ensures r.Some? && admission ==> turns[session].Some? && r.value.runId == turns[session]
      ensures r.Some? ==> forall k, m :: Warranted(session, k, m) ==>
        && r.value.confirmId == log[k].card.confirmId && r.value.ownerUserId == log[k].card.ownerUserId
        && r.value.deciderUserId == log[k].decider && r.value.toolName == seam.tool && r.value.callId == seam.callId
    {
      WarrantIsInTheStores(session);
      assert seam.tool in BROWSER_WRITE_TOOLS <==> Writes(seam.tool);
      if seam.tool !in BROWSER_WRITE_TOOLS { return None; }
      if turns[session].Some? && seam.latched { return None; }
      var live := LiveApproval(session);
      if live.None? { return None; }
      var approval := live.value;
      if session !in contexts || Identity(contexts[session]) != (approval.skillId, approval.origin) { return None; }
      if !seam.armed || !seam.keyed || seam.callId == "" { return None; }
      if admission && approval.runId.None? { return None; }
      if !seam.admissible { return None; }
      r := Some(FlowEnvelope(approval.confirmId, approval.ownerUserId, approval.deciderUserId, seam.callId, seam.tool,
                             if admission then approval.runId else None));
    }
  }
}
