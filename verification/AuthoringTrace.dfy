/** One session's authoring trace, in its two forms: a list appended to in memory, and table rows
    written by concurrent transactions that take the session's advisory lock. The locked form is
    proved to answer and to store exactly what the list does, in commit order. */
module AuthoringTrace {
  import opened Basics

  datatype Status = Draft | Graduated | Discarded

  datatype Step = Step(toolName: string, args: nat, executionId: nat, capturedAt: int)

  datatype Row = Row(position: nat, step: Step, status: Status)

  // ---- The list ---------------------------------------------------------------------------

  /** What a caller, a sweep or an owner may ask. */
  datatype Op =
    | Append(step: Step)
    | Close(status: Status)
    | Sweep(idle: bool)   // reclaims the trace when it is an idle draft
    | Delete

  function CloseRows(rows: seq<Row>, status: Status): seq<Row> {
    if rows == [] then [] else CloseRows(rows[..|rows| - 1], status) + [rows[|rows| - 1].(status := status)]
  }

  predicate IsClosed(rows: seq<Row>) {
    rows != [] && rows[0].status != Draft
  }

  /** The trace after one operation. */
  function Apply(rows: seq<Row>, op: Op, cap: nat): seq<Row> {
    match op
    case Append(step) => if IsClosed(rows) || |rows| >= cap then rows else rows + [Row(|rows| + 1, step, Draft)]
    case Close(status) => if status == Draft || IsClosed(rows) then rows else CloseRows(rows, status)
    case Sweep(idle) => if idle && !IsClosed(rows) then [] else rows
    case Delete => []
  }

  /** Whether the operation reports that it did something. */
  function Reports(rows: seq<Row>, op: Op, cap: nat): bool {
    match op
    case Append(_) => !IsClosed(rows) && |rows| < cap
    case Close(status) => status != Draft && rows != [] && !IsClosed(rows)
    case Sweep(idle) => idle && rows != [] && !IsClosed(rows)
    case Delete => rows != []
  }

  /** Positions are exactly 1 to n within the cap, and all rows share one status. */
  ghost predicate TraceOk(rows: seq<Row>, cap: nat) {
    && |rows| <= cap
    && (forall k :: 0 <= k < |rows| ==> rows[k].position == k + 1 && rows[k].status == rows[0].status)
  }

  lemma {:induction false} CloseRowsAt(rows: seq<Row>, status: Status)
    ensures |CloseRows(rows, status)| == |rows|
    ensures forall k :: 0 <= k < |rows| ==> CloseRows(rows, status)[k] == rows[k].(status := status)
  {
    if rows != [] { CloseRowsAt(rows[..|rows| - 1], status); }
  }

  lemma ApplyKeeps(rows: seq<Row>, op: Op, cap: nat)
    requires TraceOk(rows, cap)
    ensures TraceOk(Apply(rows, op, cap), cap)
  {
    if op.Close? { CloseRowsAt(rows, op.status); }
  }

  function Replay(ops: seq<Op>, cap: nat): seq<Row> {
    if ops == [] then [] else Apply(Replay(ops[..|ops| - 1], cap), ops[|ops| - 1], cap)
  }

  lemma {:induction false} ReplayKeeps(ops: seq<Op>, cap: nat)
    ensures TraceOk(Replay(ops, cap), cap)
  {
    if ops != [] {
      ReplayKeeps(ops[..|ops| - 1], cap);
      ApplyKeeps(Replay(ops[..|ops| - 1], cap), ops[|ops| - 1], cap);
    }
  }

  /** A closed trace never grows, changes or reopens; only deleting the session ends it. */
  lemma {:induction false} ClosedIsForever(ops: seq<Op>, more: seq<Op>, cap: nat)
    requires IsClosed(Replay(ops, cap)) && Delete !in more
    ensures Replay(ops + more, cap) == Replay(ops, cap)
  {
    if more == [] {
      assert ops + more == ops;
    } else {
      ClosedIsForever(ops, more[..|more| - 1], cap);
      assert (ops + more)[..|ops + more| - 1] == ops + more[..|more| - 1];
    }
  }

  /** The store as it works in memory: rows changed in place, per session. */
  class InMemoryAuthoringTraceStore {
    const maxSteps: nat
    var bySession: map<string, seq<Row>>

    ghost predicate Valid()
      reads this
    {
      forall s :: s in bySession ==> TraceOk(bySession[s], maxSteps)
    }

    function Trace(session: string): seq<Row>
      reads this
    {
      if session in bySession then bySession[session] else []
    }

    constructor (maxSteps: nat)
      ensures Valid() && this.maxSteps == maxSteps && bySession == map[]
    {
      this.maxSteps := maxSteps;
      bySession := map[];
    }

    method AppendStep(session: string, step: Step) returns (appended: bool)
      requires Valid()
      modifies this
      ensures Valid()
      ensures Trace(session) == Apply(old(Trace(session)), Append(step), maxSteps)
      ensures appended == Reports(old(Trace(session)), Append(step), maxSteps)
      ensures forall s :: s != session ==> Trace(s) == old(Trace(s))
    {
      var rows := Trace(session);
      if session !in bySession { bySession := bySession[session := []]; }
      if rows != [] && rows[0].status != Draft { return false; }
      if |rows| >= maxSteps { return false; }
      bySession := bySession[session := rows + [Row(|rows| + 1, step, Draft)]];
      appended := true;
    }

    /** `None` is the refusal of a status that is not terminal. */
    method CloseTrace(session: string, status: Status) returns (closed: Option<bool>)
      requires Valid()
      modifies this
      ensures Valid()
      ensures Trace(session) == Apply(old(Trace(session)), Close(status), maxSteps)
      ensures closed == if status == Draft then None else Some(Reports(old(Trace(session)), Close(status), maxSteps))
      ensures forall s :: s != session ==> Trace(s) == old(Trace(s))
    {
      if status == Draft { return None; }
      var rows := Trace(session);
      if rows == [] || rows[0].status != Draft { return Some(false); }
      CloseRowsAt(rows, status);
      var k := 0;
      while k < |rows|
        invariant 0 <= k <= |rows| == |old(Trace(session))|
        invariant forall j :: 0 <= j < k ==> rows[j] == old(Trace(session))[j].(status := status)
        invariant forall j :: k <= j < |rows| ==> rows[j] == old(Trace(session))[j]
      {
        rows := rows[k := rows[k].(status := status)];
        k := k + 1;
      }
      assert rows == CloseRows(old(Trace(session)), status);
      bySession := bySession[session := rows];
      closed := Some(true);
    }

    method DeleteSession(session: string) returns (deleted: bool)
      requires Valid()
      modifies this
      ensures Valid()
      ensures Trace(session) == [] && deleted == (old(Trace(session)) != [])
      ensures forall s :: s != session ==> Trace(s) == old(Trace(s))
    {
      deleted := Trace(session) != [];
      bySession := bySession - {session};
    }
  }
}
