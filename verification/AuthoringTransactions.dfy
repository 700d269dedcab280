/** The SQL form of one session's authoring trace: transactions that interleave statement by
    statement. An append reads the table and inserts what it computed from that reading. */
module AuthoringTransactions {
  import opened Basics
  import opened AuthoringTrace

  type Table = map<nat, Row>

  /** What the append's SELECT reads: the highest position, the number of rows, and whether any of
      them is not a draft. */
  datatype Reading = Reading(max: nat, count: nat, closed: bool)

  ghost predicate Highest(positions: set<nat>, max: nat) {
    (positions == {} ==> max == 0) && (positions != {} ==> max in positions) && forall p :: p in positions ==> p <= max
  }

  ghost function MaxOf(positions: set<nat>): (max: nat)
    ensures Highest(positions, max)
  {
    if positions == {} then 0
    else
      var p :| p in positions;
      var rest := MaxOf(positions - {p});
      assert positions == positions - {p} + {p};
      if positions == {p} || p > rest then p else rest
  }

  ghost function ReadTable(table: Table): Reading {
    Reading(MaxOf(table.Keys), |table|, exists p :: p in table && table[p].status != Draft)
  }

  /** The append's INSERT; a taken position is skipped. */
  function InsertStep(table: Table, seen: Reading, step: Step, cap: nat): Table {
    if seen.count >= cap || seen.closed || seen.max + 1 in table then table
    else table[seen.max + 1 := Row(seen.max + 1, step, Draft)]
  }

  function CloseDrafts(table: Table, status: Status): Table {
    map p | p in table :: if table[p].status == Draft then table[p].(status := status) else table[p]
  }

  function DropDrafts(table: Table): Table {
    map p | p in table && table[p].status != Draft :: table[p]
  }

  /** An append that has read remembers its reading and how long the log then was. */
  datatype Phase = Waiting | Holding | HasRead(seen: Reading, at: nat) | Finished(reported: bool)

  datatype Transaction = Transaction(op: Op, phase: Phase)

  /** `locking` says whether transactions take the advisory lock. `log` lists the committed operations
      in the order in which they took effect, each with what it reported: an append that its reading
      refuses takes effect when it reads, everything else when it commits. */
  datatype System = System(
    cap: nat, locking: bool, table: Table, holder: Option<nat>, transactions: map<nat, Transaction>,
    log: seq<(Op, bool)>)

  /** A deletion, or the sweep of a trace that is idle. */
  predicate Reclaims(op: Op) {
    op.Delete? || (op.Sweep? && op.idle)
  }

  function Reclaimed(table: Table, op: Op): Table {
    if op.Delete? then map[] else DropDrafts(table)
  }

  datatype Action =
    | Begin(id: nat, op: Op)
    | Lock(id: nat)
    | Select(id: nat)
    | Write(id: nat)     // the modifying statement, and the commit that releases the lock
    | Abort(id: nat)
    | Reclaim(op: Op)    // a sweep or a deletion, which takes no lock

  function Advance(s: System, id: nat, phase: Phase): System
    requires id in s.transactions
  {
    s.(transactions := s.transactions[id := s.transactions[id].(phase := phase)])
  }

  predicate IsAt(s: System, id: nat, phase: Phase) {
    id in s.transactions && s.transactions[id].phase == phase
  }

  function Release(s: System, id: nat): System {
    if s.holder == Some(id) then s.(holder := None) else s
  }

  /** The reading alone refuses the append. */
  predicate Refuses(seen: Reading, cap: nat) {
    seen.closed || seen.count >= cap
  }

  function LogAt(log: seq<(Op, bool)>, at: nat, op: Op, reported: bool): seq<(Op, bool)> {
    if at > |log| then log else log[..at] + [(op, reported)] + log[at..]
  }

  function CommitAppend(s: System, id: nat, step: Step, seen: Reading, at: nat): System
    requires id in s.transactions
  {
    var after := InsertStep(s.table, seen, step, s.cap);
    var inserted := after != s.table;
    var log := LogAt(s.log, if Refuses(seen, s.cap) then at else |s.log|, Append(step), inserted);
    Release(Advance(s.(table := after, log := log), id, Finished(inserted)), id)
  }

  function CommitClose(s: System, id: nat, status: Status): System
    requires id in s.transactions
  {
    var closed := exists p :: p in s.table && s.table[p].status == Draft;
    var after := s.(table := CloseDrafts(s.table, status), log := s.log + [(Close(status), closed)]);
    Release(Advance(after, id, Finished(closed)), id)
  }

  /** An append or a close that has not been refused before it reached the database. */
  predicate Submitted(op: Op) {
    op.Append? || (op.Close? && op.status != Draft)
  }

  ghost function Next(s: System, a: Action): System {
    match a
    case Begin(id, op) =>
      if id in s.transactions || !Submitted(op) then s
      else s.(transactions := s.transactions[id := Transaction(op, Waiting)])
    case Lock(id) =>
      if !IsAt(s, id, Waiting) || (s.locking && s.holder.Some?) then s
      else Advance(if s.locking then s.(holder := Some(id)) else s, id, Holding)
    case Select(id) =>
      if !IsAt(s, id, Holding) || !s.transactions[id].op.Append? then s
      else Advance(s, id, HasRead(ReadTable(s.table), |s.log|))
    case Write(id) =>
      if id !in s.transactions then s
      else
        var t := s.transactions[id];
        if t.op.Append? && t.phase.HasRead? then CommitAppend(s, id, t.op.step, t.phase.seen, t.phase.at)
        else if t.op.Close? && t.phase.Holding? then CommitClose(s, id, t.op.status)
        else s
    case Abort(id) =>
      if id !in s.transactions || s.transactions[id].phase.Finished? then s
      else Release(s.(transactions := s.transactions - {id}), id)
    case Reclaim(op) =>
      var table := Reclaimed(s.table, op);
      if !Reclaims(op) then s else s.(table := table, log := s.log + [(op, table != s.table)])
  }

  ghost function Run(s: System, actions: seq<Action>): System {
    if actions == [] then s else Next(Run(s, actions[..|actions| - 1]), actions[|actions| - 1])
  }

  function Start(cap: nat, locking: bool): System {
    System(cap, locking, map[], None, map[], [])
  }

  // ---- The table is the list --------------------------------------------------------------

  function TableOf(rows: seq<Row>): Table {
    if rows == [] then map[] else TableOf(rows[..|rows| - 1])[|rows| := rows[|rows| - 1]]
  }

  lemma {:induction false} TableOfAt(rows: seq<Row>)
    ensures forall p :: p in TableOf(rows) <==> 1 <= p <= |rows|
    ensures forall p :: p in TableOf(rows) ==> TableOf(rows)[p] == rows[p - 1]
    ensures |TableOf(rows)| == |rows|
  {
    if rows != [] {
      TableOfAt(rows[..|rows| - 1]);
      assert TableOf(rows).Keys == TableOf(rows[..|rows| - 1]).Keys + {|rows|};
    }
  }

  function Ops(log: seq<(Op, bool)>): seq<Op> {
    if log == [] then [] else Ops(log[..|log| - 1]) + [log[|log| - 1].0]
  }

  ghost function Listed(s: System): seq<Row> {
    Replay(Ops(s.log), s.cap)
  }

  /** Every transaction reported what the list would have reported at that point. */
  ghost predicate ReportsAgree(log: seq<(Op, bool)>, cap: nat) {
    forall k :: 0 <= k < |log| ==> log[k].1 == Reports(Replay(Ops(log[..k]), cap), log[k].0, cap)
  }

  /** Only the holder of the lock is between its first and its last statement. Its reading is of the
      list as it was then, and unless it refuses the append it still describes the table. */
  ghost predicate PhasesOk(s: System) {
    forall id :: id in s.transactions ==>
      var phase := s.transactions[id].phase;
      && Submitted(s.transactions[id].op)
      && (phase.Holding? || phase.HasRead? ==> s.holder == Some(id))
      && (phase.HasRead? ==>
            && phase.at <= |s.log| && phase.seen == ReadTable(TableOf(Replay(Ops(s.log[..phase.at]), s.cap)))
            && (Refuses(phase.seen, s.cap) || phase.seen == ReadTable(s.table)))
  }

  ghost predicate SystemOk(s: System) {
    s.locking && s.table == TableOf(Listed(s)) && ReportsAgree(s.log, s.cap) && PhasesOk(s)
  }

  lemma TableReads(rows: seq<Row>, cap: nat)
    requires TraceOk(rows, cap)
    ensures ReadTable(TableOf(rows)) == Reading(|rows|, |rows|, IsClosed(rows))
    ensures forall p :: p in TableOf(rows) ==> TableOf(rows)[p].status == rows[0].status
  {
    TableOfAt(rows);
    if rows != [] { assert |rows| in TableOf(rows) && 1 in TableOf(rows); }
  }

  lemma InsertIsAppend(rows: seq<Row>, step: Step, cap: nat)
    requires TraceOk(rows, cap)
    ensures InsertStep(TableOf(rows), ReadTable(TableOf(rows)), step, cap) == TableOf(Apply(rows, Append(step), cap))
    ensures InsertStep(TableOf(rows), ReadTable(TableOf(rows)), step, cap) != TableOf(rows)
      <==> Reports(rows, Append(step), cap)
  {
    TableReads(rows, cap);
    TableOfAt(rows);
    if Reports(rows, Append(step), cap) {
      assert Apply(rows, Append(step), cap)[..|rows|] == rows;
    }
  }

  lemma CloseIsClose(rows: seq<Row>, status: Status, cap: nat)
    requires TraceOk(rows, cap) && status != Draft
    ensures CloseDrafts(TableOf(rows), status) == TableOf(Apply(rows, Close(status), cap))
    ensures (exists p :: p in TableOf(rows) && TableOf(rows)[p].status == Draft) <==> Reports(rows, Close(status), cap)
  {
    TableReads(rows, cap);
    hide TableOf, CloseRows;
    var after := Apply(rows, Close(status), cap);
    TableOfAt(rows);
    TableOfAt(after);
    CloseRowsAt(rows, status);
    assert CloseDrafts(TableOf(rows), status).Keys == TableOf(after).Keys;
    if rows != [] { assert 1 in TableOf(rows); }
  }

  lemma ReclaimIsReclaim(rows: seq<Row>, op: Op, cap: nat)
    requires TraceOk(rows, cap) && Reclaims(op)
    ensures Reclaimed(TableOf(rows), op) == TableOf(Apply(rows, op, cap))
    ensures Reclaimed(TableOf(rows), op) != TableOf(rows) <==> Reports(rows, op, cap)
  {
    TableReads(rows, cap);
    TableOfAt(rows);
    if rows != [] { assert 1 in TableOf(rows); }
  }

  lemma LogGrows(log: seq<(Op, bool)>, op: Op, reported: bool, cap: nat)
    requires ReportsAgree(log, cap) && reported == Reports(Replay(Ops(log), cap), op, cap)
    ensures ReportsAgree(log + [(op, reported)], cap)
    ensures Replay(Ops(log + [(op, reported)]), cap) == Apply(Replay(Ops(log), cap), op, cap)
  {
    hide Apply, Reports;
    var after := log + [(op, reported)];
    assert after[..|log|] == log;
    assert Ops(after)[..|Ops(after)| - 1] == Ops(log);
    forall k | 0 <= k < |after| ensures after[k].1 == Reports(Replay(Ops(after[..k]), cap), after[k].0, cap) {
      if k < |log| { assert after[..k] == log[..k]; }
    }
  }

  /** An operation that does nothing may take effect anywhere. */
  lemma {:induction false} NothingAt(log: seq<(Op, bool)>, at: nat, op: Op, cap: nat)
    requires at <= |log| && ReportsAgree(log, cap)
    requires var rows := Replay(Ops(log[..at]), cap); !Reports(rows, op, cap) && Apply(rows, op, cap) == rows
    ensures ReportsAgree(LogAt(log, at, op, false), cap)
    ensures Replay(Ops(LogAt(log, at, op, false)), cap) == Replay(Ops(log), cap)
  {
    hide Apply, Reports, Replay, Ops, ReportsAgree, LogAt;
    LogAtEnd(log, op, false);
    if at == |log| {
      assert log[..at] == log;
      LogGrows(log, op, false, cap);
    } else {
      var init, last := log[..|log| - 1], log[|log| - 1];
      assert init[..at] == log[..at] && log == init + [last];
      ShorterAgrees(init, last, cap);
      NothingAt(init, at, op, cap);
      LogAtEarlier(init, last, at, op);
      LogGrows(LogAt(init, at, op, false), last.0, last.1, cap);
      LogGrows(init, last.0, last.1, cap);
    }
  }

  lemma LogAtEarlier(init: seq<(Op, bool)>, last: (Op, bool), at: nat, op: Op)
    requires at <= |init|
    ensures LogAt(init + [last], at, op, false) == LogAt(init, at, op, false) + [(last.0, last.1)]
  {
  }

  lemma ShorterAgrees(init: seq<(Op, bool)>, last: (Op, bool), cap: nat)
    requires ReportsAgree(init + [last], cap)
    ensures ReportsAgree(init, cap) && last.1 == Reports(Replay(Ops(init), cap), last.0, cap)
  {
    hide Apply, Reports, Ops;
    var log := init + [last];
    assert log[..|init|] == init;
    forall k | 0 <= k < |init| ensures init[k].1 == Reports(Replay(Ops(init[..k]), cap), init[k].0, cap) {
      assert log[..k] == init[..k] && log[k] == init[k];
    }
  }

  /** A sweep or deletion that does not fall between the reading and the insert of an append that is
      about to extend a trace. */
  ghost predicate Harmless(s: System, a: Action) {
    a.Reclaim? && Reclaims(a.op) ==>
      forall id :: id in s.transactions && s.transactions[id].phase.HasRead? ==>
        var seen := s.transactions[id].phase.seen; Refuses(seen, s.cap) || seen.count == 0
  }

  lemma AppendKeeps(s: System, id: nat, step: Step, seen: Reading, at: nat)
    requires SystemOk(s) && id in s.transactions && s.transactions[id] == Transaction(Append(step), HasRead(seen, at))
    ensures SystemOk(CommitAppend(s, id, step, seen, at))
  {
    hide ReadTable, TableOf, Apply, Reports, Replay, ReportsAgree, Ops, LogAt;
    var rows := Listed(s);
    ReplayKeeps(Ops(s.log), s.cap);
    if Refuses(seen, s.cap) {
      RefusedAppendIsNothing(Replay(Ops(s.log[..at]), s.cap), seen, step, s.cap, Ops(s.log[..at]));
      NothingAt(s.log, at, Append(step), s.cap);
    } else {
      InsertIsAppend(rows, step, s.cap);
      LogGrows(s.log, Append(step), Reports(rows, Append(step), s.cap), s.cap);
      LogAtEnd(s.log, Append(step), Reports(rows, Append(step), s.cap));
    }
  }

  lemma LogAtEnd(log: seq<(Op, bool)>, op: Op, reported: bool)
    ensures LogAt(log, |log|, op, reported) == log + [(op, reported)]
  {
  }

  lemma RefusedAppendIsNothing(rows: seq<Row>, seen: Reading, step: Step, cap: nat, ops: seq<Op>)
    requires rows == Replay(ops, cap) && seen == ReadTable(TableOf(rows)) && Refuses(seen, cap)
    ensures !Reports(rows, Append(step), cap) && Apply(rows, Append(step), cap) == rows
  {
    hide ReadTable, TableOf;
    ReplayKeeps(ops, cap);
    TableReads(rows, cap);
  }

  lemma CommitKeeps(s: System, id: nat)
    requires SystemOk(s)
    ensures SystemOk(Next(s, Write(id)))
  {
    hide ReadTable, InsertStep, CloseDrafts, TableOf, Apply, Reports, Replay, ReportsAgree, Ops, CommitAppend;
    var rows := Listed(s);
    ReplayKeeps(Ops(s.log), s.cap);
    if id in s.transactions {
      var t := s.transactions[id];
      if t.op.Append? && t.phase.HasRead? {
        AppendKeeps(s, id, t.op.step, t.phase.seen, t.phase.at);
      } else if t.op.Close? && t.phase.Holding? {
        CloseIsClose(rows, t.op.status, s.cap);
        LogGrows(s.log, t.op, Reports(rows, t.op, s.cap), s.cap);
      }
    }
  }

  lemma ReclaimKeeps(s: System, op: Op)
    requires SystemOk(s) && Harmless(s, Reclaim(op)) && Reclaims(op)
    ensures SystemOk(Next(s, Reclaim(op)))
  {
    hide ReadTable, Reclaimed, TableOf, Replay, ReportsAgree, Ops, Apply, Reports;
    var rows := Listed(s);
    var after := Next(s, Reclaim(op));
    ReplayKeeps(Ops(s.log), s.cap);
    ReclaimIsReclaim(rows, op, s.cap);
    LogGrows(s.log, op, Reports(rows, op, s.cap), s.cap);
    forall id | id in s.transactions && s.transactions[id].phase.HasRead?
      ensures after.log[..s.transactions[id].phase.at] == s.log[..s.transactions[id].phase.at]
      ensures Refuses(s.transactions[id].phase.seen, s.cap) || s.transactions[id].phase.seen == ReadTable(after.table)
    {
      if !Refuses(s.transactions[id].phase.seen, s.cap) { NothingToReclaim(s.table, op); }
    }
  }

  lemma NothingToReclaim(table: Table, op: Op)
    requires ReadTable(table).count == 0
    ensures Reclaimed(table, op) == table
  {
  }

  lemma NextKeeps(s: System, a: Action)
    requires SystemOk(s) && Harmless(s, a)
    ensures SystemOk(Next(s, a))
  {
    hide ReadTable, TableOf, Replay, ReportsAgree, Ops, CommitAppend, CommitClose, Reclaimed;
    match a
    case Write(id) => CommitKeeps(s, id);
    case Reclaim(op) => if Reclaims(op) { ReclaimKeeps(s, op); }
    case Select(id) => assert s.log[..|s.log|] == s.log;
    case _ =>
  }

  ghost predicate HarmlessRun(s: System, actions: seq<Action>) {
    actions != [] ==>
      var before := actions[..|actions| - 1];
      HarmlessRun(s, before) && Harmless(Run(s, before), actions[|actions| - 1])
  }

  /** In every interleaving of locked appends and closes, with aborts anywhere and sweeps and deletions
      that are harmless, the table is the list that the committed operations give in the order in which
      they took effect, and each transaction reported what the list reports. So positions are exactly 1
      to n within the cap and all rows share one status. */
  lemma {:induction false} LockedTableIsTheList(cap: nat, actions: seq<Action>)
    requires HarmlessRun(Start(cap, true), actions)
    ensures var s := Run(Start(cap, true), actions);
      && SystemOk(s) && s.cap == cap && s.table == TableOf(Replay(Ops(s.log), cap))
      && TraceOk(Replay(Ops(s.log), cap), cap)
      && ReportsAgree(s.log, cap)
  {
    hide Next, TableOf, ReportsAgree;
    if actions == [] {
      assert SystemOk(Start(cap, true)) by { StartIsOk(cap); }
    } else {
      var before := Run(Start(cap, true), actions[..|actions| - 1]);
      LockedTableIsTheList(cap, actions[..|actions| - 1]);
      NextKeeps(before, actions[|actions| - 1]);
      CapIsFixed(before, actions[|actions| - 1]);
    }
    ReplayKeeps(Ops(Run(Start(cap, true), actions).log), cap);
  }

  // ---- Exactly which sweeps and deletions do harm -----------------------------------------

  ghost predicate IsATrace(table: Table, cap: nat) {
    exists rows :: TraceOk(rows, cap) && table == TableOf(rows)
  }

  /** A sweep or deletion between an append's reading and its insert leaves a trace exactly when the
      rows that were read are none, closed, or at the cap. */
  lemma ReclaimBetweenIsHarmlessExactlyWhen(rows: seq<Row>, op: Op, step: Step, cap: nat)
    requires TraceOk(rows, cap) && Reclaims(op)
    ensures IsATrace(InsertStep(Reclaimed(TableOf(rows), op), ReadTable(TableOf(rows)), step, cap), cap)
       <==> rows == [] || IsClosed(rows) || |rows| >= cap
  {
    hide ReadTable, TableOf, Reclaimed;
    TableReads(rows, cap);
    ReclaimIsReclaim(rows, op, cap);
    ApplyKeeps(rows, op, cap);
    var left := Apply(rows, op, cap);
    TableOfAt(left);
    var written := InsertStep(TableOf(left), ReadTable(TableOf(rows)), step, cap);
    if IsClosed(rows) || |rows| >= cap {
      assert written == TableOf(left);
    } else if rows == [] {
      InsertIsAppend(left, step, cap);
      ApplyKeeps(left, Append(step), cap);
      assert written == TableOf(Apply(left, Append(step), cap));
    } else {
      assert left == [] && |rows| + 1 in written && 1 !in written;
      forall other | TraceOk(other, cap) ensures written != TableOf(other) { TableOfAt(other); }
    }
  }

  /** So a harmful one breaks the trace as soon as the append commits. */
  lemma HarmfulReclaimBreaksTheTrace(s: System, op: Op, id: nat)
    requires SystemOk(s) && Reclaims(op)
    requires id in s.transactions && s.transactions[id].op.Append? && s.transactions[id].phase.HasRead?
    requires var seen := s.transactions[id].phase.seen; !Refuses(seen, s.cap) && seen.count > 0
    ensures !IsATrace(Next(Next(s, Reclaim(op)), Write(id)).table, s.cap)
  {
    hide TableOf, Replay, ReportsAgree, Ops, IsATrace, Reclaimed, InsertStep;
    var rows := Listed(s);
    ReplayKeeps(Ops(s.log), s.cap);
    TableReads(rows, s.cap);
    ReclaimBetweenIsHarmlessExactlyWhen(rows, op, s.transactions[id].op.step, s.cap);
  }

  lemma StartIsOk(cap: nat)
    ensures SystemOk(Start(cap, true))
  {
  }

  lemma CapIsFixed(s: System, a: Action)
    ensures Next(s, a).cap == s.cap
  {
  }

  // ---- Both conditions are needed ---------------------------------------------------------

  const STEP := Step("web.click", 0, 0, 0)

  /** One step more of a run. */
  lemma Then(s: System, actions: seq<Action>, a: Action) returns (longer: seq<Action>)
    ensures longer == actions + [a] && Run(s, longer) == Next(Run(s, actions), a)
    ensures HarmlessRun(s, actions) && Harmless(Run(s, actions), a) ==> HarmlessRun(s, longer)
  {
    longer := actions + [a];
    assert longer[..|actions|] == actions;
  }

  /** An append that has just read. */
  ghost function ReadingOf(s: System): Transaction {
    Transaction(Append(STEP), HasRead(ReadTable(s.table), |s.log|))
  }

  /** An append that begins, takes the lock and reads the table. */
  lemma BeginAndRead(s0: System, actions: seq<Action>, id: nat) returns (longer: seq<Action>)
    requires HarmlessRun(s0, actions) && id !in Run(s0, actions).transactions && Run(s0, actions).holder.None?
    ensures HarmlessRun(s0, longer)
    ensures var s := Run(s0, actions);
      Run(s0, longer) == s.(holder := if s.locking then Some(id) else None,
                            transactions := s.transactions[id := ReadingOf(s)])
  {
    hide Run, HarmlessRun, ReadTable;
    longer := Then(s0, actions, Begin(id, Append(STEP)));
    longer := Then(s0, longer, Lock(id));
    longer := Then(s0, longer, Select(id));
  }

  lemma FirstReadings()
    ensures ReadTable(map[]) == Reading(0, 0, false)
    ensures ReadTable(map[1 := Row(1, STEP, Draft)]) == Reading(1, 1, false)
  {
    var one: Table := map[1 := Row(1, STEP, Draft)];
    assert one.Keys == {1} && MaxOf(one.Keys) == 1;
  }

  /** One committed step, and a second append that has read the table. */
  lemma SecondAppendHasRead(locking: bool) returns (actions: seq<Action>)
    ensures HarmlessRun(Start(9, locking), actions)
    ensures var s := Run(Start(9, locking), actions);
      && s.cap == 9 && s.locking == locking && s.table == map[1 := Row(1, STEP, Draft)]
      && (locking ==> s.holder == Some(1)) && (!locking ==> s.holder.None?)
      && s.transactions.Keys == {0, 1}
      && s.transactions[1] == Transaction(Append(STEP), HasRead(Reading(1, 1, false), 1)) && |s.log| == 1
  {
    var s0 := Start(9, locking);
    assert Run(s0, []) == s0 && HarmlessRun(s0, []);
    hide Run, HarmlessRun, ReadTable;
    FirstReadings();
    actions := BeginAndRead(s0, [], 0);
    actions := Then(s0, actions, Write(0));
    actions := BeginAndRead(s0, actions, 1);
  }

  /** A close that commits meanwhile, which only the lock would have made wait. */
  lemma ClosedMeanwhile() returns (actions: seq<Action>)
    ensures HarmlessRun(Start(9, false), actions)
    ensures var s := Run(Start(9, false), actions);
      && s.cap == 9 && s.table == map[1 := Row(1, STEP, Graduated)] && 1 in s.transactions
      && s.transactions[1] == Transaction(Append(STEP), HasRead(Reading(1, 1, false), 1))
  {
    hide Run, HarmlessRun, ReadTable, CloseDrafts, CommitAppend;
    var s0 := Start(9, false);
    ClosedSample();
    actions := SecondAppendHasRead(false);
    actions := Then(s0, actions, Begin(2, Close(Graduated)));
    actions := Then(s0, actions, Lock(2));
    actions := Then(s0, actions, Write(2));
  }

  /** Without the lock, a close that commits between an append's reading and its insert leaves a
      draft row behind the closed ones. */
  lemma UnlockedAppendReopens() returns (actions: seq<Action>)
    ensures HarmlessRun(Start(9, false), actions)
    ensures Run(Start(9, false), actions).table == map[1 := Row(1, STEP, Graduated), 2 := Row(2, STEP, Draft)]
  {
    hide Run, HarmlessRun, ReadTable, CommitClose;
    actions := ClosedMeanwhile();
    actions := Then(Start(9, false), actions, Write(1));
  }

  lemma ClosedSample()
    ensures CloseDrafts(map[1 := Row(1, STEP, Draft)], Graduated) == map[1 := Row(1, STEP, Graduated)]
  {
  }

  /** With the lock, a sweep that commits between the two leaves a trace that begins at position 2. */
  lemma DisturbedAppendLeavesAHole() returns (actions: seq<Action>)
    ensures Run(Start(9, true), actions).table == map[2 := Row(2, STEP, Draft)]
  {
    hide Run, HarmlessRun, ReadTable;
    var s0 := Start(9, true);
    actions := SecondAppendHasRead(true);
    actions := Then(s0, actions, Reclaim(Sweep(true)));
    assert Run(s0, actions).table == map[];
    actions := Then(s0, actions, Write(1));
  }
}
