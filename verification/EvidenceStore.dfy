/** The per-session evidence store: turns saved as rows, a byte budget enforced by evicting the
    oldest result payloads, and turns loaded back grouped and in order. */
module EvidenceStore {
  import opened Basics

  /** A payload by its serialized text, or the cut-off preview that replaced one. */
  datatype Data = Json(text: string) | Preview(text: string)

  datatype Cut = EntryCap(originalChars: nat) | SessionBudget

  /** An evidence frame. Everything but its payload and its marker is `rest`. */
  datatype Frame = Frame(isResult: bool, data: Option<Data>, truncated: Option<Cut>, rest: string)

  datatype Row = Row(turnIndex: int, frameIndex: nat, requestId: string, frame: Frame, payloadBytes: nat)

  /** The length of a frame's JSON form. */
  type Size = Frame -> nat

  predicate SameButPayload(a: Frame, b: Frame) {
    a.isResult == b.isResult && a.rest == b.rest
  }

  /** A frame with the request it was saved under. */
  datatype Item = Item(requestId: string, frame: Frame)

  /** Frame by frame the same, but for payloads and markers. */
  ghost predicate AlmostEqual(a: seq<Item>, b: seq<Item>) {
    |a| == |b| && forall k :: 0 <= k < |a| ==>
      a[k].requestId == b[k].requestId && SameButPayload(a[k].frame, b[k].frame)
  }

  /** Frames saved under one request. */
  function ItemsFor(requestId: string, frames: seq<Frame>): seq<Item> {
    if frames == [] then [] else ItemsFor(requestId, frames[..|frames| - 1]) + [Item(requestId, frames[|frames| - 1])]
  }

  function FramesIn(items: seq<Item>): seq<Frame> {
    if items == [] then [] else FramesIn(items[..|items| - 1]) + [items[|items| - 1].frame]
  }

  // ---- The entry cap ----------------------------------------------------------------------

  predicate Oversized(f: Frame, cap: nat) {
    f.isResult && f.data.Some? && |f.data.value.text| > cap
  }

  /** Cuts oversized result payloads and marks them; no frame is dropped or reordered. */
  method PrepareFrames(frames: seq<Frame>, cap: nat) returns (prepared: seq<Frame>)
    ensures |prepared| == |frames| && forall k :: 0 <= k < |frames| ==> SameButPayload(prepared[k], frames[k])
    ensures forall k :: 0 <= k < |frames| ==>
      if frames[k].isResult && frames[k].data.Some? && |frames[k].data.value.text| > cap then
        prepared[k].data == Some(Preview(frames[k].data.value.text[..cap]))
        && prepared[k].truncated == Some(EntryCap(|frames[k].data.value.text|))
      else prepared[k] == frames[k]
  {
    prepared := [];
    for i := 0 to |frames|
      invariant |prepared| == i
      invariant forall k :: 0 <= k < i ==> SameButPayload(prepared[k], frames[k])
      invariant forall k :: 0 <= k < i ==>
        if Oversized(frames[k], cap) then
          prepared[k].data == Some(Preview(frames[k].data.value.text[..cap]))
          && prepared[k].truncated == Some(EntryCap(|frames[k].data.value.text|))
        else prepared[k] == frames[k]
    {
      var frame := frames[i];
      if Oversized(frame, cap) {
        var text := frame.data.value.text;
        frame := frame.(data := Some(Preview(text[..cap])), truncated := Some(EntryCap(|text|)));
      }
      prepared := prepared + [frame];
    }
  }

  // ---- The session budget -----------------------------------------------------------------

  predicate Evictable(row: Row) {
    row.frame.isResult && row.frame.truncated.None? && row.frame.data.Some?
  }

  function Evicted(row: Row, size: Size): Row {
    var frame := row.frame.(data := None, truncated := Some(SessionBudget));
    row.(frame := frame, payloadBytes := size(frame))
  }

  /** What goes: the payload of a result that has one and is not cut yet. What stays: everything else,
      with the session's marker and the new length. */
  lemma EvictionMeans(row: Row, size: Size)
    ensures Evictable(row) <==> row.frame.isResult && row.frame.data.Some? && row.frame.truncated.None?
    ensures var frame := Frame(row.frame.isResult, None, Some(SessionBudget), row.frame.rest);
      Evicted(row, size) == Row(row.turnIndex, row.frameIndex, row.requestId, frame, size(frame))
  {
  }

  function Bytes(rows: seq<Row>): nat {
    if rows == [] then 0 else Bytes(rows[..|rows| - 1]) + rows[|rows| - 1].payloadBytes
  }

  predicate HasEvictable(rows: seq<Row>) {
    exists row :: row in rows && Evictable(row)
  }

  function EvictableCount(rows: seq<Row>): nat {
    if rows == [] then 0 else EvictableCount(rows[..|rows| - 1]) + if Evictable(rows[|rows| - 1]) then 1 else 0
  }

  predicate FirstEvictable(rows: seq<Row>, k: int) {
    0 <= k < |rows| && Evictable(rows[k]) && forall j :: 0 <= j < k ==> !Evictable(rows[j])
  }

  lemma {:induction false} BytesOfUpdate(rows: seq<Row>, k: nat, row: Row)
    requires k < |rows|
    ensures Bytes(rows[k := row]) == Bytes(rows) - rows[k].payloadBytes + row.payloadBytes
    ensures EvictableCount(rows[k := row])
         == EvictableCount(rows) - (if Evictable(rows[k]) then 1 else 0) + (if Evictable(row) then 1 else 0)
  {
    var init := rows[..|rows| - 1];
    if k < |init| {
      BytesOfUpdate(init, k, row);
      assert rows[k := row][..|rows| - 1] == init[k := row];
    } else {
      assert rows[k := row][..|rows| - 1] == init;
    }
  }

  /** The eviction loop as it runs: the oldest evictable payload goes, and an eviction that frees
      nothing ends it. */
  ghost function Enforce(rows: seq<Row>, budget: int, size: Size): seq<Row>
    decreases EvictableCount(rows)
  {
    if Bytes(rows) <= budget || !(exists k :: FirstEvictable(rows, k)) then rows
    else
      var k :| FirstEvictable(rows, k);
      var after := rows[k := Evicted(rows[k], size)];
      BytesOfUpdate(rows, k, Evicted(rows[k], size));
      if Bytes(after) >= Bytes(rows) then after else Enforce(after, budget, size)
  }

  /** A row that may only have lost its payload. */
  predicate Thinned(after: Row, before: Row) {
    && after.turnIndex == before.turnIndex && after.frameIndex == before.frameIndex
    && after.requestId == before.requestId && SameButPayload(after.frame, before.frame)
  }

  ghost predicate ThinnedAll(after: seq<Row>, before: seq<Row>) {
    |after| == |before| && forall k :: 0 <= k < |before| ==> Thinned(after[k], before[k])
  }

  ghost predicate Sized(rows: seq<Row>, size: Size) {
    forall k :: 0 <= k < |rows| ==> rows[k].payloadBytes == size(rows[k].frame)
  }

  lemma {:induction false} EnforceOnlyThins(rows: seq<Row>, budget: int, size: Size)
    ensures ThinnedAll(Enforce(rows, budget, size), rows)
    ensures Sized(rows, size) ==> Sized(Enforce(rows, budget, size), size)
    decreases EvictableCount(rows)
  {
    if Bytes(rows) > budget && exists k :: FirstEvictable(rows, k) {
      var k :| FirstEvictable(rows, k);
      BytesOfUpdate(rows, k, Evicted(rows[k], size));
      EnforceOnlyThins(rows[k := Evicted(rows[k], size)], budget, size);
    }
  }

  // ---- When eviction gives up early -------------------------------------------------------

  predicate Shrinks(row: Row, size: Size) {
    Evicted(row, size).payloadBytes < row.payloadBytes
  }

  function EvictAll(rows: seq<Row>, size: Size): seq<Row> {
    if rows == [] then []
    else EvictAll(rows[..|rows| - 1], size)
         + [if Evictable(rows[|rows| - 1]) then Evicted(rows[|rows| - 1], size) else rows[|rows| - 1]]
  }

  /** Row `k` is the first evictable one whose eviction would not shrink it, the session is still
      over budget when it is reached, and another payload could have been evicted after it. */
  ghost predicate GivesUpAt(rows: seq<Row>, k: int, budget: int, size: Size) {
    && 0 <= k < |rows| && Evictable(rows[k]) && !Shrinks(rows[k], size)
    && AllShrink(rows[..k], size)
    && Bytes(EvictAll(rows[..k], size)) + Bytes(rows[k..]) > budget
    && HasEvictable(rows[k + 1..])
  }

  ghost predicate AllShrink(rows: seq<Row>, size: Size) {
    forall j :: 0 <= j < |rows| && Evictable(rows[j]) ==> Shrinks(rows[j], size)
  }

  lemma {:induction false} BytesSplit(a: seq<Row>, b: seq<Row>)
    ensures Bytes(a + b) == Bytes(a) + Bytes(b)
  {
    if b == [] {
      assert a + b == a;
    } else {
      BytesSplit(a, b[..|b| - 1]);
      assert (a + b)[..|a + b| - 1] == a + b[..|b| - 1];
    }
  }

  lemma {:induction false} EvictAllAt(rows: seq<Row>, size: Size)
    ensures |EvictAll(rows, size)| == |rows|
    ensures forall k :: 0 <= k < |rows| ==>
      EvictAll(rows, size)[k] == if Evictable(rows[k]) then Evicted(rows[k], size) else rows[k]
  {
    if rows != [] { EvictAllAt(rows[..|rows| - 1], size); }
  }

  lemma {:induction false} ShrinkingEvictionsFree(rows: seq<Row>, size: Size)
    requires AllShrink(rows, size)
    ensures Bytes(EvictAll(rows, size)) <= Bytes(rows)
  {
    if rows != [] {
      ShrinkingEvictionsFree(rows[..|rows| - 1], size);
      assert EvictAll(rows, size)[..|rows| - 1] == EvictAll(rows[..|rows| - 1], size) by {
        EvictAllAt(rows[..|rows| - 1], size);
      }
      EvictAllAt(rows[..|rows| - 1], size);
    }
  }

  lemma NoGivingUpWithinBudget(rows: seq<Row>, k: int, budget: int, size: Size)
    requires GivesUpAt(rows, k, budget, size)
    ensures Bytes(rows) > budget
  {
    ShrinkingEvictionsFree(rows[..k], size);
    BytesSplit(rows[..k], rows[k..]);
    assert rows == rows[..k] + rows[k..];
  }

  lemma EvictingEarlier(rows: seq<Row>, f: nat, size: Size)
    requires f < |rows| && Evictable(rows[f]) && Shrinks(rows[f], size)
    ensures EvictAll(rows[f := Evicted(rows[f], size)], size) == EvictAll(rows, size)
    ensures AllShrink(rows[f := Evicted(rows[f], size)], size) <==> AllShrink(rows, size)
  {
    hide EvictAll;
    var after := rows[f := Evicted(rows[f], size)];
    EvictAllAt(rows, size);
    EvictAllAt(after, size);
    assert forall j :: 0 <= j < |rows| && j != f ==> after[j] == rows[j];
  }

  lemma GivingUpIgnoresEvictions(rows: seq<Row>, f: int, k: int, budget: int, size: Size)
    requires FirstEvictable(rows, f) && Shrinks(rows[f], size)
    ensures GivesUpAt(rows[f := Evicted(rows[f], size)], k, budget, size) <==> GivesUpAt(rows, k, budget, size)
  {
    hide EvictAll, AllShrink, Bytes, HasEvictable;
    var after := rows[f := Evicted(rows[f], size)];
    if f < k < |rows| {
      EvictingEarlier(rows[..k], f, size);
      assert after[..k] == rows[..k][f := Evicted(rows[f], size)];
      assert after[k..] == rows[k..] && after[k + 1..] == rows[k + 1..];
    }
  }

  lemma EvictableAfter(rows: seq<Row>, f: int, size: Size)
    requires FirstEvictable(rows, f)
    ensures HasEvictable(rows[f := Evicted(rows[f], size)]) <==> HasEvictable(rows[f + 1..])
  {
    var after := rows[f := Evicted(rows[f], size)];
    if row :| row in after && Evictable(row) {
      var j :| 0 <= j < |after| && after[j] == row;
      assert j > f && row == rows[f + 1..][j - f - 1];
    }
    if row :| row in rows[f + 1..] && Evictable(row) {
      var j :| 0 <= j < |rows[f + 1..]| && rows[f + 1..][j] == row;
      assert after[f + 1 + j] == row;
    }
  }

  lemma GivingUpAtTheFirst(rows: seq<Row>, f: int, budget: int, size: Size)
    requires FirstEvictable(rows, f) && !Shrinks(rows[f], size) && Bytes(rows) > budget
    ensures HasEvictable(rows[f := Evicted(rows[f], size)]) <==> exists k :: GivesUpAt(rows, k, budget, size)
  {
    hide EvictAll, Bytes, HasEvictable, Shrinks;
    EvictableAfter(rows, f, size);
    EvictAllAt(rows[..f], size);
    assert EvictAll(rows[..f], size) == rows[..f];
    BytesSplit(rows[..f], rows[f..]);
    assert rows == rows[..f] + rows[f..];
    assert HasEvictable(rows[f + 1..]) <==> GivesUpAt(rows, f, budget, size);
    forall k | GivesUpAt(rows, k, budget, size) ensures k == f {
    }
  }

  lemma EnforceStep(rows: seq<Row>, f: int, budget: int, size: Size)
    requires FirstEvictable(rows, f) && Bytes(rows) > budget
    ensures var after := rows[f := Evicted(rows[f], size)];
      && EvictableCount(after) < EvictableCount(rows)
      && (Shrinks(rows[f], size) <==> Bytes(after) < Bytes(rows))
      && Enforce(rows, budget, size) == if Shrinks(rows[f], size) then Enforce(after, budget, size) else after
  {
    hide Bytes, EvictableCount;
    BytesOfUpdate(rows, f, Evicted(rows[f], size));
    assert forall k :: FirstEvictable(rows, k) ==> k == f;
  }

  lemma {:induction false} SomeEvictableIsFirst(rows: seq<Row>)
    ensures HasEvictable(rows) <==> exists k :: FirstEvictable(rows, k)
  {
    if rows != [] {
      var init := rows[..|rows| - 1];
      SomeEvictableIsFirst(init);
      assert forall row :: row in rows <==> row in init || row == rows[|rows| - 1];
      if HasEvictable(init) {
        var k :| FirstEvictable(init, k);
        assert FirstEvictable(rows, k);
      } else if Evictable(rows[|rows| - 1]) {
        assert forall j :: 0 <= j < |init| ==> rows[j] in init;
        assert FirstEvictable(rows, |rows| - 1);
      }
      if k :| FirstEvictable(rows, k) { assert rows[k] in rows; }
    }
  }

  /** The documented goal, "evict until the session fits its budget" as long as payloads are left
      to evict, fails exactly when some payload's eviction does not shrink its row while the
      session is over budget and a later payload is still evictable. */
  lemma {:induction false} BudgetMissedExactlyWhen(rows: seq<Row>, budget: int, size: Size)
    ensures var after := Enforce(rows, budget, size);
      Bytes(after) > budget && HasEvictable(after) <==> exists k :: GivesUpAt(rows, k, budget, size)
    decreases EvictableCount(rows)
  {
    hide Bytes, EvictableCount, HasEvictable, GivesUpAt, FirstEvictable;
    SomeEvictableIsFirst(rows);
    if Bytes(rows) <= budget {
      if k :| GivesUpAt(rows, k, budget, size) { NoGivingUpWithinBudget(rows, k, budget, size); }
    } else if f :| FirstEvictable(rows, f) {
      EnforceStep(rows, f, budget, size);
      assert 0 <= f < |rows| by { FirstIsInside(rows, f); }
      var after := rows[f := Evicted(rows[f], size)];
      if Shrinks(rows[f], size) {
        BudgetMissedExactlyWhen(after, budget, size);
        forall k ensures GivesUpAt(after, k, budget, size) <==> GivesUpAt(rows, k, budget, size) {
          GivingUpIgnoresEvictions(rows, f, k, budget, size);
        }
      } else {
        GivingUpAtTheFirst(rows, f, budget, size);
      }
    } else if k :| GivesUpAt(rows, k, budget, size) {
      GivingUpNeedsEvictable(rows, k, budget, size);
    }
  }

  lemma FirstIsInside(rows: seq<Row>, f: int)
    requires FirstEvictable(rows, f)
    ensures 0 <= f < |rows|
  {
  }

  lemma GivingUpNeedsEvictable(rows: seq<Row>, k: int, budget: int, size: Size)
    requires GivesUpAt(rows, k, budget, size)
    ensures HasEvictable(rows)
  {
    assert rows[k] in rows;
  }

  /** A payload whose eviction does not shrink its frame stops the eviction in front of any other,
      whatever the sizes are, as long as the two together are over budget. */
  lemma BudgetCanBeMissed(small: Row, large: Row, budget: int, size: Size)
    requires Evictable(small) && Evictable(large) && Sized([small, large], size)
    requires size(Evicted(small, size).frame) >= size(small.frame)
    requires budget < size(small.frame) + size(large.frame)
    ensures Bytes(Enforce([small, large], budget, size)) > budget && HasEvictable(Enforce([small, large], budget, size))
  {
    hide Enforce;
    var rows := [small, large];
    assert rows[0].payloadBytes == size(small.frame) && rows[1].payloadBytes == size(large.frame);
    assert rows[..0] == [] && rows[0..] == rows && rows[1..] == [large] && large in rows[1..];
    BytesSplit([small], [large]);
    assert rows == [small] + [large];
    assert Bytes([small]) == small.payloadBytes && Bytes([large]) == large.payloadBytes by {
      assert [small][..0] == [] && [large][..0] == [];
    }
    assert GivesUpAt(rows, 0, budget, size);
    BudgetMissedExactlyWhen(rows, budget, size);
  }

  const DATA_KEY: string := ", \"data\": "
  const NULL: string := "null"
  const BUDGET_MARKER: string := ", \"truncated\": {\"reason\": \"session_budget\"}"

  /** The length of a frame's JSON text that has its payload under `data` and, once evicted, the
      marker the store adds; `rest` stands for its other fields. */
  function JsonSize(f: Frame): nat {
    |f.rest| + |DATA_KEY| + (if f.data.Some? then |f.data.value.text| else |NULL|)
    + (if f.truncated == Some(SessionBudget) then |BUDGET_MARKER| else 0)
  }

  /** In JSON a payload shrinks its frame by leaving exactly when it is longer than `null` and the
      marker together: 47 characters. */
  lemma ShortPayloadsDoNotShrink(row: Row)
    requires Evictable(row) && row.payloadBytes == JsonSize(row.frame)
    ensures |NULL| + |BUDGET_MARKER| == 47
    ensures Shrinks(row, JsonSize) <==> |row.frame.data.value.text| > 47
  {
  }

  // ---- Loading in order -------------------------------------------------------------------

  function ItemsOf(rows: seq<Row>, turn: int): seq<Item> {
    if rows == [] then []
    else
      var last := rows[|rows| - 1];
      ItemsOf(rows[..|rows| - 1], turn) + if last.turnIndex == turn then [Item(last.requestId, last.frame)] else []
  }

  /** The highest frame index of a turn, or -1. */
  function LastIndex(rows: seq<Row>, turn: int): int {
    if rows == [] then -1
    else
      var rest := LastIndex(rows[..|rows| - 1], turn);
      var last := rows[|rows| - 1];
      if last.turnIndex == turn && last.frameIndex > rest then last.frameIndex else rest
  }

  /** Within each turn, rows stand in the order of their frame indices. */
  ghost predicate InOrder(rows: seq<Row>) {
    forall j, k :: 0 <= j < k < |rows| && rows[j].turnIndex == rows[k].turnIndex ==>
      rows[j].frameIndex < rows[k].frameIndex
  }

  predicate KeyAtMost(a: Row, b: Row) {
    a.turnIndex < b.turnIndex || (a.turnIndex == b.turnIndex && a.frameIndex <= b.frameIndex)
  }

  /** The stable sort by turn and frame index. */
  function Insert(sorted: seq<Row>, row: Row): seq<Row> {
    if sorted == [] || KeyAtMost(sorted[|sorted| - 1], row) then sorted + [row]
    else Insert(sorted[..|sorted| - 1], row) + [sorted[|sorted| - 1]]
  }

  function Sort(rows: seq<Row>): seq<Row> {
    if rows == [] then [] else Insert(Sort(rows[..|rows| - 1]), rows[|rows| - 1])
  }

  ghost predicate SortedByTurn(rows: seq<Row>) {
    forall j, k :: 0 <= j < k < |rows| ==> rows[j].turnIndex <= rows[k].turnIndex
  }

  lemma {:induction false} InsertedFrames(sorted: seq<Row>, row: Row, turn: int)
    requires forall x :: x in sorted && x.turnIndex == row.turnIndex ==> x.frameIndex < row.frameIndex
    ensures ItemsOf(Insert(sorted, row), turn)
         == ItemsOf(sorted, turn) + if row.turnIndex == turn then [Item(row.requestId, row.frame)] else []
  {
    if sorted == [] || KeyAtMost(sorted[|sorted| - 1], row) {
      assert (sorted + [row])[..|sorted|] == sorted;
    } else {
      var init, last := sorted[..|sorted| - 1], sorted[|sorted| - 1];
      assert last in sorted && last.turnIndex != row.turnIndex;
      InsertedFrames(init, row, turn);
      var after := Insert(init, row) + [last];
      assert after[..|after| - 1] == Insert(init, row);
    }
  }

  lemma {:induction false} InsertSorts(sorted: seq<Row>, row: Row)
    requires SortedByTurn(sorted)
    ensures SortedByTurn(Insert(sorted, row)) && |Insert(sorted, row)| == |sorted| + 1
    ensures forall x :: x in Insert(sorted, row) <==> x in sorted || x == row
  {
    if sorted != [] && !KeyAtMost(sorted[|sorted| - 1], row) {
      var init, last := sorted[..|sorted| - 1], sorted[|sorted| - 1];
      InsertSorts(init, row);
      assert forall x :: x in sorted <==> x in init || x == last;
      forall x | x in Insert(init, row) ensures x.turnIndex <= last.turnIndex {
        if x != row {
          var j :| 0 <= j < |init| && init[j] == x;
          assert sorted[j] == x;
        }
      }
      forall j | 0 <= j < |Insert(init, row)| ensures Insert(init, row)[j].turnIndex <= last.turnIndex {
        assert Insert(init, row)[j] in Insert(init, row);
      }
    }
  }

  lemma {:induction false} SortHasTheRows(rows: seq<Row>)
    ensures SortedByTurn(Sort(rows)) && |Sort(rows)| == |rows|
    ensures forall x :: x in Sort(rows) <==> x in rows
  {
    hide Insert, SortedByTurn;
    if rows == [] {
      assert SortedByTurn([]) by { NothingIsSorted(); }
    } else {
      var init, last := rows[..|rows| - 1], rows[|rows| - 1];
      SortHasTheRows(init);
      InsertSorts(Sort(init), last);
      assert forall x :: x in rows <==> x in init || x == last;
    }
  }

  lemma NothingIsSorted()
    ensures SortedByTurn([])
  {
  }

  lemma LastIsHighest(rows: seq<Row>, x: Row)
    requires rows != [] && InOrder(rows)
    requires x in rows[..|rows| - 1] && x.turnIndex == rows[|rows| - 1].turnIndex
    ensures x.frameIndex < rows[|rows| - 1].frameIndex
  {
    var j :| 0 <= j < |rows| - 1 && rows[j] == x;
  }

  /** Sorting keeps every turn's frames, in their stored order. */
  lemma {:induction false} SortKeepsFrames(rows: seq<Row>, turn: int)
    requires InOrder(rows)
    ensures ItemsOf(Sort(rows), turn) == ItemsOf(rows, turn)
  {
    hide Insert;
    if rows != [] {
      var init, last := rows[..|rows| - 1], rows[|rows| - 1];
      SortKeepsFrames(init, turn);
      SortHasTheRows(init);
      forall x | x in Sort(init) && x.turnIndex == last.turnIndex ensures x.frameIndex < last.frameIndex {
        LastIsHighest(rows, x);
      }
      InsertedFrames(Sort(init), last, turn);
    }
  }

  lemma {:induction false} FramesSplit(a: seq<Row>, b: seq<Row>, turn: int)
    ensures ItemsOf(a + b, turn) == ItemsOf(a, turn) + ItemsOf(b, turn)
  {
    if b == [] {
      assert a + b == a;
    } else {
      FramesSplit(a, b[..|b| - 1], turn);
      assert (a + b)[..|a + b| - 1] == a + b[..|b| - 1];
    }
  }

  lemma {:induction false} ThinnedFrames(after: seq<Row>, before: seq<Row>, turn: int)
    requires ThinnedAll(after, before)
    ensures AlmostEqual(ItemsOf(after, turn), ItemsOf(before, turn))
  {
    if before != [] {
      ThinnedFrames(after[..|after| - 1], before[..|before| - 1], turn);
      assert Thinned(after[|after| - 1], before[|before| - 1]);
    }
  }

  lemma {:induction false} LastIndexBounds(rows: seq<Row>, turn: int)
    ensures LastIndex(rows, turn) >= -1
    ensures forall k :: 0 <= k < |rows| && rows[k].turnIndex == turn ==> rows[k].frameIndex <= LastIndex(rows, turn)
  {
    if rows != [] { LastIndexBounds(rows[..|rows| - 1], turn); }
  }

  // ---- The store --------------------------------------------------------------------------

  datatype Save = Save(session: string, requestId: string, turnIndex: int, frames: seq<Frame>)

  /** Every frame ever saved for a turn, in save order. */
  function SavedItems(log: seq<Save>, session: string, turn: int): seq<Item> {
    if log == [] then []
    else
      var last := log[|log| - 1];
      SavedItems(log[..|log| - 1], session, turn)
      + if last.session == session && last.turnIndex == turn then ItemsFor(last.requestId, last.frames) else []
  }

  datatype Group = Group(turnIndex: int, requestId: string, frames: seq<Frame>)

  /** The rows of a save: consecutive frame indices, each with its serialized size. */
  ghost predicate AreRowsOf(rows: seq<Row>, requestId: string, frames: seq<Frame>, turn: int, start: int, size: Size) {
    |rows| == |frames| &&
    forall k :: 0 <= k < |rows| ==>
      rows[k].turnIndex == turn && rows[k].frameIndex == start + k && rows[k].requestId == requestId
      && rows[k].frame == frames[k]
      && rows[k].payloadBytes == size(frames[k])
  }

  lemma {:induction false} RowsCarryFrames(rows: seq<Row>, requestId: string, frames: seq<Frame>, turn: int, start: int,
                                           size: Size, t: int)
    requires AreRowsOf(rows, requestId, frames, turn, start, size)
    ensures ItemsOf(rows, t) == if t == turn then ItemsFor(requestId, frames) else []
  {
    if rows != [] {
      RowsCarryFrames(rows[..|rows| - 1], requestId, frames[..|frames| - 1], turn, start, size, t);
    }
  }

  lemma AppendKeepsOrder(rows: seq<Row>, added: seq<Row>, requestId: string, frames: seq<Frame>, turn: int, size: Size)
    requires InOrder(rows) && Sized(rows, size)
      && AreRowsOf(added, requestId, frames, turn, LastIndex(rows, turn) + 1, size)
    ensures InOrder(rows + added) && Sized(rows + added, size)
  {
    LastIndexBounds(rows, turn);
  }

  /** What a session holds of what was saved to it. */
  ghost predicate Holds(rows: seq<Row>, log: seq<Save>, session: string, size: Size) {
    && Sized(rows, size) && InOrder(rows)
    && forall t :: AlmostEqual(ItemsOf(rows, t), SavedItems(log, session, t))
  }

  lemma SaveHolds(rows: seq<Row>, added: seq<Row>, after: seq<Row>, log: seq<Save>, save: Save, size: Size)
    requires Holds(rows, log, save.session, size)
    requires AreRowsOf(added, save.requestId, save.frames, save.turnIndex, LastIndex(rows, save.turnIndex) + 1, size)
    requires ThinnedAll(after, rows + added) && Sized(after, size)
    ensures Holds(after, log + [save], save.session, size)
  {
    hide ItemsOf, Sized;
    AppendKeepsOrder(rows, added, save.requestId, save.frames, save.turnIndex, size);
    assert (log + [save])[..|log|] == log;
    forall t ensures AlmostEqual(ItemsOf(after, t), SavedItems(log + [save], save.session, t)) {
      ThinnedFrames(after, rows + added, t);
      FramesSplit(rows, added, t);
      RowsCarryFrames(added, save.requestId, save.frames, save.turnIndex, LastIndex(rows, save.turnIndex) + 1, size, t);
      assert AlmostEqual(ItemsOf(rows, t), SavedItems(log, save.session, t));
    }
  }

  class InMemoryEvidenceStore {
    const size: Size
    var rows: map<string, seq<Row>>
    ghost var log: seq<Save>

    function RowsOf(session: string): seq<Row>
      reads this
    {
      if session in rows then rows[session] else []
    }

    ghost predicate Valid()
      reads this
    {
      forall s :: Holds(RowsOf(s), log, s, size)
    }

    constructor (size: Size)
      ensures Valid() && log == [] && this.size == size
    {
      this.size, rows, log := size, map[], [];
    }

    method NextFrameIndex(session: string, turn: int) returns (next: nat)
      ensures next == LastIndex(RowsOf(session), turn) + 1
    {
      var stored := RowsOf(session);
      var max: int := -1;
      var i := 0;
      while i < |stored|
        invariant 0 <= i <= |stored| && max >= -1
        invariant max == LastIndex(stored[..i], turn)
      {
        assert stored[..i + 1][..i] == stored[..i];
        if stored[i].turnIndex == turn && stored[i].frameIndex > max { max := stored[i].frameIndex; }
        i := i + 1;
      }
      assert stored[..i] == stored;
      next := max + 1;
    }

    /** Nulls the oldest evictable payload and tells how many bytes that freed, or 0. */
    method EvictOldest(session: string) returns (freed: nat)
      modifies this`rows
      ensures forall s :: s != session ==> RowsOf(s) == old(RowsOf(s))
      ensures !HasEvictable(old(RowsOf(session))) ==> freed == 0 && RowsOf(session) == old(RowsOf(session))
      ensures HasEvictable(old(RowsOf(session))) ==>
        exists k :: FirstEvictable(old(RowsOf(session)), k)
          && RowsOf(session) == old(RowsOf(session))[k := Evicted(old(RowsOf(session))[k], size)]
          && freed == (if Shrinks(old(RowsOf(session))[k], size)
                       then old(RowsOf(session))[k].payloadBytes - Evicted(old(RowsOf(session))[k], size).payloadBytes
                       else 0)
    {
      var stored := RowsOf(session);
      var i := 0;
      while i < |stored|
        invariant 0 <= i <= |stored|
        invariant forall j :: 0 <= j < i ==> !Evictable(stored[j])
      {
        if Evictable(stored[i]) {
          var evicted := Evicted(stored[i], size);
          rows := rows[session := stored[i := evicted]];
          assert stored[i] in stored && FirstEvictable(stored, i);
          return if Shrinks(stored[i], size) then stored[i].payloadBytes - evicted.payloadBytes else 0;
        }
        i := i + 1;
      }
      freed := 0;
    }

    method SessionBytes(session: string) returns (total: nat)
      ensures total == Bytes(RowsOf(session))
    {
      var stored := RowsOf(session);
      total := 0;
      var i := 0;
      while i < |stored|
        invariant 0 <= i <= |stored| && total == Bytes(stored[..i])
      {
        assert stored[..i + 1][..i] == stored[..i];
        total := total + stored[i].payloadBytes;
        i := i + 1;
      }
      assert stored[..i] == stored;
    }

    /** The eviction loop. Its running total is the true byte count at every test, and it ends within
        the budget or after an eviction that freed nothing. */
    method EnforceBudget(session: string, budget: int)
      modifies this`rows
      ensures RowsOf(session) == Enforce(old(RowsOf(session)), budget, size)
      ensures forall s :: s != session ==> RowsOf(s) == old(RowsOf(s))
    {
      hide Bytes, EvictableCount;
      ghost var before := RowsOf(session);
      var total: int := SessionBytes(session);
      while total > budget
        invariant total == Bytes(RowsOf(session))
        invariant Enforce(RowsOf(session), budget, size) == Enforce(before, budget, size)
        invariant forall s :: s != session ==> RowsOf(s) == old(RowsOf(s))
        decreases EvictableCount(RowsOf(session))
      {
        ghost var stored := RowsOf(session);
        SomeEvictableIsFirst(stored);
        var freed := EvictOldest(session);
        if HasEvictable(stored) {
          ghost var k :| FirstEvictable(stored, k)
            && RowsOf(session) == stored[k := Evicted(stored[k], size)]
            && freed == (if Shrinks(stored[k], size)
                         then stored[k].payloadBytes - Evicted(stored[k], size).payloadBytes else 0);
          EnforceStep(stored, k, budget, size);
          BytesOfUpdate(stored, k, Evicted(stored[k], size));
        }
        if freed <= 0 { break; }
        total := total - freed;
      }
    }

    /** The rows of a turn's frames, numbered after those the turn has already. */
    method MakeRows(session: string, requestId: string, turn: int, frames: seq<Frame>) returns (added: seq<Row>)
      ensures AreRowsOf(added, requestId, frames, turn, LastIndex(RowsOf(session), turn) + 1, size)
    {
      var start := NextFrameIndex(session, turn);
      added := [];
      for offset := 0 to |frames|
        invariant AreRowsOf(added, requestId, frames[..offset], turn, start, size)
      {
        added := added + [Row(turn, start + offset, requestId, frames[offset], size(frames[offset]))];
      }
      assert frames[..|frames|] == frames;
    }

    /** Saves a turn's frames as rows and enforces the budget. */
    method SaveTurn(session: string, requestId: string, turn: int, frames: seq<Frame>, budget: int)
      requires Valid()
      modifies this
      ensures Valid() && log == old(log) + [Save(session, requestId, turn, frames)]
    {
      hide Holds, AreRowsOf, Enforce, Sized, ThinnedAll;
      ghost var save := Save(session, requestId, turn, frames);
      ghost var before := RowsOf(session);
      var added := MakeRows(session, requestId, turn, frames);
      assert Holds(before, log, session, size);
      if frames != [] {
        rows := rows[session := RowsOf(session) + added];
        EnforceBudget(session, budget);
      }
      assert forall s :: s != session ==> RowsOf(s) == old(RowsOf(s));
      ghost var stored := rows;
      log := log + [save];
      assert forall s :: RowsOf(s) == if s in stored then stored[s] else [];
      SavedRowsHold(before, added, RowsOf(session), old(log), save, budget, size);
      forall s ensures Holds(RowsOf(s), log, s, size) {
        if s != session {
          assert Holds(old(RowsOf(s)), old(log), s, size);
          OtherHolds(RowsOf(s), old(log), save, s, size);
        }
      }
    }

    /** Groups the sorted rows by turn and lists the groups in turn order: every saved frame once,
        in turn order and save order, changed at most in its payload and marker. */
    method LoadTurns(session: string) returns (turns: seq<Group>)
      requires Valid()
      ensures forall j, k :: 0 <= j < k < |turns| ==> turns[j].turnIndex < turns[k].turnIndex
      ensures forall t :: SavedItems(log, session, t) != [] <==> exists g :: g in turns && g.turnIndex == t
      ensures forall g :: g in turns ==>
        var items := ItemsOf(RowsOf(session), g.turnIndex);
        && g.frames == FramesIn(items) && AlmostEqual(items, SavedItems(log, session, g.turnIndex))
        && items != [] && g.requestId == items[0].requestId == SavedItems(log, session, g.turnIndex)[0].requestId
    {
      hide Sort, Ascending, ItemsOf, SavedItems, FramesIn;
      var stored := RowsOf(session);
      assert Holds(stored, log, session, size);
      var sorted := Sort(stored);
      var groups := GroupByTurn(sorted);
      assert Grouped(stored, groups) by { SortedGroups(stored, groups); }
      turns := ListInOrder(groups);
      forall t ensures SavedItems(log, session, t) != [] <==> exists g :: g in turns && g.turnIndex == t {
        assert AlmostEqual(ItemsOf(stored, t), SavedItems(log, session, t));
        assert t in groups <==> ItemsOf(stored, t) != [];
        if t in groups { assert groups[t] in turns && groups[t].turnIndex == t; }
      }
      forall g | g in turns
        ensures var items := ItemsOf(stored, g.turnIndex);
          && g.frames == FramesIn(items) && AlmostEqual(items, SavedItems(log, session, g.turnIndex))
          && items != [] && g.requestId == items[0].requestId == SavedItems(log, session, g.turnIndex)[0].requestId
      {
        assert AlmostEqual(ItemsOf(stored, g.turnIndex), SavedItems(log, session, g.turnIndex));
        assert g.turnIndex in groups && groups[g.turnIndex] == g;
      }
    }
  }

  lemma SortedGroups(rows: seq<Row>, groups: map<int, Group>)
    requires InOrder(rows) && Grouped(Sort(rows), groups)
    ensures Grouped(rows, groups)
  {
    hide Sort, ItemsOf, InOrder, FramesIn;
    forall t ensures ItemsOf(Sort(rows), t) == ItemsOf(rows, t) { SortKeepsFrames(rows, t); }
  }

  /** The collected groups, by turn. */
  method ListInOrder(groups: map<int, Group>) returns (turns: seq<Group>)
    requires forall t :: t in groups ==> groups[t].turnIndex == t
    ensures forall j, k :: 0 <= j < k < |turns| ==> turns[j].turnIndex < turns[k].turnIndex
    ensures forall g :: g in turns <==> g.turnIndex in groups && groups[g.turnIndex] == g
  {
    hide Ascending;
    var order := Ascending(groups.Keys);
    AscendingIsOrder(groups.Keys);
    turns := [];
    for k := 0 to |order|
      invariant |turns| == k
      invariant forall j :: 0 <= j < k ==> order[j] in groups && turns[j] == groups[order[j]]
    {
      assert order[k] in order;
      turns := turns + [groups[order[k]]];
    }
    forall g: Group | g.turnIndex in groups && groups[g.turnIndex] == g ensures g in turns {
      var k :| 0 <= k < |order| && order[k] == g.turnIndex;
      assert turns[k] == g;
    }
    forall g | g in turns ensures g.turnIndex in groups && groups[g.turnIndex] == g {
      var k :| 0 <= k < |turns| && turns[k] == g;
    }
  }

  /** The groups as they are collected: one per turn that has a row. */
  ghost predicate Grouped(rows: seq<Row>, groups: map<int, Group>) {
    forall t ::
      && (t in groups <==> ItemsOf(rows, t) != [])
      && (t in groups ==>
            && groups[t].turnIndex == t && groups[t].frames == FramesIn(ItemsOf(rows, t))
            && groups[t].requestId == ItemsOf(rows, t)[0].requestId)
  }

  method GroupByTurn(rows: seq<Row>) returns (groups: map<int, Group>)
    ensures Grouped(rows, groups)
  {
    groups := map[];
    var i := 0;
    while i < |rows|
      invariant 0 <= i <= |rows| && Grouped(rows[..i], groups)
    {
      var row := rows[i];
      assert rows[..i + 1][..i] == rows[..i];
      ghost var before := groups;
      if row.turnIndex !in groups {
        groups := groups[row.turnIndex := Group(row.turnIndex, row.requestId, [])];
      }
      groups := groups[row.turnIndex := groups[row.turnIndex].(frames := groups[row.turnIndex].frames + [row.frame])];
      OneMoreRow(rows[..i], row, before, groups);
      assert rows[..i + 1] == rows[..i] + [row];
      i := i + 1;
    }
    assert rows[..i] == rows;
  }

  lemma OneMoreRow(rows: seq<Row>, row: Row, groups: map<int, Group>, after: map<int, Group>)
    requires Grouped(rows, groups)
    requires var t := row.turnIndex;
      var group := if t in groups then groups[t] else Group(t, row.requestId, []);
      after == groups[t := group.(frames := group.frames + [row.frame])]
    ensures Grouped(rows + [row], after)
  {
    assert (rows + [row])[..|rows|] == rows;
    var items := ItemsOf(rows, row.turnIndex);
    var more := items + [Item(row.requestId, row.frame)];
    assert more[..|items|] == items && FramesIn(more) == FramesIn(items) + [row.frame];
    forall t | t != row.turnIndex ensures ItemsOf(rows + [row], t) == ItemsOf(rows, t) { }
    assert ItemsOf(rows + [row], row.turnIndex) == more;
  }

  ghost predicate Least(s: set<int>, m: int) {
    m in s && forall x :: x in s ==> m <= x
  }

  lemma {:induction false} LeastExists(s: set<int>)
    requires s != {}
    ensures exists m :: Least(s, m)
  {
    assert (exists y :: y in s) || s == {};
    var y :| y in s;
    if s == {y} {
      assert Least(s, y);
    } else {
      LeastExists(s - {y});
      var m :| Least(s - {y}, m);
      assert forall x :: x in s ==> x == y || x in s - {y};
      assert Least(s, if y < m then y else m);
    }
  }

  function Ascending(s: set<int>): seq<int> {
    if s == {} then []
    else
      LeastExists(s);
      var m :| m in s && forall x :: x in s ==> m <= x;
      [m] + Ascending(s - {m})
  }

  lemma {:induction false} AscendingIsOrder(s: set<int>)
    ensures forall x :: x in Ascending(s) <==> x in s
    ensures forall j, k :: 0 <= j < k < |Ascending(s)| ==> Ascending(s)[j] < Ascending(s)[k]
  {
    if s != {} {
      LeastExists(s);
      var m :| m in s && forall x :: x in s ==> m <= x;
      AscendingIsOrder(s - {m});
      var rest := Ascending(s - {m});
      assert Ascending(s) == [m] + rest;
      forall k | 0 <= k < |rest| ensures m < rest[k] { assert rest[k] in rest; }
    }
  }

  lemma SavedRowsHold(rows: seq<Row>, added: seq<Row>, after: seq<Row>, log: seq<Save>, save: Save, budget: int,
                      size: Size)
    requires Holds(rows, log, save.session, size)
    requires AreRowsOf(added, save.requestId, save.frames, save.turnIndex, LastIndex(rows, save.turnIndex) + 1, size)
    requires after == if save.frames == [] then rows else Enforce(rows + added, budget, size)
    ensures Holds(after, log + [save], save.session, size)
  {
    hide ItemsOf, SavedItems, Enforce;
    AppendKeepsOrder(rows, added, save.requestId, save.frames, save.turnIndex, size);
    EnforceOnlyThins(rows + added, budget, size);
    SaveHolds(rows, added, after, log, save, size);
  }

  /** A save to one session is no business of another. */
  lemma OtherHolds(rows: seq<Row>, log: seq<Save>, save: Save, s: string, size: Size)
    requires s != save.session && Holds(rows, log, s, size)
    ensures Holds(rows, log + [save], s, size)
  {
    hide Sized, InOrder, AlmostEqual;
    assert (log + [save])[..|log|] == log;
    assert forall t :: SavedItems(log + [save], s, t) == SavedItems(log, s, t);
  }
}
