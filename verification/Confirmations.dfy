/** Parked confirmations: a per-session registry whose entries are taken by one decision or one
    expiry, and the durable record that keeps the first outcome written. Registry and record
    methods never suspend, so any interleaving of their callers is a sequence of calls. */
module Confirmations {
  import opened Basics

  datatype Outcome = Approved(decider: string) | Denied(decider: string) | Expired

  datatype Pending = Pending(confirmId: Uuid, sessionId: string, parkedAt: real, claimed: bool, resolved: bool)

  /** A durable card; `outcome` is `None` while it is pending. */
  datatype Record = Record(confirmId: Uuid, sessionId: string, parkedAt: real, outcome: Option<Outcome>)

  /** Who took a confirmation, and the one outcome every later write of theirs repeats. */
  datatype Taking = Taking(sessionId: string, outcome: Outcome)

  datatype Answer = Taken | NotFound | TooLate

  const PER_SESSION_CAP: nat := 50

  // ---- Records ----------------------------------------------------------------------------

  ghost predicate UniqueIds(records: seq<Record>) {
    forall j, k :: 0 <= j < k < |records| ==> records[j].confirmId != records[k].confirmId
  }

  function CountOf(records: seq<Record>, session: string): nat {
    if records == [] then 0
    else CountOf(records[..|records| - 1], session) + if records[|records| - 1].sessionId == session then 1 else 0
  }

  /** The first write of an outcome stays: later ones change nothing. */
  function Marked(records: seq<Record>, session: string, id: Uuid, outcome: Outcome): seq<Record> {
    if records == [] then []
    else
      var r := records[|records| - 1];
      Marked(records[..|records| - 1], session, id, outcome)
      + [if r.confirmId == id && r.sessionId == session && r.outcome.None? then r.(outcome := Some(outcome)) else r]
  }

  lemma {:induction false} MarkedAt(records: seq<Record>, session: string, id: Uuid, outcome: Outcome)
    ensures |Marked(records, session, id, outcome)| == |records|
    ensures forall k :: 0 <= k < |records| ==>
      Marked(records, session, id, outcome)[k] ==
        (if records[k].confirmId == id && records[k].sessionId == session && records[k].outcome.None?
         then records[k].(outcome := Some(outcome)) else records[k])
  {
    if records != [] { MarkedAt(records[..|records| - 1], session, id, outcome); }
  }

  /** First write wins, over any two writes. */
  lemma FirstOutcomeStays(records: seq<Record>, session: string, id: Uuid, first: Outcome, second: Outcome)
    ensures Marked(Marked(records, session, id, first), session, id, second) == Marked(records, session, id, first)
  {
    hide Marked;
    MarkedAt(records, session, id, first);
    MarkedAt(Marked(records, session, id, first), session, id, second);
  }

  /** The write as it works: find the record by its id, leave a foreign or decided one alone. */
  method MarkResolved(records: seq<Record>, session: string, id: Uuid, outcome: Outcome) returns (marked: seq<Record>)
    requires UniqueIds(records)
    ensures marked == Marked(records, session, id, outcome)
  {
    hide Marked;
    MarkedAt(records, session, id, outcome);
    marked := records;
    var k := 0;
    while k < |records| && records[k].confirmId != id
      invariant 0 <= k <= |records|
      invariant forall j :: 0 <= j < k ==> records[j].confirmId != id
    {
      k := k + 1;
    }
    if k < |records| && records[k].sessionId == session && records[k].outcome.None? {
      marked := records[k := records[k].(outcome := Some(outcome))];
    }
  }

  function Without(records: seq<Record>, k: nat): seq<Record>
    requires k < |records|
  {
    records[..k] + records[k + 1..]
  }

  lemma {:induction false} CountSplit(a: seq<Record>, b: seq<Record>, session: string)
    ensures CountOf(a + b, session) == CountOf(a, session) + CountOf(b, session)
  {
    if b == [] {
      assert a + b == a;
    } else {
      CountSplit(a, b[..|b| - 1], session);
      assert (a + b)[..|a + b| - 1] == a + b[..|b| - 1];
    }
  }

  lemma CountWithout(records: seq<Record>, k: nat, session: string)
    requires k < |records|
    ensures CountOf(records, session)
         == CountOf(Without(records, k), session) + if records[k].sessionId == session then 1 else 0
  {
    assert records == records[..k] + ([records[k]] + records[k + 1..]);
    CountSplit(records[..k], [records[k]] + records[k + 1..], session);
    CountSplit([records[k]], records[k + 1..], session);
    CountSplit(records[..k], records[k + 1..], session);
  }

  /** The session's oldest record, the first of equals. */
  ghost predicate OldestOf(records: seq<Record>, session: string, k: int) {
    && 0 <= k < |records| && records[k].sessionId == session
    && (forall j :: 0 <= j < |records| && records[j].sessionId == session ==>
          records[k].parkedAt < records[j].parkedAt || (records[k].parkedAt == records[j].parkedAt && k <= j))
  }

  method FindOldest(records: seq<Record>, session: string) returns (k: nat)
    requires CountOf(records, session) > 0
    ensures OldestOf(records, session, k)
  {
    var best: int := -1;
    var i := 0;
    while i < |records|
      invariant 0 <= i <= |records| && -1 <= best < i
      invariant best == -1 <==> CountOf(records[..i], session) == 0
      invariant best >= 0 ==> OldestOf(records[..i], session, best)
      invariant best == -1 ==> forall j :: 0 <= j < i ==> records[j].sessionId != session
    {
      assert records[..i + 1][..i] == records[..i];
      if records[i].sessionId == session && (best == -1 || records[i].parkedAt < records[best].parkedAt) { best := i; }
      i := i + 1;
    }
    assert records[..i] == records;
    k := best;
  }

  /** What pruning leaves: records of other sessions untouched, and of this session the newest. */
  ghost predicate Pruned(records: seq<Record>, kept: seq<Record>, session: string) {
    && (forall r :: r in kept ==> r in records)
    && (forall r :: r in records && r !in kept ==> r.sessionId == session)
    && (forall r, x :: r in records && r !in kept && x in kept && x.sessionId == session ==> r.parkedAt <= x.parkedAt)
  }

  lemma PruneOne(records: seq<Record>, kept: seq<Record>, session: string, k: nat)
    requires Pruned(records, kept, session) && OldestOf(kept, session, k)
    ensures Pruned(records, Without(kept, k), session)
  {
    var fewer := Without(kept, k);
    forall r | r in kept && r != kept[k] ensures r in fewer { InWithout(kept, k, r); }
    forall r | r in fewer ensures r in kept { }
    forall x | x in fewer && x.sessionId == session ensures kept[k].parkedAt <= x.parkedAt {
      var j :| 0 <= j < |kept| && kept[j] == x;
    }
  }

  lemma InWithout(records: seq<Record>, k: nat, r: Record)
    requires k < |records| && r in records && r != records[k]
    ensures r in Without(records, k)
  {
    var j :| 0 <= j < |records| && records[j] == r;
    assert Without(records, k)[if j < k then j else j - 1] == r;
  }

  /** Drops the session's oldest records until it is within the cap; no other session loses any. */
  method EvictOverCap(records: seq<Record>, session: string) returns (kept: seq<Record>)
    ensures CountOf(kept, session) == (
              if CountOf(records, session) <= 50 then CountOf(records, session) else 50)
    ensures forall s :: s != session ==> CountOf(kept, s) == CountOf(records, s)
    ensures UniqueIds(records) ==> UniqueIds(kept)
    ensures Pruned(records, kept, session)
  {
    hide Pruned, OldestOf, CountOf;
    kept := records;
    assert Pruned(records, kept, session) by { NothingPruned(records, session); }
    while CountOf(kept, session) > PER_SESSION_CAP
      invariant CountOf(records, session) <= PER_SESSION_CAP ==> kept == records
      invariant CountOf(records, session) > PER_SESSION_CAP ==> CountOf(kept, session) >= PER_SESSION_CAP
      invariant forall s :: s != session ==> CountOf(kept, s) == CountOf(records, s)
      invariant UniqueIds(records) ==> UniqueIds(kept)
      invariant Pruned(records, kept, session)
      decreases |kept|
    {
      var k := FindOldest(kept, session);
      assert k < |kept| && kept[k].sessionId == session by { OldestIsInside(kept, session, k); }
      PruneOne(records, kept, session, k);
      forall s ensures CountOf(kept, s) == CountOf(Without(kept, k), s) + if kept[k].sessionId == s then 1 else 0 {
        CountWithout(kept, k, s);
      }
      kept := Without(kept, k);
    }
  }

  lemma NothingPruned(records: seq<Record>, session: string)
    ensures Pruned(records, records, session)
  {
  }

  lemma OldestIsInside(records: seq<Record>, session: string, k: nat)
    requires OldestOf(records, session, k)
    ensures k < |records| && records[k].sessionId == session
  {
  }

  // ---- Registry and records together ------------------------------------------------------

  /** A record is pending, or tells exactly what its one taker decided. */
  ghost predicate Truthful(records: seq<Record>, takes: map<Uuid, Taking>) {
    forall k :: 0 <= k < |records| && records[k].outcome.Some? ==>
      records[k].confirmId in takes && records[k].outcome.value == takes[records[k].confirmId].outcome
  }

  /** The process's registry, its record store and the streams of the confirmations in hand. A stream
      carries what its taker decided from the take to the last write. `takes` says who took what. */
  class ConfirmationDesk {
    var bySession: map<string, Pending>
    var records: seq<Record>
    var streams: map<Uuid, Taking>
    var minted: nat
    ghost var takes: map<Uuid, Taking>

    ghost predicate RegistryOk()
      reads this
    {
      && (forall id :: id in takes ==> id < minted)
      && (forall id :: id in streams ==> id in takes && streams[id] == takes[id])
      && (forall s :: s in bySession ==>
            && bySession[s].sessionId == s && !bySession[s].resolved && bySession[s].confirmId < minted
            && (bySession[s].claimed <==> bySession[s].confirmId in takes))
      && (forall s, t ::
            s in bySession && t in bySession && bySession[s].confirmId == bySession[t].confirmId ==> s == t)
    }

    ghost predicate RecordsOk()
      reads this
    {
      UniqueIds(records) && Truthful(records, takes) && forall r :: r in records ==> r.confirmId < minted
    }

    ghost predicate Valid()
      reads this
    {
      RegistryOk() && RecordsOk()
    }

    constructor ()
      ensures Valid() && bySession == map[] && records == [] && takes == map[] && streams == map[]
    {
      bySession, records, streams, minted, takes := map[], [], map[], 0, map[];
    }

    /** The session's entry, if it is this confirmation and nobody has taken it. */
    predicate Open(session: string, id: Uuid)
      reads this
    {
      session in bySession && bySession[session].confirmId == id && !bySession[session].resolved
      && !bySession[session].claimed
    }

    /** Parks a batch under a freshly minted id; the durable card may fail to be written. */
    method Register(session: string, now: real, stored: bool) returns (id: Uuid)
      requires Valid()
      modifies this
      ensures Valid() && takes == old(takes) && streams == old(streams)
      ensures id == old(minted) && minted == old(minted) + 1
      ensures bySession == old(bySession)[session := Pending(id, session, now, false, false)]
      ensures stored ==> CountOf(records, session) <= 50
      ensures !stored ==> records == old(records)
    {
      hide Truthful, CountOf, UniqueIds;
      id := minted;
      minted := minted + 1;
      bySession := bySession[session := Pending(id, session, now, false, false)];
      if stored {
        CardIsFresh(records, Record(id, session, now, None), takes);
        var saved := records + [Record(id, session, now, None)];
        var kept := EvictOverCap(saved, session);
        RecordsStayTruthful(saved, kept, takes);
        records := kept;
      }
    }

    /** Takes the session's entry for a decision or an expiry. */
    method Take(session: string, id: Uuid, outcome: Outcome)
      requires Valid() && Open(session, id)
      modifies this`bySession, this`streams, this`takes
      ensures Valid() && id !in old(takes)
      ensures takes == old(takes)[id := Taking(session, outcome)]
      ensures streams == old(streams)[id := Taking(session, outcome)]
      ensures bySession == old(bySession)[session := old(bySession)[session].(claimed := true)]
    {
      bySession := bySession[session := bySession[session].(claimed := true)];
      streams := streams[id := Taking(session, outcome)];
      takes := takes[id := Taking(session, outcome)];
    }

    /** The confirm route: only the session's own entry, of this id, that nobody took before and that is
        not overdue is taken. An approval is recorded as approved and a denial as denied, by the decider,
        before the resumed stream begins, unless the store fails. */
    method Confirm(session: string, id: Uuid, timeout: real, now: real, approve: bool, decider: string, stored: bool)
      returns (a: Answer)
      requires Valid()
      modifies this
      ensures Valid() && minted == old(minted)
      ensures a != NotFound
        <==> session in old(bySession) && old(bySession)[session].confirmId == id && id !in old(takes)
      ensures a == TooLate ==> timeout > 0.0 && now - old(bySession)[session].parkedAt > timeout
      ensures a == Taken ==> !(timeout > 0.0 && now - old(bySession)[session].parkedAt > timeout)
      ensures a == Taken && approve ==> takes == old(takes)[id := Taking(session, Approved(decider))]
      ensures a == Taken && !approve ==> takes == old(takes)[id := Taking(session, Denied(decider))]
      ensures a == Taken ==> |records| == |old(records)|
      ensures a == Taken ==> forall k :: 0 <= k < |records| ==>
        var was := old(records)[k];
        if stored && was.confirmId == id && was.sessionId == session && was.outcome.None?
        then records[k] == was.(outcome := Some(if approve then Approved(decider) else Denied(decider)))
        else records[k] == was
      ensures a != Taken ==> takes == old(takes) && records == old(records) && bySession == old(bySession)
    {
      if !Open(session, id) { return NotFound; }
      if timeout > 0.0 && now - bySession[session].parkedAt > timeout { return TooLate; }
      var outcome := if approve then Approved(decider) else Denied(decider);
      Take(session, id, outcome);
      if stored {
        MarkedAt(records, session, id, outcome);
        MarkingStaysTruthful(records, takes, session, id, outcome);
        records := MarkResolved(records, session, id, outcome);
      }
      a := Taken;
    }

    /** The expiry path ignores the time but honours the same flag. */
    method Expire(session: string, id: Uuid) returns (a: Answer)
      requires Valid()
      modifies this`bySession, this`streams, this`takes
      ensures Valid() && a != TooLate
      ensures a == Taken <==> session in old(bySession) && old(bySession)[session].confirmId == id && id !in old(takes)
      ensures a == Taken ==> takes == old(takes)[id := Taking(session, Expired)]
      ensures a != Taken ==> takes == old(takes) && bySession == old(bySession)
    {
      if !Open(session, id) { return NotFound; }
      Take(session, id, Expired);
      a := Taken;
    }

    /** Resolving an id removes that park only: a newer park of the session stays. */
    method Resolve(session: string, id: Uuid)
      requires Valid()
      modifies this`bySession
      ensures Valid()
      ensures forall s :: s in bySession ==> s in old(bySession) && bySession[s] == old(bySession)[s]
      ensures forall s :: s in old(bySession) && !(s == session && old(bySession)[s].confirmId == id) ==> s in bySession
      ensures session in bySession ==> bySession[session].confirmId != id
    {
      if session in bySession && bySession[session].confirmId == id {
        bySession := bySession - {session};
      }
    }

    /** The end of a resumed or expired stream: it resolves its park and writes the outcome it carries.
        A park registered meanwhile stays, and an outcome written before stays. Without a stream of
        that id there is nothing to end. */
    method Finish(id: Uuid, stored: bool)
      requires Valid()
      modifies this`bySession, this`records, this`streams
      ensures Valid()
      ensures forall s :: s in old(bySession) && old(bySession)[s].confirmId != id ==>
        s in bySession && bySession[s] == old(bySession)[s]
      ensures records ==
        if stored && id in old(streams)
        then Marked(old(records), old(streams)[id].sessionId, id, old(streams)[id].outcome)
        else old(records)
      ensures streams == old(streams) - {id}
    {
      if id in streams {
        var taking := streams[id];
        Resolve(taking.sessionId, id);
        if stored {
          MarkingStaysTruthful(records, takes, taking.sessionId, id, taking.outcome);
          records := MarkResolved(records, taking.sessionId, id, taking.outcome);
        }
        streams := streams - {id};
      }
    }

    /** Any sequence of calls, and the places in it of those that took a confirmation: each confirmation
        is taken at most once, and every decided record is approved or denied exactly as the decision that
        took it said, by its decider, or expired when an expiry took it. */
    method Serve(requests: seq<Request>) returns (taken: seq<nat>)
      requires Valid() && takes == map[]
      modifies this
      ensures Valid()
      ensures AreTakers(requests, taken)
      ensures forall j, k :: 0 <= j < k < |taken| ==> requests[taken[j]].id != requests[taken[k]].id
      ensures forall r :: r in records && r.outcome.Some? ==>
        exists k :: 0 <= k < |taken| && requests[taken[k]].id == r.confirmId
                 && Says(requests[taken[k]], r.outcome.value)
    {
      hide UniqueIds, CountOf, TakenOnce, RegistryOk, Truthful;
      taken := [];
      assert TakenOnce(requests, taken, takes) by { NothingTaken(requests); }
      var i := 0;
      while i < |requests|
        invariant 0 <= i <= |requests| && Valid() && TakenOnce(requests, taken, takes)
      {
        ghost var before := takes;
        var a := NotFound;
        match requests[i] {
          case Park(session, now, stored) =>
            var id := Register(session, now, stored);
          case Decide(session, id, timeout, now, approve, decider, stored) =>
            a := Confirm(session, id, timeout, now, approve, decider, stored);
          case GiveUp(session, id) =>
            a := Expire(session, id);
          case End(id, stored) =>
            Finish(id, stored);
        }
        if a == Taken {
          OneMoreTake(requests, taken, before, i, takes[requests[i].id]);
          taken := taken + [i];
        }
        i := i + 1;
      }
      TakenRecords(requests, taken, takes, records);
    }
  }

  /** A call on the desk. */
  datatype Request =
    | Park(session: string, now: real, stored: bool)
    | Decide(session: string, id: Uuid, timeout: real, now: real, approve: bool, decider: string, stored: bool)
    | GiveUp(session: string, id: Uuid)
    | End(id: Uuid, stored: bool)

  predicate Takes(r: Request) {
    r.Decide? || r.GiveUp?
  }

  predicate AreTakers(requests: seq<Request>, taken: seq<nat>) {
    forall k :: 0 <= k < |taken| ==> taken[k] < |requests| && (requests[taken[k]].Decide? || requests[taken[k]].GiveUp?)
  }

  /** The outcome a call that takes a confirmation means. */
  predicate Says(r: Request, outcome: Outcome)
    requires Takes(r)
  {
    match outcome
    case Approved(d) => r.Decide? && r.approve && r.decider == d
    case Denied(d) => r.Decide? && !r.approve && r.decider == d
    case Expired => r.GiveUp?
  }

  /** The takers listed are the takers, each once. */
  ghost predicate TakenOnce(requests: seq<Request>, taken: seq<nat>, takes: map<Uuid, Taking>) {
    && (forall k :: 0 <= k < |taken| ==>
          && taken[k] < |requests| && Takes(requests[taken[k]]) && requests[taken[k]].id in takes
          && Says(requests[taken[k]], takes[requests[taken[k]].id].outcome))
    && (forall j, k :: 0 <= j < k < |taken| ==> requests[taken[j]].id != requests[taken[k]].id)
    && (forall id :: id in takes ==> exists k :: 0 <= k < |taken| && requests[taken[k]].id == id)
  }

  lemma NothingTaken(requests: seq<Request>)
    ensures TakenOnce(requests, [], map[])
  {
  }

  lemma OneMoreTake(requests: seq<Request>, taken: seq<nat>, takes: map<Uuid, Taking>, i: nat, taking: Taking)
    requires TakenOnce(requests, taken, takes) && i < |requests| && Takes(requests[i]) && requests[i].id !in takes
    requires Says(requests[i], taking.outcome)
    ensures TakenOnce(requests, taken + [i], takes[requests[i].id := taking])
  {
    var longer, after := taken + [i], takes[requests[i].id := taking];
    forall x | x in after ensures exists k :: 0 <= k < |longer| && requests[longer[k]].id == x {
      if x == requests[i].id {
        assert requests[longer[|taken|]].id == x;
      } else {
        var k :| 0 <= k < |taken| && requests[taken[k]].id == x;
        assert longer[k] == taken[k];
      }
    }
  }

  lemma TakenRecords(requests: seq<Request>, taken: seq<nat>, takes: map<Uuid, Taking>, records: seq<Record>)
    requires TakenOnce(requests, taken, takes) && Truthful(records, takes)
    ensures AreTakers(requests, taken)
    ensures forall j, k :: 0 <= j < k < |taken| ==> requests[taken[j]].id != requests[taken[k]].id
    ensures forall r :: r in records && r.outcome.Some? ==>
      exists k :: 0 <= k < |taken| && requests[taken[k]].id == r.confirmId && Says(requests[taken[k]], r.outcome.value)
  {
    forall r | r in records && r.outcome.Some?
      ensures exists k :: 0 <= k < |taken| && requests[taken[k]].id == r.confirmId
                       && Says(requests[taken[k]], r.outcome.value)
    {
      var j :| 0 <= j < |records| && records[j] == r;
      var k :| 0 <= k < |taken| && requests[taken[k]].id == r.confirmId;
    }
  }

  lemma CardIsFresh(records: seq<Record>, card: Record, takes: map<Uuid, Taking>)
    requires UniqueIds(records) && Truthful(records, takes) && card.outcome.None?
    requires forall r :: r in records ==> r.confirmId < card.confirmId
    ensures UniqueIds(records + [card]) && Truthful(records + [card], takes)
  {
  }

  lemma MarkingStaysTruthful(records: seq<Record>, takes: map<Uuid, Taking>, session: string, id: Uuid,
                             outcome: Outcome)
    requires UniqueIds(records) && Truthful(records, takes) && id in takes && takes[id].outcome == outcome
    ensures UniqueIds(Marked(records, session, id, outcome)) && Truthful(Marked(records, session, id, outcome), takes)
    ensures forall r :: r in Marked(records, session, id, outcome) ==>
      exists x :: x in records && x.confirmId == r.confirmId
  {
    hide Marked;
    MarkedAt(records, session, id, outcome);
    forall r | r in Marked(records, session, id, outcome)
      ensures exists x :: x in records && x.confirmId == r.confirmId
    {
      var k :| 0 <= k < |records| && Marked(records, session, id, outcome)[k] == r;
      assert records[k] in records;
    }
  }

  lemma RecordsStayTruthful(records: seq<Record>, kept: seq<Record>, takes: map<Uuid, Taking>)
    requires Truthful(records, takes) && forall r :: r in kept ==> r in records
    ensures Truthful(kept, takes)
  {
    forall k | 0 <= k < |kept| && kept[k].outcome.Some?
      ensures kept[k].confirmId in takes && kept[k].outcome.value == takes[kept[k].confirmId].outcome
    {
      assert kept[k] in records;
    }
  }
}
