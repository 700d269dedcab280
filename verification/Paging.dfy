/** Keyset paging over an ordered list, as both recovery reads do it: a token names the position
    of the last item served, and the next page holds what follows it. */
module Paging {
  import opened Basics
  import opened ExecutionProtocol
  import opened Cursor

  datatype Page<T> = Page(items: seq<T>, next: Option<nat>)

  /** The items whose position follows the given one. */
  function Beyond<T>(items: seq<T>, pos: T -> nat, after: Option<nat>): seq<T> {
    if items == [] then []
    else if after.None? || pos(items[0]) > after.value then [items[0]] + Beyond(items[1..], pos, after)
    else Beyond(items[1..], pos, after)
  }

  /** One page, and the position of its last item when more follow. */
  function PageOf<T>(items: seq<T>, pos: T -> nat, after: Option<nat>, size: nat): Page<T>
    requires size > 0
  {
    var window := Beyond(items, pos, after);
    if |window| > size then Page(window[..size], Some(pos(window[size - 1]))) else Page(window, None)
  }

  ghost predicate Ordered<T>(items: seq<T>, pos: T -> nat) {
    && (forall j, k :: 0 <= j < k < |items| ==> pos(items[j]) < pos(items[k]))
    && (forall k :: 0 <= k < |items| ==> 0 < pos(items[k]) < POSITION_LIMIT)
  }

  /** One answered request: the list as it then was, the token sent and the token returned. */
  datatype Visit<T> = Visit(view: seq<T>, size: nat, token: Option<string>, items: seq<T>, next: Option<string>)

  /** The answer the paged read gives to one request. */
  ghost predicate Answered<T>(v: Visit<T>, mac: Mac, scope: Scope, pos: T -> nat)
    requires MacOk(mac)
  {
    && v.size > 0 && Ordered(v.view, pos)
    && (v.token.Some? ==> Decode(mac, scope, v.token.value).Ok?)
    && var after := if v.token.Some? then Some(Decode(mac, scope, v.token.value).value) else None;
       var page := PageOf(v.view, pos, after, v.size);
       v.items == page.items && v.next == if page.next.Some? then Some(Encode(mac, scope, page.next.value)) else None
  }

  /** A client that starts without a token and follows each returned one, while the list may grow
      at its end between requests. Page sizes may differ from request to request. */
  ghost predicate Walk<T>(visits: seq<Visit<T>>, mac: Mac, scope: Scope, pos: T -> nat)
    requires MacOk(mac)
  {
    visits != [] ==>
      var last := visits[|visits| - 1];
      var before := visits[..|visits| - 1];
      && Answered(last, mac, scope, pos)
      && Walk(before, mac, scope, pos)
      && if before == [] then last.token.None? else Follows(before[|before| - 1], last)
  }

  ghost predicate Follows<T>(previous: Visit<T>, next: Visit<T>) {
    previous.next.Some? && next.token == previous.next && previous.view <= next.view
  }

  function Served<T>(visits: seq<Visit<T>>): seq<T> {
    if visits == [] then [] else Served(visits[..|visits| - 1]) + visits[|visits| - 1].items
  }

  lemma {:induction false} BeyondSplits<T>(items: seq<T>, pos: T -> nat, after: Option<nat>, m: nat)
    requires m <= |items|
    requires forall k :: 0 <= k < m ==> after.Some? && pos(items[k]) <= after.value
    requires forall k :: m <= k < |items| ==> after.None? || pos(items[k]) > after.value
    ensures Beyond(items, pos, after) == items[m..]
  {
    if items != [] {
      BeyondSplits(items[1..], pos, after, if m == 0 then 0 else m - 1);
    }
  }

  /** A request whose token names the end of the first `m` items is served what follows them. */
  lemma AnswerContinues<T>(v: Visit<T>, mac: Mac, scope: Scope, pos: T -> nat, m: nat)
    requires MacOk(mac) && Answered(v, mac, scope, pos) && m <= |v.view|
    requires if m == 0 then v.token.None? else v.token == Some(Encode(mac, scope, pos(v.view[m - 1])))
    ensures var end := m + |v.items|;
      && end <= |v.view| && v.items == v.view[m..end] && (v.next.Some? ==> |v.items| == v.size) && |v.items| <= v.size
      && (v.next.None? <==> end == |v.view|)
      && (v.next.Some? ==> v.items != [] && v.next == Some(Encode(mac, scope, pos(v.view[end - 1]))))
  {
    hide Decode, Encode, Beyond;
    if m == 0 {
      BeyondSplits(v.view, pos, None, 0);
    } else {
      var at := pos(v.view[m - 1]);
      DecodeAcceptsExactlyMintedTokens(mac, scope, v.token.value, at);
      BeyondSplits(v.view, pos, Some(at), m);
    }
  }

  /** The pages served so far are the beginning of the list, and the token names where they end. */
  lemma {:induction false} WalkServesPrefix<T>(visits: seq<Visit<T>>, mac: Mac, scope: Scope, pos: T -> nat)
    requires MacOk(mac) && Walk(visits, mac, scope, pos) && visits != []
    ensures var last := visits[|visits| - 1]; var m := |Served(visits)|;
      && m <= |last.view| && Served(visits) == last.view[..m]
      && (last.next.None? <==> m == |last.view|)
      && (last.next.Some? ==>
            last.items != [] && m > 0 && last.next == Some(Encode(mac, scope, pos(last.view[m - 1]))))
  {
    hide Answered, Encode, MacOk;
    var last := visits[|visits| - 1];
    var before := visits[..|visits| - 1];
    var m := |Served(before)|;
    if before != [] {
      WalkServesPrefix(before, mac, scope, pos);
      LongerListStartsAlike(before[|before| - 1].view, last.view, m);
    }
    AnswerContinues(last, mac, scope, pos, m);
    PrefixGrows(last.view, m, last.items);
  }

  lemma LongerListStartsAlike<T>(earlier: seq<T>, view: seq<T>, m: nat)
    requires earlier <= view && m <= |earlier|
    ensures earlier[..m] == view[..m] && (m > 0 ==> earlier[m - 1] == view[m - 1])
  {
  }

  lemma PrefixGrows<T>(view: seq<T>, m: nat, items: seq<T>)
    requires m + |items| <= |view| && items == view[m..m + |items|]
    ensures view[..m] + items == view[..m + |items|]
  {
  }

  /** Following tokens to the end visits every item exactly once and in order: the pages joined
      are the list as the last request saw it. */
  lemma WalkServesEverything<T>(visits: seq<Visit<T>>, mac: Mac, scope: Scope, pos: T -> nat)
    requires MacOk(mac) && Walk(visits, mac, scope, pos) && visits != [] && visits[|visits| - 1].next.None?
    ensures Served(visits) == visits[|visits| - 1].view
  {
    hide Walk, Served;
    WalkServesPrefix(visits, mac, scope, pos);
  }

  /** Every page but the last one serves something, so a walk over a list of at most `n` items
      ends within `n + 1` requests. */
  lemma {:induction false} WalkEnds<T>(visits: seq<Visit<T>>, mac: Mac, scope: Scope, pos: T -> nat)
    requires MacOk(mac) && Walk(visits, mac, scope, pos) && visits != []
    ensures var last := visits[|visits| - 1];
      if last.next.Some? then |visits| <= |Served(visits)| < |last.view| else |visits| <= |last.view| + 1
    ensures visits[|visits| - 1].next.None? ==> |visits| - 1 <= |Served(visits)|
  {
    hide Answered, Encode, MacOk;
    WalkServesPrefix(visits, mac, scope, pos);
    var before := visits[..|visits| - 1];
    if before != [] {
      WalkServesPrefix(before, mac, scope, pos);
      WalkEnds(before, mac, scope, pos);
    }
  }

  lemma LastPageFills<T>(visits: seq<Visit<T>>, mac: Mac, scope: Scope, pos: T -> nat)
    requires MacOk(mac) && Walk(visits, mac, scope, pos) && visits != []
    ensures var last, before := visits[|visits| - 1], visits[..|visits| - 1];
      && Walk(before, mac, scope, pos) && (before != [] ==> before[|before| - 1].next.Some?)
      && |Served(visits)| == |Served(before)| + |last.items|
      && |last.items| <= last.size && (last.next.Some? ==> |last.items| == last.size)
  {
    hide Answered, Encode, MacOk;
    var last, before := visits[|visits| - 1], visits[..|visits| - 1];
    if before != [] { WalkServesPrefix(before, mac, scope, pos); }
    AnswerContinues(last, mac, scope, pos, |Served(before)|);
  }

  /** Every page but the last one of a walk is full. */
  lemma {:induction false} WalkFillsItsPages<T>(visits: seq<Visit<T>>, mac: Mac, scope: Scope, pos: T -> nat, size: nat)
    requires MacOk(mac) && Walk(visits, mac, scope, pos) && visits != []
    requires forall k :: 0 <= k < |visits| ==> visits[k].size == size
    ensures (|visits| - 1) * size <= |Served(visits)| <= |visits| * size
    ensures visits[|visits| - 1].next.Some? ==> |Served(visits)| == |visits| * size
  {
    hide Walk, MacOk;
    LastPageFills(visits, mac, scope, pos);
    var before := visits[..|visits| - 1];
    if before != [] { WalkFillsItsPages(before, mac, scope, pos, size); }
    OneMorePage(|before|, size);
  }

  lemma OneMorePage(n: nat, size: nat)
    ensures (n + 1) * size == n * size + size
  {
  }
}
