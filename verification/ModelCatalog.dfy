/** The model catalog: per-provider series resolved down a fallback ladder, checked as a whole, and
    published only when the check passes. */
module ModelCatalog {
  import opened Basics

  const RESERVED_AUTO: string := "auto"

  /** A configured provider: its default model, the operator's override, the adapter's curated
      series and the adapter's discovery filter. */
  datatype Credentials = Credentials(
    provider: string, defaultModel: string, override: Option<seq<string>>, curated: seq<string>, keeps: string -> bool)

  datatype Entry = Entry(id: string, provider: string, isDefault: bool)

  // ---- Series -----------------------------------------------------------------------------

  /** First occurrences, in order. */
  function Dedupe(models: seq<string>): seq<string> {
    if models == [] then []
    else
      var init, last := Dedupe(models[..|models| - 1]), models[|models| - 1];
      if last in init then init else init + [last]
  }

  ghost predicate NoRepeats(models: seq<string>) {
    forall j, k :: 0 <= j < k < |models| ==> models[j] != models[k]
  }

  lemma {:induction false} DedupeKeepsEveryModelOnce(models: seq<string>)
    ensures NoRepeats(Dedupe(models))
    ensures forall m :: m in Dedupe(models) <==> m in models
  {
    if models != [] {
      DedupeKeepsEveryModelOnce(models[..|models| - 1]);
      assert forall m :: m in models <==> m in models[..|models| - 1] || m == models[|models| - 1];
    }
  }

  function ForceIncludeDefault(models: seq<string>, defaultModel: string): seq<string> {
    Dedupe([defaultModel] + models)
  }

  function CuratedSeries(c: Credentials): seq<string> {
    ForceIncludeDefault(if c.override.Some? then c.override.value else c.curated, c.defaultModel)
  }

  function Filtered(models: seq<string>, keeps: string -> bool): seq<string> {
    if models == [] then []
    else Filtered(models[..|models| - 1], keeps) + if keeps(models[|models| - 1]) then [models[|models| - 1]] else []
  }

  function ApplyFilter(c: Credentials, models: seq<string>): seq<string> {
    ForceIncludeDefault(Dedupe(Filtered(models, c.keeps)), c.defaultModel)
  }

  /** A series the catalog may be built from. */
  ghost predicate SeriesOk(series: seq<string>, c: Credentials) {
    NoRepeats(series) && c.defaultModel in series
  }

  lemma ForcedSeriesIsOk(models: seq<string>, c: Credentials)
    ensures SeriesOk(ForceIncludeDefault(models, c.defaultModel), c)
  {
    DedupeKeepsEveryModelOnce([c.defaultModel] + models);
    assert ([c.defaultModel] + models)[0] == c.defaultModel;
  }

  lemma FilteredSeriesIsOk(c: Credentials, models: seq<string>)
    ensures SeriesOk(ApplyFilter(c, models), c)
  {
    ForcedSeriesIsOk(Dedupe(Filtered(models, c.keeps)), c);
  }

  // ---- What a series lists ----------------------------------------------------------------

  ghost predicate FirstAt(models: seq<string>, m: string, i: int) {
    0 <= i < |models| && models[i] == m && forall j :: 0 <= j < i ==> models[j] != m
  }

  /** One model occurs before another, each at its first place. */
  ghost predicate Before(models: seq<string>, x: string, y: string) {
    exists i, j :: i < j && FirstAt(models, x, i) && FirstAt(models, y, j)
  }

  /** The default first, then exactly the admitted models, each once, in the order of their first places. */
  ghost predicate Lists(series: seq<string>, defaultModel: string, models: seq<string>, keeps: string -> bool) {
    && series != [] && series[0] == defaultModel && NoRepeats(series)
    && (forall m :: m in series <==> m == defaultModel || (m in models && keeps(m)))
    && (forall j, k :: 0 < j < k < |series| ==> Before(models, series[j], series[k]))
  }

  lemma FirstAtGrows(models: seq<string>, last: string, m: string, i: int)
    requires FirstAt(models, m, i)
    ensures FirstAt(models + [last], m, i)
  {
  }

  lemma BeforeGrows(models: seq<string>, last: string, x: string, y: string)
    requires Before(models, x, y)
    ensures Before(models + [last], x, y)
  {
    var i, j :| i < j && FirstAt(models, x, i) && FirstAt(models, y, j);
    FirstAtGrows(models, last, x, i);
    FirstAtGrows(models, last, y, j);
  }

  lemma {:induction false} FirstPlace(models: seq<string>, m: string)
    requires m in models
    ensures exists i :: FirstAt(models, m, i)
  {
    var init, last := models[..|models| - 1], models[|models| - 1];
    assert models == init + [last];
    if m in init {
      FirstPlace(init, m);
      var i :| FirstAt(init, m, i);
      FirstAtGrows(init, last, m, i);
    } else {
      assert FirstAt(models, m, |init|);
    }
  }

  lemma {:induction false} DedupeKeepsOrder(models: seq<string>, j: nat, k: nat)
    requires j < k < |Dedupe(models)|
    ensures Before(models, Dedupe(models)[j], Dedupe(models)[k])
  {
    var init, last := models[..|models| - 1], models[|models| - 1];
    assert models == init + [last];
    DedupeKeepsEveryModelOnce(init);
    if k < |Dedupe(init)| {
      DedupeKeepsOrder(init, j, k);
      BeforeGrows(init, last, Dedupe(models)[j], Dedupe(models)[k]);
    } else {
      FirstPlace(init, Dedupe(init)[j]);
      var i :| FirstAt(init, Dedupe(init)[j], i);
      FirstAtGrows(init, last, Dedupe(init)[j], i);
      assert FirstAt(models, last, |init|);
    }
  }

  lemma {:induction false} FilterKeepsOrder(models: seq<string>, keeps: string -> bool, x: string, y: string)
    requires Before(Filtered(models, keeps), x, y)
    ensures Before(models, x, y)
  {
    FilterHas(models, keeps);
    var init, last := models[..|models| - 1], models[|models| - 1];
    var i, j :| i < j && FirstAt(Filtered(models, keeps), x, i) && FirstAt(Filtered(models, keeps), y, j);
    var short, long := Filtered(init, keeps), Filtered(models, keeps);
    FilterHas(init, keeps);
    assert models == init + [last];
    assert forall p :: 0 <= p < |short| ==> short[p] == long[p];
    if j < |short| {
      assert FirstAt(short, x, i) && FirstAt(short, y, j);
      FilterKeepsOrder(init, keeps, x, y);
      BeforeGrows(init, last, x, y);
    } else {
      assert y == last && keeps(y) && y !in short;
      assert x in init && y !in init;
      FirstPlace(init, x);
      var a :| FirstAt(init, x, a);
      FirstAtGrows(init, last, x, a);
      assert FirstAt(models, y, |init|);
    }
  }

  lemma {:induction false} FilterHas(models: seq<string>, keeps: string -> bool)
    ensures forall m :: m in Filtered(models, keeps) <==> m in models && keeps(m)
  {
    if models != [] {
      FilterHas(models[..|models| - 1], keeps);
      assert forall m :: m in models <==> m in models[..|models| - 1] || m == models[|models| - 1];
    }
  }

  /** Behind a default, the order is that of the models. */
  lemma BeforeBehindDefault(models: seq<string>, d: string, x: string, y: string)
    requires x != d && y != d && Before([d] + models, x, y)
    ensures Before(models, x, y)
  {
    hide FirstAt;
    var i, j :| i < j && FirstAt([d] + models, x, i) && FirstAt([d] + models, y, j);
    FirstBehindDefault(models, d, x, i);
    FirstBehindDefault(models, d, y, j);
  }

  lemma FirstBehindDefault(models: seq<string>, d: string, x: string, i: int)
    requires x != d && FirstAt([d] + models, x, i)
    ensures FirstAt(models, x, i - 1)
  {
    var all := [d] + models;
    assert i > 0 && models[i - 1] == all[i];
    forall j | 0 <= j < i - 1 ensures models[j] != x { assert all[j + 1] == models[j]; }
  }

  lemma {:induction false} DedupeStartsAlike(models: seq<string>)
    requires models != []
    ensures Dedupe(models) != [] && Dedupe(models)[0] == models[0]
  {
    if |models| > 1 { DedupeStartsAlike(models[..|models| - 1]); }
  }

  lemma ForcedLists(models: seq<string>, d: string)
    ensures Lists(ForceIncludeDefault(models, d), d, models, m => true)
  {
    hide Dedupe, Before;
    var series := ForceIncludeDefault(models, d);
    DedupeKeepsEveryModelOnce([d] + models);
    DedupeStartsAlike([d] + models);
    forall j, k | 0 < j < k < |series| ensures Before(models, series[j], series[k]) {
      DedupeKeepsOrder([d] + models, j, k);
      BeforeBehindDefault(models, d, series[j], series[k]);
    }
  }

  lemma FilteredLists(c: Credentials, models: seq<string>)
    ensures Lists(ApplyFilter(c, models), c.defaultModel, models, c.keeps)
  {
    hide Dedupe, Before, Filtered;
    var d, kept := c.defaultModel, Filtered(models, c.keeps);
    var once, series := Dedupe(kept), ApplyFilter(c, models);
    ForcedLists(once, d);
    DedupeKeepsEveryModelOnce(kept);
    FilterHas(models, c.keeps);
    forall j, k | 0 < j < k < |series| ensures Before(models, series[j], series[k]) {
      BeforeInDeduped(kept, series[j], series[k]);
      FilterKeepsOrder(models, c.keeps, series[j], series[k]);
    }
  }

  lemma BeforeInDeduped(models: seq<string>, x: string, y: string)
    requires Before(Dedupe(models), x, y)
    ensures Before(models, x, y)
  {
    var i, j :| i < j && FirstAt(Dedupe(models), x, i) && FirstAt(Dedupe(models), y, j);
    DedupeKeepsOrder(models, i, j);
  }

  // ---- Entries ----------------------------------------------------------------------------

  function EntriesOf(c: Credentials, series: seq<string>, active: string): seq<Entry> {
    if series == [] then []
    else
      var name := series[|series| - 1];
      EntriesOf(c, series[..|series| - 1], active)
      + [Entry(name, c.provider, c.provider == active && name == c.defaultModel)]
  }

  function SeriesFor(series: map<string, seq<string>>, c: Credentials): seq<string> {
    if c.provider in series then series[c.provider] else CuratedSeries(c)
  }

  function AllEntries(credentials: seq<Credentials>, series: map<string, seq<string>>, active: string): seq<Entry> {
    if credentials == [] then []
    else
      var c := credentials[|credentials| - 1];
      AllEntries(credentials[..|credentials| - 1], series, active) + EntriesOf(c, SeriesFor(series, c), active)
  }

  ghost predicate UniqueIds(entries: seq<Entry>) {
    forall j, k :: 0 <= j < k < |entries| ==> entries[j].id != entries[k].id
  }

  ghost predicate Clean(entries: seq<Entry>) {
    UniqueIds(entries) && forall e :: e in entries ==> e.id != RESERVED_AUTO
  }

  method ListSeries(c: Credentials, models: seq<string>, active: string) returns (entries: seq<Entry>)
    ensures entries == EntriesOf(c, models, active)
  {
    entries := [];
    var k := 0;
    while k < |models|
      invariant 0 <= k <= |models| && entries == EntriesOf(c, models[..k], active)
    {
      assert models[..k + 1][..k] == models[..k];
      entries := entries + [Entry(models[k], c.provider, c.provider == active && models[k] == c.defaultModel)];
      k := k + 1;
    }
    assert models[..k] == models;
  }

  method CollectEntries(credentials: seq<Credentials>, series: map<string, seq<string>>, active: string)
    returns (entries: seq<Entry>)
    ensures entries == AllEntries(credentials, series, active)
  {
    hide EntriesOf, SeriesFor;
    entries := [];
    var i := 0;
    while i < |credentials|
      invariant 0 <= i <= |credentials| && entries == AllEntries(credentials[..i], series, active)
    {
      assert credentials[..i + 1][..i] == credentials[..i];
      var listed := ListSeries(credentials[i], SeriesFor(series, credentials[i]), active);
      entries := entries + listed;
      i := i + 1;
    }
    assert credentials[..i] == credentials;
  }

  method CheckEntries(entries: seq<Entry>) returns (clean: bool)
    ensures clean <==> Clean(entries)
  {
    var seen: set<string> := {};
    var i := 0;
    while i < |entries|
      invariant 0 <= i <= |entries|
      invariant forall j :: 0 <= j < i ==> entries[j].id != RESERVED_AUTO && entries[j].id in seen
      invariant forall j, k :: 0 <= j < k < i ==> entries[j].id != entries[k].id
      invariant forall id :: id in seen ==> exists k :: 0 <= k < i && entries[k].id == id
    {
      var id := entries[i].id;
      if id == RESERVED_AUTO {
        assert entries[i] in entries;
        return false;
      }
      if id in seen { return false; }
      seen := seen + {id};
      i := i + 1;
    }
    clean := true;
  }

  /** Refuses the whole list for a duplicate or the reserved id. */
  method BuildEntries(credentials: seq<Credentials>, series: map<string, seq<string>>, active: string)
    returns (r: Option<seq<Entry>>)
    ensures var entries := AllEntries(credentials, series, active); r == if Clean(entries) then Some(entries) else None
  {
    var entries := CollectEntries(credentials, series, active);
    var clean := CheckEntries(entries);
    r := if clean then Some(entries) else None;
  }

  // ---- What a published catalog holds -----------------------------------------------------

  ghost predicate DistinctProviders(credentials: seq<Credentials>) {
    forall j, k :: 0 <= j < k < |credentials| ==> credentials[j].provider != credentials[k].provider
  }

  ghost predicate AllSeriesOk(credentials: seq<Credentials>, series: map<string, seq<string>>) {
    forall c :: c in credentials ==> SeriesOk(SeriesFor(series, c), c)
  }

  function DefaultEntry(c: Credentials, active: string): Entry {
    Entry(c.defaultModel, c.provider, c.provider == active)
  }

  /** Every configured default is published and aliased, nothing reserved or twice, and exactly one
      entry is the default when the active provider is configured. */
  ghost predicate CatalogOk(entries: seq<Entry>, aliases: map<string, Entry>, credentials: seq<Credentials>,
                            active: string) {
    && Clean(entries)
    && (forall c :: c in credentials ==>
          DefaultEntry(c, active) in entries && c.provider in aliases && aliases[c.provider] == DefaultEntry(c, active))
    && (forall e :: e in entries && e.isDefault ==>
          exists c :: c in credentials && c.provider == active && e == DefaultEntry(c, active))
  }

  lemma {:induction false} EntriesOfHas(c: Credentials, series: seq<string>, active: string)
    ensures forall e :: e in EntriesOf(c, series, active) <==>
              e.id in series && e.provider == c.provider
              && e.isDefault == (c.provider == active && e.id == c.defaultModel)
  {
    if series != [] {
      EntriesOfHas(c, series[..|series| - 1], active);
      assert forall m :: m in series <==> m in series[..|series| - 1] || m == series[|series| - 1];
    }
  }

  lemma {:induction false} AllEntriesHas(credentials: seq<Credentials>, series: map<string, seq<string>>,
                                         active: string)
    ensures forall e :: e in AllEntries(credentials, series, active) <==>
              exists c :: c in credentials && e in EntriesOf(c, SeriesFor(series, c), active)
  {
    if credentials != [] {
      var init, last := credentials[..|credentials| - 1], credentials[|credentials| - 1];
      AllEntriesHas(init, series, active);
      assert forall c :: c in credentials <==> c in init || c == last;
    }
  }

  /** The first entry with the provider's default model is that provider's own. */
  ghost predicate AliasOf(entries: seq<Entry>, c: Credentials, e: Entry) {
    exists k :: 0 <= k < |entries| && entries[k] == e && e.id == c.defaultModel
             && forall j :: 0 <= j < k ==> entries[j].id != c.defaultModel
  }

  method BuildAliases(entries: seq<Entry>, credentials: seq<Credentials>) returns (aliases: map<string, Entry>)
    requires DistinctProviders(credentials)
    ensures forall c, e :: c in credentials && AliasOf(entries, c, e) ==>
      c.provider in aliases && aliases[c.provider] == e
    ensures forall p :: p in aliases ==>
      exists c :: c in credentials && c.provider == p && AliasOf(entries, c, aliases[p])
  {
    aliases := map[];
    var i := 0;
    while i < |credentials|
      invariant 0 <= i <= |credentials|
      invariant forall k, e :: 0 <= k < i && AliasOf(entries, credentials[k], e) ==>
        credentials[k].provider in aliases && aliases[credentials[k].provider] == e
      invariant forall p :: p in aliases ==>
        exists c :: c in credentials && c.provider == p && AliasOf(entries, c, aliases[p])
    {
      var k := 0;
      while k < |entries| && entries[k].id != credentials[i].defaultModel
        invariant 0 <= k <= |entries|
        invariant forall j :: 0 <= j < k ==> entries[j].id != credentials[i].defaultModel
      {
        k := k + 1;
      }
      if k < |entries| {
        aliases := aliases[credentials[i].provider := entries[k]];
        assert credentials[i] in credentials && AliasOf(entries, credentials[i], entries[k]);
      }
      i := i + 1;
    }
  }

  lemma CleanDefaultIsAlias(entries: seq<Entry>, c: Credentials, active: string)
    requires Clean(entries) && DefaultEntry(c, active) in entries
    ensures AliasOf(entries, c, DefaultEntry(c, active))
  {
    var k :| 0 <= k < |entries| && entries[k] == DefaultEntry(c, active);
  }

  lemma DefaultIsListed(credentials: seq<Credentials>, series: map<string, seq<string>>, active: string, c: Credentials)
    requires AllSeriesOk(credentials, series) && c in credentials
    ensures DefaultEntry(c, active) in AllEntries(credentials, series, active)
  {
    hide AllEntries, EntriesOf, SeriesFor;
    AllEntriesHas(credentials, series, active);
    EntriesOfHas(c, SeriesFor(series, c), active);
  }

  lemma OnlyDefaultsAreDefault(credentials: seq<Credentials>, series: map<string, seq<string>>, active: string,
                               e: Entry)
    requires e in AllEntries(credentials, series, active) && e.isDefault
    ensures exists c :: c in credentials && c.provider == active && e == DefaultEntry(c, active)
  {
    hide AllEntries, EntriesOf, SeriesFor;
    AllEntriesHas(credentials, series, active);
    var c :| c in credentials && e in EntriesOf(c, SeriesFor(series, c), active);
    EntriesOfHas(c, SeriesFor(series, c), active);
  }

  lemma CleanCatalogIsOk(credentials: seq<Credentials>, series: map<string, seq<string>>, active: string,
                         aliases: map<string, Entry>)
    requires AllSeriesOk(credentials, series)
    requires var entries := AllEntries(credentials, series, active);
      Clean(entries) && forall c, e :: c in credentials && AliasOf(entries, c, e) ==>
        c.provider in aliases && aliases[c.provider] == e
    ensures CatalogOk(AllEntries(credentials, series, active), aliases, credentials, active)
  {
    hide AliasOf, Clean, AllEntries, AllSeriesOk, DefaultEntry;
    var entries := AllEntries(credentials, series, active);
    forall c | c in credentials
      ensures DefaultEntry(c, active) in entries && c.provider in aliases
        && aliases[c.provider] == DefaultEntry(c, active)
    {
      DefaultIsListed(credentials, series, active, c);
      CleanDefaultIsAlias(entries, c, active);
    }
    forall e | e in entries && e.isDefault
      ensures exists c :: c in credentials && c.provider == active && e == DefaultEntry(c, active)
    {
      OnlyDefaultsAreDefault(credentials, series, active, e);
    }
  }

  /** With the active provider configured, a published catalog has exactly one default entry. */
  lemma ExactlyOneDefault(entries: seq<Entry>, aliases: map<string, Entry>, credentials: seq<Credentials>,
                          active: string, c: Credentials)
    requires CatalogOk(entries, aliases, credentials, active) && DistinctProviders(credentials)
    requires c in credentials && c.provider == active
    ensures exists k :: 0 <= k < |entries| && entries[k].isDefault
                     && forall j :: 0 <= j < |entries| && entries[j].isDefault ==> j == k
  {
    var k :| 0 <= k < |entries| && entries[k] == DefaultEntry(c, active);
    forall j | 0 <= j < |entries| && entries[j].isDefault ensures j == k {
      assert entries[j] in entries;
      var d :| d in credentials && d.provider == active && entries[j] == DefaultEntry(d, active);
      SameProviderSameCredentials(credentials, c, d);
    }
  }

  lemma SameProviderSameCredentials(credentials: seq<Credentials>, c: Credentials, d: Credentials)
    requires DistinctProviders(credentials) && c in credentials && d in credentials && c.provider == d.provider
    ensures c == d
  {
    var j :| 0 <= j < |credentials| && credentials[j] == c;
    var k :| 0 <= k < |credentials| && credentials[k] == d;
    assert j == k;
  }

  // ---- Discovery --------------------------------------------------------------------------

  /** The refresh service and the catalog it publishes. `lastLive` is each provider's last
      successful live fetch. */
  class ModelDiscoveryService {
    const credentials: seq<Credentials>
    const active: string
    const enabled: bool
    var lastGood: map<string, seq<string>>
    var entries: seq<Entry>
    var aliases: map<string, Entry>
    ghost var lastLive: map<string, seq<string>>

    /** The in-memory tier holds exactly the filtered last live series. */
    ghost predicate Remembers()
      reads this
    {
      && lastGood.Keys == lastLive.Keys
      && (forall c :: c in credentials && c.provider in lastLive ==>
            lastGood[c.provider] == ApplyFilter(c, lastLive[c.provider]))
    }

    ghost predicate Valid()
      reads this
    {
      DistinctProviders(credentials) && Remembers() && CatalogOk(entries, aliases, credentials, active)
    }

    /** Startup publishes the curated catalog; the process does not start when that is refused. */
    constructor (credentials: seq<Credentials>, active: string, enabled: bool)
      requires DistinctProviders(credentials) && Clean(AllEntries(credentials, map[], active))
      ensures Valid() && this.credentials == credentials && this.active == active && this.enabled == enabled
      ensures lastLive == map[]
    {
      this.credentials, this.active, this.enabled := credentials, active, enabled;
      lastGood, lastLive := map[], map[];
      var listed := CollectEntries(credentials, map[], active);
      var named := BuildAliases(listed, credentials);
      entries, aliases := listed, named;
      new;
      forall c | c in credentials ensures SeriesOk(SeriesFor(map[], c), c) {
        ForcedSeriesIsOk(if c.override.Some? then c.override.value else c.curated, c);
      }
      CleanCatalogIsOk(credentials, map[], active, aliases);
    }

    /** The ladder: the override, else the live fetch, else the last good series, else the durable
        cache, else the curated series. */
    method ResolveSeries(c: Credentials, live: Option<seq<string>>, cached: Option<seq<string>>)
      returns (series: seq<string>)
      requires c in credentials && DistinctProviders(credentials) && Remembers()
      modifies this`lastGood, this`lastLive
      ensures Remembers() && SeriesOk(series, c)
      ensures lastLive == (
                if c.override.None? && enabled && live.Some? then old(lastLive)[c.provider := live.value]
                else old(lastLive))
      ensures c.override.None? && enabled && c.provider in lastLive ==> series == ApplyFilter(c, lastLive[c.provider])
      ensures if c.override.Some? then Lists(series, c.defaultModel, c.override.value, m => true)
              else if enabled && c.provider in lastLive then
                Lists(series, c.defaultModel, lastLive[c.provider], c.keeps)
              else if enabled && cached.Some? then Lists(series, c.defaultModel, cached.value, m => true)
              else Lists(series, c.defaultModel, c.curated, m => true)
    {
      hide ForceIncludeDefault, SeriesOk, Filtered, Dedupe, Lists, ApplyFilter;
      ForcedLists(if c.override.Some? then c.override.value else c.curated, c.defaultModel);
      if c.provider in lastLive { FilteredLists(c, lastLive[c.provider]); }
      if live.Some? { FilteredLists(c, live.value); }
      if cached.Some? { ForcedLists(cached.value, c.defaultModel); }
      if c.override.Some? || !enabled {
        ForcedSeriesIsOk(if c.override.Some? then c.override.value else c.curated, c);
        return CuratedSeries(c);
      }
      if live.Some? {
        FilteredSeriesIsOk(c, live.value);
        series := ApplyFilter(c, live.value);
        lastGood, lastLive := lastGood[c.provider := series], lastLive[c.provider := live.value];
        forall d | d in credentials && d.provider == c.provider ensures d == c {
          SameProviderSameCredentials(credentials, c, d);
        }
        return;
      }
      if c.provider in lastGood {
        FilteredSeriesIsOk(c, lastLive[c.provider]);
        return lastGood[c.provider];
      }
      if cached.Some? {
        ForcedSeriesIsOk(cached.value, c);
        return ForceIncludeDefault(cached.value, c.defaultModel);
      }
      ForcedSeriesIsOk(c.curated, c);
      series := CuratedSeries(c);
    }

    /** The series of a provider is the right one for what is known of it now. */
    ghost predicate Resolved(series: map<string, seq<string>>, c: Credentials)
      reads this
    {
      && c.provider in series && SeriesOk(series[c.provider], c)
      && (c.override.None? && enabled && c.provider in lastLive ==>
            series[c.provider] == ApplyFilter(c, lastLive[c.provider]))
    }

    /** A successful live fetch is remembered. */
    ghost predicate Learned(live: map<string, seq<string>>, c: Credentials)
      reads this
    {
      c.override.None? && enabled && c.provider in live ==>
        c.provider in lastLive && lastLive[c.provider] == live[c.provider]
    }

    /** Every provider in turn. A failed fetch is absent from `live`, a missed cache from `cached`. */
    method ResolveAll(live: map<string, seq<string>>, cached: map<string, seq<string>>)
      returns (series: map<string, seq<string>>)
      requires DistinctProviders(credentials) && Remembers()
      modifies this`lastGood, this`lastLive
      ensures Remembers() && forall c :: c in credentials ==> Resolved(series, c)
      ensures forall c :: c in credentials ==> Learned(live, c)
      ensures forall p :: p !in live ==>
        (p in lastLive <==> p in old(lastLive)) && (p in lastLive ==> lastLive[p] == old(lastLive)[p])
    {
      hide SeriesOk, ApplyFilter, CuratedSeries;
      series := map[];
      var i := 0;
      while i < |credentials|
        invariant 0 <= i <= |credentials| && Remembers()
        invariant forall k :: 0 <= k < i ==> Resolved(series, credentials[k])
        invariant forall k :: 0 <= k < i ==> Learned(live, credentials[k])
        invariant forall p :: p !in live ==>
          (p in lastLive <==> p in old(lastLive)) && (p in lastLive ==> lastLive[p] == old(lastLive)[p])
      {
        var c := credentials[i];
        var found := ResolveSeries(c, if c.provider in live then Some(live[c.provider]) else None,
                                   if c.provider in cached then Some(cached[c.provider]) else None);
        series := series[c.provider := found];
        i := i + 1;
      }
    }

    /** One refresh: the whole list is published, or refused and nothing changes. A provider whose
        live fetch ever succeeded is served its last live series, whatever failed since. */
    method RefreshOnce(live: map<string, seq<string>>, cached: map<string, seq<string>>)
      returns (swapped: bool, series: map<string, seq<string>>)
      requires Valid()
      modifies this
      ensures Valid() && forall c :: c in credentials ==> Resolved(series, c)
      ensures swapped <==> Clean(AllEntries(credentials, series, active))
      ensures swapped ==> entries == AllEntries(credentials, series, active)
      ensures !swapped ==> entries == old(entries) && aliases == old(aliases)
      ensures forall c :: c in credentials ==> Learned(live, c)
      ensures forall p :: p !in live ==>
        (p in lastLive <==> p in old(lastLive)) && (p in lastLive ==> lastLive[p] == old(lastLive)[p])
    {
      hide SeriesOk, ApplyFilter, CuratedSeries, AllEntries, CatalogOk, Clean;
      series := ResolveAll(live, cached);
      var built := BuildEntries(credentials, series, active);
      swapped := built.Some?;
      if swapped {
        var named := BuildAliases(built.value, credentials);
        CleanCatalogIsOk(credentials, series, active, named);
        entries, aliases := built.value, named;
      }
    }
  }
}
