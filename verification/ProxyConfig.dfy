/** The proxy configuration: which proxies an account may use, and the migration of the old single-proxy format. */
module ProxyConfig {
  import opened Prelude

  /** A parsed proxy address. */
  datatype Address = Address(protocol: string, host: string, port: nat, username: string, password: string)

  const INDEX_PLACEHOLDER := "{n}"

  const ROTATE := "-rotate"

  predicate Contains(s: string, part: string) {
    |part| <= |s| && (s[..|part|] == part || Contains(s[1..], part))
  }

  function Lower(c: char): char {
    if 'A' <= c <= 'Z' then ((c as int) + 32) as char else c
  }

  /** The name ends in `-rotate`, in upper or lower case. */
  predicate EndsInRotate(name: string) {
    |ROTATE| <= |name| && forall k :: 0 <= k < |ROTATE| ==> Lower(name[|name| - |ROTATE| + k]) == ROTATE[k]
  }

  /** The address has a place for a number, or a user name that can be given one. */
  predicate Numbered(a: Address) {
    && a.host != ""
    && (Contains(a.host, INDEX_PLACEHOLDER) || Contains(a.username, INDEX_PLACEHOLDER)
        || (a.username != "" && Contains(a.password, INDEX_PLACEHOLDER)) || EndsInRotate(a.username))
  }

  datatype Kind = Static | Rotating

  datatype Check = Untested | Healthy | Unreachable

  datatype Proxy = Proxy(id: nat, address: Address, kind: Kind, poolSize: nat, enabled: bool, groupIds: seq<string>, check: Check)

  datatype Binding = Direct | Bind(proxyIds: seq<nat>, groupIds: seq<string>)

  /** `groups`: the ids of the proxy groups; `accountGroups`: the proxy groups linked to an account group. */
  datatype Config = Config(proxies: seq<Proxy>, groups: set<string>, accounts: map<string, Binding>, accountGroups: map<string, seq<string>>)

  datatype Candidates = GoDirect | Refused(bound: nat) | Use(proxies: seq<Proxy>)

  // ----- What an account may use -----

  function Filter(proxies: seq<Proxy>, keep: Proxy -> bool): seq<Proxy> {
    if proxies == [] then []
    else (if keep(proxies[0]) then [proxies[0]] else []) + Filter(proxies[1..], keep)
  }

  /** The proxies that some account is bound to by name: they are not in the pool. */
  function PinnedIds(accounts: map<string, Binding>): set<nat> {
    set key, id | key in accounts && accounts[key].Bind? && id in accounts[key].proxyIds :: id
  }

  predicate Meets(ids: seq<string>, wanted: set<string>) {
    exists i :: 0 <= i < |ids| && ids[i] in wanted
  }

  /** The groups whose proxies the account may use: its own, and those of the account group it is in. */
  function GroupsOf(config: Config, key: string, accountGroup: string): set<string> {
    (if key != "" && key in config.accounts && config.accounts[key].Bind?
     then set id | id in config.accounts[key].groupIds else {})
    + (if key != "" && accountGroup != "" && accountGroup in config.accountGroups
       then set id | id in config.accountGroups[accountGroup] else {})
  }

  function BoundIds(config: Config, key: string): set<nat> {
    if key != "" && key in config.accounts && config.accounts[key].Bind? then set id | id in config.accounts[key].proxyIds else {}
  }

  /** `candidatesFor`: the account's own proxies if it is bound to any, else the pool of those bound to nobody. */
  function CandidatesFor(config: Config, key: string, accountGroup: string): Candidates {
    if key != "" && key in config.accounts && config.accounts[key].Direct? then GoDirect
    else
      var groups := GroupsOf(config, key, accountGroup);
      var ids := BoundIds(config, key);
      var bound := Filter(config.proxies, (p: Proxy) => p.id in ids || Meets(p.groupIds, groups));
      if bound != [] then
        var enabled := Filter(bound, (p: Proxy) => p.enabled);
        if enabled != [] then Use(enabled) else Refused(|bound|)
      else
        var pinned := PinnedIds(config.accounts);
        var pool := Filter(config.proxies, (p: Proxy) => p.enabled && p.id !in pinned);
        if pool != [] then Use(pool) else GoDirect
  }

  lemma {:induction false} FilterIn(proxies: seq<Proxy>, keep: Proxy -> bool)
    ensures forall p :: p in Filter(proxies, keep) <==> p in proxies && keep(p)
  {
    if proxies != [] {
      FilterIn(proxies[1..], keep);
    }
  }

  // ----- What that means, proxy by proxy -----

  ghost predicate BoundDirect(config: Config, key: string) {
    key != "" && key in config.accounts && config.accounts[key] == Direct
  }

  /** One of the account's own groups, or of those linked to its account group. */
  ghost predicate InGroupOf(config: Config, key: string, accountGroup: string, id: string) {
    && key != ""
    && ((key in config.accounts && config.accounts[key].Bind? && id in config.accounts[key].groupIds)
        || (accountGroup != "" && accountGroup in config.accountGroups && id in config.accountGroups[accountGroup]))
  }

  /** Bound to the account by its id, or by a group. */
  ghost predicate BoundTo(config: Config, key: string, accountGroup: string, p: Proxy) {
    || (key != "" && key in config.accounts && config.accounts[key].Bind? && p.id in config.accounts[key].proxyIds)
    || exists id :: id in p.groupIds && InGroupOf(config, key, accountGroup, id)
  }

  /** Some account is bound to it by its id. */
  ghost predicate Pinned(config: Config, id: nat) {
    exists key :: key in config.accounts && config.accounts[key].Bind? && id in config.accounts[key].proxyIds
  }

  ghost predicate AnyBound(config: Config, key: string, accountGroup: string) {
    exists p :: p in config.proxies && BoundTo(config, key, accountGroup, p)
  }

  ghost predicate BoundOn(config: Config, key: string, accountGroup: string, p: Proxy) {
    p in config.proxies && p.enabled && BoundTo(config, key, accountGroup, p)
  }

  /** In the pool: on, and bound by its id to nobody. */
  ghost predicate Pooled(config: Config, p: Proxy) {
    p in config.proxies && p.enabled && !Pinned(config, p.id)
  }

  /** Open to the account: those bound to it that are on; if none is bound to it, the pool. */
  ghost predicate MayUse(config: Config, key: string, accountGroup: string, p: Proxy) {
    !BoundDirect(config, key) && if AnyBound(config, key, accountGroup) then BoundOn(config, key, accountGroup, p) else Pooled(config, p)
  }

  /** The places in the list of the proxies bound to the account. */
  ghost function BoundPlaces(config: Config, key: string, accountGroup: string): set<nat> {
    set i: nat | i < |config.proxies| && BoundTo(config, key, accountGroup, config.proxies[i])
  }

  lemma {:induction false} BoundByIdOrGroup(config: Config, key: string, accountGroup: string, p: Proxy)
    ensures BoundTo(config, key, accountGroup, p) <==>
            p.id in BoundIds(config, key) || Meets(p.groupIds, GroupsOf(config, key, accountGroup))
  {
    var groups := GroupsOf(config, key, accountGroup);
    assert forall id :: id in groups <==> InGroupOf(config, key, accountGroup, id);
    if Meets(p.groupIds, groups) {
      var i :| 0 <= i < |p.groupIds| && p.groupIds[i] in groups;
      assert p.groupIds[i] in p.groupIds && InGroupOf(config, key, accountGroup, p.groupIds[i]);
    }
    if id :| id in p.groupIds && InGroupOf(config, key, accountGroup, id) {
      var i :| 0 <= i < |p.groupIds| && p.groupIds[i] == id;
      assert p.groupIds[i] in groups;
    }
  }

  ghost function Where(proxies: seq<Proxy>, keep: Proxy -> bool): set<nat> {
    set i: nat | i < |proxies| && keep(proxies[i])
  }

  lemma {:induction false} FilterCounts(proxies: seq<Proxy>, keep: Proxy -> bool)
    ensures |Filter(proxies, keep)| == |Where(proxies, keep)|
  {
    if proxies != [] {
      FilterCounts(proxies[1..], keep);
      PlacesBehind(Where(proxies[1..], keep), Where(proxies, keep));
    }
  }

  lemma {:induction false} BoundAre(config: Config, key: string, accountGroup: string, bound: seq<Proxy>)
    requires var groups, ids := GroupsOf(config, key, accountGroup), BoundIds(config, key);
             bound == Filter(config.proxies, (p: Proxy) => p.id in ids || Meets(p.groupIds, groups))
    ensures forall p :: p in bound <==> p in config.proxies && BoundTo(config, key, accountGroup, p)
    ensures bound != [] <==> AnyBound(config, key, accountGroup)
    ensures |bound| == |BoundPlaces(config, key, accountGroup)|
  {
    var groups, ids := GroupsOf(config, key, accountGroup), BoundIds(config, key);
    var isBound := (p: Proxy) => p.id in ids || Meets(p.groupIds, groups);
    forall p ensures isBound(p) <==> BoundTo(config, key, accountGroup, p) {
      BoundByIdOrGroup(config, key, accountGroup, p);
    }
    FilterIn(config.proxies, isBound);
    FilterCounts(config.proxies, isBound);
    assert BoundPlaces(config, key, accountGroup) == Where(config.proxies, isBound);
    assert bound != [] ==> bound[0] in bound;
  }

  lemma {:induction false} EnabledAre(config: Config, key: string, accountGroup: string, bound: seq<Proxy>)
    requires forall p :: p in bound <==> p in config.proxies && BoundTo(config, key, accountGroup, p)
    ensures forall p :: p in Filter(bound, (p: Proxy) => p.enabled) <==> BoundOn(config, key, accountGroup, p)
    ensures Filter(bound, (p: Proxy) => p.enabled) != [] <==> exists p :: BoundOn(config, key, accountGroup, p)
  {
    var enabled := Filter(bound, (p: Proxy) => p.enabled);
    FilterIn(bound, (p: Proxy) => p.enabled);
    assert enabled != [] ==> enabled[0] in enabled && BoundOn(config, key, accountGroup, enabled[0]);
    if p :| BoundOn(config, key, accountGroup, p) {
      assert p in enabled;
    }
  }

  lemma {:induction false} PoolIs(config: Config)
    ensures var pinned := PinnedIds(config.accounts);
            var pool := Filter(config.proxies, (p: Proxy) => p.enabled && p.id !in pinned);
            (forall p :: p in pool <==> Pooled(config, p)) && (pool != [] <==> exists p :: Pooled(config, p))
  {
    var pinned := PinnedIds(config.accounts);
    var pool := Filter(config.proxies, (p: Proxy) => p.enabled && p.id !in pinned);
    FilterIn(config.proxies, (p: Proxy) => p.enabled && p.id !in pinned);
    assert forall id :: id in pinned <==> Pinned(config, id);
    assert pool != [] ==> pool[0] in pool && Pooled(config, pool[0]);
    if p :| Pooled(config, p) {
      assert p in pool;
    }
  }

  /** Direct exactly if the account is set to go direct, or if no proxy is bound to it and the pool is empty. */
  ghost predicate GoesDirect(config: Config, key: string, accountGroup: string) {
    BoundDirect(config, key) || (!AnyBound(config, key, accountGroup) && !exists p :: Pooled(config, p))
  }

  /** Refused exactly if proxies are bound to the account and all of them are off. */
  ghost predicate IsRefused(config: Config, key: string, accountGroup: string) {
    !BoundDirect(config, key) && AnyBound(config, key, accountGroup) && !exists p :: BoundOn(config, key, accountGroup, p)
  }

  /** For every account of every configuration: it goes direct, is refused with the number of its proxies, or uses exactly those open to it. */
  lemma {:induction false} CandidatesAre(config: Config, key: string, accountGroup: string)
    ensures CandidatesFor(config, key, accountGroup).GoDirect? <==> GoesDirect(config, key, accountGroup)
    ensures CandidatesFor(config, key, accountGroup).Refused? <==> IsRefused(config, key, accountGroup)
    ensures match CandidatesFor(config, key, accountGroup)
            case GoDirect => true
            case Refused(bound) => bound == |BoundPlaces(config, key, accountGroup)|
            case Use(proxies) => proxies != [] && forall p :: p in proxies <==> MayUse(config, key, accountGroup, p)
  {
    var groups, ids := GroupsOf(config, key, accountGroup), BoundIds(config, key);
    var bound := Filter(config.proxies, (p: Proxy) => p.id in ids || Meets(p.groupIds, groups));
    BoundAre(config, key, accountGroup, bound);
    if bound != [] {
      EnabledAre(config, key, accountGroup, bound);
    } else {
      PoolIs(config);
    }
  }

  ghost predicate DistinctIds(proxies: seq<Proxy>) {
    forall i, j :: 0 <= i < j < |proxies| ==> proxies[i].id != proxies[j].id
  }

  lemma {:induction false} FilterKeepsDistinct(proxies: seq<Proxy>, keep: Proxy -> bool)
    requires DistinctIds(proxies)
    ensures DistinctIds(Filter(proxies, keep))
  {
    if proxies != [] {
      FilterKeepsDistinct(proxies[1..], keep);
      FilterIn(proxies[1..], keep);
      var rest := Filter(proxies[1..], keep);
      forall j | 0 <= j < |rest| ensures rest[j].id != proxies[0].id {
        assert rest[j] in rest;
        var m :| 0 <= m < |proxies[1..]| && proxies[1..][m] == rest[j];
        assert proxies[m + 1] == rest[j];
      }
    }
  }

  lemma {:induction false} FilterNone(proxies: seq<Proxy>, keep: Proxy -> bool)
    requires forall p :: p in proxies ==> !keep(p)
    ensures Filter(proxies, keep) == []
  {
    if proxies != [] {
      assert proxies[0] in proxies;
      FilterNone(proxies[1..], keep);
    }
  }

  /** A filter that lets exactly one proxy through yields it alone. */
  lemma {:induction false} FilterOne(proxies: seq<Proxy>, keep: Proxy -> bool, only: Proxy)
    requires DistinctIds(proxies) && only in proxies && keep(only)
    requires forall p :: p in proxies && keep(p) ==> p == only
    ensures Filter(proxies, keep) == [only]
  {
    var rest := proxies[1..];
    if proxies[0] == only {
      forall p | p in rest ensures !keep(p) {
        var m :| 0 <= m < |rest| && rest[m] == p;
        assert p == proxies[m + 1] && p.id != proxies[0].id;
      }
      FilterNone(rest, keep);
    } else {
      assert proxies[0] in proxies;
      FilterOne(rest, keep, only);
    }
  }

  // ----- The old format -----

  /** One account's entry in the old format: what was typed, by account name. */
  datatype LegacyEntry = LegacyEntry(name: string, value: string)

  /** What an account used: no proxy, or the proxy with this address. */
  datatype Route = NoProxy | Via(address: Address)

  const DIRECT := "direct"
  const GLOBAL := "global"

  /**
   * What an entry sets for its account: `Some(NoProxy)` for `direct`, the address for one that can be parsed,
   * and nothing for an empty one, for `global`, or for one that cannot be parsed. Parsing an address is an input.
   */
  function Override(value: string, parse: string -> Option<Address>): Option<Route> {
    if value == DIRECT then Some(NoProxy)
    else if value == "" || value == GLOBAL then None
    else if parse(value).Some? then Some(Via(parse(value).value))
    else None
  }

  /** The override in force for a key: that of the last entry whose lower-cased name it is and which sets one. */
  function LegacyOverride(entries: seq<LegacyEntry>, key: string, parse: string -> Option<Address>, lower: string -> string): Option<Route> {
    if entries == [] then None
    else
      var last := entries[|entries| - 1];
      if lower(last.name) == key && Override(last.value, parse).Some? then Override(last.value, parse)
      else LegacyOverride(entries[..|entries| - 1], key, parse, lower)
  }

  /** The proxy an account used under the old format: its override, else the global proxy if enabled. */
  function LegacyRoute(global: Option<Proxy>, entries: seq<LegacyEntry>, key: string,
                       parse: string -> Option<Address>, lower: string -> string): Route
  {
    var override := LegacyOverride(entries, key, parse, lower);
    if override.Some? then override.value
    else if global.Some? && global.value.enabled then Via(global.value.address)
    else NoProxy
  }

  /** The index of a proxy made for an override with this address; the global proxy at the front is never one. */
  function FindOverride(proxies: seq<Proxy>, from: nat, address: Address): (i: nat)
    requires from <= |proxies|
    ensures i <= |proxies|
    ensures i < |proxies| ==> from <= i && proxies[i].address == address
    ensures i == |proxies| ==> forall j :: from <= j < |proxies| ==> proxies[j].address != address
    decreases |proxies| - from
  {
    if from == |proxies| || proxies[from].address == address then from else FindOverride(proxies, from + 1, address)
  }

  function NewStatic(id: nat, address: Address): Proxy {
    Proxy(id, address, Static, 0, true, [], Untested)
  }

  /** One turn of the migration's loop; `first` is the index of the first proxy made for an override. */
  function MigrateEntry(config: Config, first: nat, entry: LegacyEntry, parse: string -> Option<Address>, lower: string -> string): (config': Config)
    requires first <= |config.proxies|
    ensures |config.proxies| <= |config'.proxies|
  {
    match Override(entry.value, parse)
    case None => config
    case Some(NoProxy) => config.(accounts := config.accounts[lower(entry.name) := Direct])
    case Some(Via(address)) =>
      var i := FindOverride(config.proxies, first, address);
      var proxies := if i < |config.proxies| then config.proxies else config.proxies + [NewStatic(i, address)];
      config.(proxies := proxies, accounts := config.accounts[lower(entry.name) := Bind([proxies[i].id], [])])
  }

  /** The configuration after the first entries of the old format have been taken over. */
  function Migrated(global: Option<Proxy>, entries: seq<LegacyEntry>, parse: string -> Option<Address>, lower: string -> string): (config: Config)
    ensures (if global.Some? then 1 else 0) <= |config.proxies|
  {
    if entries == [] then Config(if global.Some? then [global.value.(id := 0)] else [], {}, map[], map[])
    else
      MigrateEntry(Migrated(global, entries[..|entries| - 1], parse, lower), if global.Some? then 1 else 0,
                   entries[|entries| - 1], parse, lower)
  }

  /** `migrateLegacyConfig`: the global proxy first, then one static proxy for every address overridden to. */
  method MigrateLegacyConfig(global: Option<Proxy>, entries: seq<LegacyEntry>, parse: string -> Option<Address>, lower: string -> string)
    returns (config: Config)
    ensures config == Migrated(global, entries, parse, lower)
  {
    var first := if global.Some? then 1 else 0;
    config := Config(if global.Some? then [global.value.(id := 0)] else [], {}, map[], map[]);
    for n := 0 to |entries|
      invariant first <= |config.proxies|
      invariant config == Migrated(global, entries[..n], parse, lower)
    {
      var entry := entries[n];
      assert entries[..n + 1][..n] == entries[..n];
      var key := lower(entry.name);
      if entry.value == DIRECT {
        config := config.(accounts := config.accounts[key := Direct]);
        continue;
      }
      if entry.value == "" || entry.value == GLOBAL || parse(entry.value) == None {
        continue;
      }
      var address := parse(entry.value).value;
      var i := FindOverride(config.proxies, first, address);
      if i == |config.proxies| {
        config := config.(proxies := config.proxies + [NewStatic(i, address)]);
      }
      config := config.(accounts := config.accounts[key := Bind([config.proxies[i].id], [])]);
    }
    assert entries[..|entries|] == entries;
  }

  // ----- The migration keeps every account's proxy -----

  function First(global: Option<Proxy>): nat { if global.Some? then 1 else 0 }

  /** What binding the migration gives to a key whose override is `override`. */
  ghost predicate BoundAs(config: Config, first: nat, key: string, override: Option<Route>) {
    match override
    case None => key !in config.accounts
    case Some(NoProxy) => key in config.accounts && config.accounts[key] == Direct
    case Some(Via(address)) =>
      exists i :: first <= i < |config.proxies| && config.proxies[i].address == address
                  && key in config.accounts && config.accounts[key] == Bind([i], [])
  }

  /** Ids are positions; behind the global proxy stand enabled static ones with different addresses, in no group. */
  ghost predicate WellMade(config: Config, global: Option<Proxy>) {
    && First(global) <= |config.proxies| && config.accountGroups == map[]
    && (global.Some? ==> config.proxies[0] == global.value.(id := 0))
    && (forall i :: First(global) <= i < |config.proxies| ==> config.proxies[i] == NewStatic(i, config.proxies[i].address))
    && (forall i, j :: First(global) <= i < j < |config.proxies| ==> config.proxies[i].address != config.proxies[j].address)
  }

  /** The proxies behind the global one are exactly those for the addresses that some entry names. */
  ghost predicate FromEntries(config: Config, first: nat, entries: seq<LegacyEntry>, parse: string -> Option<Address>) {
    && (forall i :: first <= i < |config.proxies| ==> Named(entries, config.proxies[i].address, parse))
    && (forall n :: 0 <= n < |entries| && Override(entries[n].value, parse).Some? && Override(entries[n].value, parse).value.Via? ==>
          HasAddress(config, first, Override(entries[n].value, parse).value.address))
  }

  ghost predicate Named(entries: seq<LegacyEntry>, address: Address, parse: string -> Option<Address>) {
    exists n :: 0 <= n < |entries| && Override(entries[n].value, parse) == Some(Via(address))
  }

  ghost predicate HasAddress(config: Config, first: nat, address: Address) {
    exists i :: first <= i < |config.proxies| && config.proxies[i].address == address
  }

  lemma {:induction false} WellMadeNext(config: Config, global: Option<Proxy>, entry: LegacyEntry, parse: string -> Option<Address>, lower: string -> string)
    requires WellMade(config, global)
    ensures WellMade(MigrateEntry(config, First(global), entry, parse, lower), global)
  {
  }

  lemma {:induction false} MigratedIsWellMade(global: Option<Proxy>, entries: seq<LegacyEntry>, parse: string -> Option<Address>, lower: string -> string)
    ensures WellMade(Migrated(global, entries, parse, lower), global)
  {
    if entries != [] {
      var before := entries[..|entries| - 1];
      MigratedIsWellMade(global, before, parse, lower);
      WellMadeNext(Migrated(global, before, parse, lower), global, entries[|entries| - 1], parse, lower);
    }
  }

  /** A binding to an address lasts when proxies are only added and the account is not bound anew. */
  lemma {:induction false} BoundLasts(config: Config, config': Config, first: nat, key: string, override: Option<Route>)
    requires BoundAs(config, first, key, override)
    requires key in config'.accounts <==> key in config.accounts
    requires key in config.accounts ==> config'.accounts[key] == config.accounts[key]
    requires config.proxies <= config'.proxies
    ensures BoundAs(config', first, key, override)
  {
    if override.Some? && override.value.Via? {
      var i :| first <= i < |config.proxies| && config.proxies[i].address == override.value.address
               && key in config.accounts && config.accounts[key] == Bind([i], []);
      assert config'.proxies[i] == config.proxies[i];
    }
  }

  lemma {:induction false} BoundNext(config: Config, global: Option<Proxy>, entry: LegacyEntry, key: string, override: Option<Route>,
                                     parse: string -> Option<Address>, lower: string -> string)
    requires WellMade(config, global) && BoundAs(config, First(global), key, override)
    ensures var own := Override(entry.value, parse);
            BoundAs(MigrateEntry(config, First(global), entry, parse, lower), First(global), key, if lower(entry.name) == key && own.Some? then own else override)
  {
    var own, first := Override(entry.value, parse), First(global);
    var config' := MigrateEntry(config, first, entry, parse, lower);
    if own.Some? && own.value.Via? && lower(entry.name) == key {
      var i := FindOverride(config.proxies, first, own.value.address);
      assert config'.proxies[i].address == own.value.address;
      assert config'.proxies[i].id == i;
    } else if lower(entry.name) != key || own == None {
      BoundLasts(config, config', first, key, override);
    }
  }

  lemma {:induction false} MigratedBindings(global: Option<Proxy>, entries: seq<LegacyEntry>, key: string, parse: string -> Option<Address>, lower: string -> string)
    ensures BoundAs(Migrated(global, entries, parse, lower), First(global), key, LegacyOverride(entries, key, parse, lower))
  {
    if entries != [] {
      var before := entries[..|entries| - 1];
      MigratedBindings(global, before, key, parse, lower);
      MigratedIsWellMade(global, before, parse, lower);
      BoundNext(Migrated(global, before, parse, lower), global, entries[|entries| - 1], key, LegacyOverride(before, key, parse, lower), parse, lower);
    }
  }

  /** One entry more leaves the proxies there are, and has its own address among them. */
  lemma {:induction false} MigratedNext(global: Option<Proxy>, entries: seq<LegacyEntry>, parse: string -> Option<Address>, lower: string -> string)
    requires entries != []
    ensures var l := |entries| - 1;
            var config, config' := Migrated(global, entries[..l], parse, lower), Migrated(global, entries, parse, lower);
            var override := Override(entries[l].value, parse);
            && First(global) <= |config.proxies| <= |config'.proxies| <= |config.proxies| + 1
            && (forall i :: First(global) <= i < |config.proxies| ==> config'.proxies[i] == config.proxies[i])
            && (|config.proxies| < |config'.proxies| ==> override == Some(Via(config'.proxies[|config.proxies|].address)))
            && (override.Some? && override.value.Via? ==> HasAddress(config', First(global), override.value.address))
  {
    var l, first := |entries| - 1, First(global);
    MigratedIsWellMade(global, entries[..l], parse, lower);
    var config, config' := Migrated(global, entries[..l], parse, lower), Migrated(global, entries, parse, lower);
    var override := Override(entries[l].value, parse);
    if override.Some? && override.value.Via? {
      var i := FindOverride(config.proxies, first, override.value.address);
      assert config'.proxies[i].address == override.value.address;
    }
  }

  lemma {:induction false} MigratedFromEntries(global: Option<Proxy>, entries: seq<LegacyEntry>, parse: string -> Option<Address>, lower: string -> string)
    ensures FromEntries(Migrated(global, entries, parse, lower), First(global), entries, parse)
  {
    if entries != [] {
      MigratedFromEntries(global, entries[..|entries| - 1], parse, lower);
      MigratedNext(global, entries, parse, lower);
      FromEntriesNext(Migrated(global, entries[..|entries| - 1], parse, lower), Migrated(global, entries, parse, lower), First(global), entries, parse);
    }
  }

  lemma {:induction false} FromEntriesNext(config: Config, config': Config, first: nat, entries: seq<LegacyEntry>, parse: string -> Option<Address>)
    requires entries != [] && FromEntries(config, first, entries[..|entries| - 1], parse)
    requires first <= |config.proxies| <= |config'.proxies| <= |config.proxies| + 1
    requires forall i :: first <= i < |config.proxies| ==> config'.proxies[i] == config.proxies[i]
    requires |config.proxies| < |config'.proxies| ==> Override(entries[|entries| - 1].value, parse) == Some(Via(config'.proxies[|config.proxies|].address))
    requires var override := Override(entries[|entries| - 1].value, parse);
             override.Some? && override.value.Via? ==> HasAddress(config', first, override.value.address)
    ensures FromEntries(config', first, entries, parse)
  {
    var l := |entries| - 1;
    var before := entries[..l];
    forall i | first <= i < |config'.proxies| ensures Named(entries, config'.proxies[i].address, parse) {
      if i < |config.proxies| {
        assert Named(before, config.proxies[i].address, parse);
        var n :| 0 <= n < l && Override(before[n].value, parse) == Some(Via(config.proxies[i].address));
        assert entries[n] == before[n];
      }
    }
    forall n | 0 <= n <= l && Override(entries[n].value, parse).Some? && Override(entries[n].value, parse).value.Via?
      ensures HasAddress(config', first, Override(entries[n].value, parse).value.address)
    {
      if n < l {
        assert before[n] == entries[n];
        var i :| first <= i < |config.proxies| && config.proxies[i].address == Override(before[n].value, parse).value.address;
        assert config'.proxies[i] == config.proxies[i];
      }
    }
  }

  /** The one proxy of this address, or none. */
  ghost predicate Uses(now: Candidates, route: Route) {
    match route
    case NoProxy => now == GoDirect
    case Via(address) => now.Use? && |now.proxies| == 1 && now.proxies[0].enabled && now.proxies[0].address == address
  }

  /** What an account is given after the migration, in whatever account group it is. */
  function Given(global: Option<Proxy>, entries: seq<LegacyEntry>, key: string, group: string, parse: string -> Option<Address>, lower: string -> string): Candidates {
    CandidatesFor(Migrated(global, entries, parse, lower), key, group)
  }

  /** No account group is linked to proxies by the migration. */
  lemma {:induction false} GroupMakesNoDifference(global: Option<Proxy>, entries: seq<LegacyEntry>, key: string, group: string,
                                                  parse: string -> Option<Address>, lower: string -> string)
    ensures Given(global, entries, key, group, parse, lower) == Given(global, entries, key, "", parse, lower)
  {
    MigratedIsWellMade(global, entries, parse, lower);
    var config := Migrated(global, entries, parse, lower);
    assert GroupsOf(config, key, group) == GroupsOf(config, key, "");
  }

  /** The account is given the proxy it had, and no other, in whatever account group it is. */
  ghost predicate RouteKept(global: Option<Proxy>, entries: seq<LegacyEntry>, key: string, parse: string -> Option<Address>, lower: string -> string) {
    forall group :: Uses(Given(global, entries, key, group, parse, lower), LegacyRoute(global, entries, key, parse, lower))
  }

  /** In no account group is it given the proxy it had. */
  ghost predicate RouteLost(global: Option<Proxy>, entries: seq<LegacyEntry>, key: string, parse: string -> Option<Address>, lower: string -> string) {
    forall group :: !Uses(Given(global, entries, key, group, parse, lower), LegacyRoute(global, entries, key, parse, lower))
  }

  lemma {:induction false} KeptInAll(global: Option<Proxy>, entries: seq<LegacyEntry>, key: string, parse: string -> Option<Address>, lower: string -> string)
    requires Uses(Given(global, entries, key, "", parse, lower), LegacyRoute(global, entries, key, parse, lower))
    ensures RouteKept(global, entries, key, parse, lower)
  {
    forall group ensures Uses(Given(global, entries, key, group, parse, lower), LegacyRoute(global, entries, key, parse, lower)) {
      GroupMakesNoDifference(global, entries, key, group, parse, lower);
    }
  }

  lemma {:induction false} LostInAll(global: Option<Proxy>, entries: seq<LegacyEntry>, key: string, parse: string -> Option<Address>, lower: string -> string)
    requires !Uses(Given(global, entries, key, "", parse, lower), LegacyRoute(global, entries, key, parse, lower))
    ensures RouteLost(global, entries, key, parse, lower)
  {
    forall group ensures !Uses(Given(global, entries, key, group, parse, lower), LegacyRoute(global, entries, key, parse, lower)) {
      GroupMakesNoDifference(global, entries, key, group, parse, lower);
    }
  }

  lemma {:induction false} LostIsNotKept(global: Option<Proxy>, entries: seq<LegacyEntry>, key: string, parse: string -> Option<Address>, lower: string -> string)
    requires RouteLost(global, entries, key, parse, lower)
    ensures !RouteKept(global, entries, key, parse, lower)
  {
    assert !Uses(Given(global, entries, key, "", parse, lower), LegacyRoute(global, entries, key, parse, lower));
  }

  /** What it is given is the global proxy itself, or one made for the address it was overridden to. */
  ghost predicate SameKind(global: Option<Proxy>, entries: seq<LegacyEntry>, key: string, parse: string -> Option<Address>, lower: string -> string) {
    var now := Given(global, entries, key, "", parse, lower);
    now.Use? ==>
      match LegacyOverride(entries, key, parse, lower)
      case None => global.Some? && now.proxies == [global.value.(id := 0)]
      case Some(NoProxy) => false
      case Some(Via(address)) => exists i :: now.proxies == [NewStatic(i, address)]
  }

  /** No address is named only by entries that a later one for the same lower-cased name overrides. */
  ghost predicate EveryAddressStays(entries: seq<LegacyEntry>, parse: string -> Option<Address>, lower: string -> string) {
    forall address :: Named(entries, address, parse) ==> InForce(entries, address, parse, lower)
  }

  ghost predicate InForce(entries: seq<LegacyEntry>, address: Address, parse: string -> Option<Address>, lower: string -> string) {
    exists key :: LegacyOverride(entries, key, parse, lower) == Some(Via(address))
  }

  /** An account bound to one proxy and to no group gets that one. */
  lemma {:induction false} BoundUsesOne(config: Config, key: string, i: nat)
    requires i < |config.proxies| && (forall j :: 0 <= j < |config.proxies| ==> config.proxies[j].id == j && config.proxies[j].groupIds == [])
    requires key != "" && key in config.accounts && config.accounts[key] == Bind([i], []) && config.proxies[i].enabled
    ensures CandidatesFor(config, key, "") == Use([config.proxies[i]])
  {
    var only := config.proxies[i];
    var groups, ids := GroupsOf(config, key, ""), BoundIds(config, key);
    assert i in config.accounts[key].proxyIds;
    assert groups == {} && ids == {i};
    FilterOne(config.proxies, (p: Proxy) => p.id in ids || Meets(p.groupIds, groups), only);
    FilterOne([only], (p: Proxy) => p.enabled, only);
  }

  lemma {:induction false} BoundRouteKept(global: Option<Proxy>, entries: seq<LegacyEntry>, key: string, parse: string -> Option<Address>, lower: string -> string)
    requires key != "" && LegacyOverride(entries, key, parse, lower).Some?
    requires global.Some? ==> global.value.groupIds == []
    ensures RouteKept(global, entries, key, parse, lower) && SameKind(global, entries, key, parse, lower)
  {
    MigratedIsWellMade(global, entries, parse, lower);
    MigratedBindings(global, entries, key, parse, lower);
    var config, first := Migrated(global, entries, parse, lower), First(global);
    var override := LegacyOverride(entries, key, parse, lower).value;
    if override.Via? {
      var i :| first <= i < |config.proxies| && config.proxies[i].address == override.address
               && key in config.accounts && config.accounts[key] == Bind([i], []);
      BoundUsesOne(config, key, i);
      assert CandidatesFor(config, key, "").proxies == [NewStatic(i, override.address)];
    }
    KeptInAll(global, entries, key, parse, lower);
  }

  lemma {:induction false} InForceIsPinned(global: Option<Proxy>, entries: seq<LegacyEntry>, i: nat, parse: string -> Option<Address>, lower: string -> string)
    requires First(global) <= i < |Migrated(global, entries, parse, lower).proxies|
    requires InForce(entries, Migrated(global, entries, parse, lower).proxies[i].address, parse, lower)
    ensures i in PinnedIds(Migrated(global, entries, parse, lower).accounts)
  {
    var config, first := Migrated(global, entries, parse, lower), First(global);
    MigratedIsWellMade(global, entries, parse, lower);
    var key :| LegacyOverride(entries, key, parse, lower) == Some(Via(config.proxies[i].address));
    MigratedBindings(global, entries, key, parse, lower);
    var j :| first <= j < |config.proxies| && config.proxies[j].address == config.proxies[i].address
             && key in config.accounts && config.accounts[key] == Bind([j], []);
    assert j == i && i in config.accounts[key].proxyIds;
  }

  lemma {:induction false} PinnedIsInForce(global: Option<Proxy>, entries: seq<LegacyEntry>, i: nat, parse: string -> Option<Address>, lower: string -> string)
    requires First(global) <= i < |Migrated(global, entries, parse, lower).proxies|
    requires i in PinnedIds(Migrated(global, entries, parse, lower).accounts)
    ensures InForce(entries, Migrated(global, entries, parse, lower).proxies[i].address, parse, lower)
  {
    var config := Migrated(global, entries, parse, lower);
    var key :| key in config.accounts && config.accounts[key].Bind? && i in config.accounts[key].proxyIds;
    MigratedBindings(global, entries, key, parse, lower);
    assert LegacyOverride(entries, key, parse, lower) == Some(Via(config.proxies[i].address));
  }

  /** The global proxy is never pinned. */
  lemma {:induction false} GlobalIsNotPinned(global: Option<Proxy>, entries: seq<LegacyEntry>, parse: string -> Option<Address>, lower: string -> string)
    requires global.Some?
    ensures 0 !in PinnedIds(Migrated(global, entries, parse, lower).accounts)
  {
    var config := Migrated(global, entries, parse, lower);
    if 0 in PinnedIds(config.accounts) {
      var key :| key in config.accounts && config.accounts[key].Bind? && 0 in config.accounts[key].proxyIds;
      MigratedBindings(global, entries, key, parse, lower);
      assert false;
    }
  }

  /** For an account without override the pool is all that counts. */
  lemma {:induction false} UnboundUsesPool(global: Option<Proxy>, entries: seq<LegacyEntry>, key: string, parse: string -> Option<Address>, lower: string -> string)
    requires key != "" && LegacyOverride(entries, key, parse, lower) == None
    requires global.Some? ==> global.value.groupIds == []
    ensures var config := Migrated(global, entries, parse, lower);
            var pinned := PinnedIds(config.accounts);
            var pool := Filter(config.proxies, (p: Proxy) => p.enabled && p.id !in pinned);
            CandidatesFor(config, key, "") == if pool != [] then Use(pool) else GoDirect
  {
    MigratedIsWellMade(global, entries, parse, lower);
    MigratedBindings(global, entries, key, parse, lower);
    var config := Migrated(global, entries, parse, lower);
    var groups, ids := GroupsOf(config, key, ""), BoundIds(config, key);
    assert groups == {} && ids == {};
    FilterNone(config.proxies, (p: Proxy) => p.id in ids || Meets(p.groupIds, groups));
  }

  lemma {:induction false} OverridesArePinned(global: Option<Proxy>, entries: seq<LegacyEntry>, parse: string -> Option<Address>, lower: string -> string)
    requires EveryAddressStays(entries, parse, lower)
    ensures var config := Migrated(global, entries, parse, lower);
            forall i :: First(global) <= i < |config.proxies| ==> config.proxies[i].id in PinnedIds(config.accounts)
  {
    var config, first := Migrated(global, entries, parse, lower), First(global);
    MigratedIsWellMade(global, entries, parse, lower);
    MigratedFromEntries(global, entries, parse, lower);
    forall i | first <= i < |config.proxies| ensures config.proxies[i].id in PinnedIds(config.accounts) {
      assert Named(entries, config.proxies[i].address, parse);
      InForceIsPinned(global, entries, i, parse, lower);
    }
  }

  lemma {:induction false} UnboundRouteKept(global: Option<Proxy>, entries: seq<LegacyEntry>, key: string, parse: string -> Option<Address>, lower: string -> string)
    requires key != "" && LegacyOverride(entries, key, parse, lower) == None
    requires global.Some? ==> global.value.groupIds == []
    requires EveryAddressStays(entries, parse, lower)
    ensures RouteKept(global, entries, key, parse, lower) && SameKind(global, entries, key, parse, lower)
  {
    var config := Migrated(global, entries, parse, lower);
    MigratedIsWellMade(global, entries, parse, lower);
    OverridesArePinned(global, entries, parse, lower);
    UnboundUsesPool(global, entries, key, parse, lower);
    var pinned := PinnedIds(config.accounts);
    var keep := (p: Proxy) => p.enabled && p.id !in pinned;
    if global.Some? && global.value.enabled {
      GlobalIsNotPinned(global, entries, parse, lower);
      FilterOne(config.proxies, keep, config.proxies[0]);
    } else {
      FilterNone(config.proxies, keep);
    }
    KeptInAll(global, entries, key, parse, lower);
  }

  lemma {:induction false} FreshKey(keys: set<string>) returns (key: string)
    ensures key != "" && key !in keys
    ensures forall k :: k in keys ==> |k| < |key|
    decreases |keys|
  {
    if keys == {} {
      key := "a";
    } else {
      var k :| k in keys;
      var shorter := FreshKey(keys - {k});
      key := if |shorter| > |k| then shorter else k + "a";
      forall other | other in keys ensures |other| < |key| {
        assert other == k || other in keys - {k};
      }
    }
  }

  /**
   * The migration keeps the proxy of every account exactly when no address is named only by entries that are
   * overridden by a later entry for the same name in another spelling. Whatever the spelling, an override that equals
   * the global address gets a proxy of its own.
   */
  lemma {:induction false} MigrationKeepsRoutes(global: Option<Proxy>, entries: seq<LegacyEntry>, parse: string -> Option<Address>, lower: string -> string)
    requires global.Some? ==> global.value.groupIds == []
    ensures EveryAddressStays(entries, parse, lower) <==> forall key :: key != "" ==> RouteKept(global, entries, key, parse, lower)
    ensures EveryAddressStays(entries, parse, lower) ==> forall key :: key != "" ==> SameKind(global, entries, key, parse, lower)
  {
    if EveryAddressStays(entries, parse, lower) {
      forall key | key != "" ensures RouteKept(global, entries, key, parse, lower) && SameKind(global, entries, key, parse, lower) {
        if LegacyOverride(entries, key, parse, lower).Some? {
          BoundRouteKept(global, entries, key, parse, lower);
        } else {
          UnboundRouteKept(global, entries, key, parse, lower);
        }
      }
    } else {
      var address :| Named(entries, address, parse) && !InForce(entries, address, parse, lower);
      var key := StrayJoinsPool(global, entries, address, parse, lower);
      LostIsNotKept(global, entries, key, parse, lower);
    }
  }

  /** A proxy that is not the global one in the pool of an account without override: no longer the proxy it had. */
  lemma {:induction false} PoolShows(global: Option<Proxy>, entries: seq<LegacyEntry>, key: string, i: nat, parse: string -> Option<Address>, lower: string -> string)
    requires global.Some? ==> global.value.groupIds == []
    requires key != "" && LegacyOverride(entries, key, parse, lower) == None
    requires var config := Migrated(global, entries, parse, lower);
             First(global) <= i < |config.proxies| && config.proxies[i].id == i && config.proxies[i].enabled && i !in PinnedIds(config.accounts)
    ensures var config := Migrated(global, entries, parse, lower);
            var now := CandidatesFor(config, key, "");
            now.Use? && config.proxies[i] in now.proxies
    ensures RouteLost(global, entries, key, parse, lower)
  {
    var config := Migrated(global, entries, parse, lower);
    UnboundUsesPool(global, entries, key, parse, lower);
    var pinned := PinnedIds(config.accounts);
    var keep := (p: Proxy) => p.enabled && p.id !in pinned;
    FilterIn(config.proxies, keep);
    var pool := Filter(config.proxies, keep);
    assert config.proxies[i] in pool;
    if global.Some? && global.value.enabled {
      MigratedIsWellMade(global, entries, parse, lower);
      GlobalIsNotPinned(global, entries, parse, lower);
      assert config.proxies[0] in pool && config.proxies[0] != config.proxies[i];
    }
    LostInAll(global, entries, key, parse, lower);
  }

  /** A proxy made for an address no longer in force goes to the pool, and every account without override sees it. */
  lemma {:induction false} StrayJoinsPool(global: Option<Proxy>, entries: seq<LegacyEntry>, address: Address, parse: string -> Option<Address>, lower: string -> string)
    returns (key: string)
    requires global.Some? ==> global.value.groupIds == []
    requires Named(entries, address, parse) && !InForce(entries, address, parse, lower)
    ensures key != "" && LegacyOverride(entries, key, parse, lower) == None
    ensures RouteLost(global, entries, key, parse, lower)
  {
    var config := Migrated(global, entries, parse, lower);
    var i := StrayIsUnpinned(global, entries, address, parse, lower);
    key := FreshKey(config.accounts.Keys);
    MigratedBindings(global, entries, key, parse, lower);
    PoolShows(global, entries, key, i, parse, lower);
  }

  function TwoSpellings(v: string): seq<LegacyEntry> { [LegacyEntry("Bob", v), LegacyEntry("bob", DIRECT)] }

  predicate FoldsBob(lower: string -> string) { lower("Bob") == "bob" && lower("bob") == "bob" }

  predicate IsAddress(v: string, parse: string -> Option<Address>) { v !in {"", DIRECT, GLOBAL} && parse(v).Some? }

  lemma {:induction false} SecondSpellingRules(v: string, key: string, parse: string -> Option<Address>, lower: string -> string)
    requires IsAddress(v, parse) && FoldsBob(lower)
    ensures LegacyOverride(TwoSpellings(v), key, parse, lower) == if key == "bob" then Some(NoProxy) else None
  {
    var entries := TwoSpellings(v);
    assert entries[..1] == [entries[0]] && [entries[0]][..0] == [];
    assert LegacyOverride([entries[0]], key, parse, lower) == if key == "bob" then Some(Via(parse(v).value)) else None;
  }

  lemma {:induction false} AddressOutOfForce(v: string, parse: string -> Option<Address>, lower: string -> string)
    requires IsAddress(v, parse) && FoldsBob(lower)
    ensures Named(TwoSpellings(v), parse(v).value, parse) && !InForce(TwoSpellings(v), parse(v).value, parse, lower)
  {
    assert Override(TwoSpellings(v)[0].value, parse) == Some(Via(parse(v).value));
    forall k ensures LegacyOverride(TwoSpellings(v), k, parse, lower) != Some(Via(parse(v).value)) {
      SecondSpellingRules(v, k, parse, lower);
    }
  }

  lemma {:induction false} OneProxyMade(v: string, parse: string -> Option<Address>, lower: string -> string)
    requires IsAddress(v, parse)
    ensures Migrated(None, TwoSpellings(v), parse, lower).proxies == [NewStatic(0, parse(v).value)]
  {
    var entries := TwoSpellings(v);
    assert entries[..1] == [entries[0]] && [entries[0]][..0] == [];
    assert Migrated(None, [], parse, lower) == Config([], {}, map[], map[]);
    assert Migrated(None, [entries[0]], parse, lower).proxies == [NewStatic(0, parse(v).value)];
  }

  /** Without a global proxy the pool is that one proxy. */
  lemma {:induction false} PoolIsThatProxy(v: string, key: string, group: string, parse: string -> Option<Address>, lower: string -> string)
    requires IsAddress(v, parse) && FoldsBob(lower) && key != "" && key != "bob"
    ensures Given(None, TwoSpellings(v), key, group, parse, lower) == Use([NewStatic(0, parse(v).value)])
  {
    var entries := TwoSpellings(v);
    var config := Migrated(None, entries, parse, lower);
    SecondSpellingRules(v, key, parse, lower);
    AddressOutOfForce(v, parse, lower);
    OneProxyMade(v, parse, lower);
    var i := StrayIsUnpinned(None, entries, parse(v).value, parse, lower);
    UnboundUsesPool(None, entries, key, parse, lower);
    var pinned := PinnedIds(config.accounts);
    FilterOne(config.proxies, (p: Proxy) => p.enabled && p.id !in pinned, config.proxies[0]);
    GroupMakesNoDifference(None, entries, key, group, parse, lower);
  }

  /**
   * Two spellings of one name, the first with a proxy of its own, the second without: every account that the old
   * configuration does not mention is given that proxy, in whatever account group it is.
   */
  lemma {:induction false} SpellingsLoseAProxy(global: Option<Proxy>, v: string, key: string, parse: string -> Option<Address>, lower: string -> string)
    requires global.Some? ==> global.value.groupIds == []
    requires v !in {"", DIRECT, GLOBAL} && parse(v).Some? && lower("Bob") == "bob" && lower("bob") == "bob"
    requires key != "" && key != "bob"
    ensures var entries := [LegacyEntry("Bob", v), LegacyEntry("bob", DIRECT)];
            && !EveryAddressStays(entries, parse, lower)
            && LegacyOverride(entries, key, parse, lower) == None
            && RouteLost(global, entries, key, parse, lower)
            && (global == None ==> forall group :: Given(global, entries, key, group, parse, lower) == Use([NewStatic(0, parse(v).value)]))
  {
    AddressOutOfForce(v, parse, lower);
    SecondSpellingRules(v, key, parse, lower);
    var i := StrayIsUnpinned(global, TwoSpellings(v), parse(v).value, parse, lower);
    PoolShows(global, TwoSpellings(v), key, i, parse, lower);
    if global == None {
      forall group ensures Given(global, TwoSpellings(v), key, group, parse, lower) == Use([NewStatic(0, parse(v).value)]) {
        PoolIsThatProxy(v, key, group, parse, lower);
      }
    }
  }

  lemma {:induction false} StrayIsUnpinned(global: Option<Proxy>, entries: seq<LegacyEntry>, address: Address, parse: string -> Option<Address>, lower: string -> string)
    returns (i: nat)
    requires Named(entries, address, parse) && !InForce(entries, address, parse, lower)
    ensures var config := Migrated(global, entries, parse, lower);
            First(global) <= i < |config.proxies| && config.proxies[i].id == i && config.proxies[i].enabled
            && i !in PinnedIds(config.accounts)
  {
    var config, first := Migrated(global, entries, parse, lower), First(global);
    MigratedIsWellMade(global, entries, parse, lower);
    MigratedFromEntries(global, entries, parse, lower);
    var n :| 0 <= n < |entries| && Override(entries[n].value, parse) == Some(Via(address));
    assert HasAddress(config, first, address);
    i :| first <= i < |config.proxies| && config.proxies[i].address == address;
    if i in PinnedIds(config.accounts) {
      PinnedIsInForce(global, entries, i, parse, lower);
    }
  }

  /** With names that differ in more than their case every route is kept. */
  lemma {:induction false} DistinctNamesStay(entries: seq<LegacyEntry>, parse: string -> Option<Address>, lower: string -> string)
    requires forall m, n :: 0 <= m < n < |entries| ==> lower(entries[m].name) != lower(entries[n].name)
    ensures EveryAddressStays(entries, parse, lower)
  {
    forall address | Named(entries, address, parse) ensures InForce(entries, address, parse, lower) {
      var n :| 0 <= n < |entries| && Override(entries[n].value, parse) == Some(Via(address));
      OnlyEntryInForce(entries, n, parse, lower);
    }
  }

  lemma {:induction false} OnlyEntryInForce(entries: seq<LegacyEntry>, n: nat, parse: string -> Option<Address>, lower: string -> string)
    requires n < |entries| && Override(entries[n].value, parse).Some?
    requires forall m :: n < m < |entries| ==> lower(entries[m].name) != lower(entries[n].name)
    ensures LegacyOverride(entries, lower(entries[n].name), parse, lower) == Override(entries[n].value, parse)
  {
    if n < |entries| - 1 {
      OnlyEntryInForce(entries[..|entries| - 1], n, parse, lower);
    }
  }
}
