/** Which proxy, and which numbered exit of it, each account uses for this run of the server. */
module ProxyPool {
  import opened Prelude
  import opened ProxyConfig

  /** A proxy in use: `index` is the number of the exit for a proxy with fixed exits, and 0 for any other. */
  datatype Slot = Slot(proxyId: nat, index: nat)

  type Assignment = map<string, Slot>

  /** A rotating proxy with a known number of exits, and a place in its address to say which. */
  predicate IsSticky(proxy: Proxy) {
    proxy.kind == Rotating && proxy.poolSize > 0 && Numbered(proxy.address)
  }

  function SlotsOf(proxy: Proxy): (n: nat)
    ensures 0 < n
  {
    if IsSticky(proxy) then proxy.poolSize else 1
  }

  predicate IndexValid(index: nat, proxy: Proxy) {
    if IsSticky(proxy) then 1 <= index <= proxy.poolSize else index == 0
  }

  /** `slotValid`: the slot names one of these proxies, with an index that is right for it. */
  predicate SlotValid(slot: Slot, proxies: seq<Proxy>) {
    exists i :: 0 <= i < |proxies| && proxies[i].id == slot.proxyId && IndexValid(slot.index, proxies[i])
  }

  // ----- Who uses what -----

  /** The other accounts that use a proxy, and those among them on one index. */
  function Users(inUse: Assignment, key: string, proxyId: nat): set<string> {
    set other | other in inUse && other != key && inUse[other].proxyId == proxyId
  }

  function Holders(inUse: Assignment, key: string, slot: Slot): set<string> {
    set other | other in inUse && other != key && inUse[other] == slot
  }

  function Taken(inUse: Assignment, key: string, proxyId: nat): set<nat> {
    set other | other in inUse && other != key && inUse[other].proxyId == proxyId :: inUse[other].index
  }

  /** Accounts per exit. */
  function Load(inUse: Assignment, key: string, proxy: Proxy): real {
    |Users(inUse, key, proxy.id)| as real / SlotsOf(proxy) as real
  }

  /** The smallest load among these proxies. */
  function LeastLoad(inUse: Assignment, key: string, pool: seq<Proxy>): (least: real)
    requires pool != []
    ensures forall i :: 0 <= i < |pool| ==> least <= Load(inUse, key, pool[i])
    ensures exists i :: 0 <= i < |pool| && least == Load(inUse, key, pool[i])
  {
    if |pool| == 1 then Load(inUse, key, pool[0])
    else
      var rest := LeastLoad(inUse, key, pool[1..]);
      if Load(inUse, key, pool[0]) <= rest then Load(inUse, key, pool[0]) else rest
  }

  // ----- Numbers in use -----

  /** Fewer numbers in use than there are leave one free, whatever else is in use. */
  lemma {:induction false} SomeIndexIsFree(taken: set<nat>, size: nat)
    requires |taken| < size
    ensures exists i :: 1 <= i <= size && i !in taken
  {
    if forall i :: 1 <= i <= size ==> i in taken {
      SubsetSize(Range(1, size + 1), taken);
    }
  }

  /** The `offset`-th number probed when starting at `start`. */
  function Probe(start: nat, offset: nat, size: nat): nat
    requires 0 < size && 1 <= start
  {
    (start - 1 + offset) % size + 1
  }

  /** Probing once around comes past every number. */
  lemma {:induction false} ProbeCovers(start: nat, i: nat, size: nat) returns (offset: nat)
    requires 1 <= start <= size && 1 <= i <= size
    ensures offset < size && Probe(start, offset, size) == i
  {
    offset := if start <= i then i - start else i + size - start;
    WrapsOnce(i - 1, size);
  }

  lemma {:induction false} WrapsOnce(x: nat, size: nat)
    requires x < size
    ensures x % size == x && (x + size) % size == x
  {
  }

  /** A free number: up to 32 random tries, then once around from a random start. */
  method FreeIndex(taken: set<nat>, size: nat) returns (index: nat)
    requires |taken| < size
    ensures 1 <= index <= size && index !in taken
  {
    var tries := 0;
    while tries < 32 {
      var guess: nat :| 1 <= guess <= size;
      if guess !in taken {
        return guess;
      }
      tries := tries + 1;
    }
    var start: nat :| 1 <= start <= size;
    for offset := 0 to size
      invariant forall o: nat :: o < offset ==> Probe(start, o, size) in taken
    {
      index := Probe(start, offset, size);
      if index !in taken {
        return;
      }
    }
    SomeIndexIsFree(taken, size);
    var free: nat :| 1 <= free <= size && free !in taken;
    var offset := ProbeCovers(start, free, size);
    assert false;
  }

  /** A number with the fewest holders. */
  method LeastHeldIndex(inUse: Assignment, key: string, proxyId: nat, size: nat) returns (best: nat)
    requires 0 < size
    ensures 1 <= best <= size
    ensures forall i :: 1 <= i <= size ==> |Holders(inUse, key, Slot(proxyId, best))| <= |Holders(inUse, key, Slot(proxyId, i))|
  {
    best :| 1 <= best <= size;
    for index := 1 to size + 1
      invariant 1 <= best <= size
      invariant forall i :: 1 <= i < index ==> |Holders(inUse, key, Slot(proxyId, best))| <= |Holders(inUse, key, Slot(proxyId, i))|
    {
      if |Holders(inUse, key, Slot(proxyId, index))| < |Holders(inUse, key, Slot(proxyId, best))| {
        best := index;
      }
    }
  }

  /** Healthy, not yet tested, or being tested right now. */
  function Good(proxies: seq<Proxy>, checking: set<nat>): seq<Proxy> {
    Filter(proxies, (p: Proxy) => p.check != Unreachable || p.id in checking)
  }

  /** The proxies picked from: the good ones if there are any. */
  function PickedFrom(proxies: seq<Proxy>, checking: set<nat>): seq<Proxy> {
    if Good(proxies, checking) != [] then Good(proxies, checking) else proxies
  }

  /** No proxy of the pool carries fewer accounts per exit. */
  ghost predicate Lightest(inUse: Assignment, key: string, proxy: Proxy, pool: seq<Proxy>) {
    proxy in pool && forall q :: q in pool ==> Load(inUse, key, proxy) <= Load(inUse, key, q)
  }

  /** What `pickSlot` promises about the number it picks on a proxy. */
  ghost predicate WellPicked(inUse: Assignment, key: string, slot: Slot, proxy: Proxy) {
    && IsSlotOf(slot, proxy)
    && (IsSticky(proxy) && |Taken(inUse, key, proxy.id)| < proxy.poolSize ==> Holders(inUse, key, slot) == {})
    && (IsSticky(proxy) ==> forall i :: 1 <= i <= proxy.poolSize ==>
          |Holders(inUse, key, slot)| <= |Holders(inUse, key, Slot(proxy.id, i))|)
  }

  method PickSlot(inUse: Assignment, checking: set<nat>, key: string, proxies: seq<Proxy>) returns (slot: Slot, ghost proxy: Proxy)
    requires proxies != []
    ensures Lightest(inUse, key, proxy, PickedFrom(proxies, checking)) && proxy in proxies
    ensures WellPicked(inUse, key, slot, proxy)
    ensures SlotValid(slot, proxies)
  {
    FilterIn(proxies, (p: Proxy) => p.check != Unreachable || p.id in checking);
    var pool := PickedFrom(proxies, checking);
    var least := LeastLoad(inUse, key, pool);
    var lightest := Filter(pool, (p: Proxy) => Load(inUse, key, p) == least);
    FilterIn(pool, (p: Proxy) => Load(inUse, key, p) == least);
    assert exists i :: 0 <= i < |pool| && least == Load(inUse, key, pool[i]) && pool[i] in lightest;
    var i: nat :| i < |lightest|;
    var chosen := lightest[i];
    assert chosen in lightest;
    proxy := chosen;
    slot := PickIndex(inUse, key, chosen);
    ghost var j :| 0 <= j < |proxies| && proxies[j] == chosen;
  }

  method PickIndex(inUse: Assignment, key: string, proxy: Proxy) returns (slot: Slot)
    ensures WellPicked(inUse, key, slot, proxy)
  {
    if !IsSticky(proxy) {
      return Slot(proxy.id, 0);
    }
    var taken := Taken(inUse, key, proxy.id);
    if |taken| < proxy.poolSize {
      var index := FreeIndex(taken, proxy.poolSize);
      slot := Slot(proxy.id, index);
      assert Holders(inUse, key, slot) == {};
    } else {
      var index := LeastHeldIndex(inUse, key, proxy.id, proxy.poolSize);
      slot := Slot(proxy.id, index);
    }
  }

  // ----- References -----

  /** Every reference in the configuration names something that exists, and no binding is empty. */
  ghost predicate RefersToExisting(config: Config) {
    && DistinctIds(config.proxies)
    && (forall p :: p in config.proxies ==> forall g :: g in p.groupIds ==> g in config.groups)
    && (forall key :: key in config.accounts && config.accounts[key].Bind? ==> BindingExists(config.accounts[key], config))
    && (forall a :: a in config.accountGroups ==> config.accountGroups[a] != [] && forall g :: g in config.accountGroups[a] ==> g in config.groups)
  }

  ghost predicate BindingExists(binding: Binding, config: Config)
    requires binding.Bind?
  {
    && (binding.proxyIds != [] || binding.groupIds != [])
    && (forall id :: id in binding.proxyIds ==> HasId(config.proxies, id))
    && (forall g :: g in binding.groupIds ==> g in config.groups)
  }

  predicate HasId(proxies: seq<Proxy>, id: nat) {
    exists i :: 0 <= i < |proxies| && proxies[i].id == id
  }

  function Without<T(==)>(xs: seq<T>, gone: set<T>): seq<T> {
    if xs == [] then [] else (if xs[0] in gone then [] else [xs[0]]) + Without(xs[1..], gone)
  }

  lemma {:induction false} WithoutIn<T>(xs: seq<T>, gone: set<T>)
    ensures forall x :: x in Without(xs, gone) <==> x in xs && x !in gone
  {
    if xs != [] {
      WithoutIn(xs[1..], gone);
    }
  }

  /** The configuration with these proxies deleted; a binding that loses its last reference goes too. */
  function ProxiesDeleted(config: Config, ids: set<nat>): Config {
    config.(
      proxies := Filter(config.proxies, (p: Proxy) => p.id !in ids),
      accounts := map key | key in config.accounts && Survives(TrimProxies(config.accounts[key], ids)) :: TrimProxies(config.accounts[key], ids))
  }

  function TrimProxies(binding: Binding, ids: set<nat>): Binding {
    if binding.Bind? then binding.(proxyIds := Without(binding.proxyIds, ids)) else binding
  }

  /** The configuration with a proxy group deleted. */
  function GroupDeleted(config: Config, id: string): Config {
    Config(
      seq(|config.proxies|, i requires 0 <= i < |config.proxies| =>
        config.proxies[i].(groupIds := Without(config.proxies[i].groupIds, {id}))),
      config.groups - {id},
      map key | key in config.accounts && Survives(TrimGroup(config.accounts[key], id)) :: TrimGroup(config.accounts[key], id),
      map a | a in config.accountGroups && Without(config.accountGroups[a], {id}) != [] :: Without(config.accountGroups[a], {id}))
  }

  function TrimGroup(binding: Binding, id: string): Binding {
    if binding.Bind? then binding.(groupIds := Without(binding.groupIds, {id})) else binding
  }

  predicate Survives(binding: Binding) {
    binding.Direct? || binding.proxyIds != [] || binding.groupIds != []
  }

  /** The binding without these proxies and groups, if anything is left of it to bind to. */
  ghost predicate TrimmedAt(before: map<string, Binding>, after: map<string, Binding>, ids: set<nat>, groups: set<string>, key: string) {
    if key !in before then key !in after
    else
      match before[key]
      case Direct => key in after && after[key] == Direct
      case Bind(proxyIds, groupIds) =>
        && (key in after <==> (exists p :: p in proxyIds && p !in ids) || exists g :: g in groupIds && g !in groups)
        && (key in after ==>
              && after[key].Bind?
              && (forall p :: p in after[key].proxyIds <==> p in proxyIds && p !in ids)
              && (forall g :: g in after[key].groupIds <==> g in groupIds && g !in groups))
  }

  /** Of the proxies and the bindings exactly what was named is gone; groups stay as they are. */
  ghost predicate ProxiesGone(before: Config, after: Config, ids: set<nat>) {
    && (forall p :: p in after.proxies <==> p in before.proxies && p.id !in ids)
    && after.groups == before.groups && after.accountGroups == before.accountGroups
    && forall key :: TrimmedAt(before.accounts, after.accounts, ids, {}, key)
  }

  /** A proxy as it was, but no longer in the group. */
  ghost predicate LeftGroup(before: Proxy, after: Proxy, id: string) {
    after == before.(groupIds := after.groupIds) && forall g :: g in after.groupIds <==> g in before.groupIds && g != id
  }

  ghost predicate LinksTrimmedAt(before: map<string, seq<string>>, after: map<string, seq<string>>, id: string, a: string) {
    && (a in after <==> a in before && exists g :: g in before[a] && g != id)
    && (a in after ==> forall g :: g in after[a] <==> g in before[a] && g != id)
  }

  /** The group is gone from the list, the proxies, the bindings and the account groups, and nothing else is. */
  ghost predicate GroupGone(before: Config, after: Config, id: string) {
    && |after.proxies| == |before.proxies| && (forall i :: 0 <= i < |before.proxies| ==> LeftGroup(before.proxies[i], after.proxies[i], id))
    && (forall g :: g in after.groups <==> g in before.groups && g != id)
    && (forall key :: TrimmedAt(before.accounts, after.accounts, {}, {id}, key))
    && forall a :: LinksTrimmedAt(before.accountGroups, after.accountGroups, id, a)
  }

  lemma {:induction false} WithoutNothing<T>(s: seq<T>)
    ensures Without(s, {}) == s
  {
    if s != [] {
      WithoutNothing(s[1..]);
    }
  }

  lemma {:induction false} TrimmedIs(before: map<string, Binding>, ids: set<nat>, groups: set<string>, key: string, after: map<string, Binding>)
    requires key in before ==>
               var left := if before[key].Bind? then Bind(Without(before[key].proxyIds, ids), Without(before[key].groupIds, groups)) else Direct;
               (key in after <==> Survives(left)) && (key in after ==> after[key] == left)
    requires key !in before ==> key !in after
    ensures TrimmedAt(before, after, ids, groups, key)
  {
    if key in before && before[key].Bind? {
      var p, g := Without(before[key].proxyIds, ids), Without(before[key].groupIds, groups);
      WithoutIn(before[key].proxyIds, ids);
      WithoutIn(before[key].groupIds, groups);
      assert p != [] ==> p[0] in p;
      assert g != [] ==> g[0] in g;
    }
  }

  lemma {:induction false} ProxiesDeletedAre(config: Config, ids: set<nat>)
    ensures ProxiesGone(config, ProxiesDeleted(config, ids), ids)
  {
    FilterIn(config.proxies, (p: Proxy) => p.id !in ids);
    forall key ensures TrimmedAt(config.accounts, ProxiesDeleted(config, ids).accounts, ids, {}, key) {
      if key in config.accounts && config.accounts[key].Bind? {
        WithoutNothing(config.accounts[key].groupIds);
      }
      TrimmedIs(config.accounts, ids, {}, key, ProxiesDeleted(config, ids).accounts);
    }
  }

  lemma {:induction false} GroupDeletedIs(config: Config, id: string)
    ensures GroupGone(config, GroupDeleted(config, id), id)
  {
    var after := GroupDeleted(config, id);
    forall i | 0 <= i < |config.proxies| ensures LeftGroup(config.proxies[i], after.proxies[i], id) {
      WithoutIn(config.proxies[i].groupIds, {id});
    }
    forall key ensures TrimmedAt(config.accounts, after.accounts, {}, {id}, key) {
      if key in config.accounts && config.accounts[key].Bind? {
        WithoutNothing(config.accounts[key].proxyIds);
      }
      TrimmedIs(config.accounts, {}, {id}, key, after.accounts);
    }
    forall a ensures LinksTrimmedAt(config.accountGroups, after.accountGroups, id, a) {
      if a in config.accountGroups {
        WithoutIn(config.accountGroups[a], {id});
        var left := Without(config.accountGroups[a], {id});
        assert left != [] ==> left[0] in left;
      }
    }
  }

  lemma {:induction false} ProxiesDeletedRefers(config: Config, ids: set<nat>)
    requires RefersToExisting(config)
    ensures RefersToExisting(ProxiesDeleted(config, ids))
  {
    var config' := ProxiesDeleted(config, ids);
    var keep := (p: Proxy) => p.id !in ids;
    FilterIn(config.proxies, keep);
    FilterKeepsDistinct(config.proxies, keep);
    forall key | key in config'.accounts && config'.accounts[key].Bind? ensures BindingExists(config'.accounts[key], config') {
      var binding := config.accounts[key];
      WithoutIn(binding.proxyIds, ids);
      forall id | id in config'.accounts[key].proxyIds ensures HasId(config'.proxies, id) {
        assert HasId(config.proxies, id);
        var i :| 0 <= i < |config.proxies| && config.proxies[i].id == id;
        assert config.proxies[i] in config'.proxies;
      }
    }
  }

  lemma {:induction false} GroupDeletedRefers(config: Config, id: string)
    requires RefersToExisting(config)
    ensures RefersToExisting(GroupDeleted(config, id))
  {
    var config' := GroupDeleted(config, id);
    forall p | p in config'.proxies ensures forall g :: g in p.groupIds ==> g in config'.groups {
      var i :| 0 <= i < |config.proxies| && config'.proxies[i] == p;
      assert config.proxies[i] in config.proxies;
      WithoutIn(config.proxies[i].groupIds, {id});
    }
    forall key | key in config'.accounts && config'.accounts[key].Bind? ensures BindingExists(config'.accounts[key], config') {
      WithoutIn(config.accounts[key].groupIds, {id});
      forall p | p in config'.accounts[key].proxyIds ensures HasId(config'.proxies, p) {
        assert HasId(config.proxies, p);
        var i :| 0 <= i < |config.proxies| && config.proxies[i].id == p;
        assert config'.proxies[i].id == p;
      }
    }
    forall a | a in config'.accountGroups
      ensures config'.accountGroups[a] != [] && forall g :: g in config'.accountGroups[a] ==> g in config'.groups
    {
      WithoutIn(config.accountGroups[a], {id});
    }
  }

  // ----- The first accounts of a list -----

  function Firsts(keys: seq<string>, i: nat): set<string>
    requires i <= |keys|
  {
    set j | 0 <= j < i :: keys[j]
  }

  ghost predicate AllDifferent(keys: seq<string>) {
    forall i, j :: 0 <= i < j < |keys| ==> keys[i] != keys[j]
  }

  lemma {:induction false} FirstsNext(keys: seq<string>, i: nat)
    requires i < |keys| && AllDifferent(keys)
    ensures Firsts(keys, i + 1) == Firsts(keys, i) + {keys[i]} && keys[i] !in Firsts(keys, i)
  {
  }

  lemma {:induction false} FirstsAll(keys: seq<string>)
    ensures Firsts(keys, |keys|) == set k | k in keys
  {
  }

  // ----- Handing out proxies for binding -----

  /** The first of the least bound. */
  method LeastBound(ids: seq<nat>, load: map<nat, nat>) returns (best: nat)
    requires ids != [] && forall i :: 0 <= i < |ids| ==> ids[i] in load
    ensures best in ids && forall i :: 0 <= i < |ids| ==> load[best] <= load[ids[i]]
  {
    best := ids[0];
    for i := 1 to |ids|
      invariant best in ids && forall j :: 0 <= j < i ==> load[best] <= load[ids[j]]
    {
      if load[ids[i]] < load[best] {
        best := ids[i];
      }
    }
  }

  predicate IsBound(accounts: map<string, Binding>, key: string, id: nat) {
    key in accounts && accounts[key].Bind? && id in accounts[key].proxyIds
  }

  /** The accounts bound to a proxy by name. */
  function BoundTo(accounts: map<string, Binding>, id: nat): set<string> {
    set k | k in accounts && IsBound(accounts, k, id)
  }

  /** Those of them among `keys`. */
  function BoundAmong(accounts: map<string, Binding>, keys: set<string>, id: nat): set<string> {
    set k | k in keys && IsBound(accounts, k, id)
  }

  lemma {:induction false} OneMoreCounted(accounts: map<string, Binding>, done: set<string>, key: string, id: nat)
    requires key !in done
    ensures |BoundAmong(accounts, done + {key}, id)| == |BoundAmong(accounts, done, id)| + (if IsBound(accounts, key, id) then 1 else 0)
  {
    assert BoundAmong(accounts, done + {key}, id) == BoundAmong(accounts, done, id) + (if IsBound(accounts, key, id) then {key} else {});
  }

  /** How many accounts among `done` are bound to each of the proxies. */
  ghost predicate Counted(load: map<nat, nat>, accounts: map<string, Binding>, done: set<string>, ids: seq<nat>) {
    && (forall id :: id in load <==> id in ids)
    && forall id :: id in load ==> load[id] == |BoundAmong(accounts, done, id)|
  }

  lemma {:induction false} CountedNext(load: map<nat, nat>, more: map<nat, nat>, accounts: map<string, Binding>, done: set<string>, key: string, ids: seq<nat>)
    requires Counted(load, accounts, done, ids) && key !in done
    requires more.Keys == load.Keys && forall id :: id in load ==> more[id] == load[id] + (if IsBound(accounts, key, id) then 1 else 0)
    ensures Counted(more, accounts, done + {key}, ids)
  {
    forall id | id in more ensures more[id] == |BoundAmong(accounts, done + {key}, id)| {
      OneMoreCounted(accounts, done, key, id);
    }
  }

  lemma {:induction false} CountedNone(load: map<nat, nat>, accounts: map<string, Binding>, done: set<string>, ids: seq<nat>)
    requires done == {} && (forall id :: id in load <==> id in ids) && forall id :: id in load ==> load[id] == 0
    ensures Counted(load, accounts, done, ids)
  {
    assert forall id :: BoundAmong(accounts, done, id) == {};
  }

  /** The loop that counts the bindings of these accounts; a binding names no proxy twice. */
  method CountBound(accounts: map<string, Binding>, keys: set<string>, ids: seq<nat>) returns (load: map<nat, nat>)
    ensures Counted(load, accounts, keys, ids)
  {
    load := map id | id in ids :: 0;
    var rest := keys;
    CountedNone(load, accounts, keys - rest, ids);
    while rest != {}
      invariant rest <= keys && Counted(load, accounts, keys - rest, ids)
      decreases |rest|
    {
      var key :| key in rest;
      var more := map id | id in load :: load[id] + (if IsBound(accounts, key, id) then 1 else 0);
      CountedNext(load, more, accounts, keys - rest, key, ids);
      assert keys - (rest - {key}) == keys - rest + {key};
      load, rest := more, rest - {key};
    }
    assert keys - rest == keys;
  }

  /** The bindings afterwards: each account of the batch to the one proxy it was given. */
  function WithGiven(accounts: map<string, Binding>, pairs: map<string, nat>): map<string, Binding> {
    accounts + map k | k in pairs :: Bind([pairs[k]], [])
  }

  lemma {:induction false} IsBoundAfter(accounts: map<string, Binding>, pairs: map<string, nat>, key: string, id: nat)
    ensures IsBound(WithGiven(accounts, pairs), key, id) <==> if key in pairs then pairs[key] == id else IsBound(accounts, key, id)
  {
  }

  lemma {:induction false} BoundAfter(accounts: map<string, Binding>, pairs: map<string, nat>, id: nat)
    ensures |BoundTo(WithGiven(accounts, pairs), id)| == |BoundAmong(accounts, accounts.Keys - pairs.Keys, id)| + Given(pairs, id)
  {
    var after, others, given := BoundTo(WithGiven(accounts, pairs), id), BoundAmong(accounts, accounts.Keys - pairs.Keys, id), Receivers(pairs, id);
    forall k ensures k in after <==> k in others + given {
      IsBoundAfter(accounts, pairs, k, id);
    }
    assert after == others + given;
  }

  /** No proxy handed out has more accounts bound to it than any other selected one would have with one more. */
  ghost predicate EvenlyBound(accounts: map<string, Binding>, ids: seq<nat>, pairs: map<string, nat>) {
    forall p, q :: p in ids && q in ids && Given(pairs, p) > 0 ==> |BoundTo(accounts, p)| <= |BoundTo(accounts, q)| + 1
  }

  lemma {:induction false} EvenInTheEnd(accounts: map<string, Binding>, ids: seq<nat>, before: map<nat, nat>, load: map<nat, nat>, pairs: map<string, nat>)
    requires Counted(before, accounts, accounts.Keys - pairs.Keys, ids)
    requires LoadIs(load, before, pairs) && EvenlyGiven(load, pairs)
    ensures EvenlyBound(WithGiven(accounts, pairs), ids, pairs)
  {
    forall p, q | p in ids && q in ids && Given(pairs, p) > 0
      ensures |BoundTo(WithGiven(accounts, pairs), p)| <= |BoundTo(WithGiven(accounts, pairs), q)| + 1
    {
      BoundAfter(accounts, pairs, p);
      BoundAfter(accounts, pairs, q);
      assert p in load && q in load;
    }
  }

  /** Nobody has to share as long as one of the selected proxies is left without anybody. */
  lemma {:induction false} NobodySharesNeedlessly(accounts: map<string, Binding>, ids: seq<nat>, pairs: map<string, nat>, free: nat, key: string)
    requires EvenlyBound(accounts, ids, pairs) && free in ids && BoundTo(accounts, free) == {}
    requires key in pairs && pairs[key] in ids && key in BoundTo(accounts, pairs[key])
    ensures BoundTo(accounts, pairs[key]) == {key}
  {
    assert key in Receivers(pairs, pairs[key]);
    var bound := BoundTo(accounts, pairs[key]);
    assert |bound| <= 1;
    if other :| other in bound && other != key {
      SubsetSize({key, other}, bound);
    }
  }

  lemma {:induction false} GivenRefers(config: Config, pairs: map<string, nat>)
    requires RefersToExisting(config) && forall k :: k in pairs ==> HasId(config.proxies, pairs[k])
    ensures RefersToExisting(config.(accounts := WithGiven(config.accounts, pairs)))
  {
    var after := config.(accounts := WithGiven(config.accounts, pairs));
    forall key | key in after.accounts && after.accounts[key].Bind? ensures BindingExists(after.accounts[key], after) {
      if key !in pairs {
        assert BindingExists(config.accounts[key], config);
      }
    }
  }

  /** How many of the accounts were given a proxy. */
  function Given(pairs: map<string, nat>, id: nat): nat { |Receivers(pairs, id)| }

  function Receivers(pairs: map<string, nat>, id: nat): set<string> { set k | k in pairs && pairs[k] == id }

  lemma {:induction false} GivenOneMore(pairs: map<string, nat>, key: string, id: nat, other: nat)
    requires key !in pairs
    ensures Given(pairs[key := id], other) == Given(pairs, other) + (if other == id then 1 else 0)
  {
    assert Receivers(pairs[key := id], other) == Receivers(pairs, other) + (if other == id then {key} else {});
  }

  /** Every selected proxy carries what others bound to it before, and those given it now. */
  ghost predicate LoadIs(load: map<nat, nat>, before: map<nat, nat>, pairs: map<string, nat>) {
    load.Keys == before.Keys && forall id :: id in load ==> load[id] == before[id] + Given(pairs, id)
  }

  /** No proxy handed out carries more accounts than any other would with one more. */
  ghost predicate EvenlyGiven(load: map<nat, nat>, pairs: map<string, nat>) {
    forall p, q :: p in load && q in load && Given(pairs, p) > 0 ==> load[p] <= load[q] + 1
  }

  lemma {:induction false} HandOutStaysEven(load: map<nat, nat>, before: map<nat, nat>, pairs: map<string, nat>, key: string, id: nat)
    requires LoadIs(load, before, pairs) && EvenlyGiven(load, pairs) && key !in pairs
    requires id in load && forall other :: other in load ==> load[id] <= load[other]
    ensures LoadIs(load[id := load[id] + 1], before, pairs[key := id]) && EvenlyGiven(load[id := load[id] + 1], pairs[key := id])
  {
    forall other ensures Given(pairs[key := id], other) == Given(pairs, other) + (if other == id then 1 else 0) {
      GivenOneMore(pairs, key, id, other);
    }
  }

  /** The first `i` accounts have been given proxies. */
  ghost predicate HandedOut(keys: seq<string>, i: nat, ids: seq<nat>, before: map<nat, nat>, load: map<nat, nat>, pairs: map<string, nat>) {
    && i <= |keys| && pairs.Keys == Firsts(keys, i) && (forall k :: k in pairs ==> pairs[k] in ids)
    && (forall id :: id in load <==> id in ids)
    && LoadIs(load, before, pairs) && EvenlyGiven(load, pairs)
  }

  lemma {:induction false} HandedOutNext(keys: seq<string>, i: nat, ids: seq<nat>, before: map<nat, nat>, load: map<nat, nat>, pairs: map<string, nat>, id: nat)
    requires AllDifferent(keys) && i < |keys| && HandedOut(keys, i, ids, before, load, pairs)
    requires id in ids && forall other :: other in load ==> load[id] <= load[other]
    ensures HandedOut(keys, i + 1, ids, before, load[id := load[id] + 1], pairs[keys[i] := id])
  {
    FirstsNext(keys, i);
    HandOutStaysEven(load, before, pairs, keys[i], id);
  }

  /** Each account gets the proxy least bound at its turn. */
  method HandOut(keys: seq<string>, ids: seq<nat>, before: map<nat, nat>) returns (pairs: map<string, nat>, ghost load: map<nat, nat>)
    requires ids != [] && AllDifferent(keys) && forall id :: id in before <==> id in ids
    ensures HandedOut(keys, |keys|, ids, before, load, pairs)
  {
    pairs := map[];
    var counts := before;
    for i := 0 to |keys|
      invariant HandedOut(keys, i, ids, before, counts, pairs)
    {
      var id := LeastBound(ids, counts);
      assert forall other :: other in counts ==> other in ids;
      HandedOutNext(keys, i, ids, before, counts, pairs, id);
      pairs, counts := pairs[keys[i] := id], counts[id := counts[id] + 1];
    }
    load := counts;
  }

  // ----- The service -----

  datatype Resolution = NoProxyUsed | LoginRefused(bound: nat) | Uses(slot: Slot)

  /** Which account group an account is in ("" for none) is decided elsewhere. */
  type Grouping = string -> string

  predicate Assignable(config: Config, key: string, group: string, slot: Slot) {
    var c := CandidatesFor(config, key, group);
    c.Use? && SlotValid(slot, c.proxies)
  }

  /** The slot is one of a proxy open to the account. */
  ghost predicate OpenTo(config: Config, key: string, group: string, slot: Slot) {
    exists p :: MayUse(config, key, group, p) && IsSlotOf(slot, p)
  }

  /** A rotating proxy with a number in its address has exits numbered from 1 on; any other has one, numbered 0. */
  ghost predicate IsSlotOf(slot: Slot, p: Proxy) {
    slot.proxyId == p.id
    && if p.kind == Rotating && p.poolSize >= 1 && Numbered(p.address) then 1 <= slot.index && slot.index <= p.poolSize else slot.index == 0
  }

  ghost function ExitsOf(p: Proxy): nat {
    if p.kind == Rotating && p.poolSize >= 1 && Numbered(p.address) then p.poolSize else 1
  }

  /** The other accounts on a proxy. */
  ghost function OthersOn(inUse: Assignment, key: string, id: nat): set<string> {
    set other | other in inUse && inUse[other].proxyId == id && other != key
  }

  /** No more accounts per exit. */
  ghost predicate NoFuller(inUse: Assignment, key: string, p: Proxy, q: Proxy) {
    |OthersOn(inUse, key, p.id)| * ExitsOf(q) <= |OthersOn(inUse, key, q.id)| * ExitsOf(p)
  }

  lemma {:induction false} CrossMultiplied(a: nat, b: nat, c: nat, d: nat)
    requires 0 < b && 0 < d && a as real / b as real <= c as real / d as real
    ensures a * d <= c * b
  {
    var x, y := a as real / b as real, c as real / d as real;
    assert a as real == x * b as real && c as real == y * d as real;
    ScaledUp(x, y, (b as real) * (d as real));
    assert (a * d) as real == (x * b as real) * d as real == x * (b as real * d as real);
    assert (c * b) as real == (y * d as real) * b as real == y * (b as real * d as real);
  }

  lemma {:induction false} ScaledUp(x: real, y: real, s: real)
    requires x <= y && 0.0 <= s
    ensures x * s <= y * s
  {
  }

  lemma {:induction false} LighterIsNoFuller(inUse: Assignment, key: string, p: Proxy, q: Proxy)
    requires Load(inUse, key, p) <= Load(inUse, key, q)
    ensures NoFuller(inUse, key, p, q)
  {
    assert OthersOn(inUse, key, p.id) == Users(inUse, key, p.id) && OthersOn(inUse, key, q.id) == Users(inUse, key, q.id);
    CrossMultiplied(|Users(inUse, key, p.id)|, SlotsOf(p), |Users(inUse, key, q.id)|, SlotsOf(q));
  }

  lemma {:induction false} AssignableIsOpen(config: Config, key: string, group: string, slot: Slot)
    ensures Assignable(config, key, group, slot) <==> OpenTo(config, key, group, slot)
  {
    CandidatesAre(config, key, group);
    var c := CandidatesFor(config, key, group);
    if Assignable(config, key, group, slot) {
      var i :| 0 <= i < |c.proxies| && c.proxies[i].id == slot.proxyId && IndexValid(slot.index, c.proxies[i]);
      assert c.proxies[i] in c.proxies && MayUse(config, key, group, c.proxies[i]) && IsSlotOf(slot, c.proxies[i]);
    }
    if OpenTo(config, key, group, slot) {
      var p :| MayUse(config, key, group, p) && IsSlotOf(slot, p);
      assert c.Use? && p in c.proxies;
    }
  }

  /** Healthy, not yet tested, or being tested right now. */
  ghost predicate Fit(p: Proxy, checking: set<nat>) {
    p.check == Healthy || p.check == Untested || p.id in checking
  }

  /** Open to the account, fit if any such proxy is, and with the fewest accounts per exit among those like it. */
  ghost predicate BestFor(config: Config, key: string, group: string, inUse: Assignment, checking: set<nat>, proxy: Proxy) {
    && MayUse(config, key, group, proxy)
    && (forall q :: MayUse(config, key, group, q) && Fit(q, checking) ==> Fit(proxy, checking) && NoFuller(inUse, key, proxy, q))
    && (!Fit(proxy, checking) ==> forall q :: MayUse(config, key, group, q) ==> NoFuller(inUse, key, proxy, q))
  }

  lemma {:induction false} LightestIsBest(config: Config, key: string, group: string, inUse: Assignment, checking: set<nat>, proxies: seq<Proxy>, proxy: Proxy)
    requires forall p :: p in proxies <==> MayUse(config, key, group, p)
    requires Lightest(inUse, key, proxy, PickedFrom(proxies, checking))
    ensures BestFor(config, key, group, inUse, checking, proxy)
  {
    FilterIn(proxies, (p: Proxy) => p.check != Unreachable || p.id in checking);
    var good := Good(proxies, checking);
    assert forall p :: p in good <==> MayUse(config, key, group, p) && Fit(p, checking);
    assert good != [] ==> good[0] in good;
    forall q | MayUse(config, key, group, q) && (Fit(q, checking) || good == []) ensures NoFuller(inUse, key, proxy, q) {
      LighterIsNoFuller(inUse, key, proxy, q);
    }
  }

  /** The assignments a configuration still allows. */
  function StillAllowed(inUse: Assignment, config: Config, groupOf: Grouping): Assignment {
    map key | key in inUse && Assignable(config, key, groupOf(key), inUse[key]) :: inUse[key]
  }

  /** Exactly the slots that are still open to their accounts are kept. */
  ghost predicate OnlyOpenKept(before: Assignment, after: Assignment, config: Config, groupOf: Grouping) {
    && (forall key :: key in after <==> key in before && OpenTo(config, key, groupOf(key), before[key]))
    && (forall key :: key in after ==> after[key] == before[key])
  }

  lemma {:induction false} StillAllowedAre(inUse: Assignment, config: Config, groupOf: Grouping)
    ensures OnlyOpenKept(inUse, StillAllowed(inUse, config, groupOf), config, groupOf)
  {
    forall key | key in inUse ensures Assignable(config, key, groupOf(key), inUse[key]) <==> OpenTo(config, key, groupOf(key), inUse[key]) {
      AssignableIsOpen(config, key, groupOf(key), inUse[key]);
    }
  }

  function NotOn(inUse: Assignment, ids: set<nat>): Assignment {
    map key | key in inUse && inUse[key].proxyId !in ids :: inUse[key]
  }

  lemma {:induction false} StillAllowedIsValid(inUse: Assignment, config: Config, groupOf: Grouping)
    ensures var left := StillAllowed(inUse, config, groupOf);
            forall key :: key in left ==> SlotValid(left[key], config.proxies)
  {
    var left := StillAllowed(inUse, config, groupOf);
    forall key | key in left ensures SlotValid(left[key], config.proxies) {
      CandidatesExist(config, key, groupOf(key));
      SlotValidInMore(left[key], CandidatesFor(config, key, groupOf(key)).proxies, config.proxies);
    }
  }

  /** All but those in `keys` have been looked at: what is no longer allowed is gone. */
  ghost predicate Dropping(before: Assignment, inUse: Assignment, keys: set<string>, config: Config, groupOf: Grouping) {
    && keys <= inUse.Keys
    && (forall k :: k in inUse <==> k in before && (k in keys || Assignable(config, k, groupOf(k), before[k])))
    && (forall k :: k in inUse ==> inUse[k] == before[k])
  }

  lemma {:induction false} DroppingNext(before: Assignment, inUse: Assignment, keys: set<string>, key: string, config: Config, groupOf: Grouping)
    requires Dropping(before, inUse, keys, config, groupOf) && key in keys
    ensures key in inUse && Dropping(before, if Assignable(config, key, groupOf(key), inUse[key]) then inUse else inUse - {key}, keys - {key}, config, groupOf)
  {
  }

  lemma {:induction false} Dropped(before: Assignment, inUse: Assignment, config: Config, groupOf: Grouping)
    requires Dropping(before, inUse, {}, config, groupOf)
    ensures inUse == StillAllowed(before, config, groupOf)
  {
  }

  ghost predicate SlotsValid(inUse: Assignment, proxies: seq<Proxy>) {
    forall key :: key in inUse ==> SlotValid(inUse[key], proxies)
  }

  lemma {:induction false} SlotsValidWith(inUse: Assignment, proxies: seq<Proxy>, key: string, slot: Slot)
    requires SlotsValid(inUse, proxies) && SlotValid(slot, proxies)
    ensures SlotsValid(inUse[key := slot], proxies)
  {
  }

  class Service {
    var config: Config
    var inUse: Assignment
    var checking: set<nat>

    /** Every reference resolves, and every account's slot names an existing proxy with an index valid for it. */
    ghost predicate Valid()
      reads this
    {
      RefersToExisting(config) && SlotsValid(inUse, config.proxies)
    }

    /** A new slot for an account that may use these proxies. */
    method PickAnew(key: string, group: string, proxies: seq<Proxy>) returns (slot: Slot)
      requires Valid() && CandidatesFor(config, key, group) == Use(proxies)
      modifies `inUse
      ensures Valid() && inUse == old(inUse)[key := slot] && SlotValid(slot, proxies)
      ensures exists proxy :: WellPicked(old(inUse), key, slot, proxy) && BestFor(config, key, group, old(inUse), checking, proxy)
    {
      CandidatesExist(config, key, group);
      CandidatesAre(config, key, group);
      ghost var proxy;
      slot, proxy := PickSlot(inUse, checking, key, proxies);
      LightestIsBest(config, key, group, inUse, checking, proxies, proxy);
      SlotValidInMore(slot, proxies, config.proxies);
      SlotsValidWith(inUse, config.proxies, key, slot);
      inUse := inUse[key := slot];
    }

    /** The proxy for an account: the one it already uses as long as that is still allowed, else a new pick. */
    method Resolve(key: string, group: string) returns (r: Resolution)
      requires Valid()
      modifies `inUse
      ensures Valid()
      ensures r.NoProxyUsed? <==> GoesDirect(config, key, group)
      ensures r.LoginRefused? <==> IsRefused(config, key, group)
      ensures r.LoginRefused? ==> r.bound == |BoundPlaces(config, key, group)|
      ensures !r.Uses? ==> inUse == old(inUse)
      ensures r.Uses? ==> inUse == old(inUse)[key := r.slot] && OpenTo(config, key, group, r.slot)
      ensures r.Uses? && key in old(inUse) && OpenTo(config, key, group, old(inUse)[key]) ==> inUse == old(inUse)
      ensures r.Uses? && (key in old(inUse) ==> !OpenTo(config, key, group, old(inUse)[key])) ==>
                exists proxy :: WellPicked(old(inUse), key, r.slot, proxy) && BestFor(config, key, group, old(inUse), checking, proxy)
    {
      CandidatesAre(config, key, group);
      if key in inUse {
        AssignableIsOpen(config, key, group, inUse[key]);
      }
      var candidates := CandidatesFor(config, key, group);
      match candidates {
        case GoDirect => return NoProxyUsed;
        case Refused(bound) => return LoginRefused(bound);
        case Use(proxies) =>
          if key in inUse && SlotValid(inUse[key], proxies) {
            return Uses(inUse[key]);
          }
          var slot := PickAnew(key, group, proxies);
          AssignableIsOpen(config, key, group, slot);
          r := Uses(slot);
      }
    }

    /** A new configuration: whoever uses something that is no longer allowed loses it and picks anew next time. */
    method Save(next: Config, groupOf: Grouping)
      requires RefersToExisting(next)
      modifies `config, `inUse
      ensures Valid() && config == next
      ensures OnlyOpenKept(old(inUse), inUse, next, groupOf)
    {
      config := next;
      ghost var before := inUse;
      var keys := inUse.Keys;
      while keys != {}
        invariant config == next && Dropping(before, inUse, keys, next, groupOf)
        decreases |keys|
      {
        var key :| key in keys;
        DroppingNext(before, inUse, keys, key, next, groupOf);
        if !Assignable(config, key, groupOf(key), inUse[key]) {
          inUse := inUse - {key};
        }
        keys := keys - {key};
      }
      Dropped(before, inUse, next, groupOf);
      StillAllowedIsValid(before, next, groupOf);
      StillAllowedAre(before, next, groupOf);
    }

    /** Deletes proxies; `false` when none were named. */
    method DeleteProxies(ids: set<nat>, groupOf: Grouping) returns (ok: bool)
      requires Valid()
      modifies `config, `inUse
      ensures Valid() && (ok <==> ids != {})
      ensures !ok ==> config == old(config) && inUse == old(inUse)
      ensures ok ==> config == ProxiesDeleted(old(config), ids) && ProxiesGone(old(config), config, ids)
      ensures ok ==> OnlyOpenKept(old(inUse), inUse, config, groupOf)
    {
      if ids == {} {
        return false;
      }
      inUse := NotOn(inUse, ids);
      ProxiesDeletedRefers(config, ids);
      ProxiesDeletedAre(config, ids);
      Save(ProxiesDeleted(config, ids), groupOf);
      ok := true;
    }

    /** Deletes a proxy group; its proxies stay. */
    method DeleteGroup(id: string, groupOf: Grouping) returns (ok: bool)
      requires Valid()
      modifies `config, `inUse
      ensures Valid() && (ok <==> id in old(config).groups)
      ensures ok ==> config == GroupDeleted(old(config), id) && GroupGone(old(config), config, id)
      ensures ok ==> OnlyOpenKept(old(inUse), inUse, config, groupOf)
      ensures !ok ==> config == old(config) && inUse == old(inUse)
    {
      if id !in config.groups {
        return false;
      }
      GroupDeletedRefers(config, id);
      GroupDeletedIs(config, id);
      Save(GroupDeleted(config, id), groupOf);
      ok := true;
    }

    /**
     * `distributeProxies`: binds each account of the batch to one of the selected proxies, evenly with regard to what all
     * other accounts are bound to. Refused without accounts or proxies, or for a proxy that does not exist.
     */
    method DistributeProxies(keys: seq<string>, ids: seq<nat>, groupOf: Grouping) returns (pairs: Option<map<string, nat>>)
      requires Valid() && AllDifferent(keys)
      modifies `config, `inUse
      ensures Valid()
      ensures pairs.None? <==> keys == [] || ids == [] || exists k :: 0 <= k < |ids| && !HasId(old(config).proxies, ids[k])
      ensures pairs.None? ==> config == old(config) && inUse == old(inUse)
      ensures pairs.Some? ==>
                && pairs.value.Keys == (set k | k in keys) && (forall k :: k in pairs.value ==> pairs.value[k] in ids)
                && config == old(config).(accounts := WithGiven(old(config).accounts, pairs.value))
                && EvenlyBound(config.accounts, ids, pairs.value)
                && OnlyOpenKept(old(inUse), inUse, config, groupOf)
    {
      if keys == [] || ids == [] || exists k :: 0 <= k < |ids| && !HasId(config.proxies, ids[k]) {
        return None;
      }
      var batch := set k | k in keys;
      var before := CountBound(config.accounts, config.accounts.Keys - batch, ids);
      var given, load := HandOut(keys, ids, before);
      FirstsAll(keys);
      EvenInTheEnd(config.accounts, ids, before, load, given);
      GivenRefers(config, given);
      Save(config.(accounts := WithGiven(config.accounts, given)), groupOf);
      pairs := Some(given);
    }
  }

  lemma {:induction false} CandidatesExist(config: Config, key: string, group: string)
    requires CandidatesFor(config, key, group).Use?
    ensures CandidatesFor(config, key, group).proxies != []
    ensures forall p :: p in CandidatesFor(config, key, group).proxies ==> p in config.proxies
  {
    var groups, ids := GroupsOf(config, key, group), BoundIds(config, key);
    var isBound := (p: Proxy) => p.id in ids || Meets(p.groupIds, groups);
    FilterIn(config.proxies, isBound);
    FilterIn(Filter(config.proxies, isBound), (p: Proxy) => p.enabled);
    var pinned := PinnedIds(config.accounts);
    FilterIn(config.proxies, (p: Proxy) => p.enabled && p.id !in pinned);
  }

  lemma {:induction false} SlotValidInMore(slot: Slot, some: seq<Proxy>, all: seq<Proxy>)
    requires SlotValid(slot, some) && forall p :: p in some ==> p in all
    ensures SlotValid(slot, all)
  {
    var i :| 0 <= i < |some| && some[i].id == slot.proxyId && IndexValid(slot.index, some[i]);
    assert some[i] in all;
    var j :| 0 <= j < |all| && all[j] == some[i];
  }

  // ----- Spreading accounts -----

  /** How many accounts use a proxy. */
  function Count(inUse: Assignment, proxyId: nat): nat {
    |OnProxy(inUse, proxyId)|
  }

  function OnProxy(inUse: Assignment, proxyId: nat): set<string> {
    set other | other in inUse && inUse[other].proxyId == proxyId
  }

  /** No proxy carries more accounts per exit than any other would if it gave one up. */
  ghost predicate Balanced(inUse: Assignment, pool: seq<Proxy>) {
    forall p, q :: p in pool && q in pool && Count(inUse, p.id) > 0 ==>
      (Count(inUse, p.id) - 1) * SlotsOf(q) <= Count(inUse, q.id) * SlotsOf(p)
  }

  lemma {:induction false} CountAfterPick(inUse: Assignment, key: string, slot: Slot, proxyId: nat)
    requires key !in inUse
    ensures Count(inUse[key := slot], proxyId) == Count(inUse, proxyId) + (if slot.proxyId == proxyId then 1 else 0)
    ensures |Users(inUse, key, proxyId)| == Count(inUse, proxyId)
  {
    var before := OnProxy(inUse, proxyId);
    assert Users(inUse, key, proxyId) == before;
    assert OnProxy(inUse[key := slot], proxyId) == if slot.proxyId == proxyId then before + {key} else before;
  }

  lemma {:induction false} LoadOrder(a: nat, m: nat, b: nat, n: nat)
    requires 0 < m && 0 < n
    requires a as real / m as real <= b as real / n as real
    ensures a * n <= b * m
  {
    var x, y := a as real / m as real, b as real / n as real;
    assert x * m as real == a as real && y * n as real == b as real;
    assert x * (m as real * n as real) <= y * (m as real * n as real);
    assert a as real * n as real == x * (m as real * n as real);
    assert b as real * m as real == y * (m as real * n as real);
    assert (a * n) as real == a as real * n as real && (b * m) as real == b as real * m as real;
  }

  lemma {:induction false} PickKeepsBalance(inUse: Assignment, key: string, slot: Slot, proxy: Proxy, pool: seq<Proxy>)
    requires key !in inUse && DistinctIds(pool)
    requires Lightest(inUse, key, proxy, pool) && slot.proxyId == proxy.id
    requires Balanced(inUse, pool)
    ensures Balanced(inUse[key := slot], pool)
  {
    var after := inUse[key := slot];
    forall p, q | p in pool && q in pool && Count(after, p.id) > 0
      ensures (Count(after, p.id) - 1) * SlotsOf(q) <= Count(after, q.id) * SlotsOf(p)
    {
      CountAfterPick(inUse, key, slot, p.id);
      CountAfterPick(inUse, key, slot, q.id);
      if p.id == proxy.id {
        assert p == proxy by {
          var i :| 0 <= i < |pool| && pool[i] == p;
          var j :| 0 <= j < |pool| && pool[j] == proxy;
          assert i == j;
        }
        assert Load(inUse, key, proxy) <= Load(inUse, key, q);
        LoadOrder(Count(inUse, p.id), SlotsOf(p), Count(inUse, q.id), SlotsOf(q));
      }
      assert Count(inUse, q.id) * SlotsOf(p) <= Count(after, q.id) * SlotsOf(p) by {
        MulMonotone(Count(inUse, q.id), Count(after, q.id), SlotsOf(p));
      }
    }
  }

  /** The first `i` accounts have picked. */
  ghost predicate Picked(keys: seq<string>, i: nat, proxies: seq<Proxy>, pool: seq<Proxy>, inUse: Assignment) {
    && i <= |keys| && inUse.Keys == Firsts(keys, i) && SlotsValid(inUse, proxies)
    && Balanced(inUse, pool)
  }

  lemma {:induction false} PickedNext(keys: seq<string>, i: nat, proxies: seq<Proxy>, pool: seq<Proxy>, inUse: Assignment, slot: Slot, proxy: Proxy)
    requires AllDifferent(keys) && i < |keys| && Picked(keys, i, proxies, pool, inUse)
    requires DistinctIds(pool) && Lightest(inUse, keys[i], proxy, pool) && slot.proxyId == proxy.id && SlotValid(slot, proxies)
    ensures Picked(keys, i + 1, proxies, pool, inUse[keys[i] := slot])
  {
    FirstsNext(keys, i);
    PickKeepsBalance(inUse, keys[i], slot, proxy, pool);
  }

  /** Accounts picking one after the other from one list of proxies stay spread over its good ones. */
  method PickForAll(keys: seq<string>, proxies: seq<Proxy>, checking: set<nat>) returns (inUse: Assignment)
    requires proxies != [] && DistinctIds(proxies) && AllDifferent(keys)
    ensures inUse.Keys == set k | k in keys
    ensures SlotsValid(inUse, proxies)
    ensures Balanced(inUse, PickedFrom(proxies, checking))
  {
    inUse := map[];
    var pool := PickedFrom(proxies, checking);
    FilterKeepsDistinct(proxies, (p: Proxy) => p.check != Unreachable || p.id in checking);
    for i := 0 to |keys|
      invariant Picked(keys, i, proxies, pool, inUse)
    {
      var slot, proxy := PickSlot(inUse, checking, keys[i], proxies);
      PickedNext(keys, i, proxies, pool, inUse, slot, proxy);
      inUse := inUse[keys[i] := slot];
    }
    FirstsAll(keys);
  }
}
