/** The registry's tables stay consistent over every run of add, bind and remove. */
module RegistryTheorems {
  import opened Common
  import opened RegistrySpec

  /** Consistent, except that the indexes may lack entries for one instance and its service. */
  ghost predicate Nearly(r: Registry, key: Key) {
    && r.size > 0 && r.pending.Keys !! r.byName.Keys && "" !in r.pending && "" !in r.byName
    && (forall k <- r.pools :: PoolOk(r.byName, k, r.pools[k], r.size))
    && (forall n <- r.byName :: EndpointOk(r.pools, n, r.byName[n]) && IndexedBut(r, r.byName[n], key))
    && (forall k <- r.byInstance :: InstanceOk(r.byName, r.byInstance, k))
    && (forall service <- r.byService :: ServiceOk(r.byName, r.byService, service))
  }

  predicate IndexedBut(r: Registry, e: Endpoint, key: Key) {
    && (e.key.service != 0 && e.key.service != key.service ==> e.key.service in r.byService)
    && (e.key.service != 0 && e.key != key ==> e.key in r.byInstance)
  }

  lemma AddPendingKeeps(r: Registry, name: Name, conn: nat)
    requires Good(r)
    ensures Good(AddPending(r, name, conn).registry)
  {
  }

  lemma GoodIsNearly(r: Registry, key: Key)
    requires Good(r)
    ensures Nearly(r, key)
  {
  }

  lemma FreshPoolOk(byName: map<Name, Endpoint>, key: Key, size: nat)
    ensures PoolOk(byName, key, FreshPool(size), size)
  {
  }

  /** Opening an empty pool for an instance nobody serves. */
  lemma OpenKeeps(r: Registry, key: Key)
    requires Good(r)
    ensures Nearly(r.(pools := r.pools[key := PoolOf(r, key)]), key)
  {
    if key in r.pools {
      assert PoolOk(r.byName, key, r.pools[key], r.size);
      assert r.pools[key := r.pools[key]] == r.pools;
      GoodIsNearly(r, key);
    } else {
      forall n | n in r.byName ensures r.byName[n].key.service != 0 ==> r.byName[n].key != key {
        assert EndpointOk(r.pools, n, r.byName[n]);
      }
      FreshPoolOk(r.byName, key, r.size);
      OpenedPools(r, key);
    }
  }

  lemma OpenedPools(r: Registry, key: Key)
    requires Good(r) && (forall n <- r.byName :: r.byName[n].key.service != 0 ==> r.byName[n].key != key)
    requires PoolOk(r.byName, key, FreshPool(r.size), r.size)
    ensures Nearly(r.(pools := r.pools[key := FreshPool(r.size)]), key)
  {
    var r' := r.(pools := r.pools[key := FreshPool(r.size)]);
    forall n | n in r.byName ensures EndpointOk(r'.pools, n, r.byName[n]) && IndexedBut(r', r.byName[n], key) {
      assert EndpointOk(r.pools, n, r.byName[n]) && IndexedOk(r.byService, r.byInstance, r.byName[n]);
    }
  }

  /** All Ready slots of the pool belong to one incarnation. */
  predicate Settled(pool: Pool, incarnation: nat) {
    forall i :: 0 <= i < |pool.channels| && pool.channels[i].ready ==> pool.channels[i].incarnation == incarnation
  }

  lemma NobodyReconnects(r: Registry, key: Key, name: Name, incarnation: nat)
    requires Nearly(r, key) && key in r.pools && name in r.pending
    ensures !Reconnects(r.pools[key].channels, name, incarnation)
  {
    assert PoolOk(r.byName, key, r.pools[key], r.size);
    forall i | 0 <= i < |r.pools[key].channels| && r.pools[key].channels[i].ready ensures r.pools[key].channels[i].name != name {
      assert SlotOk(r.byName, key, r.pools[key].incarnation, r.pools[key].channels[i], i);
    }
  }

  /** Exactly the instance's own endpoints are retired. */
  lemma RetiredAreItsOwn(r: Registry, key: Key, incarnation: nat, n: Name)
    requires Nearly(r, key) && key in r.pools && key.service != 0 && n in r.byName
    ensures RetiredName(r.pools[key].channels, false, incarnation, n) <==> r.byName[n].key == key
  {
    var channels := r.pools[key].channels;
    assert PoolOk(r.byName, key, r.pools[key], r.size);
    assert EndpointOk(r.pools, n, r.byName[n]);
    if RetiredName(channels, false, incarnation, n) {
      var i :| 0 <= i < |channels| && Retires(channels[i], false, incarnation) && channels[i].name == n;
      assert SlotOk(r.byName, key, r.pools[key].incarnation, channels[i], i);
    }
    if r.byName[n].key == key {
      var c := r.byName[n].channel;
      assert channels[c].ready && channels[c].name == n;
      assert Retires(channels[c], false, incarnation);
    }
  }

  lemma RetireKeeps(r: Registry, key: Key, name: Name, incarnation: nat)
    requires Nearly(r, key) && key in r.pools && key.service == SCENE_SERVICE && name in r.pending && incarnation != 0
    ensures var r' := Retire(r, key, name, incarnation).0;
            Nearly(r', key) && key in r'.pools && Settled(r'.pools[key], incarnation) && r'.pending == r.pending && r'.size == r.size
  {
    NobodyReconnects(r, key, name, incarnation);
    var r' := Retire(r, key, name, incarnation).0;
    var channels := r.pools[key].channels;
    forall n | n in r.byName ensures r'.byName[n] == if r.byName[n].key == key then Demoted(r.byName[n]) else r.byName[n] {
      RetiredAreItsOwn(r, key, incarnation, n);
    }
    assert PoolOk(r.byName, key, r.pools[key], r.size);
    forall c | 0 <= c < |channels| ensures !r'.pools[key].channels[c].ready && r'.pools[key].channels[c].name == "" && r'.pools[key].channels[c].channel == c {
      assert SlotOk(r.byName, key, r.pools[key].incarnation, channels[c], c);
    }
    RetiredParts(r, key, r');
  }

  /** The endpoints of one instance, and no others, lost their identity. */
  ghost predicate Demotes(byName: map<Name, Endpoint>, byName': map<Name, Endpoint>, key: Key) {
    && byName'.Keys == byName.Keys
    && forall n <- byName :: byName'[n] == if byName[n].key == key then Demoted(byName[n]) else byName[n]
  }

  lemma OtherPoolStays(byName: map<Name, Endpoint>, byName': map<Name, Endpoint>, key: Key, k: Key, pool: Pool, size: nat)
    requires Demotes(byName, byName', key) && k != key && PoolOk(byName, k, pool, size)
    ensures PoolOk(byName', k, pool, size)
  {
    forall c | 0 <= c < size ensures SlotOk(byName', k, pool.incarnation, pool.channels[c], c) {
      assert SlotOk(byName, k, pool.incarnation, pool.channels[c], c);
    }
  }

  lemma RetiredEndpoint(r: Registry, key: Key, r': Registry, n: Name)
    requires Nearly(r, key) && key.service != 0 && n in r.byName && Demotes(r.byName, r'.byName, key)
    requires r'.pools.Keys == r.pools.Keys && forall k <- r.pools :: k != key ==> r'.pools[k] == r.pools[k]
    requires r'.byInstance == r.byInstance - {key} && r.byService.Keys - {key.service} <= r'.byService.Keys
    ensures EndpointOk(r'.pools, n, r'.byName[n]) && IndexedBut(r', r'.byName[n], key)
  {
    assert EndpointOk(r.pools, n, r.byName[n]) && IndexedBut(r, r.byName[n], key);
  }

  lemma RetiredInstance(r: Registry, key: Key, r': Registry, k: Key)
    requires Nearly(r, key) && key.service != 0 && Demotes(r.byName, r'.byName, key)
    requires r'.byInstance == r.byInstance - {key} && k in r'.byInstance
    ensures InstanceOk(r'.byName, r'.byInstance, k)
  {
    assert InstanceOk(r.byName, r.byInstance, k);
  }

  lemma RetiredService(r: Registry, key: Key, r': Registry, s: nat)
    requires Nearly(r, key) && key.service != 0 && Demotes(r.byName, r'.byName, key)
    requires r'.byService == if key.service in r.byService && r.byService[key.service] in r'.byName && r'.byName[r.byService[key.service]].key.service == 0
                             then r.byService - {key.service} else r.byService
    requires s in r'.byService
    ensures ServiceOk(r'.byName, r'.byService, s)
  {
    assert ServiceOk(r.byName, r.byService, s);
  }

  /** The consistency of everything else, once the retired endpoints and their slots are known. */
  lemma RetiredParts(r: Registry, key: Key, r': Registry)
    requires Nearly(r, key) && key in r.pools && key.service != 0 && r'.size == r.size && r'.pending == r.pending
    requires Demotes(r.byName, r'.byName, key)
    requires r'.pools.Keys == r.pools.Keys && forall k <- r.pools :: k != key ==> r'.pools[k] == r.pools[k]
    requires PoolOk(r'.byName, key, r'.pools[key], r.size)
    requires r'.byInstance == r.byInstance - {key}
    requires r'.byService == if key.service in r.byService && r.byService[key.service] in r'.byName && r'.byName[r.byService[key.service]].key.service == 0
                             then r.byService - {key.service} else r.byService
    ensures Nearly(r', key)
  {
    forall k | k in r'.pools ensures PoolOk(r'.byName, k, r'.pools[k], r'.size) {
      if k != key { OtherPoolStays(r.byName, r'.byName, key, k, r.pools[k], r.size); }
    }
    forall n | n in r'.byName ensures EndpointOk(r'.pools, n, r'.byName[n]) && IndexedBut(r', r'.byName[n], key) {
      RetiredEndpoint(r, key, r', n);
    }
    forall k | k in r'.byInstance ensures InstanceOk(r'.byName, r'.byInstance, k) { RetiredInstance(r, key, r', k); }
    forall s | s in r'.byService ensures ServiceOk(r'.byName, r'.byService, s) { RetiredService(r, key, r', s); }
  }

  // Taking a slot over.

  function Stale(r: Registry, key: Key, channel: nat): Option<Name>
    requires key in r.pools && channel < |r.pools[key].channels|
  {
    var slot := r.pools[key].channels[channel];
    if slot.ready then Some(slot.name) else None
  }

  function Take(r: Registry, name: Name, key: Key, channel: nat, incarnation: nat, now: int): Registry
    requires key in r.pools && channel < |r.pools[key].channels| && name in r.pending
    requires Stale(r, key, channel).Some? ==> Stale(r, key, channel).value in r.byName
  {
    var stale := Stale(r, key, channel);
    Install(if stale.Some? then Displace(r, key, stale.value) else r, name, key, channel, incarnation, now)
  }

  /** What the tables look like when a pending connection may take a slot. */
  ghost predicate Ready(r: Registry, name: Name, key: Key, channel: nat, incarnation: nat) {
    && Nearly(r, key) && name in r.pending && key in r.pools && channel < r.size
    && Settled(r.pools[key], incarnation) && ValidHandshake(key, channel, incarnation)
  }

  lemma StaleIsServing(r: Registry, name: Name, key: Key, channel: nat, incarnation: nat)
    requires Ready(r, name, key, channel, incarnation)
    ensures |r.pools[key].channels| == r.size && name !in r.byName && r.pools[key].channels[channel].channel == channel
    ensures var stale := Stale(r, key, channel);
            stale.Some? ==> stale.value != name && stale.value in r.byName && r.byName[stale.value].key == key && r.byName[stale.value].channel == channel
  {
    assert PoolOk(r.byName, key, r.pools[key], r.size);
    assert SlotOk(r.byName, key, r.pools[key].incarnation, r.pools[key].channels[channel], channel);
  }

  /** Everyone but the newcomer and the connection it displaces keeps its record. */
  lemma TakenNames(r: Registry, name: Name, key: Key, channel: nat, incarnation: nat, now: int)
    requires Ready(r, name, key, channel, incarnation)
    ensures StaleKnown(r, key, channel)
    ensures var r', stale := Take(r, name, key, channel, incarnation, now), Stale(r, key, channel);
            && r'.byName.Keys == r.byName.Keys + {name}
            && r'.byName[name] == Endpoint(key, channel, incarnation, r.pending[name], now)
            && (forall n <- r.byName :: r'.byName[n] == if stale == Some(n) then Demoted(r.byName[n]) else r.byName[n])
            && r'.pending == r.pending - {name} && r'.size == r.size
  {
    StaleIsServing(r, name, key, channel, incarnation);
    TakeRenames(r, name, key, channel, incarnation, now);
  }

  lemma TakeRenames(r: Registry, name: Name, key: Key, channel: nat, incarnation: nat, now: int)
    requires StaleKnown(r, key, channel) && name in r.pending && name !in r.byName
    ensures var r', stale := Take(r, name, key, channel, incarnation, now), Stale(r, key, channel);
            && r'.byName.Keys == r.byName.Keys + {name}
            && r'.byName[name] == Endpoint(key, channel, incarnation, r.pending[name], now)
            && (forall n <- r.byName :: r'.byName[n] == if stale == Some(n) then Demoted(r.byName[n]) else r.byName[n])
            && r'.pending == r.pending - {name} && r'.size == r.size
  {
  }

  predicate StaleKnown(r: Registry, key: Key, channel: nat) {
    && key in r.pools && channel < |r.pools[key].channels|
    && (Stale(r, key, channel).Some? ==> Stale(r, key, channel).value in r.byName)
  }

  lemma TakenOwnPool(r: Registry, name: Name, key: Key, channel: nat, incarnation: nat, now: int)
    requires Ready(r, name, key, channel, incarnation) && StaleKnown(r, key, channel)
    ensures var r' := Take(r, name, key, channel, incarnation, now);
            key in r'.pools && PoolOk(r'.byName, key, r'.pools[key], r.size)
  {
    StaleIsServing(r, name, key, channel, incarnation);
    TakenNames(r, name, key, channel, incarnation, now);
    var r' := Take(r, name, key, channel, incarnation, now);
    assert PoolOk(r.byName, key, r.pools[key], r.size);
    forall c | 0 <= c < r.size ensures SlotOk(r'.byName, key, incarnation, r'.pools[key].channels[c], c) {
      assert SlotOk(r.byName, key, r.pools[key].incarnation, r.pools[key].channels[c], c);
    }
  }

  lemma TakenOtherPool(r: Registry, name: Name, key: Key, channel: nat, incarnation: nat, now: int, k: Key)
    requires Ready(r, name, key, channel, incarnation) && StaleKnown(r, key, channel) && k in r.pools && k != key
    ensures var r' := Take(r, name, key, channel, incarnation, now);
            k in r'.pools && r'.pools[k] == r.pools[k] && PoolOk(r'.byName, k, r'.pools[k], r.size)
  {
    StaleIsServing(r, name, key, channel, incarnation);
    TakenNames(r, name, key, channel, incarnation, now);
    var r' := Take(r, name, key, channel, incarnation, now);
    assert PoolOk(r.byName, k, r.pools[k], r.size);
    forall c | 0 <= c < r.size ensures SlotOk(r'.byName, k, r.pools[k].incarnation, r.pools[k].channels[c], c) {
      assert SlotOk(r.byName, k, r.pools[k].incarnation, r.pools[k].channels[c], c);
    }
  }

  /** The two indexes point at the newcomer and are otherwise as they were. */
  lemma TakenTables(r: Registry, name: Name, key: Key, channel: nat, incarnation: nat, now: int)
    requires StaleKnown(r, key, channel) && name in r.pending
    ensures var r' := Take(r, name, key, channel, incarnation, now);
            && r'.byService.Keys == r.byService.Keys + {key.service} && r'.byService[key.service] == name
            && (forall s <- r.byService :: s != key.service ==> r'.byService[s] == r.byService[s])
            && r'.byInstance.Keys == r.byInstance.Keys + {key} && r'.byInstance[key] == name
            && (forall k <- r.byInstance :: k != key ==> r'.byInstance[k] == r.byInstance[k])
  {
  }

  /** The pools differ only in the slot taken. */
  lemma TakenPools(r: Registry, name: Name, key: Key, channel: nat, incarnation: nat, now: int)
    requires Ready(r, name, key, channel, incarnation) && StaleKnown(r, key, channel)
    ensures var r' := Take(r, name, key, channel, incarnation, now);
            && r'.pools.Keys == r.pools.Keys && (forall k <- r.pools :: k != key ==> r'.pools[k] == r.pools[k])
            && |r'.pools[key].channels| == r.size
            && r'.pools[key].channels[channel].ready && r'.pools[key].channels[channel].name == name
            && (forall c :: 0 <= c < r.size && c != channel ==> r'.pools[key].channels[c] == r.pools[key].channels[c])
  {
    StaleIsServing(r, name, key, channel, incarnation);
  }

  lemma TakenEndpoint(r: Registry, name: Name, key: Key, channel: nat, incarnation: nat, now: int, n: Name)
    requires Ready(r, name, key, channel, incarnation) && StaleKnown(r, key, channel) && n in r.byName
    ensures var r' := Take(r, name, key, channel, incarnation, now);
            n in r'.byName && EndpointOk(r'.pools, n, r'.byName[n]) && IndexedOk(r'.byService, r'.byInstance, r'.byName[n])
  {
    assert EndpointOk(r.pools, n, r.byName[n]) && IndexedBut(r, r.byName[n], key);
    StaleIsServing(r, name, key, channel, incarnation);
    TakenNames(r, name, key, channel, incarnation, now);
    EndpointAfter(r, Take(r, name, key, channel, incarnation, now), name, key, channel, incarnation, now, n);
  }

  lemma EndpointAfter(r: Registry, r': Registry, name: Name, key: Key, channel: nat, incarnation: nat, now: int, n: Name)
    requires Ready(r, name, key, channel, incarnation) && StaleKnown(r, key, channel) && n in r.byName && n in r'.byName
    requires r' == Take(r, name, key, channel, incarnation, now) && n != name
    requires EndpointOk(r.pools, n, r.byName[n]) && IndexedBut(r, r.byName[n], key)
    requires r'.byName[n] == if Stale(r, key, channel) == Some(n) then Demoted(r.byName[n]) else r.byName[n]
    ensures EndpointOk(r'.pools, n, r'.byName[n]) && IndexedOk(r'.byService, r'.byInstance, r'.byName[n])
  {
    TakenTables(r, name, key, channel, incarnation, now);
    TakenPools(r, name, key, channel, incarnation, now);
  }

  lemma TakenInstance(r: Registry, name: Name, key: Key, channel: nat, incarnation: nat, now: int, k: Key)
    requires Ready(r, name, key, channel, incarnation) && StaleKnown(r, key, channel)
    ensures var r' := Take(r, name, key, channel, incarnation, now); InstanceOk(r'.byName, r'.byInstance, k)
  {
    StaleIsServing(r, name, key, channel, incarnation);
    TakenNames(r, name, key, channel, incarnation, now);
    TakenTables(r, name, key, channel, incarnation, now);
    if k != key && k in r.byInstance { assert InstanceOk(r.byName, r.byInstance, k); }
  }

  lemma TakenService(r: Registry, name: Name, key: Key, channel: nat, incarnation: nat, now: int, s: nat)
    requires Ready(r, name, key, channel, incarnation) && StaleKnown(r, key, channel)
    ensures var r' := Take(r, name, key, channel, incarnation, now); ServiceOk(r'.byName, r'.byService, s)
  {
    StaleIsServing(r, name, key, channel, incarnation);
    TakenNames(r, name, key, channel, incarnation, now);
    TakenTables(r, name, key, channel, incarnation, now);
    if s != key.service && s in r.byService { assert ServiceOk(r.byName, r.byService, s); }
  }

  lemma TakeKeeps(r: Registry, name: Name, key: Key, channel: nat, incarnation: nat, now: int)
    requires Ready(r, name, key, channel, incarnation)
    ensures StaleKnown(r, key, channel) && Good(Take(r, name, key, channel, incarnation, now))
  {
    TakenNames(r, name, key, channel, incarnation, now);
    var r' := Take(r, name, key, channel, incarnation, now);
    TakenOwnPool(r, name, key, channel, incarnation, now);
    forall k | k in r'.pools ensures PoolOk(r'.byName, k, r'.pools[k], r'.size) {
      if k != key { TakenOtherPool(r, name, key, channel, incarnation, now, k); }
    }
    forall n | n in r'.byName ensures EndpointOk(r'.pools, n, r'.byName[n]) && IndexedOk(r'.byService, r'.byInstance, r'.byName[n]) {
      if n == name {
        TakenTables(r, name, key, channel, incarnation, now);
        TakenPools(r, name, key, channel, incarnation, now);
      } else {
        TakenEndpoint(r, name, key, channel, incarnation, now, n);
      }
    }
    forall k | k in r'.byInstance ensures InstanceOk(r'.byName, r'.byInstance, k) { TakenInstance(r, name, key, channel, incarnation, now, k); }
    forall s | s in r'.byService ensures ServiceOk(r'.byName, r'.byService, s) { TakenService(r, name, key, channel, incarnation, now, s); }
  }

  /** Before the slot is taken: the pool is open and old incarnations are retired. */
  function Prepared(r: Registry, name: Name, key: Key, incarnation: nat): Registry {
    var r1 := r.(pools := r.pools[key := PoolOf(r, key)]);
    var was := r1.pools[key].incarnation;
    if incarnation != 0 && was != 0 && incarnation != was then Retire(r1, key, name, incarnation).0 else r1
  }

  lemma PreparedIsReady(r: Registry, name: Name, key: Key, channel: nat, incarnation: nat)
    requires Good(r) && name in r.pending && channel < r.size && ValidHandshake(key, channel, incarnation)
    ensures Ready(Prepared(r, name, key, incarnation), name, key, channel, incarnation)
  {
    OpenKeeps(r, key);
    var r1 := r.(pools := r.pools[key := PoolOf(r, key)]);
    var pool := r1.pools[key];
    assert PoolOk(r1.byName, key, pool, r1.size);
    if incarnation != 0 && pool.incarnation != 0 && incarnation != pool.incarnation {
      RetireKeeps(r1, key, name, incarnation);
    } else {
      forall i | 0 <= i < |pool.channels| && pool.channels[i].ready ensures pool.channels[i].incarnation == incarnation {
        assert SlotOk(r1.byName, key, pool.incarnation, pool.channels[i], i);
      }
    }
  }

  /** In a consistent registry a valid handshake of a pending connection always binds, by taking its
      slot over; the branches that give up half way are never reached. */
  lemma BindTakes(r: Registry, name: Name, key: Key, channel: nat, incarnation: nat, now: int)
    requires Good(r) && name in r.pending && channel < r.size && ValidHandshake(key, channel, incarnation)
    ensures var p := Prepared(r, name, key, incarnation);
            && StaleKnown(p, key, channel) && name in p.pending
            && Bind(r, name, key, channel, incarnation, now).ok
            && Bind(r, name, key, channel, incarnation, now).registry == Take(p, name, key, channel, incarnation, now)
  {
    var p := Prepared(r, name, key, incarnation);
    PreparedIsReady(r, name, key, channel, incarnation);
    TakeKeeps(p, name, key, channel, incarnation, now);
    StaleIsServing(p, name, key, channel, incarnation);
  }

  /** Binding keeps the tables consistent, succeeds exactly for a pending connection and a channel in
      range, and changes nothing when it fails. */
  lemma BindKeeps(r: Registry, name: Name, key: Key, channel: nat, incarnation: nat, now: int)
    requires Good(r) && ValidHandshake(key, channel, incarnation)
    ensures var b := Bind(r, name, key, channel, incarnation, now);
            && Good(b.registry) && (b.ok <==> name in r.pending && channel < r.size) && (!b.ok ==> b.registry == r)
            && (b.ok ==> name in b.registry.byName && b.registry.byName[name].key == key && b.registry.byName[name].channel == channel
                         && b.registry.byInstance[key] == name && b.registry.byService[key.service] == name)
  {
    if name in r.pending && channel < r.size {
      BindTakes(r, name, key, channel, incarnation, now);
      PreparedIsReady(r, name, key, channel, incarnation);
      TakeKeeps(Prepared(r, name, key, incarnation), name, key, channel, incarnation, now);
      TakenNames(Prepared(r, name, key, incarnation), name, key, channel, incarnation, now);
    }
  }

  // Removing a connection.

  lemma {:induction false} FirstServingServes(byName: map<Name, Endpoint>, order: seq<Name>, key: Key, anyInstance: bool)
    ensures var first := FirstServing(byName, order, key, anyInstance);
            if first.Some? then
              && first.value in byName && byName[first.value].key.service != 0
              && (if anyInstance then byName[first.value].key.service == key.service else byName[first.value].key == key)
            else
              forall n :: n in order && n in byName && byName[n].key.service != 0 ==>
                if anyInstance then byName[n].key.service != key.service else byName[n].key != key
    decreases |order|
  {
    if order != [] { FirstServingServes(byName, order[1..], key, anyInstance); }
  }

  /** A serving connection about to be removed, and the endpoints that stay. */
  ghost predicate Leaving(r: Registry, name: Name, order: seq<Name>) {
    && Good(r) && name in r.byName && r.byName[name].key.service != 0
    && forall n :: n in r.byName && n != name ==> n in order
  }

  /** The slot of the removed connection is vacated; the others keep their endpoints. */
  lemma VacatedPoolOk(byName: map<Name, Endpoint>, key: Key, pool: Pool, size: nat, name: Name, channel: nat)
    requires PoolOk(byName, key, pool, size) && channel < size && pool.channels[channel].ready && pool.channels[channel].name == name
    ensures PoolOk(byName - {name}, key, Vacated(pool, channel), size)
    ensures forall c :: 0 <= c < size && c != channel ==> Vacated(pool, channel).channels[c] == pool.channels[c]
  {
    var p := Vacated(pool, channel);
    assert SlotOk(byName, key, pool.incarnation, pool.channels[channel], channel);
    forall c | 0 <= c < size ensures SlotOk(byName - {name}, key, p.incarnation, p.channels[c], c) {
      assert SlotOk(byName, key, pool.incarnation, pool.channels[c], c);
      if c != channel && pool.channels[c].ready { assert p.channels[c].ready; }
    }
  }

  lemma UnrelatedPoolOk(byName: map<Name, Endpoint>, key: Key, pool: Pool, size: nat, name: Name)
    requires PoolOk(byName, key, pool, size) && (name in byName ==> byName[name].key != key || key.service == 0)
    ensures PoolOk(byName - {name}, key, pool, size)
  {
    forall c | 0 <= c < size ensures SlotOk(byName - {name}, key, pool.incarnation, pool.channels[c], c) {
      assert SlotOk(byName, key, pool.incarnation, pool.channels[c], c);
    }
  }

  /** A serving connection's removal, written out. */
  lemma RemoveShape(r: Registry, name: Name, order: seq<Name>)
    requires Leaving(r, name, order)
    ensures var e, byName := r.byName[name], r.byName - {name};
            && e.key in r.pools && e.channel < |r.pools[e.key].channels| == r.size
            && r.pools[e.key].channels[e.channel].ready && r.pools[e.key].channels[e.channel].name == name
            && Remove(r, name, order).registry
               == r.(byName := byName, pools := r.pools[e.key := Vacated(r.pools[e.key], e.channel)],
                     byInstance := Reindex(r.byInstance, e.key, name, FirstServing(byName, order, e.key, false)),
                     byService := Reindex(r.byService, e.key.service, name, FirstServing(byName, order, e.key, true)))
  {
    assert EndpointOk(r.pools, name, r.byName[name]);
    assert PoolOk(r.byName, r.byName[name].key, r.pools[r.byName[name].key], r.size);
  }

  lemma RemovedPool(r: Registry, name: Name, order: seq<Name>, k: Key)
    requires Leaving(r, name, order) && k in r.pools
    ensures var r' := Remove(r, name, order).registry;
            k in r'.pools && PoolOk(r'.byName, k, r'.pools[k], r.size)
  {
    var e := r.byName[name];
    RemoveShape(r, name, order);
    assert PoolOk(r.byName, k, r.pools[k], r.size);
    if k == e.key {
      VacatedPoolOk(r.byName, k, r.pools[k], r.size, name, e.channel);
    } else {
      UnrelatedPoolOk(r.byName, k, r.pools[k], r.size, name);
    }
  }

  lemma OtherSlotStays(pools: map<Key, Pool>, key: Key, pool: Pool, channel: nat, n: Name, e: Endpoint)
    requires EndpointOk(pools, n, e) && key in pools && |pool.channels| == |pools[key].channels| && channel < |pool.channels|
    requires pools[key].channels[channel].name != n
    requires forall c :: 0 <= c < |pool.channels| && c != channel ==> pool.channels[c] == pools[key].channels[c]
    ensures EndpointOk(pools[key := pool], n, e)
  {
  }

  lemma RemovedEndpoint(r: Registry, name: Name, order: seq<Name>, n: Name)
    requires Leaving(r, name, order) && n in r.byName && n != name
    ensures var r' := Remove(r, name, order).registry; EndpointOk(r'.pools, n, r.byName[n])
  {
    var e := r.byName[name];
    RemoveShape(r, name, order);
    assert EndpointOk(r.pools, n, r.byName[n]);
    assert PoolOk(r.byName, e.key, r.pools[e.key], r.size);
    VacatedPoolOk(r.byName, e.key, r.pools[e.key], r.size, name, e.channel);
    OtherSlotStays(r.pools, e.key, Vacated(r.pools[e.key], e.channel), e.channel, n, r.byName[n]);
  }

  /** An index moves on to another serving endpoint, and loses its entry only when there is none. */
  lemma ReindexedInstance(byName: map<Name, Endpoint>, byInstance: map<Key, Name>, name: Name, key: Key, order: seq<Name>, k: Key)
    requires InstanceOk(byName, byInstance, k) && key.service != 0
    requires k in byInstance && byInstance[k] == name ==> k == key
    ensures InstanceOk(byName - {name}, Reindex(byInstance, key, name, FirstServing(byName - {name}, order, key, false)), k)
  {
    FirstServingServes(byName - {name}, order, key, false);
  }

  lemma ReindexedService(byName: map<Name, Endpoint>, byService: map<nat, Name>, name: Name, key: Key, order: seq<Name>, s: nat)
    requires ServiceOk(byName, byService, s) && key.service != 0
    requires s in byService && byService[s] == name ==> s == key.service
    ensures ServiceOk(byName - {name}, Reindex(byService, key.service, name, FirstServing(byName - {name}, order, key, true)), s)
  {
    FirstServingServes(byName - {name}, order, key, true);
  }

  lemma InstanceStays(byName: map<Name, Endpoint>, byInstance: map<Key, Name>, name: Name, key: Key, order: seq<Name>, n: Name)
    requires n in byName && n in order && byName[n].key.service != 0 && byName[n].key in byInstance
    ensures byName[n].key in Reindex(byInstance, key, name, FirstServing(byName, order, key, false))
  {
    FirstServingServes(byName, order, key, false);
  }

  lemma ServiceStays(byName: map<Name, Endpoint>, byService: map<nat, Name>, name: Name, key: Key, order: seq<Name>, n: Name)
    requires n in byName && n in order && byName[n].key.service != 0 && byName[n].key.service in byService
    ensures byName[n].key.service in Reindex(byService, key.service, name, FirstServing(byName, order, key, true))
  {
    FirstServingServes(byName, order, key, true);
  }

  lemma IndexAfter(r: Registry, r': Registry, name: Name, key: Key, order: seq<Name>, n: Name)
    requires n in r.byName && n != name && n in order && IndexedOk(r.byService, r.byInstance, r.byName[n])
    requires r'.byInstance == Reindex(r.byInstance, key, name, FirstServing(r.byName - {name}, order, key, false))
    requires r'.byService == Reindex(r.byService, key.service, name, FirstServing(r.byName - {name}, order, key, true))
    ensures IndexedOk(r'.byService, r'.byInstance, r.byName[n])
  {
    if r.byName[n].key.service != 0 {
      InstanceStays(r.byName - {name}, r.byInstance, name, key, order, n);
      ServiceStays(r.byName - {name}, r.byService, name, key, order, n);
    }
  }

  lemma StillIndexed(r: Registry, name: Name, order: seq<Name>, n: Name)
    requires Leaving(r, name, order) && n in r.byName && n != name
    ensures var r' := Remove(r, name, order).registry; IndexedOk(r'.byService, r'.byInstance, r.byName[n])
  {
    RemoveShape(r, name, order);
    IndexAfter(r, Remove(r, name, order).registry, name, r.byName[name].key, order, n);
  }

  lemma RemovedIndex(r: Registry, name: Name, order: seq<Name>)
    requires Leaving(r, name, order)
    ensures var r' := Remove(r, name, order).registry;
            && (forall k <- r'.byInstance :: InstanceOk(r'.byName, r'.byInstance, k))
            && (forall s <- r'.byService :: ServiceOk(r'.byName, r'.byService, s))
  {
    var e, r' := r.byName[name], Remove(r, name, order).registry;
    RemoveShape(r, name, order);
    forall k | k in r'.byInstance ensures InstanceOk(r'.byName, r'.byInstance, k) {
      assert IndexedOk(r.byService, r.byInstance, e);
      assert InstanceOk(r.byName, r.byInstance, k);
      ReindexedInstance(r.byName, r.byInstance, name, e.key, order, k);
    }
    forall s | s in r'.byService ensures ServiceOk(r'.byName, r'.byService, s) {
      assert IndexedOk(r.byService, r.byInstance, e);
      assert ServiceOk(r.byName, r.byService, s);
      ReindexedService(r.byName, r.byService, name, e.key, order, s);
    }
  }

  lemma InstanceWithout(byName: map<Name, Endpoint>, byInstance: map<Key, Name>, name: Name, k: Key)
    requires InstanceOk(byName, byInstance, k) && (name in byName ==> byName[name].key.service == 0)
    ensures InstanceOk(byName - {name}, byInstance, k)
  {
  }

  lemma ServiceWithout(byName: map<Name, Endpoint>, byService: map<nat, Name>, name: Name, s: nat)
    requires ServiceOk(byName, byService, s) && (name in byName ==> byName[name].key.service == 0)
    ensures ServiceOk(byName - {name}, byService, s)
  {
  }

  /** A removed demoted record was in nobody's way. */
  lemma RemoveDemoted(r: Registry, name: Name)
    requires Good(r) && name in r.byName && r.byName[name].key.service == 0
    ensures Good(r.(byName := r.byName - {name}))
  {
    var r' := r.(byName := r.byName - {name});
    forall k | k in r.pools ensures PoolOk(r'.byName, k, r.pools[k], r.size) {
      UnrelatedPoolOk(r.byName, k, r.pools[k], r.size, name);
    }
    forall k | k in r.byInstance ensures InstanceOk(r'.byName, r'.byInstance, k) { InstanceWithout(r.byName, r.byInstance, name, k); }
    forall s | s in r.byService ensures ServiceOk(r'.byName, r'.byService, s) { ServiceWithout(r.byName, r.byService, name, s); }
  }

  /** Removing keeps the tables consistent; the indexes move on to another live endpoint if there is one. */
  lemma RemoveKeeps(r: Registry, name: Name, order: seq<Name>)
    requires Good(r) && forall n :: n in r.byName && n != name ==> n in order
    ensures Good(Remove(r, name, order).registry)
    ensures name !in Remove(r, name, order).registry.byName && name !in Remove(r, name, order).registry.pending
  {
    if name !in r.pending && name in r.byName {
      if r.byName[name].key.service == 0 {
        RemoveDemoted(r, name);
      } else {
        var r' := Remove(r, name, order).registry;
        assert Leaving(r, name, order);
        forall k | k in r'.pools ensures PoolOk(r'.byName, k, r'.pools[k], r'.size) { RemovedPool(r, name, order, k); }
        forall n | n in r'.byName ensures EndpointOk(r'.pools, n, r'.byName[n]) && IndexedOk(r'.byService, r'.byInstance, r'.byName[n]) {
          RemovedEndpoint(r, name, order, n);
          StillIndexed(r, name, order, n);
        }
        RemovedIndex(r, name, order);
      }
    }
  }

  // Whole runs.

  datatype Step =
    | Connect(name: Name, conn: nat)
    | Handshake(name: Name, key: Key, channel: nat, incarnation: nat, now: int)
    | Close(name: Name, order: seq<Name>)

  function Next(r: Registry, step: Step): Registry {
    match step
    case Connect(name, conn) => AddPending(r, name, conn).registry
    case Handshake(name, key, channel, incarnation, now) => Bind(r, name, key, channel, incarnation, now).registry
    case Close(name, order) => Remove(r, name, order).registry
  }

  ghost predicate Legal(r: Registry, steps: seq<Step>)
    decreases |steps|
  {
    steps == [] ||
    ((match steps[0]
      case Connect(_, _) => true
      case Handshake(_, key, channel, incarnation, _) => ValidHandshake(key, channel, incarnation)
      case Close(name, order) => forall n :: n in r.byName && n != name ==> n in order)
     && Legal(Next(r, steps[0]), steps[1..]))
  }

  function Run(r: Registry, steps: seq<Step>): Registry
    decreases |steps|
  {
    if steps == [] then r else Run(Next(r, steps[0]), steps[1..])
  }

  lemma {:induction false} RunKeepsGood(r: Registry, steps: seq<Step>)
    requires Good(r) && Legal(r, steps)
    ensures Good(Run(r, steps))
    decreases |steps|
  {
    if steps != [] {
      match steps[0] {
        case Connect(name, conn) => AddPendingKeeps(r, name, conn);
        case Handshake(name, key, channel, incarnation, now) => BindKeeps(r, name, key, channel, incarnation, now);
        case Close(name, order) => RemoveKeeps(r, name, order);
      }
      RunKeepsGood(Next(r, steps[0]), steps[1..]);
    }
  }

  predicate Serves(r: Registry, n: Name, key: Key) { n in r.byName && r.byName[n].key == key && key.service != 0 }

  predicate ServesFor(r: Registry, n: Name, service: nat) { n in r.byName && r.byName[n].key.service == service && service != 0 }

  predicate SlotReady(r: Registry, key: Key, c: nat, n: Name) {
    key in r.pools && c < |r.pools[key].channels| && r.pools[key].channels[c].ready && r.pools[key].channels[c].name == n
  }

  /** A Ready slot belongs to the pool's incarnation, and to the endpoint that serves through it. */
  lemma SlotsAndEndpointsCorrespond(r: Registry, key: Key, c: nat, n: Name)
    requires Good(r)
    ensures SlotReady(r, key, c, n) <==> Serves(r, n, key) && r.byName[n].channel == c
    ensures SlotReady(r, key, c, n) ==> r.pools[key].channels[c].incarnation == r.byName[n].incarnation == r.pools[key].incarnation
  {
    if SlotReady(r, key, c, n) {
      assert PoolOk(r.byName, key, r.pools[key], r.size);
      assert SlotOk(r.byName, key, r.pools[key].incarnation, r.pools[key].channels[c], c);
    }
    if Serves(r, n, key) { assert EndpointOk(r.pools, n, r.byName[n]); }
  }

  /** The indexes name a live endpoint exactly when there is one. */
  lemma IndexIff(r: Registry, key: Key, service: nat)
    requires Good(r)
    ensures if key in r.byInstance then Serves(r, r.byInstance[key], key) else forall n :: !Serves(r, n, key)
    ensures if service in r.byService then ServesFor(r, r.byService[service], service) else forall n :: !ServesFor(r, n, service)
  {
    assert key in r.byInstance ==> InstanceOk(r.byName, r.byInstance, key);
    assert service in r.byService ==> ServiceOk(r.byName, r.byService, service);
    forall n | n in r.byName ensures IndexedOk(r.byService, r.byInstance, r.byName[n]) {}
  }

  /**
   * Over every run of connects, valid handshakes and closes from the empty registry: a connection is
   * either waiting or bound, serving endpoints and Ready slots correspond one to one, the Ready slots
   * of a pool are of one incarnation, and both indexes name a live endpoint exactly when there is one.
   */
  lemma RegistryStaysConsistent(size: nat, steps: seq<Step>)
    requires size > 0 && Legal(Empty(size), steps)
    ensures var r := Run(Empty(size), steps); r.pending.Keys !! r.byName.Keys
    ensures var r := Run(Empty(size), steps);
            forall key, c: nat, n :: SlotReady(r, key, c, n) <==> Serves(r, n, key) && r.byName[n].channel == c
    ensures var r := Run(Empty(size), steps);
            forall key, c: nat, n :: SlotReady(r, key, c, n) ==> r.pools[key].channels[c].incarnation == r.byName[n].incarnation == r.pools[key].incarnation
    ensures var r := Run(Empty(size), steps);
            forall key :: if key in r.byInstance then Serves(r, r.byInstance[key], key) else forall n :: !Serves(r, n, key)
    ensures var r := Run(Empty(size), steps);
            forall s :: if s in r.byService then ServesFor(r, r.byService[s], s) else forall n :: !ServesFor(r, n, s)
  {
    RunKeepsGood(Empty(size), steps);
    var r := Run(Empty(size), steps);
    forall key, c: nat, n
      ensures SlotReady(r, key, c, n) <==> Serves(r, n, key) && r.byName[n].channel == c
      ensures SlotReady(r, key, c, n) ==> r.pools[key].channels[c].incarnation == r.byName[n].incarnation == r.pools[key].incarnation
    {
      SlotsAndEndpointsCorrespond(r, key, c, n);
    }
    forall key ensures if key in r.byInstance then Serves(r, r.byInstance[key], key) else forall n :: !Serves(r, n, key) {
      IndexIff(r, key, 0);
    }
    forall s ensures if s in r.byService then ServesFor(r, r.byService[s], s) else forall n :: !ServesFor(r, n, s) {
      IndexIff(r, NO_KEY, s);
    }
  }

  lemma {:induction false} ReadyMembers(channels: seq<Slot>, incarnation: nat, n: Name)
    ensures n in ReadyOf(channels, incarnation) <==>
            exists c :: 0 <= c < |channels| && channels[c].ready && channels[c].name == n && (incarnation == 0 || channels[c].incarnation == incarnation)
    decreases |channels|
  {
    if channels != [] {
      ReadyMembers(channels[1..], incarnation, n);
      if c :| 0 <= c < |channels| && channels[c].ready && channels[c].name == n && (incarnation == 0 || channels[c].incarnation == incarnation) {
        assert c > 0 ==> channels[1..][c - 1] == channels[c];
      }
      if c :| 0 <= c < |channels[1..]| && channels[1..][c].ready && channels[1..][c].name == n && (incarnation == 0 || channels[1..][c].incarnation == incarnation) {
        assert channels[c + 1] == channels[1..][c];
      }
    }
  }

  /** Selection offers exactly the endpoints that serve the instance. */
  lemma ReadyAreServing(r: Registry, key: Key, n: Name)
    requires Good(r) && key.service != 0 && key in r.pools
    ensures n in ReadyOf(r.pools[key].channels, r.pools[key].incarnation) <==> n in r.byName && r.byName[n].key == key
  {
    var pool := r.pools[key];
    assert PoolOk(r.byName, key, pool, r.size);
    ReadyMembers(pool.channels, pool.incarnation, n);
    forall c | 0 <= c < r.size ensures SlotOk(r.byName, key, pool.incarnation, pool.channels[c], c) {}
    if n in r.byName && r.byName[n].key == key { assert EndpointOk(r.pools, n, r.byName[n]); }
  }
}
