/** The gateway's registry of back-end connections: five tables that must tell one story. */
module RegistrySpec {
  import opened Common

  type Name = string

  const SCENE_SERVICE: nat := 8

  datatype Key = Key(service: nat, zone: nat, scene: nat)

  datatype Endpoint = Endpoint(key: Key, channel: nat, incarnation: nat, conn: nat, at: int)

  datatype Slot = Slot(name: Name, ready: bool, channel: nat, generation: nat, incarnation: nat, conn: nat)

  datatype Pool = Pool(incarnation: nat, channels: seq<Slot>)

  datatype Registry = Registry(
    byName: map<Name, Endpoint>, byService: map<nat, Name>, byInstance: map<Key, Name>,
    pools: map<Key, Pool>, pending: map<Name, nat>, size: nat)

  datatype Outcome = Outcome(registry: Registry, ok: bool, replaced: Name)

  const NO_KEY := Key(0, 0, 0)

  function Empty(size: nat): Registry { Registry(map[], map[], map[], map[], map[], size) }

  /** An endpoint stripped of its identity, kept only until its socket closes. */
  function Demoted(e: Endpoint): Endpoint { e.(key := NO_KEY, channel := 0, incarnation := 0) }

  function FreshPool(size: nat): Pool {
    Pool(0, seq(size, i requires 0 <= i < size => Slot("", false, i, 0, 0, 0)))
  }

  function PoolOf(r: Registry, key: Key): Pool {
    if key in r.pools && r.pools[key].channels != [] then r.pools[key] else FreshPool(r.size)
  }

  function AddPending(r: Registry, name: Name, conn: nat): Outcome {
    if name == "" || name in r.byName || name in r.pending then Outcome(r, false, "")
    else Outcome(r.(pending := r.pending[name := conn]), true, "")
  }

  // Binding, in the order the handshake does it.

  predicate Retires(s: Slot, keep: bool, incarnation: nat) {
    s.ready && s.name != "" && !(keep && s.incarnation == incarnation)
  }

  function Emptied(s: Slot): Slot { Slot("", false, s.channel, s.generation + 1, 0, 0) }

  /** This very connection already holds a slot of the new incarnation. */
  predicate Reconnects(channels: seq<Slot>, name: Name, incarnation: nat) {
    exists i :: 0 <= i < |channels| && channels[i].ready && channels[i].name == name && channels[i].incarnation == incarnation
  }

  function RetiredSlots(channels: seq<Slot>, keep: bool, incarnation: nat): seq<Slot> {
    seq(|channels|, i requires 0 <= i < |channels| =>
      if Retires(channels[i], keep, incarnation) then Emptied(channels[i]) else channels[i])
  }

  predicate RetiredName(channels: seq<Slot>, keep: bool, incarnation: nat, name: Name) {
    exists i :: 0 <= i < |channels| && Retires(channels[i], keep, incarnation) && channels[i].name == name
  }

  function DemoteAll(byName: map<Name, Endpoint>, channels: seq<Slot>, keep: bool, incarnation: nat): map<Name, Endpoint> {
    map n | n in byName :: if RetiredName(channels, keep, incarnation, n) then Demoted(byName[n]) else byName[n]
  }

  /** The first retired connection the registry still knows. */
  function FirstRetired(channels: seq<Slot>, byName: map<Name, Endpoint>, keep: bool, incarnation: nat): Name
    decreases |channels|
  {
    if channels == [] then ""
    else if Retires(channels[0], keep, incarnation) && channels[0].name in byName then channels[0].name
    else FirstRetired(channels[1..], byName, keep, incarnation)
  }

  /** A new process incarnation: every channel of the old one loses its slot and its identity. */
  function Retire(r: Registry, key: Key, name: Name, incarnation: nat): (Registry, Name)
    requires key in r.pools
  {
    var pool := r.pools[key];
    var keep := Reconnects(pool.channels, name, incarnation);
    var byName := DemoteAll(r.byName, pool.channels, keep, incarnation);
    var orphaned := key.service in r.byService && r.byService[key.service] in byName && byName[r.byService[key.service]].key.service == 0;
    (r.(byName := byName, byInstance := r.byInstance - {key},
        byService := if orphaned then r.byService - {key.service} else r.byService,
        pools := r.pools[key := Pool(incarnation, RetiredSlots(pool.channels, keep, incarnation))]),
     FirstRetired(pool.channels, r.byName, keep, incarnation))
  }

  /** Another connection takes the slot over: the old one loses its identity and its index entries. */
  function Displace(r: Registry, key: Key, stale: Name): Registry
    requires stale in r.byName
  {
    r.(byName := r.byName[stale := Demoted(r.byName[stale])],
       byService := if key.service in r.byService && r.byService[key.service] == stale then r.byService - {key.service} else r.byService,
       byInstance := if key in r.byInstance && r.byInstance[key] == stale then r.byInstance - {key} else r.byInstance)
  }

  function Install(r: Registry, name: Name, key: Key, channel: nat, incarnation: nat, now: int): Registry
    requires name in r.pending && key in r.pools && channel < |r.pools[key].channels|
  {
    var pool := r.pools[key];
    var slot := pool.channels[channel].(name := name, ready := true, incarnation := incarnation, conn := r.pending[name],
                                        generation := pool.channels[channel].generation + 1);
    r.(byName := r.byName[name := Endpoint(key, channel, incarnation, r.pending[name], now)],
       pools := r.pools[key := Pool(incarnation, pool.channels[channel := slot])],
       pending := r.pending - {name}, byInstance := r.byInstance[key := name], byService := r.byService[key.service := name])
  }

  /** A name bound before under the same identity gives its old slot up first. */
  function Released(r: Registry, name: Name): Registry
    requires name in r.byName
  {
    var e := r.byName[name];
    var freed := if e.key in r.pools && e.channel < |r.pools[e.key].channels| && r.pools[e.key].channels[e.channel].name == name
                 then r.pools[e.key := r.pools[e.key].(channels := r.pools[e.key].channels[e.channel := Slot("", false, e.channel, 0, 0, 0)])]
                 else r.pools;
    r.(pools := freed, byName := r.byName[name := e.(key := e.key.(service := 0))])
  }

  /** The second half of a bind, once the pool is open and old incarnations are gone. */
  function SlotTaken(r: Registry, name: Name, key: Key, channel: nat, incarnation: nat, now: int, first: Name): Outcome
    requires name in r.pending && key in r.pools
  {
    if channel >= |r.pools[key].channels| then Outcome(r, false, "")
    else
      var slot := r.pools[key].channels[channel];
      var taken := slot.ready && slot.name != name;
      if taken && slot.name !in r.byName then Outcome(r, false, "")
      else
        var r3 := if taken then Displace(r, key, slot.name) else r;
        var again := name in r3.byName;
        if again && (r3.byName[name].key != key || r3.byName[name].channel != channel || r3.byName[name].incarnation != incarnation)
        then Outcome(r3, false, "")
        else
          var r4 := if again then Released(r3, name) else r3;
          if channel >= |r4.pools[key].channels| then Outcome(r4, false, "")
          else Outcome(Install(r4, name, key, channel, incarnation, now), true, if again then name else if taken then slot.name else first)
  }

  function Bind(r: Registry, name: Name, key: Key, channel: nat, incarnation: nat, now: int): Outcome {
    if key.service == 0 || channel >= r.size || name !in r.pending then Outcome(r, false, "")
    else
      var r1 := r.(pools := r.pools[key := PoolOf(r, key)]);
      var was := r1.pools[key].incarnation;
      var (r2, first) := if incarnation != 0 && was != 0 && incarnation != was then Retire(r1, key, name, incarnation) else (r1, "");
      SlotTaken(r2, name, key, channel, incarnation, now, first)
  }

  // Removing.

  /** The first endpoint, in table order, that serves as a replacement. */
  function FirstServing(byName: map<Name, Endpoint>, order: seq<Name>, key: Key, anyInstance: bool): Option<Name>
    decreases |order|
  {
    if order == [] then None
    else if order[0] in byName && byName[order[0]].key.service != 0
            && (if anyInstance then byName[order[0]].key.service == key.service else byName[order[0]].key == key)
    then Some(order[0])
    else FirstServing(byName, order[1..], key, anyInstance)
  }

  predicate Active(pool: Pool) {
    exists i :: 0 <= i < |pool.channels| && pool.channels[i].ready && pool.channels[i].incarnation == pool.incarnation
  }

  function Vacated(pool: Pool, channel: nat): Pool
    requires channel < |pool.channels|
  {
    var p := pool.(channels := pool.channels[channel := Emptied(pool.channels[channel]).(channel := channel)]);
    if Active(p) then p else p.(incarnation := 0)
  }

  function Reindex<K>(index: map<K, Name>, k: K, name: Name, next: Option<Name>): map<K, Name> {
    if k in index && index[k] == name then (if next.Some? then index[k := next.value] else index - {k}) else index
  }

  function Remove(r: Registry, name: Name, order: seq<Name>): Outcome {
    if name in r.pending then Outcome(r.(pending := r.pending - {name}), true, "")
    else if name !in r.byName then Outcome(r, false, "")
    else if r.byName[name].key.service == 0 then Outcome(r.(byName := r.byName - {name}), true, "")
    else
      var e, byName := r.byName[name], r.byName - {name};
      var pools := if e.key in r.pools && e.channel < |r.pools[e.key].channels| && r.pools[e.key].channels[e.channel].name == name
                   then r.pools[e.key := Vacated(r.pools[e.key], e.channel)] else r.pools;
      Outcome(r.(byName := byName, pools := pools,
                 byInstance := Reindex(r.byInstance, e.key, name, FirstServing(byName, order, e.key, false)),
                 byService := Reindex(r.byService, e.key.service, name, FirstServing(byName, order, e.key, true))), true, "")
  }

  /** The connections of a pool's current incarnation, in channel order. */
  function ReadyOf(channels: seq<Slot>, incarnation: nat): seq<Name>
    decreases |channels|
  {
    if channels == [] then []
    else
      (if channels[0].ready && (incarnation == 0 || channels[0].incarnation == incarnation) then [channels[0].name] else [])
      + ReadyOf(channels[1..], incarnation)
  }

  // What the five tables always agree on.

  /** A handshake that passed validation: only scenes have incarnations and channels. */
  predicate ValidHandshake(key: Key, channel: nat, incarnation: nat) {
    && key.service != 0 && key.zone != 0
    && (if key.service == SCENE_SERVICE then key.scene != 0 && incarnation != 0 else key.scene == 0 && incarnation == 0 && channel == 0)
  }

  predicate SlotOk(byName: map<Name, Endpoint>, key: Key, incarnation: nat, s: Slot, channel: nat) {
    && s.channel == channel
    && (if s.ready then
          && s.name != "" && s.name in byName
          && byName[s.name].key == key && byName[s.name].channel == channel && byName[s.name].incarnation == s.incarnation == incarnation
          && key.service != 0 && (key.service == SCENE_SERVICE <==> s.incarnation != 0)
        else s.name == "")
  }

  predicate PoolOk(byName: map<Name, Endpoint>, key: Key, pool: Pool, size: nat) {
    && |pool.channels| == size && (key.service != SCENE_SERVICE ==> pool.incarnation == 0)
    && forall c :: 0 <= c < size ==> SlotOk(byName, key, pool.incarnation, pool.channels[c], c)
  }

  /** A serving endpoint has its Ready slot. */
  predicate EndpointOk(pools: map<Key, Pool>, name: Name, e: Endpoint) {
    e.key.service != 0 ==>
      && e.key in pools && e.channel < |pools[e.key].channels|
      && pools[e.key].channels[e.channel].ready && pools[e.key].channels[e.channel].name == name
  }

  predicate InstanceOk(byName: map<Name, Endpoint>, byInstance: map<Key, Name>, key: Key) {
    key in byInstance ==> byInstance[key] in byName && byName[byInstance[key]].key == key && key.service != 0
  }

  predicate ServiceOk(byName: map<Name, Endpoint>, byService: map<nat, Name>, service: nat) {
    service in byService ==> byService[service] in byName && byName[byService[service]].key.service == service && service != 0
  }

  predicate IndexedOk(byService: map<nat, Name>, byInstance: map<Key, Name>, e: Endpoint) {
    e.key.service != 0 ==> e.key.service in byService && e.key in byInstance
  }

  ghost predicate Good(r: Registry) {
    && r.size > 0 && r.pending.Keys !! r.byName.Keys && "" !in r.pending && "" !in r.byName
    && (forall key <- r.pools :: PoolOk(r.byName, key, r.pools[key], r.size))
    && (forall n <- r.byName :: EndpointOk(r.pools, n, r.byName[n]) && IndexedOk(r.byService, r.byInstance, r.byName[n]))
    && (forall key <- r.byInstance :: InstanceOk(r.byName, r.byInstance, key))
    && (forall service <- r.byService :: ServiceOk(r.byName, r.byService, service))
  }
}
