/** What a handshake, a connect and a close leave in the registry's tables, written out. */
module RegistryProgress {
  import opened Common
  import opened RegistrySpec
  import opened RegistryTheorems

  /** Served until now by a connection that a handshake pushes out: the channel's holder, and every
      channel of another incarnation of the same process. */
  predicate Loses(r: Registry, key: Key, channel: nat, incarnation: nat, n: Name) {
    n in r.byName && r.byName[n].key == key && (r.byName[n].channel == channel || r.byName[n].incarnation != incarnation)
  }

  /** A connection that serves nothing, under its own socket. */
  predicate Idle(e: Endpoint, conn: nat, at: int) {
    e == Endpoint(Key(0, 0, 0), 0, 0, conn, at)
  }

  function SlotBefore(r: Registry, key: Key, c: nat): Slot {
    if key in r.pools && c < |r.pools[key].channels| then r.pools[key].channels[c] else Slot("", false, c, 0, 0, 0)
  }

  function Bump(b: bool): nat { if b then 1 else 0 }

  /** Another incarnation of the process holds the pool. */
  predicate Restarts(r: Registry, key: Key, incarnation: nat) {
    key in r.pools && incarnation != 0 && r.pools[key].incarnation != 0 && incarnation != r.pools[key].incarnation
  }

  ghost predicate Proper(r: Registry, name: Name, key: Key, channel: nat, incarnation: nat) {
    Good(r) && name in r.pending && channel < r.size && ValidHandshake(key, channel, incarnation)
  }

  // Opening the pool and retiring an old incarnation.

  lemma EndpointOfPool(r: Registry, key: Key, n: Name)
    requires Good(r) && key.service != 0 && n in r.byName && r.byName[n].key == key
    ensures key in r.pools && r.byName[n].incarnation == r.pools[key].incarnation
  {
    assert EndpointOk(r.pools, n, r.byName[n]);
    assert PoolOk(r.byName, key, r.pools[key], r.size);
    assert SlotOk(r.byName, key, r.pools[key].incarnation, r.pools[key].channels[r.byName[n].channel], r.byName[n].channel);
  }

  lemma RetiredNames(r: Registry, name: Name, key: Key, incarnation: nat, n: Name)
    requires Good(r) && name in r.pending && Restarts(r, key, incarnation) && key.service != 0 && n in r.byName
    ensures Retire(r, key, name, incarnation).0.byName.Keys == r.byName.Keys
    ensures Retire(r, key, name, incarnation).0.byName[n] == if r.byName[n].key == key then Demoted(r.byName[n]) else r.byName[n]
  {
    GoodIsNearly(r, key);
    NobodyReconnects(r, key, name, incarnation);
    RetiredAreItsOwn(r, key, incarnation, n);
  }

  /** Either the old incarnation is retired, or only an empty pool may be opened. */
  lemma PreparedIs(r: Registry, name: Name, key: Key, incarnation: nat)
    ensures Restarts(r, key, incarnation) && r.pools[key].channels != [] ==> Prepared(r, name, key, incarnation) == Retire(r, key, name, incarnation).0
    ensures !Restarts(r, key, incarnation) ==> Prepared(r, name, key, incarnation) == r.(pools := r.pools[key := PoolOf(r, key)])
  {
    if key in r.pools { assert r.pools[key := r.pools[key]] == r.pools; }
  }

  lemma PreparedNames(r: Registry, name: Name, key: Key, channel: nat, incarnation: nat, n: Name)
    requires Proper(r, name, key, channel, incarnation) && n in r.byName
    ensures var p := Prepared(r, name, key, incarnation);
            && p.byName.Keys == r.byName.Keys
            && p.byName[n] == if r.byName[n].key == key && r.byName[n].incarnation != incarnation then Demoted(r.byName[n]) else r.byName[n]
  {
    if r.byName[n].key == key { EndpointOfPool(r, key, n); IncarnationOfScene(r, key, n); }
    if key in r.pools { assert PoolOk(r.byName, key, r.pools[key], r.size); }
    PreparedIs(r, name, key, incarnation);
    if Restarts(r, key, incarnation) { RetiredNames(r, name, key, incarnation, n); }
  }

  lemma IncarnationOfScene(r: Registry, key: Key, n: Name)
    requires Good(r) && key.service != 0 && n in r.byName && r.byName[n].key == key
    ensures key.service == SCENE_SERVICE <==> r.byName[n].incarnation != 0
  {
    assert EndpointOk(r.pools, n, r.byName[n]);
    assert PoolOk(r.byName, key, r.pools[key], r.size);
    assert SlotOk(r.byName, key, r.pools[key].incarnation, r.pools[key].channels[r.byName[n].channel], r.byName[n].channel);
  }

  lemma PreparedSlots(r: Registry, name: Name, key: Key, channel: nat, incarnation: nat, c: nat)
    requires Proper(r, name, key, channel, incarnation) && c < r.size
    ensures var p, s := Prepared(r, name, key, incarnation), SlotBefore(r, key, c);
            && key in p.pools && |p.pools[key].channels| == r.size
            && p.pools[key].channels[c]
               == if s.ready && s.incarnation != incarnation then Slot("", false, c, s.generation + 1, 0, 0) else s
    ensures forall k <- r.pools :: k != key ==> k in Prepared(r, name, key, incarnation).pools && Prepared(r, name, key, incarnation).pools[k] == r.pools[k]
    ensures Prepared(r, name, key, incarnation).pools.Keys == r.pools.Keys + {key}
  {
    OpenKeeps(r, key);
    var r1 := r.(pools := r.pools[key := PoolOf(r, key)]);
    var pool := r1.pools[key];
    assert PoolOk(r1.byName, key, pool, r1.size);
    assert SlotOk(r1.byName, key, pool.incarnation, pool.channels[c], c);
    if key in r.pools { assert PoolOk(r.byName, key, r.pools[key], r.size); }
    assert pool.channels[c] == SlotBefore(r, key, c);
    if incarnation != 0 && pool.incarnation != 0 && incarnation != pool.incarnation {
      NobodyReconnects(r1, key, name, incarnation);
    }
  }

  lemma PreparedIndexes(r: Registry, name: Name, key: Key, incarnation: nat)
    ensures var p := Prepared(r, name, key, incarnation);
            && p.byInstance - {key} == r.byInstance - {key} && p.byService - {key.service} == r.byService - {key.service}
  {
  }

  // The handshake as a whole.

  /** Who is bound, to what, and under which socket. */
  lemma BindRenames(r: Registry, name: Name, key: Key, channel: nat, incarnation: nat, now: int, n: Name)
    requires Proper(r, name, key, channel, incarnation) && n in r.byName
    ensures var r' := Bind(r, name, key, channel, incarnation, now).registry;
            && n in r'.byName && n != name
            && (if Loses(r, key, channel, incarnation, n) then Idle(r'.byName[n], r.byName[n].conn, r.byName[n].at)
                else r'.byName[n] == r.byName[n])
  {
    var p := Prepared(r, name, key, incarnation);
    BindTakes(r, name, key, channel, incarnation, now);
    PreparedIsReady(r, name, key, channel, incarnation);
    TakenNames(p, name, key, channel, incarnation, now);
    PreparedNames(r, name, key, channel, incarnation, n);
    StaleIsServing(p, name, key, channel, incarnation);
    assert EndpointOk(p.pools, n, p.byName[n]);
  }

  /** What each slot of the pool holds, and how often it changed hands. */
  lemma BindSlots(r: Registry, name: Name, key: Key, channel: nat, incarnation: nat, now: int, c: nat)
    requires Proper(r, name, key, channel, incarnation) && c < r.size
    ensures var r', s := Bind(r, name, key, channel, incarnation, now).registry, SlotBefore(r, key, c);
            && key in r'.pools && |r'.pools[key].channels| == r.size && r'.pools[key].incarnation == incarnation
            && (var retired := s.ready && s.incarnation != incarnation;
                r'.pools[key].channels[c]
                == if c == channel then Slot(name, true, c, s.generation + 1 + Bump(retired), incarnation, r.pending[name])
                   else if retired then Slot("", false, c, s.generation + 1, 0, 0)
                   else s)
  {
    var p := Prepared(r, name, key, incarnation);
    BindTakes(r, name, key, channel, incarnation, now);
    PreparedIsReady(r, name, key, channel, incarnation);
    PreparedSlots(r, name, key, channel, incarnation, c);
    TakenPools(p, name, key, channel, incarnation, now);
    StaleIsServing(p, name, key, channel, incarnation);
  }

  lemma LoserHasSlot(r: Registry, key: Key, channel: nat, incarnation: nat, n: Name)
    requires Good(r) && Loses(r, key, channel, incarnation, n) && key.service != 0
    ensures key in r.pools && r.byName[n].channel < |r.pools[key].channels| == r.size
    ensures SlotReady(r, key, r.byName[n].channel, n) && r.byName[n].incarnation == r.pools[key].incarnation
  {
    assert EndpointOk(r.pools, n, r.byName[n]);
    assert PoolOk(r.byName, key, r.pools[key], r.size);
    assert SlotOk(r.byName, key, r.pools[key].incarnation, r.pools[key].channels[r.byName[n].channel], r.byName[n].channel);
  }

  lemma ReadyHasServer(r: Registry, key: Key, c: nat)
    requires Good(r) && key in r.pools && c < |r.pools[key].channels| && r.pools[key].channels[c].ready
    ensures var n := r.pools[key].channels[c].name; n in r.byName && n != "" && r.byName[n].key == key && r.byName[n].channel == c && r.byName[n].incarnation == r.pools[key].incarnation
  {
    assert PoolOk(r.byName, key, r.pools[key], r.size);
    assert SlotOk(r.byName, key, r.pools[key].incarnation, r.pools[key].channels[c], c);
  }

  lemma ReplacedIs(r: Registry, name: Name, key: Key, channel: nat, incarnation: nat, now: int)
    requires Proper(r, name, key, channel, incarnation)
    ensures Bind(r, name, key, channel, incarnation, now).replaced
            == if Restarts(r, key, incarnation) then FirstRetired(r.pools[key].channels, r.byName, false, incarnation)
               else if SlotBefore(r, key, channel).ready then SlotBefore(r, key, channel).name else ""
  {
    var p := Prepared(r, name, key, incarnation);
    PreparedIsReady(r, name, key, channel, incarnation);
    StaleIsServing(p, name, key, channel, incarnation);
    PreparedSlots(r, name, key, channel, incarnation, channel);
    if key in r.pools {
      assert PoolOk(r.byName, key, r.pools[key], r.size);
      assert SlotOk(r.byName, key, r.pools[key].incarnation, r.pools[key].channels[channel], channel);
      GoodIsNearly(r, key);
      NobodyReconnects(r, key, name, incarnation);
      assert r.pools[key := r.pools[key]] == r.pools;
    }
  }

  /** The connection reported as replaced is one that lost its slot, the lowest of them; "" if none did. */
  lemma ReplacedLoses(r: Registry, name: Name, key: Key, channel: nat, incarnation: nat, now: int, n: Name)
    requires Proper(r, name, key, channel, incarnation)
    ensures var replaced := Bind(r, name, key, channel, incarnation, now).replaced;
            && (replaced != "" ==> Loses(r, key, channel, incarnation, replaced))
            && (Loses(r, key, channel, incarnation, n) ==> replaced != "" && r.byName[replaced].channel <= r.byName[n].channel)
  {
    ReplacedIs(r, name, key, channel, incarnation, now);
    if Loses(r, key, channel, incarnation, n) { LoserHasSlot(r, key, channel, incarnation, n); }
    if key in r.pools && SlotBefore(r, key, channel).ready { ReadyHasServer(r, key, channel); }
    if Restarts(r, key, incarnation) {
      GoodIsNearly(r, key);
      FirstRetiredIsLowest(r, key, r.pools[key].channels, incarnation, 0);
    }
  }

  lemma {:induction false} FirstRetiredIsLowest(r: Registry, key: Key, channels: seq<Slot>, incarnation: nat, from: nat)
    requires Nearly(r, key) && key in r.pools && incarnation != r.pools[key].incarnation
    requires from <= |r.pools[key].channels| && channels == r.pools[key].channels[from..]
    ensures var first := FirstRetired(channels, r.byName, false, incarnation);
            if first == "" then forall c :: from <= c < |r.pools[key].channels| ==> !r.pools[key].channels[c].ready
            else first in r.byName && r.byName[first].key == key && r.byName[first].incarnation != incarnation
                 && forall c :: from <= c < |r.pools[key].channels| && r.pools[key].channels[c].ready ==> r.byName[first].channel <= c
    decreases |channels|
  {
    if channels != [] {
      assert PoolOk(r.byName, key, r.pools[key], r.size);
      assert SlotOk(r.byName, key, r.pools[key].incarnation, r.pools[key].channels[from], from);
      if !Retires(channels[0], false, incarnation) {
        FirstRetiredIsLowest(r, key, channels[1..], incarnation, from + 1);
      }
    }
  }

  /**
   * A handshake that succeeds (`BindKeeps` says when). The connection is bound under the socket it
   * waited with; exactly the channel's holder and the channels of another incarnation stop serving,
   * under sockets of their own; both indexes name the newcomer and nothing else moves.
   */
  lemma BindOutcome(r: Registry, name: Name, key: Key, channel: nat, incarnation: nat, now: int)
    requires Good(r) && ValidHandshake(key, channel, incarnation) && Bind(r, name, key, channel, incarnation, now).ok
    ensures name in r.pending && channel < r.size
    ensures var r' := Bind(r, name, key, channel, incarnation, now).registry;
            && r'.byName.Keys == r.byName.Keys + {name} && r'.pending == r.pending - {name}
            && r'.byName[name] == Endpoint(key, channel, incarnation, r.pending[name], now)
    ensures var r' := Bind(r, name, key, channel, incarnation, now).registry;
            forall n <- r.byName :: n in r'.byName && if Loses(r, key, channel, incarnation, n) then Idle(r'.byName[n], r.byName[n].conn, r.byName[n].at)
                                                      else r'.byName[n] == r.byName[n]
    ensures var r' := Bind(r, name, key, channel, incarnation, now).registry;
            && r'.byInstance == (r.byInstance - {key})[key := name]
            && r'.byService == (r.byService - {key.service})[key.service := name]
            && r'.pools.Keys == r.pools.Keys + {key} && forall k <- r.pools :: k != key ==> r'.pools[k] == r.pools[k]
  {
    var p, r' := Prepared(r, name, key, incarnation), Bind(r, name, key, channel, incarnation, now).registry;
    BindKeeps(r, name, key, channel, incarnation, now);
    BindTakes(r, name, key, channel, incarnation, now);
    PreparedIsReady(r, name, key, channel, incarnation);
    TakenNames(p, name, key, channel, incarnation, now);
    TakenTables(p, name, key, channel, incarnation, now);
    TakenPools(p, name, key, channel, incarnation, now);
    PreparedSlots(r, name, key, channel, incarnation, channel);
    PreparedIndexes(r, name, key, incarnation);
    SamePrepared(r, name, key, incarnation);
    forall n | n in r.byName
      ensures n in r'.byName && if Loses(r, key, channel, incarnation, n) then Idle(r'.byName[n], r.byName[n].conn, r.byName[n].at)
                                else r'.byName[n] == r.byName[n]
    {
      BindRenames(r, name, key, channel, incarnation, now, n);
    }
    IndexMoves(p, r, r', name, key);
  }

  lemma SamePrepared(r: Registry, name: Name, key: Key, incarnation: nat)
    ensures Prepared(r, name, key, incarnation).byName.Keys == r.byName.Keys && Prepared(r, name, key, incarnation).pending == r.pending
  {
  }

  lemma IndexMoves(p: Registry, r: Registry, r': Registry, name: Name, key: Key)
    requires p.byInstance - {key} == r.byInstance - {key} && p.byService - {key.service} == r.byService - {key.service}
    requires r'.byService.Keys == p.byService.Keys + {key.service} && r'.byService[key.service] == name
    requires forall s <- p.byService :: s != key.service ==> r'.byService[s] == p.byService[s]
    requires r'.byInstance.Keys == p.byInstance.Keys + {key} && r'.byInstance[key] == name
    requires forall k <- p.byInstance :: k != key ==> r'.byInstance[k] == p.byInstance[k]
    ensures r'.byInstance == (r.byInstance - {key})[key := name] && r'.byService == (r.byService - {key.service})[key.service := name]
  {
    assert r'.byInstance == (p.byInstance - {key})[key := name];
    assert r'.byService == (p.byService - {key.service})[key.service := name];
  }

  /** A connection is taken in exactly when it has a name that no other has, waiting or bound. */
  lemma ConnectOutcome(r: Registry, name: Name, conn: nat)
    ensures var o := AddPending(r, name, conn);
            && (o.ok <==> |name| > 0 && name !in r.byName.Keys + r.pending.Keys)
            && (if o.ok then o.registry.pending == r.pending[name := conn] && o.registry == r.(pending := o.registry.pending) else o.registry == r)
  {
  }

  lemma RunTwo(r: Registry, one: Step, two: Step)
    ensures Run(r, [one, two]) == Next(Next(r, one), two)
  {
    assert [one, two][1..] == [two] && [two][1..] == [];
    assert Run(Next(r, one), [two]) == Run(Next(Next(r, one), two), []);
  }

  lemma BoundServes(r: Registry, name: Name, key: Key, channel: nat, incarnation: nat, now: int)
    requires Proper(r, name, key, channel, incarnation)
    ensures var r' := Bind(r, name, key, channel, incarnation, now).registry;
            && Good(r') && name in r'.byName && r'.byName[name] == Endpoint(key, channel, incarnation, r.pending[name], now)
            && SlotReady(r', key, channel, name) && r'.pools[key].channels[channel].conn == r.pending[name]
            && key in r'.byInstance && r'.byInstance[key] == name && key.service in r'.byService && r'.byService[key.service] == name
  {
    BindKeeps(r, name, key, channel, incarnation, now);
    BindOutcome(r, name, key, channel, incarnation, now);
    BindSlots(r, name, key, channel, incarnation, now, channel);
  }

  /** From any consistent registry, a connection whose name is free is serving after it connects and
      shakes hands: its endpoint, its slot and both indexes agree, and the slot leads to its own socket. */
  lemma ConnectThenServe(r: Registry, name: Name, conn: nat, key: Key, channel: nat, incarnation: nat, now: int)
    requires Good(r) && name != "" && name !in r.byName && name !in r.pending
    requires channel < r.size && ValidHandshake(key, channel, incarnation)
    ensures var r' := Run(r, [Connect(name, conn), Handshake(name, key, channel, incarnation, now)]);
            && Good(r') && name in r'.byName && r'.byName[name] == Endpoint(key, channel, incarnation, conn, now)
            && SlotReady(r', key, channel, name) && r'.pools[key].channels[channel].conn == conn
            && key in r'.byInstance && r'.byInstance[key] == name && key.service in r'.byService && r'.byService[key.service] == name
  {
    AddPendingKeeps(r, name, conn);
    BoundServes(AddPending(r, name, conn).registry, name, key, channel, incarnation, now);
    RunTwo(r, Connect(name, conn), Handshake(name, key, channel, incarnation, now));
  }

  // Closing.

  lemma VacatedIs(pool: Pool, channel: nat, c: nat)
    requires channel < |pool.channels| && pool.channels[channel].channel == channel
    ensures |Vacated(pool, channel).channels| == |pool.channels|
    ensures c < |pool.channels| ==>
              Vacated(pool, channel).channels[c]
              == if c == channel then Slot("", false, c, pool.channels[c].generation + 1, 0, 0) else pool.channels[c]
    ensures Vacated(pool, channel).incarnation
            == if exists i :: 0 <= i < |pool.channels| && i != channel && pool.channels[i].ready && pool.channels[i].incarnation == pool.incarnation
               then pool.incarnation else 0
  {
    var p := pool.(channels := pool.channels[channel := Emptied(pool.channels[channel]).(channel := channel)]);
    if i :| 0 <= i < |pool.channels| && i != channel && pool.channels[i].ready && pool.channels[i].incarnation == pool.incarnation {
      assert p.channels[i].ready && p.channels[i].incarnation == p.incarnation;
    }
  }

  lemma ReindexOnly<K>(index: map<K, Name>, k: K, name: Name, next: Option<Name>)
    ensures Reindex(index, k, name, next) - {k} == index - {k}
    ensures k in index && index[k] != name ==> Reindex(index, k, name, next) == index
  {
  }

  /** Which tables a close may touch, and where. */
  lemma ClosedTables(r: Registry, name: Name, order: seq<Name>) returns (byInstance: Option<Name>, byService: Option<Name>)
    requires Leaving(r, name, order)
    ensures var e := r.byName[name];
            && e.key in r.pools && e.channel < |r.pools[e.key].channels| == r.size && e.key.service != 0
            && Remove(r, name, order)
               == Outcome(r.(byName := r.byName - {name}, pools := r.pools[e.key := Vacated(r.pools[e.key], e.channel)],
                             byInstance := Reindex(r.byInstance, e.key, name, byInstance),
                             byService := Reindex(r.byService, e.key.service, name, byService)), true, "")
  {
    RemoveShape(r, name, order);
    var e, byName := r.byName[name], r.byName - {name};
    byInstance, byService := FirstServing(byName, order, e.key, false), FirstServing(byName, order, e.key, true);
  }

  lemma OthersServe(r: Registry, key: Key, name: Name)
    requires Good(r) && Serves(r, name, key) && key in r.pools
    ensures (exists m :: m != name && Serves(r, m, key))
            <==> exists i :: 0 <= i < |r.pools[key].channels| && i != r.byName[name].channel && r.pools[key].channels[i].ready
                             && r.pools[key].channels[i].incarnation == r.pools[key].incarnation
  {
    if m :| m != name && Serves(r, m, key) {
      SlotsAndEndpointsCorrespond(r, key, r.byName[m].channel, m);
      SlotsAndEndpointsCorrespond(r, key, r.byName[m].channel, name);
    }
    if i: nat :| i < |r.pools[key].channels| && i != r.byName[name].channel && r.pools[key].channels[i].ready {
      SlotsAndEndpointsCorrespond(r, key, i, r.pools[key].channels[i].name);
    }
  }

  /** The slot is free and one generation on; the pool forgets its incarnation with its last server. */
  lemma ClosedSlots(r: Registry, name: Name, order: seq<Name>, c: nat)
    requires Leaving(r, name, order) && c < r.size
    ensures var e, pools := r.byName[name], Remove(r, name, order).registry.pools;
            && e.key in r.pools && e.key in pools && |pools[e.key].channels| == r.size
            && pools[e.key].channels[c]
               == (if c == e.channel then Slot("", false, c, SlotBefore(r, e.key, c).generation + 1, 0, 0) else SlotBefore(r, e.key, c))
            && pools[e.key].incarnation == if exists m :: m != name && Serves(r, m, e.key) then r.pools[e.key].incarnation else 0
  {
    var e := r.byName[name];
    var _, _ := ClosedTables(r, name, order);
    SlotNumbered(r, e.key, e.channel);
    VacatedIs(r.pools[e.key], e.channel, c);
    OthersServe(r, e.key, name);
  }

  lemma SlotNumbered(r: Registry, key: Key, c: nat)
    requires Good(r) && key in r.pools && c < |r.pools[key].channels|
    ensures r.pools[key].channels[c].channel == c
  {
    assert PoolOk(r.byName, key, r.pools[key], r.size);
    assert SlotOk(r.byName, key, r.pools[key].incarnation, r.pools[key].channels[c], c);
  }

  predicate Closes(r: Registry, name: Name, e: Endpoint, r': Registry) {
    && r'.byName == r.byName - {name} && r'.pending == r.pending && r'.pools.Keys == r.pools.Keys
    && (forall k <- r.pools :: k != e.key ==> r'.pools[k] == r.pools[k])
    && r'.byInstance - {e.key} == r.byInstance - {e.key} && r'.byService - {e.key.service} == r.byService - {e.key.service}
    && (e.key in r.byInstance && r.byInstance[e.key] != name ==> r'.byInstance == r.byInstance)
    && (e.key.service in r.byService && r.byService[e.key.service] != name ==> r'.byService == r.byService)
  }

  lemma ClosesByShape(r: Registry, name: Name, e: Endpoint, pool: Pool, byInstance: Option<Name>, byService: Option<Name>)
    requires e.key in r.pools
    ensures Closes(r, name, e, r.(byName := r.byName - {name}, pools := r.pools[e.key := pool],
                                  byInstance := Reindex(r.byInstance, e.key, name, byInstance),
                                  byService := Reindex(r.byService, e.key.service, name, byService)))
  {
    ReindexOnly(r.byInstance, e.key, name, byInstance);
    ReindexOnly(r.byService, e.key.service, name, byService);
  }

  /** A serving connection that closes is forgotten and nobody else is; each index that named it moves
      to another server (`IndexIff`), the rest stay. */
  lemma CloseOutcome(r: Registry, name: Name, order: seq<Name>)
    requires Leaving(r, name, order)
    ensures Remove(r, name, order).ok && Closes(r, name, r.byName[name], Remove(r, name, order).registry)
  {
    var byInstance, byService := ClosedTables(r, name, order);
    ClosesByShape(r, name, r.byName[name], Vacated(r.pools[r.byName[name].key], r.byName[name].channel), byInstance, byService);
  }

  /** One that serves nothing leaves without a trace, and closing an unknown one changes nothing. */
  lemma QuietClose(r: Registry, name: Name, order: seq<Name>)
    requires Good(r) && (name in r.byName ==> r.byName[name].key.service == 0)
    ensures Remove(r, name, order).registry == r.(pending := r.pending - {name}, byName := r.byName - {name})
    ensures Remove(r, name, order).ok <==> name in r.pending || name in r.byName
  {
    assert name in r.pending ==> r.byName - {name} == r.byName;
    assert name !in r.pending ==> r.pending - {name} == r.pending;
    assert name !in r.byName ==> r.byName - {name} == r.byName;
  }
}
