/** The registry object of the gateway. */
module ServiceRegistry {
  import opened Common
  import R = RegistrySpec
  import opened RegistryTheorems

  class ServiceRegistry {
    var byName: map<R.Name, R.Endpoint>
    var byService: map<nat, R.Name>
    var byInstance: map<R.Key, R.Name>
    var pools: map<R.Key, R.Pool>
    var pending: map<R.Name, nat>
    var cursors: map<R.Key, nat>
    const size: nat

    ghost function Model(): R.Registry
      reads this
    {
      R.Registry(byName, byService, byInstance, pools, pending, size)
    }

    constructor (poolSize: nat)
      ensures Model() == R.Empty(if poolSize > 1 then poolSize else 1) && R.Good(Model())
    {
      size := if poolSize > 1 then poolSize else 1;
      byName, byService, byInstance, pools, pending, cursors := map[], map[], map[], map[], map[], map[];
    }

    method AddPending(name: R.Name, conn: nat) returns (ok: bool)
      modifies `pending
      ensures R.Outcome(Model(), ok, "") == R.AddPending(old(Model()), name, conn)
    {
      if name == "" || name in byName || name in pending { return false; }
      pending := pending[name := conn];
      return true;
    }

    /** Walks the channels of a pool and retires those of other incarnations. */
    method RetireChannels(key: R.Key, keep: bool, incarnation: nat) returns (first: R.Name)
      requires key in pools
      modifies `byName, `pools
      ensures byName == R.DemoteAll(old(byName), old(pools)[key].channels, keep, incarnation)
      ensures pools == old(pools)[key := old(pools)[key].(channels := R.RetiredSlots(old(pools)[key].channels, keep, incarnation))]
      ensures first == R.FirstRetired(old(pools)[key].channels, old(byName), keep, incarnation)
    {
      var channels, slots, i := pools[key].channels, [], 0;
      ghost var was := byName;
      first := "";
      while i < |channels|
        invariant i <= |channels| && slots == R.RetiredSlots(channels[..i], keep, incarnation)
        invariant byName == R.DemoteAll(was, channels[..i], keep, incarnation)
        invariant R.FirstRetired(channels, was, keep, incarnation)
               == if first != "" then first else R.FirstRetired(channels[i..], was, keep, incarnation)
        modifies `byName
      {
        OneMoreRetired(was, channels, i, keep, incarnation);
        var s := channels[i];
        if R.Retires(s, keep, incarnation) {
          if s.name in byName {
            if first == "" { first := s.name; }
            byName := byName[s.name := R.Demoted(byName[s.name])];
          }
          slots := slots + [R.Emptied(s)];
        } else {
          slots := slots + [s];
        }
        i := i + 1;
      }
      assert channels[..i] == channels;
      pools := pools[key := pools[key].(channels := slots)];
    }

    /** A new process incarnation replaces the old one as a whole. */
    method RetireOld(key: R.Key, name: R.Name, incarnation: nat) returns (first: R.Name)
      requires key in pools
      modifies `byName, `byService, `byInstance, `pools
      ensures (Model(), first) == R.Retire(old(Model()), key, name, incarnation)
    {
      var keep := R.Reconnects(pools[key].channels, name, incarnation);
      first := RetireChannels(key, keep, incarnation);
      byInstance := byInstance - {key};
      if key.service in byService && byService[key.service] in byName && byName[byService[key.service]].key.service == 0 {
        byService := byService - {key.service};
      }
      pools := pools[key := pools[key].(incarnation := incarnation)];
      assert pools == old(pools)[key := pools[key]];
    }

    method DisplaceStale(key: R.Key, stale: R.Name)
      requires stale in byName
      modifies `byName, `byService, `byInstance
      ensures Model() == R.Displace(old(Model()), key, stale)
    {
      byName := byName[stale := R.Demoted(byName[stale])];
      if key.service in byService && byService[key.service] == stale { byService := byService - {key.service}; }
      if key in byInstance && byInstance[key] == stale { byInstance := byInstance - {key}; }
    }

    method ReleaseOld(name: R.Name)
      requires name in byName
      modifies `byName, `pools
      ensures Model() == R.Released(old(Model()), name)
    {
      var e := byName[name];
      if e.key in pools && e.channel < |pools[e.key].channels| && pools[e.key].channels[e.channel].name == name {
        var slots := pools[e.key].channels[e.channel := R.Slot("", false, e.channel, 0, 0, 0)];
        pools := pools[e.key := pools[e.key].(channels := slots)];
      }
      byName := byName[name := e.(key := e.key.(service := 0))];
    }

    method InstallNew(name: R.Name, key: R.Key, channel: nat, incarnation: nat, now: int)
      requires name in pending && key in pools && channel < |pools[key].channels|
      modifies `byName, `byService, `byInstance, `pools, `pending
      ensures Model() == R.Install(old(Model()), name, key, channel, incarnation, now)
    {
      var conn, slot := pending[name], pools[key].channels[channel];
      slot := slot.(name := name, conn := conn, ready := true, incarnation := incarnation, generation := slot.generation + 1);
      pools := pools[key := R.Pool(incarnation, pools[key].channels[channel := slot])];
      byName := byName[name := R.Endpoint(key, channel, incarnation, conn, now)];
      pending := pending - {name};
      byInstance := byInstance[key := name];
      byService := byService[key.service := name];
    }

    /** A handshake: the connection gets its identity and its channel, whoever held it before loses it. */
    method Bind(name: R.Name, key: R.Key, channel: nat, incarnation: nat, now: int) returns (ok: bool, replaced: R.Name)
      modifies this
      ensures R.Outcome(Model(), ok, replaced) == R.Bind(old(Model()), name, key, channel, incarnation, now)
    {
      replaced := "";
      if key.service == 0 || channel >= size || name !in pending { return false, ""; }
      pools := pools[key := R.PoolOf(R.Registry(byName, byService, byInstance, pools, pending, size), key)];
      var was := pools[key].incarnation;
      var first := "";
      if incarnation != 0 && was != 0 && incarnation != was {
        first := RetireOld(key, name, incarnation);
      }
      ok, replaced := TakeSlot(name, key, channel, incarnation, now, first);
    }

    method TakeSlot(name: R.Name, key: R.Key, channel: nat, incarnation: nat, now: int, first: R.Name) returns (ok: bool, replaced: R.Name)
      requires name in pending && key in pools
      modifies `byName, `byService, `byInstance, `pools, `pending
      ensures R.Outcome(Model(), ok, replaced) == R.SlotTaken(old(Model()), name, key, channel, incarnation, now, first)
    {
      if channel >= |pools[key].channels| { return false, ""; }
      var slot := pools[key].channels[channel];
      var taken := slot.ready && slot.name != name;
      if taken {
        if slot.name !in byName { return false, ""; }
        DisplaceStale(key, slot.name);
      }
      var again := name in byName;
      if again {
        if byName[name].key != key || byName[name].channel != channel || byName[name].incarnation != incarnation { return false, ""; }
        ReleaseOld(name);
      }
      if channel >= |pools[key].channels| { return false, ""; }
      InstallNew(name, key, channel, incarnation, now);
      return true, if again then name else if taken then slot.name else first;
    }

    /** A closed connection: its slot is vacated and the indexes move on to another endpoint. */
    method RemoveByName(name: R.Name, order: seq<R.Name>) returns (ok: bool)
      modifies `byName, `byService, `byInstance, `pools, `pending
      ensures R.Outcome(Model(), ok, "") == R.Remove(old(Model()), name, order)
    {
      if name in pending {
        pending := pending - {name};
        return true;
      }
      if name !in byName { return false; }
      var e := byName[name];
      byName := byName - {name};
      if e.key.service == 0 { return true; }
      if e.key in pools && e.channel < |pools[e.key].channels| && pools[e.key].channels[e.channel].name == name {
        pools := pools[e.key := R.Vacated(pools[e.key], e.channel)];
      }
      if e.key in byInstance && byInstance[e.key] == name {
        var next := FindServing(order, e.key, false);
        byInstance := if next.Some? then byInstance[e.key := next.value] else byInstance - {e.key};
      }
      if e.key.service in byService && byService[e.key.service] == name {
        var next := FindServing(order, e.key, true);
        byService := if next.Some? then byService[e.key.service := next.value] else byService - {e.key.service};
      }
      return true;
    }

    method FindServing(order: seq<R.Name>, key: R.Key, anyInstance: bool) returns (n: Option<R.Name>)
      ensures n == R.FirstServing(byName, order, key, anyInstance)
    {
      var i := 0;
      while i < |order|
        invariant i <= |order| && R.FirstServing(byName, order, key, anyInstance) == R.FirstServing(byName, order[i..], key, anyInstance)
      {
        if order[i] in byName && byName[order[i]].key.service != 0
           && (if anyInstance then byName[order[i]].key.service == key.service else byName[order[i]].key == key) {
          return Some(order[i]);
        }
        i := i + 1;
      }
      return None;
    }

    static method ListReady(channels: seq<R.Slot>, incarnation: nat) returns (ready: seq<R.Name>)
      ensures ready == R.ReadyOf(channels, incarnation)
    {
      var i := 0;
      ready := [];
      while i < |channels|
        invariant i <= |channels| && R.ReadyOf(channels, incarnation) == ready + R.ReadyOf(channels[i..], incarnation)
      {
        NextReady(channels, incarnation, i, ready);
        if channels[i].ready && (incarnation == 0 || channels[i].incarnation == incarnation) { ready := ready + [channels[i].name]; }
        i := i + 1;
      }
    }

    /** Round robin over the Ready channels of a pool. */
    method SelectByScene(key: R.Key) returns (n: Option<R.Name>)
      modifies `cursors
      ensures var ready := if key in pools then R.ReadyOf(pools[key].channels, pools[key].incarnation) else [];
              var at := if key in old(cursors) then old(cursors)[key] else 0;
              && (if ready == [] then n == None && cursors == old(cursors)
                  else cursors == old(cursors)[key := at + 1]
                       && n == if ready[at % |ready|] in byName then Some(ready[at % |ready|]) else None)
    {
      if key !in pools { return None; }
      var ready := ListReady(pools[key].channels, pools[key].incarnation);
      if ready == [] { return None; }
      var at := if key in cursors then cursors[key] else 0;
      cursors := cursors[key := at + 1];
      return if ready[at % |ready|] in byName then Some(ready[at % |ready|]) else None;
    }
  }

  lemma NextReady(channels: seq<R.Slot>, incarnation: nat, i: nat, ready: seq<R.Name>)
    requires i < |channels|
    ensures var s := channels[i];
            ready + R.ReadyOf(channels[i..], incarnation)
            == (if s.ready && (incarnation == 0 || s.incarnation == incarnation) then ready + [s.name] else ready)
               + R.ReadyOf(channels[i + 1..], incarnation)
  {
    assert channels[i..][1..] == channels[i + 1..] && channels[i..][0] == channels[i];
  }

  lemma OneMoreRetired(was: map<R.Name, R.Endpoint>, channels: seq<R.Slot>, i: nat, keep: bool, incarnation: nat)
    requires i < |channels|
    ensures var s, so := channels[i], R.DemoteAll(was, channels[..i], keep, incarnation);
            && R.RetiredSlots(channels[..i + 1], keep, incarnation)
               == R.RetiredSlots(channels[..i], keep, incarnation) + [if R.Retires(s, keep, incarnation) then R.Emptied(s) else s]
            && R.DemoteAll(was, channels[..i + 1], keep, incarnation)
               == if R.Retires(s, keep, incarnation) && s.name in so then so[s.name := R.Demoted(so[s.name])] else so
  {
    var upto := channels[..i + 1];
    forall n ensures R.RetiredName(upto, keep, incarnation, n)
                <==> R.RetiredName(channels[..i], keep, incarnation, n) || (R.Retires(channels[i], keep, incarnation) && channels[i].name == n)
    {
      assert upto[i] == channels[i];
      assert forall k :: 0 <= k < i ==> upto[k] == channels[..i][k];
    }
  }
}
