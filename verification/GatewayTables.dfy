/** The gateway's session table and return-route table as objects. */
module GatewayTables {
  import opened Common
  import S = SessionSpec

  class ClientSessionTable {
    var sessions: map<nat, S.Session>
    var index: map<nat, nat>
    var epochs: map<nat, nat>
    var nextId: nat

    ghost function Model(): S.Table
      reads this
    {
      S.Table(sessions, index, epochs, nextId)
    }

    constructor ()
      ensures Model() == S.Table(map[], map[], map[], 1) && S.Inverse(Model())
    {
      sessions, index, epochs, nextId := map[], map[], map[], 1;
    }

    method Create(service: nat) returns (id: nat)
      modifies `sessions, `nextId
      ensures Model() == S.Create(old(Model()), service) && id == old(nextId)
    {
      id := nextId;
      sessions := sessions[id := S.Session(0, 0, service, S.UNBOUND, false, false)];
      nextId := nextId + 1;
    }

    method EpochNow(player: nat) returns (e: nat)
      ensures e == S.EpochOf(Model(), player)
    {
      return if player in epochs then epochs[player] else 0;
    }

    /** Login: an older session of the player gives way, this one gets the next epoch. */
    method Bind(id: nat, player: nat, service: nat) returns (ok: bool, kicked: Option<nat>)
      modifies `sessions, `index, `epochs
      ensures ok == S.CanBind(old(Model()), id, player) && (ok <==> player != 0 && id in old(sessions) && S.EpochOf(old(Model()), player) < 0xFFFF_FFFF)
      ensures ok ==> Model() == S.Bind(old(Model()), id, player, service) && kicked == S.Kicked(old(Model()), id, player)
      ensures !ok ==> Model() == old(Model()) && kicked == None
    {
      var epoch := EpochNow(player);
      if player == 0 || id !in sessions || epoch >= S.LAST_EPOCH { return false, None; }
      kicked := None;
      if player in index && index[player] != id {
        kicked := Some(index[player]);
        sessions := S.Demoted(sessions, index[player]);
        index := index - {player};
      }
      var s := sessions[id];
      sessions := sessions[id := S.Session(epoch + 1, player, service, if s.service != service then S.UNBOUND else s.binding, true, false)];
      epochs := epochs[player := epoch + 1];
      index := index[player := id];
      assert index == old(index)[player := id];
      return true, kicked;
    }

    method SetDstService(id: nat, service: nat) returns (ok: bool)
      modifies `sessions, `epochs
      ensures (Model(), ok) == S.SetService(old(Model()), id, service)
    {
      if id !in sessions { return false; }
      var s := sessions[id];
      var changed := s.service != service;
      if changed && s.authed {
        var epoch := EpochNow(s.player);
        if epoch == S.LAST_EPOCH { return false; }
        epochs := epochs[s.player := epoch + 1];
        s := s.(epoch := epoch + 1);
      }
      if changed {
        s := s.(service := service, declared := false, binding := S.UNBOUND);
        sessions := sessions[id := s];
      }
      return true;
    }

    method SetSceneBinding(id: nat, b: S.Binding) returns (ok: bool)
      modifies `sessions
      ensures (Model(), ok) == S.SetBinding(old(Model()), id, b)
    {
      if b.scene == 0 || b.incarnation == 0 || b.name == "" || id !in sessions { return false; }
      var s := sessions[id];
      if !s.authed || s.service != S.SCENE_SERVICE { return false; }
      if s.binding.scene != 0 { return s.binding == b; }
      sessions := sessions[id := s.(binding := b)];
      return true;
    }

    /** Submits scene traffic only for a session that is still the expected one; the first accepted
        submission declares the player online, and a refused one changes nothing. */
    method SubmitScene(id: nat, expected: S.Session, submit: bool -> bool) returns (ok: bool)
      modifies `sessions
      ensures ok <==> id in old(sessions) && S.SameBinding(old(sessions)[id], expected) && submit(!old(sessions)[id].declared)
      ensures sessions == if ok then old(sessions)[id := old(sessions)[id].(declared := true)] else old(sessions)
    {
      if id !in sessions || !S.SameBinding(sessions[id], expected) { return false; }
      if !submit(!sessions[id].declared) { return false; }
      sessions := sessions[id := sessions[id].(declared := true)];
      return true;
    }

    method Erase(id: nat) returns (ok: bool)
      modifies `sessions, `index
      ensures Model() == S.Erase(old(Model()), id) && ok == (id in old(sessions))
    {
      if id !in sessions { return false; }
      var p := sessions[id].player;
      if p != 0 && p in index && index[p] == id { index := index - {p}; }
      sessions := sessions - {id};
      return true;
    }
  }

  datatype Route = Route(
    session: nat, requestId: nat, epoch: nat, player: nat, service: nat, zone: nat,
    binding: S.Binding, route: nat, routine: nat, createdAt: int)

  type Routes = map<nat, Route>

  /** The routes of other sessions. */
  function WithoutSession(routes: Routes, session: nat): Routes {
    map q | q in routes && routes[q].session != session :: routes[q]
  }

  predicate Expired(r: Route, now: int, ttl: nat) { now - r.createdAt > ttl }

  function Unexpired(routes: Routes, now: int, ttl: nat): Routes {
    map q | q in routes && !Expired(routes[q], now, ttl) :: routes[q]
  }

  class ReturnRouteTable {
    var routes: Routes

    constructor ()
      ensures routes == map[]
    {
      routes := map[];
    }

    method Add(q: nat, r: Route, maxSize: nat) returns (ok: bool)
      modifies `routes
      ensures ok <==> q != 0 && |old(routes)| < maxSize
      ensures routes == if ok then old(routes)[q := r] else old(routes)
    {
      if q == 0 || |routes| >= maxSize { return false; }
      routes := routes[q := r];
      return true;
    }

    /** One shot: a route that was taken is gone. */
    method Take(q: nat) returns (r: Option<Route>)
      modifies `routes
      ensures r == (if q in old(routes) then Some(old(routes)[q]) else None) && routes == old(routes) - {q}
    {
      if q !in routes { return None; }
      r := Some(routes[q]);
      routes := routes - {q};
    }

    method EraseBySession(session: nat) returns (n: nat)
      modifies `routes
      ensures routes == WithoutSession(old(routes), session) && n == |old(routes)| - |routes|
    {
      n := 0;
      ghost var was := routes;
      var left := routes.Keys;
      while left != {}
        invariant left <= routes.Keys <= was.Keys && n == |was| - |routes|
        invariant forall q <- routes :: routes[q] == was[q]
        invariant forall q :: q in was && q !in left ==> (q in routes <==> was[q].session != session)
        decreases left
      {
        var q :| q in left;
        if routes[q].session == session {
          assert |routes.Keys| == |(routes - {q}).Keys| + 1 by { assert routes.Keys == (routes - {q}).Keys + {q}; }
          routes := routes - {q};
          n := n + 1;
        }
        left := left - {q};
      }
      assert routes == WithoutSession(was, session);
    }

    /** Takes out every route past its time, each once. */
    method SweepExpired(now: int, ttl: nat) returns (expired: Routes)
      modifies `routes
      ensures routes == Unexpired(old(routes), now, ttl)
      ensures expired == map q | q in old(routes) && Expired(old(routes)[q], now, ttl) :: old(routes)[q]
    {
      ghost var was := routes;
      expired := map[];
      var left := routes.Keys;
      while left != {}
        invariant left <= routes.Keys <= was.Keys && (forall q <- routes :: routes[q] == was[q])
        invariant forall q :: q in was && q !in left ==> (q in routes <==> !Expired(was[q], now, ttl))
        invariant expired == map q | q in was && q !in left && Expired(was[q], now, ttl) :: was[q]
        decreases left
      {
        var q :| q in left;
        if Expired(routes[q], now, ttl) {
          expired := expired[q := routes[q]];
          routes := routes - {q};
        }
        left := left - {q};
      }
    }
  }
}
