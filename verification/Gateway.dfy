/** The gateway's return path: requests forwarded under internal numbers, replies routed back. */
module Gateway {
  import S = SessionSpec
  import opened GatewayTables

  /** A request as it was forwarded, and a reply as it was delivered. */
  datatype Forwarded = Forwarded(session: nat, epoch: nat, requestId: nat, player: nat)

  datatype Delivered = Delivered(number: nat, session: nat, epoch: nat, requestId: nat, player: nat)

  /** forwarded and delivered are histories of what went out to back ends and to clients. */
  datatype World = World(table: S.Table, routes: Routes, nextNumber: nat, forwarded: map<nat, Forwarded>, delivered: seq<Delivered>)

  /** The back end a frame came from, and the request context it claims. */
  datatype Frame = Frame(number: nat, service: nat, zone: nat, binding: S.Binding, player: nat, route: nat, routine: nat)

  datatype Step =
    | Open(service: nat)
    | Authenticate(id: nat, player: nat, service: nat)
    | Redirect(id: nat, service: nat)
    | BindScene(id: nat, binding: S.Binding)
    | Forward(id: nat, route: Route, limit: nat)
    | Refuse(number: nat)
    | Respond(frame: Frame)
    | Sweep(now: int, ttl: nat)
    | Close(id: nat)

  /** A route's session is still there, authenticated, in the epoch of the request. */
  predicate StillThere(t: S.Table, r: Route) {
    r.session in t.sessions && t.sessions[r.session].authed && t.sessions[r.session].epoch == r.epoch
  }

  /** The client gets its own request number back; without its session the reply is dropped. */
  function Deliver(w: World, number: nat, r: Route): World {
    if StillThere(w.table, r) then
      var s := w.table.sessions[r.session];
      w.(delivered := w.delivered + [Delivered(number, r.session, s.epoch, r.requestId, s.player)])
    else w
  }

  function Take(w: World, number: nat): World { w.(routes := w.routes - {number}) }

  /** Login, with the older session of the player thrown out together with its routes. */
  function AuthenticateAt(w: World, id: nat, player: nat, service: nat): World {
    if !S.CanBind(w.table, id, player) then w
    else
      var kicked, t := S.Kicked(w.table, id, player), S.Bind(w.table, id, player, service);
      if kicked.None? then w.(table := t)
      else w.(table := S.Erase(t, kicked.value), routes := WithoutSession(w.routes, kicked.value))
  }

  /** A request of an authenticated session goes out under the next internal number. */
  function ForwardAt(w: World, id: nat, route: Route, limit: nat): World {
    if id !in w.table.sessions || !w.table.sessions[id].authed then w
    else
      var s, n := w.table.sessions[id], w.nextNumber;
      var r := route.(session := id, epoch := s.epoch, player := s.player);
      if n == 0 || |w.routes| >= limit then w.(nextNumber := n + 1)
      else w.(routes := w.routes[n := r], nextNumber := n + 1, forwarded := w.forwarded[n := Forwarded(id, s.epoch, r.requestId, s.player)])
  }

  /** The frame answers the request from the very back end it was sent to. */
  predicate Matches(f: Frame, r: Route) {
    && r.service == f.service && r.player == f.player && r.route == f.route && r.routine == f.routine
    && ((r.binding.name == "" && r.zone == 0 && r.binding.incarnation == 0) || (r.binding == f.binding && r.zone == f.zone))
  }

  /** The session has moved to another scene since the request. */
  predicate Moved(t: S.Table, r: Route, f: Frame) {
    && !(r.binding.name == "" && r.zone == 0 && r.binding.incarnation == 0) && f.service == S.SCENE_SERVICE
    && r.session in t.sessions && t.sessions[r.session].binding.scene != 0 && t.sessions[r.session].binding != r.binding
  }

  function RespondAt(w: World, f: Frame): World {
    if f.number == 0 || f.number !in w.routes || !Matches(f, w.routes[f.number]) then w
    else
      var r := w.routes[f.number];
      if Moved(w.table, r, f) then Take(w, f.number) else Deliver(Take(w, f.number), f.number, r)
  }

  /** Timed-out requests, answered in some order. */
  function DeliverAll(w: World, expired: Routes, order: seq<nat>): World
    decreases |order|
  {
    if order == [] then w
    else DeliverAll(if order[0] in expired then Deliver(w, order[0], expired[order[0]]) else w, expired - {order[0]}, order[1..])
  }

  function SweepAt(w: World, now: int, ttl: nat, order: seq<nat>): World {
    DeliverAll(w.(routes := Unexpired(w.routes, now, ttl)),
               map q | q in w.routes && Expired(w.routes[q], now, ttl) :: w.routes[q], order)
  }

  ghost function Next(w: World, step: Step, order: seq<nat>): World {
    match step
    case Open(service) => w.(table := S.Create(w.table, service))
    case Authenticate(id, player, service) => AuthenticateAt(w, id, player, service)
    case Redirect(id, service) => w.(table := S.SetService(w.table, id, service).0)
    case BindScene(id, binding) => w.(table := S.SetBinding(w.table, id, binding).0)
    case Forward(id, route, limit) => ForwardAt(w, id, route, limit)
    case Refuse(number) => if number in w.routes then Deliver(Take(w, number), number, w.routes[number]) else w
    case Respond(frame) => RespondAt(w, frame)
    case Sweep(now, ttl) => SweepAt(w, now, ttl, order)
    case Close(id) => w.(table := S.Erase(w.table, id), routes := WithoutSession(w.routes, id))
  }

  // At most one reply, to the right session, under the right number.

  /** A waiting route is the forwarded request, and nothing was delivered for it. */
  predicate RouteOk(w: World, n: nat)
    requires n in w.routes
  {
    && n < w.nextNumber && n in w.forwarded
    && var r := w.routes[n]; w.forwarded[n] == Forwarded(r.session, r.epoch, r.requestId, r.player)
  }

  ghost predicate Unanswered(delivered: seq<Delivered>, n: nat) {
    forall i :: 0 <= i < |delivered| ==> delivered[i].number != n
  }

  predicate ReplyOk(forwarded: map<nat, Forwarded>, d: Delivered) {
    && d.number in forwarded
    && forwarded[d.number].session == d.session && forwarded[d.number].epoch == d.epoch && forwarded[d.number].requestId == d.requestId
  }

  ghost predicate Good(w: World) {
    && w.nextNumber > 0
    && (forall n <- w.forwarded :: 0 < n < w.nextNumber)
    && (forall n <- w.routes :: RouteOk(w, n) && Unanswered(w.delivered, n))
    && (forall i :: 0 <= i < |w.delivered| ==> ReplyOk(w.forwarded, w.delivered[i]))
    && (forall i, j :: 0 <= i < j < |w.delivered| ==> w.delivered[i].number != w.delivered[j].number)
  }

  /** Taking a route out and answering it keeps the books straight. */
  lemma DeliverKeeps(w: World, n: nat, r: Route)
    requires Good(w) && n !in w.routes && Unanswered(w.delivered, n) && n in w.forwarded
    requires w.forwarded[n] == Forwarded(r.session, r.epoch, r.requestId, r.player)
    ensures Good(Deliver(w, n, r))
    ensures forall m :: m != n && Unanswered(w.delivered, m) ==> Unanswered(Deliver(w, n, r).delivered, m)
  {
    var w' := Deliver(w, n, r);
    forall m | m in w'.routes ensures RouteOk(w', m) && Unanswered(w'.delivered, m) {
      assert RouteOk(w, m) && Unanswered(w.delivered, m);
    }
  }

  lemma FewerRoutesKeep(w: World, routes: Routes, table: S.Table)
    requires Good(w) && (forall n <- routes :: n in w.routes && routes[n] == w.routes[n])
    ensures Good(w.(routes := routes, table := table))
  {
    var w' := w.(routes := routes, table := table);
    forall n | n in w'.routes ensures RouteOk(w', n) && Unanswered(w'.delivered, n) {
      assert RouteOk(w, n) && Unanswered(w.delivered, n);
    }
  }

  lemma TakeAndDeliver(w: World, n: nat)
    requires Good(w) && n in w.routes
    ensures Good(Deliver(Take(w, n), n, w.routes[n])) && Good(Take(w, n))
  {
    assert RouteOk(w, n) && Unanswered(w.delivered, n);
    FewerRoutesKeep(w, w.routes - {n}, w.table);
    DeliverKeeps(Take(w, n), n, w.routes[n]);
  }

  /** The expired routes are known, unanswered and no longer waiting. */
  ghost predicate Owed(w: World, expired: Routes) {
    forall n <- expired ::
      && n !in w.routes && n in w.forwarded && Unanswered(w.delivered, n)
      && w.forwarded[n] == Forwarded(expired[n].session, expired[n].epoch, expired[n].requestId, expired[n].player)
  }

  lemma {:induction false} DeliverAllKeeps(w: World, expired: Routes, order: seq<nat>)
    requires Good(w) && Owed(w, expired)
    ensures Good(DeliverAll(w, expired, order))
    decreases |order|
  {
    if order != [] {
      var n := order[0];
      if n in expired { DeliverKeeps(w, n, expired[n]); }
      DeliverAllKeeps(if n in expired then Deliver(w, n, expired[n]) else w, expired - {n}, order[1..]);
    }
  }

  lemma ForwardKeeps(w: World, id: nat, route: Route, limit: nat)
    requires Good(w)
    ensures Good(ForwardAt(w, id, route, limit))
  {
    var w' := ForwardAt(w, id, route, limit);
    forall n | n in w'.routes ensures RouteOk(w', n) && Unanswered(w'.delivered, n) {
      if n in w.routes && n != w.nextNumber { assert RouteOk(w, n) && Unanswered(w.delivered, n); }
      forall i | 0 <= i < |w.delivered| ensures w.delivered[i].number != w.nextNumber { assert ReplyOk(w.forwarded, w.delivered[i]); }
    }
    forall i | 0 <= i < |w'.delivered| ensures ReplyOk(w'.forwarded, w'.delivered[i]) {
      assert ReplyOk(w.forwarded, w.delivered[i]);
    }
  }

  lemma SweepKeeps(w: World, now: int, ttl: nat, order: seq<nat>)
    requires Good(w)
    ensures Good(SweepAt(w, now, ttl, order))
  {
    var w' := w.(routes := Unexpired(w.routes, now, ttl));
    var expired: Routes := map q | q in w.routes && Expired(w.routes[q], now, ttl) :: w.routes[q];
    FewerRoutesKeep(w, Unexpired(w.routes, now, ttl), w.table);
    forall n | n in expired ensures RouteOk(w, n) && Unanswered(w.delivered, n) {}
    DeliverAllKeeps(w', expired, order);
  }

  /** Every step keeps it: whatever the back ends send, however often, in whatever order. */
  lemma StepKeepsGood(w: World, step: Step, order: seq<nat>)
    requires Good(w)
    ensures Good(Next(w, step, order))
  {
    match step
    case Open(service) => FewerRoutesKeep(w, w.routes, S.Create(w.table, service));
    case Authenticate(id, player, service) =>
      var w' := AuthenticateAt(w, id, player, service);
      FewerRoutesKeep(w, w'.routes, w'.table);
    case Redirect(id, service) => FewerRoutesKeep(w, w.routes, S.SetService(w.table, id, service).0);
    case BindScene(id, binding) => FewerRoutesKeep(w, w.routes, S.SetBinding(w.table, id, binding).0);
    case Forward(id, route, limit) => ForwardKeeps(w, id, route, limit);
    case Refuse(number) => if number in w.routes { TakeAndDeliver(w, number); }
    case Respond(frame) => if frame.number in w.routes { TakeAndDeliver(w, frame.number); }
    case Sweep(now, ttl) => SweepKeeps(w, now, ttl, order);
    case Close(id) => FewerRoutesKeep(w, WithoutSession(w.routes, id), S.Erase(w.table, id));
  }

  ghost function Run(w: World, steps: seq<(Step, seq<nat>)>): World
    decreases |steps|
  {
    if steps == [] then w else Run(Next(w, steps[0].0, steps[0].1), steps[1..])
  }

  lemma {:induction false} RunKeepsGood(w: World, steps: seq<(Step, seq<nat>)>)
    requires Good(w)
    ensures Good(Run(w, steps))
    decreases |steps|
  {
    if steps != [] {
      StepKeepsGood(w, steps[0].0, steps[0].1);
      RunKeepsGood(Next(w, steps[0].0, steps[0].1), steps[1..]);
    }
  }

  function Start(): World { World(S.Table(map[], map[], map[], 1), map[], 1, map[], []) }

  /** On every run each forwarded request gets at most one reply, delivered to the session that sent
      it, in the epoch it was sent in, under the client's own request number. */
  lemma OneReplyToTheRightSession(steps: seq<(Step, seq<nat>)>, i: nat, j: nat)
    requires var w := Run(Start(), steps); i < |w.delivered| && j < |w.delivered|
    ensures var w := Run(Start(), steps);
            && ReplyOk(w.forwarded, w.delivered[i])
            && (w.delivered[i].number == w.delivered[j].number ==> i == j)
  {
    RunKeepsGood(Start(), steps);
  }
}
