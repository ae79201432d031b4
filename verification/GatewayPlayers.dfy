/** Which player a reply reaches: the exact condition on logins and redirections, and the growth of
    epochs on which it rests. */
module GatewayPlayers {
  import S = SessionSpec
  import opened GatewayTables
  import opened Gateway

  // Epochs over runs.

  /** The step is accepted and starts a new epoch of the player: a login, or a change of service. */
  predicate Raises(w: World, step: Step, player: nat) {
    match step
    case Authenticate(id, p, _) => p == player && S.CanBind(w.table, id, p)
    case Redirect(id, service) =>
      && id in w.table.sessions && w.table.sessions[id].authed && w.table.sessions[id].player == player
      && w.table.sessions[id].service != service && S.EpochOf(w.table, player) != S.LAST_EPOCH
    case _ => false
  }

  /** A reply changes neither sessions nor epochs. */
  lemma {:induction false} DeliveringKeepsTable(w: World, expired: Routes, order: seq<nat>)
    ensures DeliverAll(w, expired, order).table == w.table
    decreases |order|
  {
    if order != [] {
      var n := order[0];
      DeliveringKeepsTable(if n in expired then Deliver(w, n, expired[n]) else w, expired - {n}, order[1..]);
    }
  }

  /** A step that is accepted gives the session the next epoch of its player; every other step leaves
      the player's epoch alone. */
  lemma StepEpoch(w: World, step: Step, order: seq<nat>, player: nat)
    ensures S.EpochOf(Next(w, step, order).table, player)
         == S.EpochOf(w.table, player) + (if Raises(w, step, player) then 1 else 0)
    ensures Raises(w, step, player) ==>
              var t := Next(w, step, order).table;
              step.id in t.sessions && t.sessions[step.id].player == player && t.sessions[step.id].epoch == S.EpochOf(t, player)
  {
    if step.Sweep? {
      DeliveringKeepsTable(w.(routes := Unexpired(w.routes, step.now, step.ttl)),
                           map q | q in w.routes && Expired(w.routes[q], step.now, step.ttl) :: w.routes[q], order);
    }
  }

  lemma {:induction false} EpochsNeverFall(w: World, steps: seq<(Step, seq<nat>)>, player: nat)
    ensures S.EpochOf(w.table, player) <= S.EpochOf(Run(w, steps).table, player)
    decreases |steps|
  {
    if steps != [] {
      StepEpoch(w, steps[0].0, steps[0].1, player);
      EpochsNeverFall(Next(w, steps[0].0, steps[0].1), steps[1..], player);
    }
  }

  /** Of two accepted logins or service changes of a player, anywhere in a run, the later one gets the
      strictly larger epoch. */
  lemma LaterEpochIsLarger(w: World, first: Step, o1: seq<nat>, steps: seq<(Step, seq<nat>)>, second: Step, o2: seq<nat>, player: nat)
    requires Raises(w, first, player)
    requires Raises(Run(Next(w, first, o1), steps), second, player)
    ensures var a := Next(w, first, o1);
            var b := Next(Run(a, steps), second, o2);
            && first.id in a.table.sessions && second.id in b.table.sessions
            && a.table.sessions[first.id].player == player == b.table.sessions[second.id].player
            && a.table.sessions[first.id].epoch < b.table.sessions[second.id].epoch
  {
    var a := Next(w, first, o1);
    StepEpoch(w, first, o1, player);
    EpochsNeverFall(a, steps, player);
    StepEpoch(Run(a, steps), second, o2, player);
  }

  // The right player.

  /** Every reply so far went to the player who asked. */
  ghost predicate Straight(w: World) {
    forall i :: 0 <= i < |w.delivered| ==>
      w.delivered[i].number in w.forwarded && w.forwarded[w.delivered[i].number].player == w.delivered[i].player
  }

  /** If the route were answered now, its own player would get the answer, or nobody. */
  predicate SafeRoute(t: S.Table, r: Route) { StillThere(t, r) ==> t.sessions[r.session].player == r.player }

  ghost predicate Safe(w: World) { forall n <- w.routes :: SafeRoute(w.table, w.routes[n]) }

  /** A request of somebody else waits on this session, in the very epoch the player's next login or
      service change starts. */
  predicate HitBy(r: Route, id: nat, player: nat, epoch: nat) { r.session == id && r.player != player && r.epoch == epoch + 1 }

  ghost predicate Hits(w: World, id: nat, player: nat) {
    exists n :: n in w.routes && HitBy(w.routes[n], id, player, S.EpochOf(w.table, player))
  }

  /** A login is safe exactly when it meets no such request. */
  lemma LoginIsSafeIff(w: World, id: nat, player: nat, service: nat)
    requires Safe(w) && S.CanBind(w.table, id, player)
    ensures Safe(AuthenticateAt(w, id, player, service)) <==> !Hits(w, id, player)
  {
    var w' := AuthenticateAt(w, id, player, service);
    if Hits(w, id, player) {
      var n :| n in w.routes && HitBy(w.routes[n], id, player, S.EpochOf(w.table, player));
      assert n in w'.routes && !SafeRoute(w'.table, w'.routes[n]);
    } else {
      forall n | n in w'.routes ensures SafeRoute(w'.table, w'.routes[n]) {
        assert SafeRoute(w.table, w.routes[n]) && !HitBy(w.routes[n], id, player, S.EpochOf(w.table, player));
      }
    }
  }

  /** And so is a change of service of a session that has a player. */
  lemma RedirectIsSafeIff(w: World, id: nat, service: nat)
    requires Safe(w) && id in w.table.sessions && Raises(w, Redirect(id, service), w.table.sessions[id].player)
    ensures Safe(w.(table := S.SetService(w.table, id, service).0)) <==> !Hits(w, id, w.table.sessions[id].player)
  {
    var player := w.table.sessions[id].player;
    var w' := w.(table := S.SetService(w.table, id, service).0);
    if Hits(w, id, player) {
      var n :| n in w.routes && HitBy(w.routes[n], id, player, S.EpochOf(w.table, player));
      assert !SafeRoute(w'.table, w'.routes[n]);
    } else {
      forall n | n in w'.routes ensures SafeRoute(w'.table, w'.routes[n]) {
        assert SafeRoute(w.table, w.routes[n]) && !HitBy(w.routes[n], id, player, S.EpochOf(w.table, player));
      }
    }
  }

  /** The check that would have to stand before a login or a redirection. */
  ghost predicate Guard(w: World, step: Step) {
    match step
    case Authenticate(id, player, _) => S.CanBind(w.table, id, player) ==> !Hits(w, id, player)
    case Redirect(id, service) =>
      id in w.table.sessions && Raises(w, step, w.table.sessions[id].player) ==> !Hits(w, id, w.table.sessions[id].player)
    case _ => true
  }

  lemma {:induction false} DeliveringKeepsRoutes(w: World, expired: Routes, order: seq<nat>)
    ensures DeliverAll(w, expired, order).routes == w.routes && DeliverAll(w, expired, order).forwarded == w.forwarded
    decreases |order|
  {
    if order != [] {
      var n := order[0];
      DeliveringKeepsRoutes(if n in expired then Deliver(w, n, expired[n]) else w, expired - {n}, order[1..]);
    }
  }

  /** Steps that touch no player and no epoch, and add no route, are always safe. */
  lemma QuietStepIsSafe(w: World, routes: Routes, table: S.Table)
    requires Safe(w) && (forall n <- routes :: n in w.routes && routes[n] == w.routes[n])
    requires forall id <- table.sessions :: table.sessions[id].authed ==>
               && id in w.table.sessions && w.table.sessions[id].authed
               && table.sessions[id].player == w.table.sessions[id].player && table.sessions[id].epoch == w.table.sessions[id].epoch
    ensures Safe(w.(routes := routes, table := table))
  {
    forall n | n in routes ensures SafeRoute(table, routes[n]) { assert SafeRoute(w.table, w.routes[n]); }
  }

  lemma SweepIsSafe(w: World, now: int, ttl: nat, order: seq<nat>)
    requires Safe(w)
    ensures Safe(SweepAt(w, now, ttl, order))
  {
    var left := w.(routes := Unexpired(w.routes, now, ttl));
    var expired: Routes := map q | q in w.routes && Expired(w.routes[q], now, ttl) :: w.routes[q];
    QuietStepIsSafe(w, left.routes, w.table);
    DeliveringKeepsTable(left, expired, order);
    DeliveringKeepsRoutes(left, expired, order);
  }

  lemma RedirectStep(w: World, id: nat, service: nat)
    requires Safe(w)
    ensures Safe(w.(table := S.SetService(w.table, id, service).0)) <==> Guard(w, Redirect(id, service))
  {
    if id in w.table.sessions && Raises(w, Redirect(id, service), w.table.sessions[id].player) {
      RedirectIsSafeIff(w, id, service);
    } else {
      QuietStepIsSafe(w, w.routes, S.SetService(w.table, id, service).0);
    }
  }

  lemma ForwardIsSafe(w: World, id: nat, route: Route, limit: nat)
    requires Safe(w)
    ensures Safe(ForwardAt(w, id, route, limit))
  {
    var w' := ForwardAt(w, id, route, limit);
    forall n | n in w'.routes ensures SafeRoute(w'.table, w'.routes[n]) {
      if n in w.routes { assert SafeRoute(w.table, w.routes[n]); }
    }
  }

  /** From a safe state a step leads to a safe one exactly when it passes the guard. */
  lemma StepIsSafeIff(w: World, step: Step, order: seq<nat>)
    requires Safe(w)
    ensures Safe(Next(w, step, order)) <==> Guard(w, step)
  {
    match step
    case Open(service) => QuietStepIsSafe(w, w.routes, S.Create(w.table, service));
    case Authenticate(id, player, service) => if S.CanBind(w.table, id, player) { LoginIsSafeIff(w, id, player, service); }
    case Redirect(id, service) => RedirectStep(w, id, service);
    case BindScene(id, binding) => QuietStepIsSafe(w, w.routes, S.SetBinding(w.table, id, binding).0);
    case Forward(id, route, limit) => ForwardIsSafe(w, id, route, limit);
    case Refuse(number) => QuietStepIsSafe(w, w.routes - {number}, w.table);
    case Respond(frame) => QuietStepIsSafe(w, w.routes - {frame.number}, w.table);
    case Sweep(now, ttl) => SweepIsSafe(w, now, ttl, order);
    case Close(id) => QuietStepIsSafe(w, WithoutSession(w.routes, id), S.Erase(w.table, id));
  }

  // What safe means: whatever times out next, the answers go home.

  lemma DeliverIsStraight(w: World, n: nat, r: Route)
    requires Straight(w) && n in w.forwarded && w.forwarded[n].player == r.player && SafeRoute(w.table, r)
    ensures Straight(Deliver(w, n, r))
  {
  }

  lemma {:induction false} DeliverAllIsStraight(w: World, expired: Routes, order: seq<nat>)
    requires Straight(w)
    requires forall n <- expired :: n in w.forwarded && w.forwarded[n].player == expired[n].player && SafeRoute(w.table, expired[n])
    ensures Straight(DeliverAll(w, expired, order))
    decreases |order|
  {
    if order != [] {
      var n := order[0];
      if n in expired { DeliverIsStraight(w, n, expired[n]); }
      DeliverAllIsStraight(if n in expired then Deliver(w, n, expired[n]) else w, expired - {n}, order[1..]);
    }
  }

  lemma SweepIsStraight(w: World, now: int, ttl: nat, order: seq<nat>)
    requires Good(w) && Straight(w) && Safe(w)
    ensures Straight(SweepAt(w, now, ttl, order))
  {
    var expired: Routes := map q | q in w.routes && Expired(w.routes[q], now, ttl) :: w.routes[q];
    forall n | n in w.routes ensures RouteOk(w, n) && SafeRoute(w.table, w.routes[n]) {}
    DeliverAllIsStraight(w.(routes := Unexpired(w.routes, now, ttl)), expired, order);
  }

  /** Deliveries are only ever appended. */
  lemma {:induction false} DeliveriesStay(w: World, expired: Routes, order: seq<nat>)
    ensures w.delivered <= DeliverAll(w, expired, order).delivered
    decreases |order|
  {
    if order != [] {
      var n := order[0];
      DeliveriesStay(if n in expired then Deliver(w, n, expired[n]) else w, expired - {n}, order[1..]);
    }
  }

  /** A timed-out route whose session is there is answered, whatever else times out with it. */
  lemma {:induction false} TimeoutIsAnswered(w: World, expired: Routes, order: seq<nat>, n: nat)
    requires n in order && n in expired && StillThere(w.table, expired[n])
    ensures var r := expired[n]; var s := w.table.sessions[r.session];
            Delivered(n, r.session, s.epoch, r.requestId, s.player) in DeliverAll(w, expired, order).delivered
    decreases |order|
  {
    var m := order[0];
    var w' := if m in expired then Deliver(w, m, expired[m]) else w;
    if m == n {
      DeliveriesStay(w', expired - {m}, order[1..]);
      assert w'.delivered[|w.delivered|] in DeliverAll(w', expired - {m}, order[1..]).delivered;
    } else {
      TimeoutIsAnswered(w', expired - {m}, order[1..], n);
    }
  }

  /** The order names every waiting route, as the walk over the table does. */
  ghost predicate Names(order: seq<nat>, routes: Routes) { forall n <- routes :: n in order }

  lemma {:induction false} SomeOrderNames(ids: set<nat>) returns (order: seq<nat>)
    ensures forall n <- ids :: n in order
    decreases |ids|
  {
    if ids == {} {
      order := [];
    } else {
      var n :| n in ids;
      var rest := SomeOrderNames(ids - {n});
      order := [n] + rest;
    }
  }

  /** Whichever requests time out now, in whatever order, every answer goes to who asked. */
  ghost predicate TimeoutsGoHome(w: World) {
    forall now: int, ttl: nat, order: seq<nat> :: Names(order, w.routes) ==> Straight(SweepAt(w, now, ttl, order))
  }

  lemma UnsafeTimeoutCrosses(w: World, n: nat, order: seq<nat>)
    requires Good(w) && n in w.routes && !SafeRoute(w.table, w.routes[n]) && n in order
    ensures !Straight(SweepAt(w, w.routes[n].createdAt + 1, 0, order))
  {
    var r := w.routes[n];
    var now := r.createdAt + 1;
    var left := w.(routes := Unexpired(w.routes, now, 0));
    var expired: Routes := map q | q in w.routes && Expired(w.routes[q], now, 0) :: w.routes[q];
    assert RouteOk(w, n) && n in expired;
    TimeoutIsAnswered(left, expired, order, n);
    DeliveringKeepsRoutes(left, expired, order);
    var s := w.table.sessions[r.session];
    var w' := SweepAt(w, now, 0, order);
    var i :| 0 <= i < |w'.delivered| && w'.delivered[i] == Delivered(n, r.session, s.epoch, r.requestId, s.player);
    assert w'.forwarded[n].player == r.player != w'.delivered[i].player;
  }

  lemma SweepWasStraight(w: World, now: int, ttl: nat, order: seq<nat>)
    requires Straight(SweepAt(w, now, ttl, order))
    ensures Straight(w)
  {
    var left := w.(routes := Unexpired(w.routes, now, ttl));
    var expired: Routes := map q | q in w.routes && Expired(w.routes[q], now, ttl) :: w.routes[q];
    DeliveringKeepsRoutes(left, expired, order);
    DeliveriesStay(left, expired, order);
    var w' := SweepAt(w, now, ttl, order);
    forall i | 0 <= i < |w.delivered|
      ensures w.delivered[i].number in w.forwarded && w.forwarded[w.delivered[i].number].player == w.delivered[i].player
    {
      assert w'.delivered[i] == w.delivered[i];
    }
  }

  lemma SafeMeansHome(w: World)
    requires Good(w)
    ensures Safe(w) && Straight(w) <==> TimeoutsGoHome(w)
  {
    if Safe(w) && Straight(w) {
      forall now: int, ttl: nat, order: seq<nat> ensures Straight(SweepAt(w, now, ttl, order)) {
        SweepIsStraight(w, now, ttl, order);
      }
    }
    if TimeoutsGoHome(w) {
      var order := SomeOrderNames(w.routes.Keys);
      assert Names(order, w.routes);
      SweepWasStraight(w, 0, 0, order);
      forall n | n in w.routes ensures SafeRoute(w.table, w.routes[n]) {
        if !SafeRoute(w.table, w.routes[n]) {
          UnsafeTimeoutCrosses(w, n, order);
        }
      }
    }
  }

  lemma StepKeepsStraight(w: World, step: Step, order: seq<nat>)
    requires Good(w) && Straight(w) && Safe(w)
    ensures Straight(Next(w, step, order))
  {
    match step
    case Forward(id, route, limit) =>
      forall i | 0 <= i < |w.delivered| ensures w.delivered[i].number != w.nextNumber { assert ReplyOk(w.forwarded, w.delivered[i]); }
    case Refuse(number) =>
      if number in w.routes { assert RouteOk(w, number); DeliverIsStraight(Take(w, number), number, w.routes[number]); }
    case Respond(frame) =>
      if frame.number in w.routes {
        assert RouteOk(w, frame.number);
        DeliverIsStraight(Take(w, frame.number), frame.number, w.routes[frame.number]);
      }
    case Sweep(now, ttl) => SweepIsStraight(w, now, ttl, order);
    case _ =>
  }

  ghost predicate GuardedRun(w: World, steps: seq<(Step, seq<nat>)>)
    decreases |steps|
  {
    steps == [] || (Guard(w, steps[0].0) && GuardedRun(Next(w, steps[0].0, steps[0].1), steps[1..]))
  }

  /** At every moment of the run all replies have gone home, and would whatever timed out next. */
  ghost predicate HomeThroughout(w: World, steps: seq<(Step, seq<nat>)>)
    decreases |steps|
  {
    TimeoutsGoHome(w) && (steps == [] || HomeThroughout(Next(w, steps[0].0, steps[0].1), steps[1..]))
  }

  lemma {:induction false} GuardedIffHome(w: World, steps: seq<(Step, seq<nat>)>)
    requires Good(w) && Safe(w) && Straight(w)
    ensures GuardedRun(w, steps) <==> HomeThroughout(w, steps)
    ensures GuardedRun(w, steps) ==> Straight(Run(w, steps)) && Safe(Run(w, steps))
    decreases |steps|
  {
    SafeMeansHome(w);
    if steps != [] {
      var w' := Next(w, steps[0].0, steps[0].1);
      StepKeepsGood(w, steps[0].0, steps[0].1);
      StepKeepsStraight(w, steps[0].0, steps[0].1);
      StepIsSafeIff(w, steps[0].0, steps[0].1);
      SafeMeansHome(w');
      if Safe(w') { GuardedIffHome(w', steps[1..]); }
    }
  }

  /** From the start: replies reach their players at every moment of a run, whatever times out next,
      exactly when every login and redirection of the run passes the guard. */
  lemma RepliesReachTheirPlayerIff(steps: seq<(Step, seq<nat>)>)
    ensures GuardedRun(Start(), steps) <==> HomeThroughout(Start(), steps)
  {
    GuardedIffHome(Start(), steps);
  }

  /** Hence every reply of a guarded run reaches the player who asked. */
  lemma RepliesReachTheirPlayer(steps: seq<(Step, seq<nat>)>)
    requires GuardedRun(Start(), steps)
    ensures Straight(Run(Start(), steps))
  {
    GuardedIffHome(Start(), steps);
  }

  // The stronger condition under which the player index stays right as well.

  /** Logins that take a session over from nobody or from the same player. */
  predicate Faithful(w: World, step: Step) {
    step.Authenticate? && S.CanBind(w.table, step.id, step.player) ==> S.FirstOrSame(w.table, step.id, step.player)
  }

  /** A waiting route belongs to the player its session still has. */
  predicate OwnedRoute(t: S.Table, r: Route) {
    && r.session < t.nextId
    && (r.session in t.sessions ==> t.sessions[r.session].authed && t.sessions[r.session].player == r.player)
  }

  ghost predicate Owned(w: World) {
    && S.Inverse(w.table) && (forall n <- w.routes :: OwnedRoute(w.table, w.routes[n]))
    && forall i :: 0 <= i < |w.delivered| ==> w.delivered[i].number in w.forwarded && w.forwarded[w.delivered[i].number].player == w.delivered[i].player
  }

  lemma DeliverIsOwned(w: World, n: nat, r: Route)
    requires Owned(w) && n in w.forwarded && w.forwarded[n].player == r.player && OwnedRoute(w.table, r)
    ensures Owned(Deliver(w, n, r))
  {
  }

  lemma {:induction false} DeliverAllIsOwned(w: World, expired: Routes, order: seq<nat>)
    requires Owned(w)
    requires forall n <- expired :: n in w.forwarded && w.forwarded[n].player == expired[n].player && OwnedRoute(w.table, expired[n])
    ensures Owned(DeliverAll(w, expired, order))
    decreases |order|
  {
    if order != [] {
      var n := order[0];
      if n in expired { DeliverIsOwned(w, n, expired[n]); }
      DeliverAllIsOwned(if n in expired then Deliver(w, n, expired[n]) else w, expired - {n}, order[1..]);
    }
  }

  lemma AuthenticateIsOwned(w: World, id: nat, player: nat, service: nat)
    requires Owned(w) && (S.CanBind(w.table, id, player) ==> S.FirstOrSame(w.table, id, player))
    ensures Owned(AuthenticateAt(w, id, player, service))
  {
    if S.CanBind(w.table, id, player) {
      var t, kicked := S.Bind(w.table, id, player, service), S.Kicked(w.table, id, player);
      S.BindKeepsInverseIff(w.table, id, player, service);
      if kicked.Some? { S.EraseKeeps(t, kicked.value); }
      var w' := AuthenticateAt(w, id, player, service);
      forall n | n in w'.routes ensures OwnedRoute(w'.table, w'.routes[n]) {
        assert OwnedRoute(w.table, w.routes[n]);
      }
    }
  }

  lemma TableStepIsOwned(w: World, t: S.Table)
    requires Owned(w) && S.Inverse(t) && t.nextId >= w.table.nextId
    requires forall id <- t.sessions :: id < w.table.nextId ==>
               id in w.table.sessions && t.sessions[id].player == w.table.sessions[id].player && t.sessions[id].authed == w.table.sessions[id].authed
    ensures Owned(w.(table := t))
  {
    forall n | n in w.routes ensures OwnedRoute(t, w.routes[n]) { assert OwnedRoute(w.table, w.routes[n]); }
  }

  lemma TakenIsOwned(w: World, n: nat)
    requires Good(w) && Owned(w) && n in w.routes
    ensures Owned(Take(w, n)) && Owned(Deliver(Take(w, n), n, w.routes[n]))
  {
    assert RouteOk(w, n) && OwnedRoute(w.table, w.routes[n]);
    DeliverIsOwned(Take(w, n), n, w.routes[n]);
  }

  lemma SweepIsOwned(w: World, now: int, ttl: nat, order: seq<nat>)
    requires Good(w) && Owned(w)
    ensures Owned(SweepAt(w, now, ttl, order))
  {
    var expired: Routes := map q | q in w.routes && Expired(w.routes[q], now, ttl) :: w.routes[q];
    forall n | n in w.routes ensures RouteOk(w, n) && OwnedRoute(w.table, w.routes[n]) {}
    DeliverAllIsOwned(w.(routes := Unexpired(w.routes, now, ttl)), expired, order);
  }

  lemma ForwardIsOwned(w: World, id: nat, route: Route, limit: nat)
    requires Good(w) && Owned(w)
    ensures Owned(ForwardAt(w, id, route, limit))
  {
    if id in w.table.sessions { assert S.SessionOk(w.table, id); }
    var w' := ForwardAt(w, id, route, limit);
    forall n | n in w'.routes ensures OwnedRoute(w'.table, w'.routes[n]) {
      if n in w.routes { assert OwnedRoute(w.table, w.routes[n]); }
    }
    forall i | 0 <= i < |w.delivered| ensures w.delivered[i].number != w.nextNumber { assert ReplyOk(w.forwarded, w.delivered[i]); }
  }

  lemma CloseIsOwned(w: World, id: nat)
    requires Owned(w)
    ensures Owned(w.(table := S.Erase(w.table, id), routes := WithoutSession(w.routes, id)))
  {
    S.EraseKeeps(w.table, id);
    var w' := w.(table := S.Erase(w.table, id), routes := WithoutSession(w.routes, id));
    forall n | n in w'.routes ensures OwnedRoute(w'.table, w'.routes[n]) { assert OwnedRoute(w.table, w.routes[n]); }
  }

  lemma StepKeepsOwned(w: World, step: Step, order: seq<nat>)
    requires Good(w) && Owned(w) && Faithful(w, step)
    ensures Owned(Next(w, step, order))
  {
    match step
    case Open(service) => S.CreateKeeps(w.table, service); TableStepIsOwned(w, S.Create(w.table, service));
    case Authenticate(id, player, service) => AuthenticateIsOwned(w, id, player, service);
    case Redirect(id, service) => S.SetServiceKeeps(w.table, id, service); TableStepIsOwned(w, S.SetService(w.table, id, service).0);
    case BindScene(id, binding) => S.SetBindingKeeps(w.table, id, binding); TableStepIsOwned(w, S.SetBinding(w.table, id, binding).0);
    case Forward(id, route, limit) => ForwardIsOwned(w, id, route, limit);
    case Refuse(number) => if number in w.routes { TakenIsOwned(w, number); }
    case Respond(frame) => if frame.number in w.routes { TakenIsOwned(w, frame.number); }
    case Sweep(now, ttl) => SweepIsOwned(w, now, ttl, order);
    case Close(id) => CloseIsOwned(w, id);
  }

  ghost predicate FaithfulRun(w: World, steps: seq<(Step, seq<nat>)>)
    decreases |steps|
  {
    steps == [] || (Faithful(w, steps[0].0) && FaithfulRun(Next(w, steps[0].0, steps[0].1), steps[1..]))
  }

  lemma {:induction false} FaithfulRunKeeps(w: World, steps: seq<(Step, seq<nat>)>)
    requires Good(w) && Owned(w) && FaithfulRun(w, steps)
    ensures Good(Run(w, steps)) && Owned(Run(w, steps)) && GuardedRun(w, steps)
    decreases |steps|
  {
    if steps != [] {
      StepKeepsGood(w, steps[0].0, steps[0].1);
      StepKeepsOwned(w, steps[0].0, steps[0].1);
      FaithfulIsGuarded(w, steps[0].0);
      FaithfulRunKeeps(Next(w, steps[0].0, steps[0].1), steps[1..]);
    }
  }

  lemma FaithfulIsGuarded(w: World, step: Step)
    requires Owned(w) && Faithful(w, step)
    ensures Guard(w, step)
  {
    if (step.Authenticate? || step.Redirect?) && step.id in w.table.sessions {
      assert S.SessionOk(w.table, step.id);
      forall n | n in w.routes ensures OwnedRoute(w.table, w.routes[n]) {}
    }
  }

  /** Throwing out the older session does not mend an index entry that the login left behind. */
  lemma LoginKeepsInverseIff(w: World, id: nat, player: nat, service: nat)
    requires S.Inverse(w.table)
    ensures S.Inverse(AuthenticateAt(w, id, player, service).table) <==> Faithful(w, Authenticate(id, player, service))
  {
    if S.CanBind(w.table, id, player) {
      var t, kicked := S.Bind(w.table, id, player, service), S.Kicked(w.table, id, player);
      S.BindKeepsInverseIff(w.table, id, player, service);
      var q := w.table.sessions[id].player;
      assert S.SessionOk(w.table, id);
      if S.FirstOrSame(w.table, id, player) {
        if kicked.Some? { S.EraseKeeps(t, kicked.value); }
      } else {
        var t' := AuthenticateAt(w, id, player, service).table;
        if player in w.table.index { assert S.IndexOk(w.table, player); }
        assert q in t'.index && !S.IndexOk(t', q);
      }
    }
  }

  lemma StepKeepsInverseIff(w: World, step: Step, order: seq<nat>)
    requires S.Inverse(w.table)
    ensures S.Inverse(Next(w, step, order).table) <==> Faithful(w, step)
  {
    match step
    case Open(service) => S.CreateKeeps(w.table, service);
    case Authenticate(id, player, service) => LoginKeepsInverseIff(w, id, player, service);
    case Redirect(id, service) => S.SetServiceKeeps(w.table, id, service);
    case BindScene(id, binding) => S.SetBindingKeeps(w.table, id, binding);
    case Close(id) => S.EraseKeeps(w.table, id);
    case Sweep(now, ttl) =>
      DeliveringKeepsTable(w.(routes := Unexpired(w.routes, now, ttl)),
                           map q | q in w.routes && Expired(w.routes[q], now, ttl) :: w.routes[q], order);
    case _ =>
  }

  ghost predicate InverseThroughout(w: World, steps: seq<(Step, seq<nat>)>)
    decreases |steps|
  {
    S.Inverse(w.table) && (steps == [] || InverseThroughout(Next(w, steps[0].0, steps[0].1), steps[1..]))
  }

  lemma {:induction false} FaithfulIffInverse(w: World, steps: seq<(Step, seq<nat>)>)
    requires S.Inverse(w.table)
    ensures FaithfulRun(w, steps) <==> InverseThroughout(w, steps)
    decreases |steps|
  {
    if steps != [] {
      var w' := Next(w, steps[0].0, steps[0].1);
      StepKeepsInverseIff(w, steps[0].0, steps[0].1);
      if S.Inverse(w'.table) { FaithfulIffInverse(w', steps[1..]); }
    }
  }

  /** Player index and authenticated sessions are inverse to each other at every moment of a run exactly
      when no session of the run logs in as a second player; such runs also pass the guard. */
  lemma IndexStaysInverseIff(steps: seq<(Step, seq<nat>)>)
    ensures FaithfulRun(Start(), steps) <==> InverseThroughout(Start(), steps)
    ensures FaithfulRun(Start(), steps) ==> GuardedRun(Start(), steps)
  {
    FaithfulIffInverse(Start(), steps);
    if FaithfulRun(Start(), steps) { FaithfulRunKeeps(Start(), steps); }
  }

  // The guard can fail at a login and at a redirection.

  /** The answer of the very back end the request went to. */
  function AnswerTo(number: nat, r: Route, player: nat): Frame {
    Frame(number, r.service, r.zone, r.binding, player, r.route, r.routine)
  }

  /** Epochs count per player, so a session that moved from player 1 to player 2 can be in the same
      epoch number, and gets the answer player 1 was waiting for. */
  lemma ReplyCanCrossPlayers(route: Route)
    requires route.requestId == 7 && route.service == 2
    ensures var w1 := Next(Start(), Open(2), []);
            var w2 := Next(w1, Authenticate(1, 1, 2), []);
            var w3 := Next(w2, Forward(1, route, 10), []);
            var w4 := Next(w3, Authenticate(1, 2, 2), []);
            var w5 := Next(w4, Respond(AnswerTo(1, route, 1)), []);
            && Hits(w3, 1, 2) && w5.forwarded[1].player == 1
            && w5.delivered == [Delivered(1, 1, 1, 7, 2)]
  {
    var w1 := Next(Start(), Open(2), []);
    var w2 := Next(w1, Authenticate(1, 1, 2), []);
    assert w2.table.sessions[1] == S.Session(1, 1, 2, S.UNBOUND, true, false);
    var w3 := Next(w2, Forward(1, route, 10), []);
    assert HitBy(w3.routes[1], 1, 2, S.EpochOf(w3.table, 2));
    var w4 := Next(w3, Authenticate(1, 2, 2), []);
    assert w4.table.sessions[1] == S.Session(1, 2, 2, S.UNBOUND, true, false);
  }

  /** Player 1 asks in its second epoch; then player 2 logs in on the same session, in its first. */
  ghost function Overtaken(route: Route): World {
    var w1 := Next(Next(Start(), Open(2), []), Authenticate(1, 1, 2), []);
    var w2 := Next(Next(w1, Redirect(1, 3), []), Forward(1, route, 10), []);
    Next(w2, Authenticate(1, 2, 3), [])
  }

  lemma OvertakenIs(route: Route)
    ensures var w := Overtaken(route);
            && w.table.sessions == map[1 := S.Session(1, 2, 3, S.UNBOUND, true, false)] && S.EpochOf(w.table, 2) == 1
            && w.routes == map[1 := route.(session := 1, epoch := 2, player := 1)]
            && 1 in w.forwarded && w.forwarded[1].player == 1 && w.delivered == []
  {
    var w1 := Next(Next(Start(), Open(2), []), Authenticate(1, 1, 2), []);
    assert w1.table.sessions == map[1 := S.Session(1, 1, 2, S.UNBOUND, true, false)];
    var w2 := Next(w1, Redirect(1, 3), []);
    assert w2.table.sessions == map[1 := S.Session(2, 1, 3, S.UNBOUND, true, false)];
    var w3 := Next(w2, Forward(1, route, 10), []);
    assert w3.routes == map[1 := route.(session := 1, epoch := 2, player := 1)];
  }

  /** A login that is still harmless can be followed by a redirection that is not: changing service brings
      player 2 to the epoch number in which player 1 asked. */
  lemma RedirectCanCrossPlayers(route: Route)
    requires route.requestId == 7 && route.service == 3
    ensures var w := Overtaken(route);
            var w' := Next(w, Redirect(1, 2), []);
            var w'' := Next(w', Respond(AnswerTo(1, route, 1)), []);
            && Safe(w) && !Guard(w, Redirect(1, 2)) && !Safe(w')
            && 1 in w''.forwarded && w''.forwarded[1].player == 1 && w''.delivered == [Delivered(1, 1, 2, 7, 2)]
  {
    var w := Overtaken(route);
    OvertakenIs(route);
    assert HitBy(w.routes[1], 1, 2, S.EpochOf(w.table, 2));
    RedirectIsSafeIff(w, 1, 2);
    var w' := Next(w, Redirect(1, 2), []);
    assert w'.table.sessions[1] == S.Session(2, 2, 2, S.UNBOUND, true, false);
  }
}
