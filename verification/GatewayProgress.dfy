/** What the gateway is bound to do: which requests go out, and how each waiting one ends. */
module GatewayProgress {
  import opened Common
  import S = SessionSpec
  import opened SessionOutcomes
  import opened GatewayTables
  import opened Gateway

  /** The request was sent to no back end in particular. */
  predicate Anywhere(r: Route) { r.binding.name == "" && r.zone == 0 && r.binding.incarnation == 0 }

  /** The frame carries the request's own context and comes from where the request went. */
  predicate Answers(f: Frame, r: Route) {
    && r == r.(service := f.service, player := f.player, route := f.route, routine := f.routine)
    && (Anywhere(r) || r == r.(binding := f.binding, zone := f.zone))
  }

  /** The session is there, authenticated, in the epoch of the request. */
  predicate Present(t: S.Table, r: Route) {
    r.session in t.sessions && t.sessions[r.session].authed && t.sessions[r.session].epoch == r.epoch
  }

  /** A scene reply still concerns the session: it has no scene, or the scene the request went to. */
  predicate InScene(t: S.Table, r: Route, f: Frame)
    requires r.session in t.sessions
  {
    var b := t.sessions[r.session].binding;
    Anywhere(r) || f.service != 8 || b.scene == 0 || b == r.binding
  }

  /** The reply that a route owes its session. */
  function ReplyTo(t: S.Table, n: nat, r: Route): Delivered
    requires Present(t, r)
  {
    Delivered(n, r.session, r.epoch, r.requestId, t.sessions[r.session].player)
  }

  /** A back end's frame ends exactly the waiting request it answers, and that request is replied to exactly
      when its session is present and still in the scene; any other frame changes nothing. */
  lemma FrameOutcome(w: World, f: Frame)
    ensures var w', n := RespondAt(w, f), f.number;
            if n != 0 && n in w.routes && Answers(f, w.routes[n]) then
              && w' == w.(routes := w.routes - {n}, delivered := w'.delivered)
              && (if Present(w.table, w.routes[n]) && InScene(w.table, w.routes[n], f)
                  then w'.delivered == w.delivered + [ReplyTo(w.table, n, w.routes[n])] else w'.delivered == w.delivered)
            else w' == w
  {
  }

  /** A request of an authenticated session goes out under the next number exactly when there is room, and
      waits under its session, epoch and player with the context it was given; nothing else changes. */
  lemma ForwardOutcome(w: World, id: nat, route: Route, limit: nat)
    requires Good(w)
    ensures w.nextNumber !in w.routes
    ensures var w', n := ForwardAt(w, id, route, limit), w.nextNumber;
            if id in w.table.sessions && w.table.sessions[id].authed && |w.routes| < limit then
              && w'.routes == w.routes[n := route.(session := id, epoch := w.table.sessions[id].epoch, player := w.table.sessions[id].player)]
              && w'.forwarded == w.forwarded[n := Forwarded(id, w.table.sessions[id].epoch, route.requestId, w.table.sessions[id].player)]
              && w'.delivered == w.delivered && w'.table == w.table && w'.nextNumber == n + 1
            else w' == w.(nextNumber := if id in w.table.sessions && w.table.sessions[id].authed then n + 1 else n)
  {
    NumberIsNew(w);
  }

  lemma NumberIsNew(w: World)
    requires Good(w)
    ensures w.nextNumber !in w.routes
  {
    assert forall n <- w.routes :: RouteOk(w, n);
  }

  /** The player's other sessions: at most the one he was on before. */
  function Elsewhere(t: S.Table, id: nat, player: nat): set<nat> { set k | k in t.sessions && k != id && On(t, k, player) }

  lemma ElsewhereIsKicked(t: S.Table, id: nat, player: nat)
    requires S.Inverse(t) && player != 0
    ensures Elsewhere(t, id, player) == var kicked := S.Kicked(t, id, player); if kicked.Some? then {kicked.value} else {}
  {
    forall k | k in t.sessions ensures S.SessionOk(t, k) {}
    if player in t.index { assert S.IndexOk(t, player); }
  }

  /** The world after a login, but for the sessions and routes that are thrown out. */
  ghost predicate LoggedIn(w: World, w': World, out: set<nat>, id: nat, player: nat) {
    && w'.table.sessions.Keys == w.table.sessions.Keys - out && On(w'.table, id, player)
    && w'.table.sessions[id].epoch == S.EpochOf(w.table, player) + 1
    && (forall n :: n in w'.routes <==> n in w.routes && w.routes[n].session !in out)
    && (forall n <- w'.routes :: w'.routes[n] == w.routes[n])
    && w'.delivered == w.delivered && w'.forwarded == w.forwarded && w'.nextNumber == w.nextNumber
    && S.FindByPlayer(w'.table, player) == Some(id)
  }

  lemma LoginShape(w: World, id: nat, player: nat, service: nat)
    requires S.CanBind(w.table, id, player)
    ensures var kicked := S.Kicked(w.table, id, player);
            LoggedIn(w, AuthenticateAt(w, id, player, service), if kicked.Some? then {kicked.value} else {}, id, player)
  {
  }

  /** A login throws the player's other session out, together with what waits for it, and nothing else. */
  lemma LoginOutcome(w: World, id: nat, player: nat, service: nat)
    requires S.Inverse(w.table) && S.CanBind(w.table, id, player)
    ensures LoggedIn(w, AuthenticateAt(w, id, player, service), Elsewhere(w.table, id, player), id, player)
  {
    ElsewhereIsKicked(w.table, id, player);
    LoginShape(w, id, player, service);
  }

  // ---- the end of a waiting request ------------------------------------------------------------------

  /** The step ends the request with an answer of a back end, a refusal or a timeout. */
  predicate EndsAnswered(step: Step, n: nat, r: Route) {
    match step
    case Respond(f) => f.number == n && n != 0 && Answers(f, r)
    case Refuse(number) => number == n
    case Sweep(now, ttl) => now > r.createdAt + ttl
    case _ => false
  }

  /** The step takes the session away, by closing it or by a login of its player elsewhere. */
  predicate EndsSession(t: S.Table, step: Step, r: Route) {
    match step
    case Close(id) => id == r.session
    case Authenticate(id, player, _) =>
      && player != 0 && id in t.sessions && S.EpochOf(t, player) < 0xFFFF_FFFF
      && player in t.index && t.index[player] == r.session && r.session != id
    case _ => false
  }

  /** A reply to the request is due when it ends answered. */
  predicate ReplyDue(t: S.Table, step: Step, r: Route) {
    Present(t, r) && (step.Respond? ==> InScene(t, r, step.frame))
  }

  function CountOf(delivered: seq<Delivered>, d: Delivered): nat { multiset(delivered)[d] }

  /** Timed-out requests in some order: each is replied to once if its session is present. */
  lemma {:induction false} AllReplied(w: World, expired: Routes, order: seq<nat>, n: nat)
    requires Unanswered(w.delivered, n)
    ensures var w' := DeliverAll(w, expired, order);
            && w'.routes == w.routes && w'.table == w.table
            && (if n in expired && n in order && Present(w.table, expired[n])
                then CountOf(w'.delivered, ReplyTo(w.table, n, expired[n])) == 1
                else Unanswered(w'.delivered, n))
    decreases |order|
  {
    if order != [] {
      var m := order[0];
      var w1 := if m in expired then Deliver(w, m, expired[m]) else w;
      assert n in order <==> n == m || n in order[1..];
      if n == m {
        OthersDelivered(w1, expired - {m}, order[1..], n);
      } else {
        AllReplied(w1, expired - {m}, order[1..], n);
      }
    }
  }

  /** Requests not among the expired ones get nothing more. */
  lemma {:induction false} OthersDelivered(w: World, expired: Routes, order: seq<nat>, n: nat)
    requires n !in expired
    ensures var w' := DeliverAll(w, expired, order);
            && w'.routes == w.routes && w'.table == w.table && (Unanswered(w.delivered, n) ==> Unanswered(w'.delivered, n))
            && forall d: Delivered :: d.number == n ==> CountOf(w'.delivered, d) == CountOf(w.delivered, d)
    decreases |order|
  {
    if order != [] {
      var m := order[0];
      OthersDelivered(if m in expired then Deliver(w, m, expired[m]) else w, expired - {m}, order[1..], n);
    }
  }

  lemma NoneCounted(delivered: seq<Delivered>, n: nat, d: Delivered)
    requires Unanswered(delivered, n) && d.number == n
    ensures CountOf(delivered, d) == 0
  {
  }

  /** The sweep's walk names every request that timed out. */
  ghost predicate Covers(w: World, step: Step, order: seq<nat>) {
    step.Sweep? ==> forall n <- w.routes :: step.now > w.routes[n].createdAt + step.ttl ==> n in order
  }

  /** What a step does to the waiting request n. */
  ghost predicate Outcome(w: World, step: Step, w': World, n: nat)
    requires n in w.routes
  {
    var r := w.routes[n];
    && (n in w'.routes <==> !EndsAnswered(step, n, r) && !EndsSession(w.table, step, r))
    && (n in w'.routes ==> w'.routes[n] == r)
    && (if EndsAnswered(step, n, r) && ReplyDue(w.table, step, r) then CountOf(w'.delivered, ReplyTo(w.table, n, r)) == 1
        else Unanswered(w'.delivered, n))
  }

  lemma RespondOutcome(w: World, f: Frame, n: nat)
    requires n in w.routes && Unanswered(w.delivered, n)
    ensures Outcome(w, Respond(f), RespondAt(w, f), n)
  {
    FrameOutcome(w, f);
    if f.number != n { OtherFrame(w, f, n); }
    else if ReplyDue(w.table, Respond(f), w.routes[n]) { NoneCounted(w.delivered, n, ReplyTo(w.table, n, w.routes[n])); }
  }

  lemma RefuseOutcome(w: World, number: nat, n: nat)
    requires n in w.routes && Unanswered(w.delivered, n)
    ensures Outcome(w, Refuse(number), if number in w.routes then Deliver(Take(w, number), number, w.routes[number]) else w, n)
  {
    if number == n && Present(w.table, w.routes[n]) { NoneCounted(w.delivered, n, ReplyTo(w.table, n, w.routes[n])); }
  }

  lemma QuietOutcome(w: World, step: Step, order: seq<nat>, n: nat)
    requires n in w.routes && n != w.nextNumber && Unanswered(w.delivered, n) && !step.Respond? && !step.Refuse? && !step.Sweep?
    ensures Outcome(w, step, Next(w, step, order), n)
  {
  }

  /** A waiting request ends exactly by its answer, its refusal, its timeout or the end of its session; it is
      replied to, once, exactly when it ends answered with its session present and still in the scene. */
  lemma StepOutcome(w: World, step: Step, order: seq<nat>, n: nat)
    requires Good(w) && n in w.routes && Covers(w, step, order)
    ensures Outcome(w, step, Next(w, step, order), n)
  {
    assert RouteOk(w, n) && Unanswered(w.delivered, n);
    match step
    case Respond(f) => RespondOutcome(w, f, n);
    case Refuse(number) => RefuseOutcome(w, number, n);
    case Sweep(now, ttl) => SweepOutcome(w, now, ttl, order, n);
    case _ => QuietOutcome(w, step, order, n);
  }

  lemma OtherFrame(w: World, f: Frame, n: nat)
    requires Unanswered(w.delivered, n) && f.number != n
    ensures Unanswered(RespondAt(w, f).delivered, n)
  {
  }

  lemma SweepOutcome(w: World, now: int, ttl: nat, order: seq<nat>, n: nat)
    requires n in w.routes && Unanswered(w.delivered, n) && Covers(w, Sweep(now, ttl), order)
    ensures var w', r := SweepAt(w, now, ttl, order), w.routes[n];
            && (n in w'.routes <==> now <= r.createdAt + ttl) && (n in w'.routes ==> w'.routes[n] == r)
            && (if now > r.createdAt + ttl && Present(w.table, r) then CountOf(w'.delivered, ReplyTo(w.table, n, r)) == 1
                else Unanswered(w'.delivered, n))
  {
    var left := w.(routes := Unexpired(w.routes, now, ttl));
    var expired: Routes := map q | q in w.routes && Expired(w.routes[q], now, ttl) :: w.routes[q];
    AllReplied(left, expired, order, n);
  }

  /** None of the steps ends the request, and every sweep names what timed out. */
  ghost predicate Waits(w: World, steps: seq<(Step, seq<nat>)>, n: nat)
    decreases |steps|
  {
    n in w.routes
    && (steps == []
        || (&& Covers(w, steps[0].0, steps[0].1) && !EndsAnswered(steps[0].0, n, w.routes[n]) && !EndsSession(w.table, steps[0].0, w.routes[n])
            && Waits(Next(w, steps[0].0, steps[0].1), steps[1..], n)))
  }

  lemma {:induction false} WaitingIsKept(w: World, steps: seq<(Step, seq<nat>)>, n: nat)
    requires Good(w) && Waits(w, steps, n)
    ensures var r := Run(w, steps); Good(r) && n in r.routes && r.routes[n] == w.routes[n]
    decreases |steps|
  {
    if steps != [] {
      StepKeepsGood(w, steps[0].0, steps[0].1);
      StepOutcome(w, steps[0].0, steps[0].1, n);
      WaitingIsKept(Next(w, steps[0].0, steps[0].1), steps[1..], n);
    }
  }

  /** A waiting request that nothing ends is replied to by the frame that answers it exactly when its session
      is present and still in the scene. */
  lemma WaitingIsAnswered(w: World, steps: seq<(Step, seq<nat>)>, f: Frame)
    requires Good(w) && Waits(w, steps, f.number) && f.number != 0 && Answers(f, w.routes[f.number])
    ensures var w', r := Run(w, steps), w.routes[f.number];
            if Present(w'.table, r) && InScene(w'.table, r, f)
            then CountOf(RespondAt(w', f).delivered, ReplyTo(w'.table, f.number, r)) == 1
            else Unanswered(RespondAt(w', f).delivered, f.number)
  {
    WaitingIsKept(w, steps, f.number);
    StepOutcome(Run(w, steps), Respond(f), [], f.number);
  }

  /** On every run: so is every request that went out. */
  lemma RequestIsAnswered(before: seq<(Step, seq<nat>)>, id: nat, route: Route, limit: nat, steps: seq<(Step, seq<nat>)>, f: Frame)
    requires var w := Run(Start(), before);
             id in w.table.sessions && w.table.sessions[id].authed && |w.routes| < limit && f.number == w.nextNumber
    requires var w1 := ForwardAt(Run(Start(), before), id, route, limit);
             Waits(w1, steps, f.number) && Answers(f, w1.routes[f.number])
    ensures var w1 := ForwardAt(Run(Start(), before), id, route, limit);
            var w2, r := Run(w1, steps), w1.routes[f.number];
            if Present(w2.table, r) && InScene(w2.table, r, f)
            then CountOf(RespondAt(w2, f).delivered, ReplyTo(w2.table, f.number, r)) == 1
            else Unanswered(RespondAt(w2, f).delivered, f.number)
  {
    RunKeepsGood(Start(), before);
    var w := Run(Start(), before);
    ForwardKeeps(w, id, route, limit);
    WaitingIsAnswered(ForwardAt(w, id, route, limit), steps, f);
  }
}
