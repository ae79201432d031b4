/** The worker's task table told by its history: what a scan offers follows from the last thing that
    happened to the task, and what a submission does from what was asked before. */
module TaskProgress {
  import opened Common
  import opened TaskDelivery

  // ---- one task ----------------------------------------------------------------------------------------------

  /** The last thing that happened to a task: a message of it was offered, or its result came in (again). */
  datatype Event = Tried(at: int, message: Msg, answer: DispatchResult) | CameIn

  /** The control message goes to the database the request went to: 1 acknowledges its result, 2 asks for its status. */
  function About(request: Msg, code: nat): Msg {
    request.(kind := match request.kind case MySqlTask => MySqlControl case _ => RedisControl, control := code)
  }

  /** What a pass of the main loop is bound to offer next for a request, told by its last event alone. */
  function Bound(request: Msg, last: Event, scan: Scan, now: int): Option<Msg> {
    match last
    case CameIn => if scan == Controls && now >= 0 then Some(About(request, 1)) else None
    case Tried(at, message, answer) =>
      if IsTask(message) then
        match answer
        case Accepted => if scan == Controls && now >= at + 5000 then Some(About(request, 2)) else None
        case InvalidTarget => None
        case InvalidMessage => None
        case _ => if scan == Dispatches && now >= at + 100 then Some(request) else None
      else if message.control == 2 then
        if scan == Controls && now >= at + 5000 then Some(message) else None
      else if answer != Accepted && scan == Controls && now >= at + 100 then Some(message)
      else None
  }

  /** The task's fields say what its last event implies. */
  predicate Reflects(t: Task, last: Event) {
    match last
    case CameIn => t.state == Completed && t.ackPending && t.nextTryAt == 0
    case Tried(at, message, answer) =>
      if message == t.request then
        && t.nextTryAt == at + (if answer == Accepted then 5000 else 100)
        && t.state == (if answer == Accepted then AwaitResult
                       else if answer == InvalidTarget || answer == InvalidMessage then DispatchFailed else PendingDispatch)
      else if message == Control(t.request, 2) then t.state == AwaitResult && t.nextTryAt == at + 5000
      else message == Control(t.request, 1) && t.state == Completed && t.ackPending == (answer != Accepted) && t.nextTryAt == at + 100
  }

  function After(last: Event, offered: Option<Msg>, now: int, send: Sender): Event {
    if offered.Some? then Tried(now, offered.value, send(offered.value)) else last
  }

  lemma PassFollows(t: Task, last: Event, scan: Scan, now: int, send: Sender)
    requires IsTask(t.request) && Reflects(t, last)
    ensures Offer(scan, t, now) == Bound(t.request, last, scan, now)
    ensures Reflects(Advance(scan, t, now, send), After(last, Offer(scan, t, now), now, send))
    ensures Advance(scan, t, now, send).request == t.request
  {
  }

  /** A task is on the scheduling list exactly while some later pass would offer something for it. */
  lemma ScheduledIff(t: Task)
    ensures NeedsScheduling(t) <==> exists scan, now :: Offer(scan, t, now).Some?
  {
    if NeedsScheduling(t) {
      assert Offer(if t.state == PendingDispatch then Dispatches else Controls, t, t.nextTryAt).Some?;
    }
  }

  // ---- a submission --------------------------------------------------------------------------------------------

  /** A request without an id takes the one the allocator hands out. */
  function Numbered(message: Msg, spare: nat): Msg { if message.taskId == 0 then message.(taskId := spare) else message }

  /** Done, its acknowledgement taken, and kept for a minute since. */
  predicate Forgettable(t: Task, now: int) { t.state == Completed && !t.ackPending && now >= t.completedAt + 60000 }

  /** The id is taken by the very request that is submitted, but for its control code. */
  predicate AskedBefore(tasks: Table, request: Msg)
    requires request.taskId in tasks
  {
    tasks[request.taskId].request == request.(control := tasks[request.taskId].request.control)
  }

  predicate Rejects(answer: DispatchResult) { answer == InvalidTarget || answer == InvalidMessage }

  ghost predicate Room(tasks: Table, now: int) { |tasks| < MAX_TASKS || exists id :: id in tasks && Forgettable(tasks[id], now) }

  /** A submission that offers nothing: of no task, of a known id, accepted exactly for the request it belongs
      to, or with no room even after forgetting. */
  lemma SubmitOffersNothing(tasks: Table, message: Msg, spare: nat, now: int, send: Sender, order: seq<nat>)
    requires Keyed(tasks)
    requires var id := Numbered(message, spare).taskId; !IsTask(message) || id in tasks || (Enumerates(order, tasks) && !Room(tasks, now))
    ensures var request := Numbered(message, spare);
            Submit(tasks, message, spare, now, send, order)
            == Outcome(tasks, IsTask(message) && request.taskId in tasks && AskedBefore(tasks, request), multiset{})
  {
    FirstEvictableIsEvictable(tasks, order, now);
  }

  lemma RegisterOutcome(kept: Table, request: Msg, now: int, send: Sender)
    requires request.taskId !in kept
    ensures var ok := !Rejects(send(request));
            Register(kept, request, now, send)
            == Outcome(if ok then kept[request.taskId := Fresh(request, now, send(request))] else kept, ok, multiset{request})
  {
    assert kept - {request.taskId} == kept;
  }

  /** Any other submission offers the request, once, and registers it unless the queue rejects it; it forgets at
      most one task, a forgettable one, and only when there is no room. */
  lemma SubmitOutcome(tasks: Table, message: Msg, spare: nat, now: int, send: Sender, order: seq<nat>) returns (kept: Table)
    requires IsTask(message) && Numbered(message, spare).taskId !in tasks && Enumerates(order, tasks) && Room(tasks, now)
    ensures Without(tasks, kept, now)
    ensures var request := Numbered(message, spare);
            var ok := !Rejects(send(request));
            Submit(tasks, message, spare, now, send, order)
            == Outcome(if ok then kept[request.taskId := Fresh(request, now, send(request))] else kept, ok, multiset{request})
  {
    FirstEvictableIsEvictable(tasks, order, now);
    kept := tasks;
    if |tasks| >= MAX_TASKS {
      var first := FirstEvictable(tasks, order, now);
      kept := tasks - {first.value};
      assert Forgettable(tasks[first.value], now);
    }
    RegisterOutcome(kept, Numbered(message, spare), now, send);
  }

  /** All tasks, or with no room left all but one forgettable one. */
  ghost predicate Without(tasks: Table, kept: Table, now: int) {
    kept == tasks || (|tasks| >= MAX_TASKS && exists id :: id in tasks && Forgettable(tasks[id], now) && kept == tasks - {id})
  }

  function Fresh(request: Msg, now: int, answer: DispatchResult): Task {
    Task(request, if answer == Accepted then AwaitResult else PendingDispatch, now + (if answer == Accepted then 5000 else 100), NO_MSG, false, 0, 0)
  }

  // ---- the whole table -----------------------------------------------------------------------------------------

  type Events = map<nat, Event>

  /** The id a submission is registered under, if this call registers it. */
  function Registered(tasks: Table, a: Action): Option<nat> {
    if !a.DoSubmit? || Effect(tasks, a).offered == multiset{} then None
    else Some(Numbered(a.message, a.spare).taskId)
  }

  /** What an action adds to the history of one task: told by what was offered and what was answered. */
  function Next(tasks: Table, a: Action, last: Event, id: nat): Event
    requires id in tasks
  {
    match a
    case DoSubmit(_, _, _, _, _) => last
    case DoScan(scan, now, send) => After(last, Offer(scan, tasks[id], now), now, send)
    case DoComplete(result, _) => if result.taskId == id && Effect(tasks, a).ok then CameIn else last
    case DoAcknowledge(result) => if result.taskId == id && Effect(tasks, a).ok then CameIn else last
    case DoObserve(_) => last
  }

  /** The histories after an action: a task registered by it starts with its first offer. */
  function NextEvents(tasks: Table, events: Events, a: Action): Events {
    map id | id in Effect(tasks, a).tasks ::
      if Registered(tasks, a) == Some(id) && a.DoSubmit? then
        Tried(a.now, Numbered(a.message, a.spare), a.send(Numbered(a.message, a.spare)))
      else if id in tasks && id in events then Next(tasks, a, events[id], id)
      else CameIn
  }

  ghost predicate Told(tasks: Table, events: Events) {
    && Keyed(tasks) && events.Keys == tasks.Keys
    && forall id <- tasks :: Reflects(tasks[id], events[id])
  }

  lemma SubmitTells(tasks: Table, events: Events, a: Action)
    requires Told(tasks, events) && a.DoSubmit? && Callable(tasks, a)
    ensures Told(Effect(tasks, a).tasks, NextEvents(tasks, events, a))
  {
    var request := Numbered(a.message, a.spare);
    if !IsTask(a.message) || request.taskId in tasks || !Room(tasks, a.now) {
      SubmitOffersNothing(tasks, a.message, a.spare, a.now, a.send, a.order);
    } else {
      var kept := SubmitOutcome(tasks, a.message, a.spare, a.now, a.send, a.order);
      RegisteredTells(tasks, events, a, kept);
    }
  }

  lemma RegisteredTells(tasks: Table, events: Events, a: Action, kept: Table)
    requires Told(tasks, events) && a.DoSubmit? && kept.Keys <= tasks.Keys && (forall id <- kept :: kept[id] == tasks[id])
    requires var request, o := Numbered(a.message, a.spare), Effect(tasks, a);
             && IsTask(request) && request.taskId !in tasks
             && o == Outcome(if o.ok then kept[request.taskId := Fresh(request, a.now, a.send(request))] else kept, !Rejects(a.send(request)), multiset{request})
    ensures Told(Effect(tasks, a).tasks, NextEvents(tasks, events, a))
  {
    var request, o, events' := Numbered(a.message, a.spare), Effect(tasks, a), NextEvents(tasks, events, a);
    forall id | id in o.tasks ensures o.tasks[id].request.taskId == id && IsTask(o.tasks[id].request) && Reflects(o.tasks[id], events'[id]) {
      if id != request.taskId { assert id in tasks && o.tasks[id] == tasks[id]; }
    }
  }

  lemma ScanTells(tasks: Table, events: Events, a: Action)
    requires Told(tasks, events) && a.DoScan?
    ensures Told(Effect(tasks, a).tasks, NextEvents(tasks, events, a))
  {
    var after, events' := Effect(tasks, a).tasks, NextEvents(tasks, events, a);
    forall id | id in tasks ensures id in after && after[id].request == tasks[id].request && Reflects(after[id], events'[id]) {
      PassFollows(tasks[id], events[id], a.scan, a.now, a.send);
    }
  }

  /** An action that changes at most one known task, to what its new history says. */
  lemma OneTaskTells(tasks: Table, events: Events, a: Action, id: nat)
    requires Told(tasks, events) && !a.DoSubmit? && Effect(tasks, a).tasks.Keys == tasks.Keys
    requires forall k <- tasks :: k != id ==> Effect(tasks, a).tasks[k] == tasks[k] && Next(tasks, a, events[k], k) == events[k]
    requires id in tasks ==> Effect(tasks, a).tasks[id].request == tasks[id].request
                             && Reflects(Effect(tasks, a).tasks[id], Next(tasks, a, events[id], id))
    ensures Told(Effect(tasks, a).tasks, NextEvents(tasks, events, a))
  {
  }

  lemma CompleteTells(tasks: Table, events: Events, result: Msg, now: int)
    requires Told(tasks, events)
    ensures Told(Complete(tasks, result, now).tasks, NextEvents(tasks, events, DoComplete(result, now)))
  {
    OneTaskTells(tasks, events, DoComplete(result, now), result.taskId);
  }

  lemma AcknowledgeTells(tasks: Table, events: Events, result: Msg)
    requires Told(tasks, events)
    ensures Told(AcknowledgeDuplicate(tasks, result).tasks, NextEvents(tasks, events, DoAcknowledge(result)))
  {
    OneTaskTells(tasks, events, DoAcknowledge(result), result.taskId);
  }

  lemma ObserveTells(tasks: Table, events: Events, status: Msg)
    requires Told(tasks, events)
    ensures Told(ObserveStatus(tasks, status).tasks, NextEvents(tasks, events, DoObserve(status)))
  {
    OneTaskTells(tasks, events, DoObserve(status), status.taskId);
  }

  lemma StepTells(tasks: Table, events: Events, a: Action)
    requires Told(tasks, events) && Callable(tasks, a)
    ensures Told(Effect(tasks, a).tasks, NextEvents(tasks, events, a))
  {
    match a
    case DoSubmit(_, _, _, _, _) => SubmitTells(tasks, events, a);
    case DoScan(_, _, _) => ScanTells(tasks, events, a);
    case DoComplete(result, now) => CompleteTells(tasks, events, result, now);
    case DoAcknowledge(result) => AcknowledgeTells(tasks, events, result);
    case DoObserve(status) => ObserveTells(tasks, events, status);
  }

  /** The histories after a run from the empty table. */
  function EventsAfter(tasks: Table, events: Events, actions: seq<Action>): Events
    decreases |actions|
  {
    if actions == [] then events
    else EventsAfter(Effect(tasks, actions[0]).tasks, NextEvents(tasks, events, actions[0]), actions[1..])
  }

  lemma {:induction false} RunTells(tasks: Table, events: Events, actions: seq<Action>)
    requires Told(tasks, events) && CallableRun(tasks, actions)
    ensures Told(AfterRun(tasks, actions), EventsAfter(tasks, events, actions))
    decreases |actions|
  {
    if actions != [] {
      StepTells(tasks, events, actions[0]);
      RunTells(Effect(tasks, actions[0]).tasks, NextEvents(tasks, events, actions[0]), actions[1..]);
    }
  }

  /**
   * After any calls whatever, what the next pass offers for a task is bound by its history: a request not taken
   * is offered again from 100 ms on, until it is taken or found invalid, and then never again; from 5 s after it
   * was taken its status is asked for, every 5 s, until a result comes in; then the acknowledgement is offered at
   * once and every 100 ms until it is taken, and again when the result comes in again.
   */
  lemma OffersFollowHistory(actions: seq<Action>, id: nat, scan: Scan, now: int)
    requires CallableRun(map[], actions) && id in AfterRun(map[], actions)
    ensures var t, events := AfterRun(map[], actions)[id], EventsAfter(map[], map[], actions);
            id in events && Offer(scan, t, now) == Bound(t.request, events[id], scan, now)
  {
    RunTells(map[], map[], actions);
    PassFollows(AfterRun(map[], actions)[id], EventsAfter(map[], map[], actions)[id], scan, now, m => Accepted);
  }

  // ---- what comes back -----------------------------------------------------------------------------------------

  /** All other tasks are as they were. */
  ghost predicate OnlyTask(tasks: Table, tasks': Table, id: nat) {
    tasks'.Keys == tasks.Keys && forall k <- tasks :: k != id ==> tasks'[k] == tasks[k]
  }

  /** A result that came in before is recognised exactly when it is that result again, but for its control code;
      it is then acknowledged anew. */
  lemma AcknowledgesIff(tasks: Table, m: Msg)
    requires forall id <- tasks :: tasks[id].state == Completed ==> tasks[id].result.taskId == id
    ensures var r, id := AcknowledgeDuplicate(tasks, m), m.taskId;
            && (r.ok <==> id in tasks && tasks[id].state == Completed && m == tasks[id].result.(control := m.control))
            && (if r.ok then OnlyTask(tasks, r.tasks, id) && r.tasks[id] == tasks[id].(ackPending := true, nextTryAt := 0) else r.tasks == tasks)
  {
  }

  /** A status notice is believed exactly when it is a known status of an awaited task, from the database worker
      that has it, under the same player and context. */
  lemma ObservesIff(tasks: Table, m: Msg)
    ensures var r, id := ObserveStatus(tasks, m), m.taskId;
            && (r.ok <==> && id in tasks && tasks[id].state == AwaitResult && m.kind == StatusNotice && (m.body == [0] || m.body == [1] || m.body == [2])
                          && var h := tasks[id].request;
                             (m.worker, m.shard, m.call.player, m.call.epoch, m.call.ctx) == (h.worker, h.shard, h.call.player, h.call.epoch, h.call.ctx))
            && (if r.ok then |m.body| == 1 && OnlyTask(tasks, r.tasks, id) && r.tasks[id] == tasks[id].(observedStatus := m.body[0])
                else r.tasks == tasks)
  {
    if |m.body| == 1 { assert m.body == [m.body[0]]; }
  }
}
