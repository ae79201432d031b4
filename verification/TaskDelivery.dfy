/** The worker's table of database tasks: what it registers, offers to the database queues,
    retries and completes. One table serves both scheduling policies. */
module TaskDelivery {
  import opened Common

  const MAX_TASKS: nat := 65536
  const RETENTION_MS: nat := 60000

  datatype Kind =
    | MySqlTask | RedisTask | MySqlResult | RedisResult
    | MySqlControl | RedisControl | StatusNotice | OtherKind

  datatype Call = Call(ctx: nat, player: nat, epoch: nat, session: nat, route: nat, routine: nat, seqNo: nat)

  datatype Msg = Msg(kind: Kind, taskId: nat, control: nat, shard: nat, worker: nat, call: Call, body: bytes)

  const NO_MSG := Msg(OtherKind, 0, 0, 0, 0, Call(0, 0, 0, 0, 0, 0, 0), [])

  datatype DispatchResult = Accepted | Backpressure | TargetStopped | InvalidTarget | InvalidMessage

  type Sender = Msg -> DispatchResult

  datatype State = PendingDispatch | AwaitResult | Completed | DispatchFailed

  datatype Task = Task(
    request: Msg, state: State, nextTryAt: int, result: Msg,
    ackPending: bool, observedStatus: nat, completedAt: int)

  type Table = map<nat, Task>

  predicate IsTask(m: Msg) { m.kind == MySqlTask || m.kind == RedisTask }

  predicate IsResult(m: Msg) { m.kind == MySqlResult || m.kind == RedisResult }

  predicate IsControl(m: Msg) { m.kind == MySqlControl || m.kind == RedisControl }

  /** Two messages carry one request: everything but the task id and the control code agrees. */
  predicate Same(a: Msg, b: Msg) {
    a.body == b.body && a.kind == b.kind && a.shard == b.shard && a.worker == b.worker && a.call == b.call
  }

  /** The control message about a request: 1 acknowledges its result, 2 asks for its status. */
  function Control(request: Msg, code: nat): Msg {
    request.(kind := if request.kind == RedisTask then RedisControl else MySqlControl, control := code)
  }

  predicate NeedsScheduling(t: Task) {
    t.state == PendingDispatch || t.state == AwaitResult || (t.state == Completed && t.ackPending)
  }

  function Needing(tasks: Table): set<nat> {
    set id | id in tasks && NeedsScheduling(tasks[id])
  }

  predicate Refused(r: DispatchResult) { r == InvalidTarget || r == InvalidMessage }

  function Dispatch(t: Task, now: int, send: Sender): Task {
    var r := send(t.request);
    t.(state := if r == Accepted then AwaitResult else if Refused(r) then DispatchFailed else t.state,
       nextTryAt := now + if r == Accepted then 5000 else 100)
  }

  /** The two maintenance scans of the main loop. */
  datatype Scan = Dispatches | Controls

  /** The message a scan offers for one task, if any. */
  function Offer(scan: Scan, t: Task, now: int): Option<Msg> {
    if now < t.nextTryAt then None
    else
      match scan
      case Dispatches => if t.state == PendingDispatch then Some(t.request) else None
      case Controls =>
        if t.state == Completed && t.ackPending then Some(Control(t.request, 1))
        else if t.state == AwaitResult then Some(Control(t.request, 2))
        else None
  }

  /** One task after a scan. */
  function Advance(scan: Scan, t: Task, now: int, send: Sender): Task {
    if now < t.nextTryAt then t
    else
      match scan
      case Dispatches => if t.state == PendingDispatch then Dispatch(t, now, send) else t
      case Controls =>
        if t.state == Completed && t.ackPending then
          t.(ackPending := send(Control(t.request, 1)) != Accepted, nextTryAt := now + 100)
        else if t.state == AwaitResult then t.(nextTryAt := now + 5000)
        else t
  }

  function Scanned(scan: Scan, tasks: Table, now: int, send: Sender): Table {
    map id | id in tasks :: Advance(scan, tasks[id], now, send)
  }

  /** The messages a full scan of the given ids offers. */
  function Offers(scan: Scan, tasks: Table, ids: set<nat>, now: int): set<Msg> {
    set id | id in ids && id in tasks && Offer(scan, tasks[id], now).Some? :: Offer(scan, tasks[id], now).value
  }

  /** Every task sits under its own id, and only task messages are registered. */
  predicate Keyed(tasks: Table) {
    forall id <- tasks :: tasks[id].request.taskId == id && IsTask(tasks[id].request)
  }

  predicate Evictable(t: Task, now: int) {
    t.state == Completed && !t.ackPending && now - t.completedAt >= RETENTION_MS
  }

  /** The first record in table order that may be forgotten. */
  function FirstEvictable(tasks: Table, order: seq<nat>, now: int): Option<nat>
    decreases |order|
  {
    if order == [] then None
    else if order[0] in tasks && Evictable(tasks[order[0]], now) then Some(order[0])
    else FirstEvictable(tasks, order[1..], now)
  }

  /** The sequence in which the hash table yields its keys. */
  ghost predicate Enumerates(order: seq<nat>, tasks: Table) {
    forall id :: id in order <==> id in tasks
  }

  datatype Outcome = Outcome(tasks: Table, ok: bool, offered: multiset<Msg>)

  function Register(tasks: Table, request: Msg, now: int, send: Sender): Outcome {
    var t := Dispatch(Task(request, PendingDispatch, 0, NO_MSG, false, 0, 0), now, send);
    if t.state == DispatchFailed then Outcome(tasks - {request.taskId}, false, multiset{request})
    else Outcome(tasks[request.taskId := t], true, multiset{request})
  }

  /** Submitting a request; spare is the value the id allocator would hand out. */
  function Submit(tasks: Table, message: Msg, spare: nat, now: int, send: Sender, order: seq<nat>): Outcome {
    var request := if message.taskId == 0 then message.(taskId := spare) else message;
    if !IsTask(message) then Outcome(tasks, false, multiset{})
    else if request.taskId in tasks then Outcome(tasks, Same(tasks[request.taskId].request, request), multiset{})
    else if |tasks| < MAX_TASKS then Register(tasks, request, now, send)
    else
      match FirstEvictable(tasks, order, now)
      case None => Outcome(tasks, false, multiset{})
      case Some(victim) => Register(tasks - {victim}, request, now, send)
  }

  /** A result message answers a request. */
  predicate Answers(result: Msg, request: Msg) {
    && request.call.player == result.call.player && request.call.epoch == result.call.epoch
    && request.shard == result.shard && request.call.route == result.call.route
    && request.call.routine == result.call.routine && request.call.ctx == result.call.ctx
    && request.worker == result.worker
    && result.kind == (if request.kind == MySqlTask then MySqlResult else RedisResult)
  }

  function Complete(tasks: Table, result: Msg, now: int): Outcome {
    var id := result.taskId;
    if id !in tasks || tasks[id].state != AwaitResult || !Answers(result, tasks[id].request) then Outcome(tasks, false, multiset{})
    else
      Outcome(tasks[id := tasks[id].(state := Completed, completedAt := now, result := result, ackPending := true, nextTryAt := 0)],
              true, multiset{})
  }

  function AcknowledgeDuplicate(tasks: Table, result: Msg): Outcome {
    var id := result.taskId;
    if id !in tasks || tasks[id].state != Completed || !Same(tasks[id].result, result) then Outcome(tasks, false, multiset{})
    else Outcome(tasks[id := tasks[id].(ackPending := true, nextTryAt := 0)], true, multiset{})
  }

  function ObserveStatus(tasks: Table, status: Msg): Outcome {
    var id := status.taskId;
    if id !in tasks || tasks[id].state != AwaitResult || status.kind != StatusNotice || |status.body| != 1
       || status.body[0] > 2 then Outcome(tasks, false, multiset{})
    else
      var h := tasks[id].request;
      if h.worker != status.worker || h.shard != status.shard || h.call.player != status.call.player
         || h.call.epoch != status.call.epoch || h.call.ctx != status.call.ctx then Outcome(tasks, false, multiset{})
      else Outcome(tasks[id := tasks[id].(observedStatus := status.body[0])], true, multiset{})
  }

  lemma {:induction false} FirstEvictableIsEvictable(tasks: Table, order: seq<nat>, now: int)
    ensures var first := FirstEvictable(tasks, order, now);
            if first.Some? then first.value in order && first.value in tasks && Evictable(tasks[first.value], now)
            else forall id :: id in order && id in tasks ==> !Evictable(tasks[id], now)
    decreases |order|
  {
    if order != [] { FirstEvictableIsEvictable(tasks, order[1..], now); }
  }

  /** The table when a scan has visited only the given ids. */
  ghost function PartScanned(scan: Scan, tasks: Table, done: set<nat>, now: int, send: Sender): Table {
    map id | id in tasks :: if id in done then Advance(scan, tasks[id], now, send) else tasks[id]
  }

  function Offered(scan: Scan, tasks: Table, ids: set<nat>, now: int): multiset<Msg> {
    multiset(Offers(scan, tasks, ids, now))
  }

  function Made(message: Option<Msg>): multiset<Msg> {
    if message.None? then multiset{} else multiset{message.value}
  }

  /** No two tasks offer the same message: a message carries its task's id. */
  lemma OfferIsNew(scan: Scan, tasks: Table, ids: set<nat>, id: nat, now: int)
    requires Keyed(tasks) && id in tasks && id !in ids && Offer(scan, tasks[id], now).Some?
    ensures Offer(scan, tasks[id], now).value !in Offers(scan, tasks, ids, now)
  {
    forall m | m in Offers(scan, tasks, ids, now) ensures m.taskId != id {
      var other :| other in ids && other in tasks && Offer(scan, tasks[other], now) == Some(m);
      assert m.taskId == tasks[other].request.taskId;
    }
  }

  lemma OffersGrow(scan: Scan, tasks: Table, done: set<nat>, id: nat, now: int)
    requires id in tasks
    ensures Offers(scan, tasks, done + {id}, now)
         == Offers(scan, tasks, done, now) + set m | m in Made(Offer(scan, tasks[id], now))
  {
    var more := Offers(scan, tasks, done + {id}, now);
    forall m | m in Made(Offer(scan, tasks[id], now)) ensures m in more {
      assert id in done + {id};
    }
  }

  lemma MultisetOfUnion<T>(a: set<T>, b: set<T>)
    requires a !! b
    ensures multiset(a + b) == multiset(a) + multiset(b)
  {
  }

  lemma OneMoreOffer(scan: Scan, tasks: Table, done: set<nat>, id: nat, now: int)
    requires Keyed(tasks) && id in tasks && id !in done
    ensures Offered(scan, tasks, done + {id}, now) == Offered(scan, tasks, done, now) + Made(Offer(scan, tasks[id], now))
  {
    var own := set m | m in Made(Offer(scan, tasks[id], now));
    if own != {} { OfferIsNew(scan, tasks, done, id, now); }
    OffersGrow(scan, tasks, done, id, now);
    MultisetOfUnion(Offers(scan, tasks, done, now), own);
    assert multiset(own) == Made(Offer(scan, tasks[id], now));
  }

  lemma OneMoreChange(scan: Scan, tasks: Table, done: set<nat>, id: nat, now: int, send: Sender)
    requires id in tasks && id !in done
    ensures var part := PartScanned(scan, tasks, done, now, send);
            && id in part && part[id] == tasks[id]
            && PartScanned(scan, tasks, done + {id}, now, send) == part[id := Advance(scan, tasks[id], now, send)]
  {
  }

  /** Visiting one more id adds exactly its own offer and its own change. */
  lemma OneMoreVisit(scan: Scan, tasks: Table, done: set<nat>, id: nat, now: int, send: Sender)
    requires Keyed(tasks) && id in tasks && id !in done
    ensures Offered(scan, tasks, done + {id}, now) == Offered(scan, tasks, done, now) + Made(Offer(scan, tasks[id], now))
    ensures var part := PartScanned(scan, tasks, done, now, send);
            && id in part && part[id] == tasks[id]
            && PartScanned(scan, tasks, done + {id}, now, send) == part[id := Advance(scan, tasks[id], now, send)]
  {
    OneMoreOffer(scan, tasks, done, id, now);
    OneMoreChange(scan, tasks, done, id, now, send);
  }

  /** Visiting either the whole table or its active part changes and offers everything due. */
  lemma ScanIsComplete(scan: Scan, tasks: Table, visited: set<nat>, now: int, send: Sender)
    requires Needing(tasks) <= visited <= tasks.Keys
    ensures Offered(scan, tasks, visited, now) == Offered(scan, tasks, tasks.Keys, now)
    ensures PartScanned(scan, tasks, visited, now, send) == Scanned(scan, tasks, now, send)
  {
    forall id | id in tasks && id !in visited
      ensures Advance(scan, tasks[id], now, send) == tasks[id] && Offer(scan, tasks[id], now) == None
    {
      assert id !in Needing(tasks);
    }
    assert Offers(scan, tasks, visited, now) == Offers(scan, tasks, tasks.Keys, now);
  }

  /** A public call of the table. */
  datatype Action =
    | DoSubmit(message: Msg, spare: nat, now: int, send: Sender, order: seq<nat>)
    | DoScan(scan: Scan, now: int, send: Sender)
    | DoComplete(result: Msg, now: int)
    | DoAcknowledge(result: Msg)
    | DoObserve(status: Msg)

  function Effect(tasks: Table, a: Action): Outcome {
    match a
    case DoSubmit(message, spare, now, send, order) => Submit(tasks, message, spare, now, send, order)
    case DoScan(scan, now, send) => Outcome(Scanned(scan, tasks, now, send), true, Offered(scan, tasks, tasks.Keys, now))
    case DoComplete(result, now) => Complete(tasks, result, now)
    case DoAcknowledge(result) => AcknowledgeDuplicate(tasks, result)
    case DoObserve(status) => ObserveStatus(tasks, status)
  }

  /** A call is possible whenever the order it names is the table's own. */
  ghost predicate Callable(tasks: Table, a: Action) {
    a.DoSubmit? ==> Enumerates(a.order, tasks)
  }

  ghost predicate CallableRun(tasks: Table, actions: seq<Action>)
    decreases |actions|
  {
    actions == [] || (Callable(tasks, actions[0]) && CallableRun(Effect(tasks, actions[0]).tasks, actions[1..]))
  }

  function AfterRun(tasks: Table, actions: seq<Action>): Table
    decreases |actions|
  {
    if actions == [] then tasks else AfterRun(Effect(tasks, actions[0]).tasks, actions[1..])
  }
}
