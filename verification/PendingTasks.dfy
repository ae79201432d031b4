/** The mutable task table of one worker, with and without the active index. */
module PendingTasks {
  import opened Common
  import opened TaskDelivery

  class PendingDbTasks {
    var tasks: Table
    var active: set<nat>
    var indexed: bool

    /** The active index holds exactly the tasks that still need scheduling. */
    ghost predicate Valid()
      reads this
    {
      && Keyed(tasks)
      && (if indexed then active == Needing(tasks) else active == {})
    }

    constructor (activeIndex: bool)
      ensures Valid() && tasks == map[] && indexed == activeIndex
    {
      tasks, active, indexed := map[], {}, activeIndex;
    }

    /** Switching to the index is only allowed before the first task. */
    method EnableActiveIndex() returns (ok: bool)
      requires Valid()
      modifies `indexed
      ensures Valid()
      ensures ok <==> tasks == map[]
      ensures indexed == (ok || old(indexed))
    {
      if tasks != map[] { return false; }
      indexed := true;
      assert active == Needing(tasks);
      return true;
    }

    method Activate(id: nat)
      modifies `active
      ensures active == if indexed then old(active) + {id} else old(active)
    {
      if indexed { active := active + {id}; }
    }

    method Deactivate(id: nat)
      modifies `active
      ensures active == if indexed then old(active) - {id} else old(active)
    {
      if indexed { active := active - {id}; }
    }

    /** Makes room when the table is full: the first evictable record goes. */
    method MakeRoom(order: seq<nat>, now: int) returns (ok: bool)
      requires Valid() && Enumerates(order, tasks)
      modifies `tasks, `active
      ensures Valid()
      ensures match FirstEvictable(old(tasks), order, now)
              case None => !ok && tasks == old(tasks)
              case Some(victim) => ok && tasks == old(tasks) - {victim}
    {
      var i := 0;
      while i < |order| && !(order[i] in tasks && Evictable(tasks[order[i]], now))
        invariant i <= |order|
        invariant FirstEvictable(tasks, order, now) == FirstEvictable(tasks, order[i..], now)
      {
        i := i + 1;
      }
      if i == |order| { return false; }
      Deactivate(order[i]);
      tasks := tasks - {order[i]};
      return true;
    }

    method Submit(message: Msg, spare: nat, now: int, send: Sender, order: seq<nat>)
      returns (ok: bool, offered: multiset<Msg>)
      requires Valid() && Enumerates(order, tasks)
      modifies `tasks, `active
      ensures Valid()
      ensures Outcome(tasks, ok, offered) == TaskDelivery.Submit(old(tasks), message, spare, now, send, order)
    {
      offered := multiset{};
      if !IsTask(message) { return false, offered; }
      var request := if message.taskId == 0 then message.(taskId := spare) else message;
      if |tasks| >= MAX_TASKS && request.taskId !in tasks {
        var room := MakeRoom(order, now);
        if !room { return false, offered; }
      }
      if request.taskId in tasks {
        return Same(tasks[request.taskId].request, request), offered;
      }
      ok, offered := RegisterNew(request, now, send);
    }

    method RegisterNew(request: Msg, now: int, send: Sender) returns (ok: bool, offered: multiset<Msg>)
      requires Valid() && IsTask(request) && request.taskId !in tasks
      modifies `tasks, `active
      ensures Valid()
      ensures Outcome(tasks, ok, offered) == Register(old(tasks), request, now, send)
    {
      offered := multiset{request};
      tasks := tasks[request.taskId := Task(request, PendingDispatch, 0, NO_MSG, false, 0, 0)];
      Activate(request.taskId);
      tasks := tasks[request.taskId := Dispatch(tasks[request.taskId], now, send)];
      if Refused(send(request)) {
        Deactivate(request.taskId);
        tasks := tasks - {request.taskId};
        assert tasks == old(tasks) - {request.taskId};
        return false, offered;
      }
      return true, offered;
    }

    /** One task of a scan: offer its message, take the answer, drop it from the index when it is done. */
    method Visit(scan: Scan, id: nat, now: int, send: Sender) returns (message: Option<Msg>)
      requires Valid() && id in tasks && (indexed ==> id in active)
      modifies `tasks, `active
      ensures Valid()
      ensures tasks == old(tasks)[id := Advance(scan, old(tasks)[id], now, send)]
      ensures message == Offer(scan, old(tasks)[id], now)
      ensures old(active) - {id} <= active
    {
      message := Offer(scan, tasks[id], now);
      tasks := tasks[id := Advance(scan, tasks[id], now, send)];
      if indexed && !NeedsScheduling(tasks[id]) { active := active - {id}; }
    }

    /** One maintenance scan, over the active index or over the whole table. */
    method Maintain(scan: Scan, now: int, send: Sender) returns (offered: multiset<Msg>)
      requires Valid()
      modifies `tasks, `active
      ensures Valid()
      ensures tasks == Scanned(scan, old(tasks), now, send)
      ensures offered == Offered(scan, old(tasks), old(tasks).Keys, now)
    {
      offered := multiset{};
      var left := if indexed then active else tasks.Keys;
      ghost var was, done := tasks, {};
      while left != {}
        invariant Valid() && left !! done && left + done <= was.Keys && Needing(was) <= left + done
        invariant tasks == PartScanned(scan, was, done, now, send)
        invariant indexed ==> left <= active
        invariant offered == Offered(scan, was, done, now)
        decreases left
      {
        var id :| id in left;
        OneMoreVisit(scan, was, done, id, now, send);
        var message := Visit(scan, id, now, send);
        offered := offered + Made(message);
        left, done := left - {id}, done + {id};
      }
      ScanIsComplete(scan, was, done, now, send);
    }

    method Complete(result: Msg, now: int) returns (ok: bool)
      requires Valid()
      modifies `tasks
      ensures Valid()
      ensures Outcome(tasks, ok, multiset{}) == TaskDelivery.Complete(old(tasks), result, now)
    {
      var id := result.taskId;
      if id !in tasks || tasks[id].state != AwaitResult { return false; }
      if !Answers(result, tasks[id].request) { return false; }
      tasks := tasks[id := tasks[id].(state := Completed, completedAt := now, result := result, ackPending := true, nextTryAt := 0)];
      return true;
    }

    method AcknowledgeDuplicate(result: Msg) returns (ok: bool)
      requires Valid()
      modifies `tasks, `active
      ensures Valid()
      ensures Outcome(tasks, ok, multiset{}) == TaskDelivery.AcknowledgeDuplicate(old(tasks), result)
    {
      var id := result.taskId;
      if id !in tasks || tasks[id].state != Completed || !Same(tasks[id].result, result) { return false; }
      tasks := tasks[id := tasks[id].(ackPending := true, nextTryAt := 0)];
      Activate(id);
      return true;
    }

    method ObserveStatus(status: Msg) returns (ok: bool)
      requires Valid()
      modifies `tasks
      ensures Valid()
      ensures Outcome(tasks, ok, multiset{}) == TaskDelivery.ObserveStatus(old(tasks), status)
    {
      var id := status.taskId;
      if id !in tasks || tasks[id].state != AwaitResult || status.kind != StatusNotice || |status.body| != 1
         || status.body[0] > 2 { return false; }
      var h := tasks[id].request;
      if h.worker != status.worker || h.shard != status.shard || h.call.player != status.call.player
         || h.call.epoch != status.call.epoch || h.call.ctx != status.call.ctx { return false; }
      tasks := tasks[id := tasks[id].(observedStatus := status.body[0])];
      return true;
    }

    /** Draining waits for this: some task is not both completed and acknowledged. */
    method Unsettled() returns (r: bool)
      ensures r <==> exists id :: id in tasks && (tasks[id].state != State.Completed || tasks[id].ackPending)
    {
      var left := tasks.Keys;
      while left != {}
        invariant left <= tasks.Keys
        invariant forall id :: id in tasks && id !in left ==> tasks[id].state == State.Completed && !tasks[id].ackPending
        decreases left
      {
        var id :| id in left;
        if tasks[id].state != State.Completed || tasks[id].ackPending { return true; }
        left := left - {id};
      }
      return false;
    }
  }

  /** One public call on a table object. */
  method Perform(table: PendingDbTasks, a: Action) returns (ok: bool, offered: multiset<Msg>)
    requires table.Valid() && Callable(table.tasks, a)
    modifies table`tasks, table`active
    ensures table.Valid()
    ensures Outcome(table.tasks, ok, offered) == Effect(old(table.tasks), a)
  {
    ok, offered := true, multiset{};
    match a
    case DoSubmit(message, spare, now, send, order) => ok, offered := table.Submit(message, spare, now, send, order);
    case DoScan(scan, now, send) => offered := table.Maintain(scan, now, send);
    case DoComplete(result, now) => ok := table.Complete(result, now);
    case DoAcknowledge(result) => ok := table.AcknowledgeDuplicate(result);
    case DoObserve(status) => ok := table.ObserveStatus(status);
  }

  /** The index refines the scan over whole runs: the two policies, driven by the same calls,
      answer alike, offer the same messages and end with the same table. */
  method Lockstep(actions: seq<Action>)
    returns (scanning: PendingDbTasks, indexing: PendingDbTasks, scanned: seq<(bool, multiset<Msg>)>, found: seq<(bool, multiset<Msg>)>)
    requires CallableRun(map[], actions)
    ensures scanning.Valid() && !scanning.indexed && indexing.Valid() && indexing.indexed
    ensures scanning.tasks == indexing.tasks == AfterRun(map[], actions)
    ensures |found| == |actions| && scanned == found
    ensures indexing.active == Needing(indexing.tasks)
  {
    scanning := new PendingDbTasks(false);
    indexing := new PendingDbTasks(true);
    scanned, found := [], [];
    var i := 0;
    while i < |actions|
      invariant |found| == i <= |actions| && scanned == found
      invariant scanning != indexing
      invariant scanning.Valid() && !scanning.indexed && indexing.Valid() && indexing.indexed
      invariant scanning.tasks == indexing.tasks && CallableRun(scanning.tasks, actions[i..])
      invariant AfterRun(map[], actions) == AfterRun(scanning.tasks, actions[i..])
      modifies scanning, indexing
    {
      var ok, offered := Perform(scanning, actions[i]);
      scanned := scanned + [(ok, offered)];
      ok, offered := Perform(indexing, actions[i]);
      found := found + [(ok, offered)];
      i := i + 1;
    }
  }
}
