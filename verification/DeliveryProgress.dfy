/** What the delivery protocol is bound to do: what a flush hands out, and that no request is ever
    stuck: from every reachable state its result can still reach its worker and be settled. */
module DeliveryProgress {
  import opened Common
  import opened TaskDelivery
  import opened DeliveryProtocol
  import opened DeliverySafety
  import L = ResultLedgerSpec

  // ---- one flush -----------------------------------------------------------------------------------

  /** A finished result that nobody has acknowledged and whose time has come. */
  predicate Waits(e: L.Entry, now: int) { e.ready && !e.acknowledged && e.nextSendAt <= now }

  /** A flush hands out exactly the waiting results that the queues take, each once. */
  lemma {:induction false} FlushHandsOut(entries: L.Entries, order: seq<nat>, now: int, send: Sender, m: Msg)
    requires forall id :: id in order ==> id in entries
    ensures m in L.Taken(entries, order, now, send)
       <==> send(m) == Accepted && exists id :: id in order && Waits(entries[id], now) && entries[id].result == m
    ensures |L.Taken(entries, order, now, send)| <= |order|
    decreases |order|
  {
    if order != [] {
      FlushHandsOut(entries, order[1..], now, send, m);
      assert forall id :: id in order <==> id == order[0] || id in order[1..];
    }
  }

  /** Queued notices are handed out when taken and stay, in number, when not. */
  lemma {:induction false} NoticesHandedOut(msgs: seq<Msg>, send: Sender, taken: bool, m: Msg)
    ensures multiset(L.Picked(msgs, send, taken))[m] == if (send(m) == Accepted) == taken then multiset(msgs)[m] else 0
    decreases |msgs|
  {
    if msgs != [] {
      NoticesHandedOut(msgs[1..], send, taken, m);
      assert msgs == [msgs[0]] + msgs[1..];
    }
  }

  /** After a flush a waiting result is due again a second later if it was taken, a tenth of a second
      later if it was not, until it is acknowledged; the request, the result and the other marks stay. */
  lemma FlushedIsDueAgain(l: L.Ledger, now: int, send: Sender, id: nat, later: int)
    requires id in l.entries
    ensures var e := l.entries[id];
            && id in L.Flushed(l, now, send).entries
            && var e' := L.Flushed(l, now, send).entries[id];
               && e'.request == e.request && e'.result == e.result && e'.ready == e.ready && e'.acknowledged == e.acknowledged
               && (if Waits(e, now) then
                     (Waits(e', later) <==> later >= now + if send(e.result) == Accepted then 1000 else 100)
                     && (e'.delivered <==> send(e.result) == Accepted)
                   else e' == e)
  {
  }

  lemma ExecutedIsReady(s: System, id: nat)
    requires GoodId(s, id) && id in s.executed && !Applied(s, id)
    ensures id in s.issued && ChannelOf(s.issued[id].request) in s.ledgers
    ensures var l := s.ledgers[ChannelOf(s.issued[id].request)];
            id in l.entries && l.entries[id].ready && l.entries[id].result == s.executed[id] && !l.entries[id].acknowledged
    ensures s.executed[id] == Reply(s.issued[id].request, s.executed[id].body)
  {
  }

  lemma FlushedIsSent(s: System, ch: Channel, order: seq<nat>, now: int, send: Sender, id: nat)
    requires ch in s.ledgers && L.Lists(order, s.ledgers[ch].entries) && id in s.ledgers[ch].entries
    requires Waits(s.ledgers[ch].entries[id], now) && send(s.ledgers[ch].entries[id].result) == Accepted
    ensures var m := s.ledgers[ch].entries[id].result; FlushAt(s, ch, order, now, send).replies[m] > s.replies[m]
  {
    FlushHandsOut(s.ledgers[ch].entries, order, now, send, s.ledgers[ch].entries[id].result);
  }

  /** What is owed for an id: its finished entry is in its ledger, and the next flush at its time sends it. */
  predicate OwedAt(s: System, id: nat, ch: Channel) {
    && id in s.executed && id in s.issued && ch == ChannelOf(s.issued[id].request) && ch in s.ledgers && id in s.ledgers[ch].entries
    && s.ledgers[ch].entries[id].ready && !s.ledgers[ch].entries[id].acknowledged && s.ledgers[ch].entries[id].result == s.executed[id]
  }

  /** On every run: a result nobody has acted upon yet is still owed by its ledger. */
  lemma UnsettledResultIsOwed(s0: System, steps: seq<Step>, id: nat)
    requires Fresh(s0) && LegalRun(s0, steps) && id != 0
    requires var s := Run(s0, steps); id in s.executed && !Applied(s, id)
    ensures var s := Run(s0, steps); id in s.issued && OwedAt(s, id, ChannelOf(s.issued[id].request))
  {
    FreshIsGood(s0);
    RunKeepsGood(s0, steps);
    assert GoodId(Run(s0, steps), id);
    ExecutedIsReady(Run(s0, steps), id);
  }

  /** And a flush at or after its time, with a queue that takes it, puts it among the replies. */
  lemma OwedResultIsSent(s: System, id: nat, ch: Channel, order: seq<nat>, now: int, send: Sender)
    requires OwedAt(s, id, ch) && Enabled(s, FlushResults(ch, order, now, send))
    requires s.ledgers[ch].entries[id].nextSendAt <= now && send(s.executed[id]) == Accepted
    ensures Next(s, FlushResults(ch, order, now, send)).replies[s.executed[id]] > s.replies[s.executed[id]]
  {
    FlushedIsSent(s, ch, order, now, send, id);
  }

  // ---- no request is stuck ---------------------------------------------------------------------------

  const ALL: Sender := m => Accepted

  /** The request is registered with its worker and its channel exists. */
  predicate Registered(s: System, id: nat) {
    && id in s.issued && s.issued[id].worker in s.tables && id in s.tables[s.issued[id].worker]
    && ChannelOf(s.issued[id].request) in s.ledgers
  }

  function TaskOf(s: System, id: nat): Task
    requires Registered(s, id)
  {
    s.tables[s.issued[id].worker][id]
  }

  /** The same request, still registered in the given state. */
  predicate Keeps(s: System, s': System, id: nat, state: State) {
    Registered(s, id) && Registered(s', id) && s'.issued[id] == s.issued[id] && TaskOf(s', id).state == state
  }

  lemma Dispatched(s: System, id: nat) returns (step: Step)
    requires Good(s) && id != 0 && Registered(s, id) && TaskOf(s, id).state == PendingDispatch
    ensures Enabled(s, step) && Keeps(s, Next(s, step), id, AwaitResult) && s.issued[id].request in Next(s, step).requests
  {
    var w := s.issued[id].worker;
    step := Maintain(w, Dispatches, TaskOf(s, id).nextTryAt, ALL);
    assert GoodId(s, id);
    ScanEnqueuesOwn(Dispatches, s.tables[w], TaskOf(s, id).nextTryAt, ALL, id);
  }

  /** A request that awaits its result is waiting, running, or finished. */
  lemma Whereabouts(s: System, id: nat)
    requires GoodId(s, id) && Registered(s, id) && TaskOf(s, id).state == AwaitResult
    ensures var req := s.issued[id].request; req in s.requests || req in s.running || (id in s.executed && !Applied(s, id))
  {
  }

  lemma AdmittedNext(s: System, id: nat) returns (step: Step)
    requires Good(s) && id != 0 && Registered(s, id) && TaskOf(s, id).state == AwaitResult && s.issued[id].request in s.requests
    ensures Enabled(s, step) && Keeps(s, Next(s, step), id, AwaitResult) && s.issued[id].request in Next(s, step).running
  {
    var req := s.issued[id].request;
    step := Admit(ChannelOf(req), req, []);
    assert GoodId(s, id);
    AdmissionIsNew(s, ChannelOf(req), req);
  }

  lemma FinishedNext(s: System, id: nat, body: bytes) returns (step: Step)
    requires Good(s) && id != 0 && Registered(s, id) && TaskOf(s, id).state == AwaitResult && s.issued[id].request in s.running
    ensures Enabled(s, step) && Keeps(s, Next(s, step), id, AwaitResult) && id in Next(s, step).executed
  {
    var req := s.issued[id].request;
    step := FinishTask(ChannelOf(req), req, body);
    assert GoodId(s, id);
    RunningHasEntry(s, ChannelOf(req), req);
  }

  /** The ids of a table in some order. */
  lemma {:induction false} SomeOrder(ids: set<nat>) returns (order: seq<nat>)
    ensures (forall i, j :: 0 <= i < j < |order| ==> order[i] != order[j]) && forall id :: id in order <==> id in ids
    decreases |ids|
  {
    order := [];
    if ids != {} {
      var id :| id in ids;
      var rest := SomeOrder(ids - {id});
      order := [id] + rest;
      forall i, j | 0 <= i < j < |order| ensures order[i] != order[j] {
        if i == 0 { assert order[j] == rest[j - 1] && rest[j - 1] in rest; }
      }
    }
  }

  lemma SentNext(s: System, id: nat) returns (step: Step)
    requires Good(s) && id != 0 && Registered(s, id) && TaskOf(s, id).state == AwaitResult && id in s.executed && !Applied(s, id)
    ensures Enabled(s, step) && Keeps(s, Next(s, step), id, AwaitResult)
    ensures id in Next(s, step).executed && Next(s, step).executed[id] == s.executed[id] && s.executed[id] in Next(s, step).replies
  {
    assert GoodId(s, id);
    ExecutedIsReady(s, id);
    var ch := ChannelOf(s.issued[id].request);
    var order := SomeOrder(s.ledgers[ch].entries.Keys);
    var now := s.ledgers[ch].entries[id].nextSendAt;
    step := FlushResults(ch, order, now, ALL);
    FlushedIsSent(s, ch, order, now, ALL, id);
  }

  /** The result of a request answers it. */
  lemma ReplyAnswers(request: Msg, body: bytes)
    requires IsTask(request)
    ensures Answers(Reply(request, body), request) && IsResult(Reply(request, body))
  {
  }

  /** The two results differ at most in the fields that a worker does not compare. */
  predicate Alike(m: Msg, r: Msg) {
    m == r.(control := m.control, call := r.call.(session := m.call.session, seqNo := m.call.seqNo))
  }

  /** A worker accepts exactly the reply to a request whose result it awaits, and keeps it. */
  lemma CompletesIff(tasks: Table, m: Msg, now: int)
    requires Keyed(tasks)
    ensures var r, id := Complete(tasks, m, now), m.taskId;
            && (r.ok <==> id in tasks && tasks[id].state == AwaitResult && Alike(m, Reply(tasks[id].request, m.body)))
            && (if r.ok then
                  && r.tasks.Keys == tasks.Keys && (forall k <- tasks :: k != id ==> r.tasks[k] == tasks[k])
                  && r.tasks[id].request == tasks[id].request && r.tasks[id].state == Completed && r.tasks[id].result == m
                  && r.tasks[id].ackPending && r.tasks[id].completedAt == now
                else r.tasks == tasks)
  {
  }

  lemma AppliedNext(s: System, id: nat) returns (step: Step)
    requires Good(s) && id != 0 && Registered(s, id) && TaskOf(s, id).state == AwaitResult && id in s.executed && s.executed[id] in s.replies
    ensures Enabled(s, step) && Keeps(s, Next(s, step), id, Completed) && Applied(Next(s, step), id) && TaskOf(Next(s, step), id).ackPending
  {
    assert GoodId(s, id);
    var m := s.executed[id];
    ReplyAnswers(s.issued[id].request, m.body);
    step := DeliverResult(s.issued[id].worker, m, true, 0, 0, ALL);
  }

  /** The acknowledgement of an applied result goes out. */
  lemma AcknowledgedNext(s: System, id: nat) returns (step: Step)
    requires Good(s) && id != 0 && Registered(s, id) && TaskOf(s, id).state == Completed && TaskOf(s, id).ackPending
    ensures Enabled(s, step) && Keeps(s, Next(s, step), id, Completed) && !TaskOf(Next(s, step), id).ackPending
    ensures Control(s.issued[id].request, 1) in Next(s, step).controls
  {
    var w, now := s.issued[id].worker, TaskOf(s, id).nextTryAt;
    step := Maintain(w, Controls, now, ALL);
    assert GoodId(s, id);
    ScanEnqueuesOwn(Controls, s.tables[w], now, ALL, id);
    assert Enqueued(Controls, s.tables[w], now, ALL)[Control(s.issued[id].request, 1)] == 1;
  }

  /** The ledger has forgotten the request, or may. */
  predicate Forgettable(s: System, id: nat) {
    forall ch <- s.ledgers :: id in s.ledgers[ch].entries ==> s.ledgers[ch].entries[id].acknowledged
  }

  lemma ForgettableNext(s: System, id: nat) returns (step: Step)
    requires Good(s) && id != 0 && Registered(s, id) && TaskOf(s, id).state == Completed && !TaskOf(s, id).ackPending
    requires Control(s.issued[id].request, 1) in s.controls
    ensures Enabled(s, step) && Keeps(s, Next(s, step), id, Completed) && !TaskOf(Next(s, step), id).ackPending
    ensures Forgettable(Next(s, step), id)
  {
    assert GoodId(s, id);
    step := TakeControl(ChannelOf(s.issued[id].request), Control(s.issued[id].request, 1));
  }

  // ---- putting the steps together ---------------------------------------------------------------------

  lemma OneMore(s: System, step: Step, rest: seq<Step>)
    requires Enabled(s, step) && LegalRun(Next(s, step), rest)
    ensures LegalRun(s, [step] + rest) && Run(s, [step] + rest) == Run(Next(s, step), rest)
  {
    assert ([step] + rest)[0] == step && ([step] + rest)[1..] == rest;
  }

  lemma Settle(s: System, id: nat) returns (steps: seq<Step>)
    requires Good(s) && id != 0 && Registered(s, id) && TaskOf(s, id).state == Completed && TaskOf(s, id).ackPending
    ensures LegalRun(s, steps)
    ensures var r := Run(s, steps); Keeps(s, r, id, Completed) && !TaskOf(r, id).ackPending && Forgettable(r, id)
  {
    var a := AcknowledgedNext(s, id);
    var s1 := Next(s, a);
    StepKeepsGood(s, a);
    var b := ForgettableNext(s1, id);
    OneMore(s1, b, []);
    OneMore(s, a, [b] + []);
    steps := [a] + ([b] + []);
  }

  lemma FromExecuted(s: System, id: nat) returns (steps: seq<Step>)
    requires Good(s) && id != 0 && Registered(s, id) && TaskOf(s, id).state == AwaitResult && id in s.executed && !Applied(s, id)
    ensures LegalRun(s, steps)
    ensures var r := Run(s, steps); Keeps(s, r, id, Completed) && Applied(r, id) && TaskOf(r, id).ackPending
  {
    var a := SentNext(s, id);
    var s1 := Next(s, a);
    StepKeepsGood(s, a);
    var b := AppliedNext(s1, id);
    OneMore(s1, b, []);
    OneMore(s, a, [b] + []);
    steps := [a] + ([b] + []);
  }

  lemma FromRunning(s: System, id: nat) returns (steps: seq<Step>)
    requires Good(s) && id != 0 && Registered(s, id) && TaskOf(s, id).state == AwaitResult && s.issued[id].request in s.running
    ensures LegalRun(s, steps)
    ensures var r := Run(s, steps); Keeps(s, r, id, Completed) && Applied(r, id) && TaskOf(r, id).ackPending
  {
    var a := FinishedNext(s, id, []);
    var s1 := Next(s, a);
    StepKeepsGood(s, a);
    AwaitedIsUnsettled(s1, id);
    var rest := FromExecuted(s1, id);
    OneMore(s, a, rest);
    steps := [a] + rest;
  }

  lemma AwaitedIsUnsettled(s: System, id: nat)
    requires Good(s) && id != 0 && Registered(s, id) && TaskOf(s, id).state == AwaitResult
    ensures !Applied(s, id)
  {
    assert GoodId(s, id);
  }

  lemma FromAwaiting(s: System, id: nat) returns (steps: seq<Step>)
    requires Good(s) && id != 0 && Registered(s, id) && TaskOf(s, id).state == AwaitResult
    ensures LegalRun(s, steps)
    ensures var r := Run(s, steps); Keeps(s, r, id, Completed) && Applied(r, id) && TaskOf(r, id).ackPending
  {
    assert GoodId(s, id);
    Whereabouts(s, id);
    if s.issued[id].request in s.requests {
      var a := AdmittedNext(s, id);
      StepKeepsGood(s, a);
      var rest := FromRunning(Next(s, a), id);
      OneMore(s, a, rest);
      steps := [a] + rest;
    } else if s.issued[id].request in s.running {
      steps := FromRunning(s, id);
    } else {
      steps := FromExecuted(s, id);
    }
  }

  /** From every state that a run can reach, a registered request that has not been refused can still
      reach its result: some legal continuation completes it at its worker with the result produced for it. */
  lemma EveryRequestCanComplete(s0: System, before: seq<Step>, id: nat) returns (steps: seq<Step>)
    requires Fresh(s0) && LegalRun(s0, before) && id != 0
    requires var s := Run(s0, before); Registered(s, id) && TaskOf(s, id).state in {PendingDispatch, AwaitResult}
    ensures var s := Run(s0, before);
            LegalRun(s, steps) && Keeps(s, Run(s, steps), id, Completed) && Applied(Run(s, steps), id)
  {
    FreshIsGood(s0);
    RunKeepsGood(s0, before);
    steps := CanComplete(Run(s0, before), id);
  }

  lemma CanComplete(s: System, id: nat) returns (steps: seq<Step>)
    requires Good(s) && id != 0 && Registered(s, id) && TaskOf(s, id).state in {PendingDispatch, AwaitResult}
    ensures LegalRun(s, steps)
    ensures var r := Run(s, steps); Keeps(s, r, id, Completed) && Applied(r, id) && TaskOf(r, id).ackPending
  {
    if TaskOf(s, id).state == PendingDispatch {
      var a := Dispatched(s, id);
      StepKeepsGood(s, a);
      var rest := FromAwaiting(Next(s, a), id);
      OneMore(s, a, rest);
      steps := [a] + rest;
    } else {
      steps := FromAwaiting(s, id);
    }
  }

  /** And a completed one can be settled: the acknowledgement reaches the ledger, and both sides may forget it. */
  lemma EveryResultCanSettle(s0: System, before: seq<Step>, id: nat) returns (steps: seq<Step>)
    requires Fresh(s0) && LegalRun(s0, before) && id != 0
    requires var s := Run(s0, before); Registered(s, id) && TaskOf(s, id).state == Completed && TaskOf(s, id).ackPending
    ensures var s := Run(s0, before);
            && LegalRun(s, steps) && Keeps(s, Run(s, steps), id, Completed) && !TaskOf(Run(s, steps), id).ackPending
            && Forgettable(Run(s, steps), id)
  {
    FreshIsGood(s0);
    RunKeepsGood(s0, before);
    steps := Settle(Run(s0, before), id);
  }
}
