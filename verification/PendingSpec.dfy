/** The network thread's waiting queues, one per worker: business traffic is bounded and may be
    refused, lifecycle notices are never lost. */
module PendingSpec {
  import opened Common
  import opened TaskDelivery

  const LAST_TIME: nat := 0xFFFF_FFFF_FFFF_FFFF

  datatype Limits = Limits(
    maxTasks: nat, maxBytes: nat, timeoutMs: nat, perWorkerAttempts: nat, globalAttempts: nat, retryMs: nat, overhead: nat)

  predicate ValidLimits(l: Limits) {
    && l.maxTasks > 0 && l.maxBytes > 0 && 0 < l.timeoutMs <= 3600000 && l.perWorkerAttempts > 0 && l.globalAttempts > 0
    && 0 < l.retryMs <= 1000
  }

  datatype Waiting = Waiting(message: Msg, lifecycle: bool, deadline: nat, bytes: nat)

  datatype Stats = Stats(
    businessTasks: nat, businessBytes: nat, lifecycleTasks: nat, accepted: nat, busy: nat, expired: nat, stale: nat, internalErrors: nat,
    directBusy: nat, taskLimitBusy: nat, byteLimitBusy: nat)

  datatype Queue = Queue(tasks: seq<Waiting>, stats: Stats)

  const NoTasks := Queue([], Stats(0, 0, 0, 0, 0, 0, 0, 0, 0, 0, 0))

  datatype Admission = Admitted | Queued | Busy | InternalError

  /** A message and whether it is a lifecycle notice. */
  datatype Item = Item(message: Msg, lifecycle: bool)

  datatype RejectCode = Timeout | SessionInvalid | Internal

  datatype Rejected = Rejected(message: Msg, code: RejectCode)

  function ItemOf(t: Waiting): Item { Item(t.message, t.lifecycle) }

  function Items(tasks: seq<Waiting>): seq<Item> {
    seq(|tasks|, i requires 0 <= i < |tasks| => ItemOf(tasks[i]))
  }

  function Deadline(l: Limits, now: nat): nat {
    if now > LAST_TIME - l.timeoutMs * 1000 then LAST_TIME else now + l.timeoutMs * 1000
  }

  predicate TooManyBytes(q: Queue, l: Limits, bytes: nat) {
    bytes > l.maxBytes || q.stats.businessBytes > l.maxBytes - bytes
  }

  function Added(s: Stats, t: Waiting): Stats {
    if t.lifecycle then s.(lifecycleTasks := s.lifecycleTasks + 1)
    else s.(businessTasks := s.businessTasks + 1, businessBytes := s.businessBytes + t.bytes)
  }

  function Minus(a: nat, b: nat): nat { if a >= b then a - b else 0 }

  function Removed(s: Stats, t: Waiting): Stats {
    if t.lifecycle then s.(lifecycleTasks := Minus(s.lifecycleTasks, 1))
    else s.(businessTasks := Minus(s.businessTasks, 1), businessBytes := Minus(s.businessBytes, t.bytes))
  }

  datatype Submission = Submission(queue: Queue, admission: Admission, sent: bool)

  /** One submission; answer is what the worker's queue says if it is asked. */
  function Decide(q: Queue, l: Limits, message: Msg, lifecycle: bool, now: nat, answer: DispatchResult): Submission {
    var direct := q.tasks == [];
    var bytes := l.overhead + |message.body|;
    var s := if direct && answer != Accepted && answer != Backpressure then q.stats.(internalErrors := q.stats.internalErrors + 1) else q.stats;
    if direct && answer == Accepted then Submission(q.(stats := q.stats.(accepted := q.stats.accepted + 1)), Admitted, true)
    else if direct && !lifecycle then
      if answer == Backpressure then Submission(q.(stats := s.(busy := s.busy + 1, directBusy := s.directBusy + 1)), Busy, false)
      else Submission(q.(stats := s), InternalError, false)
    else if !lifecycle && q.stats.businessTasks >= l.maxTasks then
      Submission(q.(stats := s.(busy := s.busy + 1, taskLimitBusy := s.taskLimitBusy + 1)), Busy, false)
    else if !lifecycle && TooManyBytes(q, l, bytes) then
      Submission(q.(stats := s.(busy := s.busy + 1, byteLimitBusy := s.byteLimitBusy + 1)), Busy, false)
    else
      var t := Waiting(message, lifecycle, Deadline(l, now), bytes);
      Submission(Queue(q.tasks + [t], Added(s, t)), Queued, false)
  }

  // Pumping: expired and invalid business goes, then the heads are tried.

  predicate Doomed(t: Waiting, now: nat, valid: Msg -> bool) {
    !t.lifecycle && (now >= t.deadline || !valid(t.message))
  }

  function Dooms(now: nat, valid: Msg -> bool): Waiting -> bool {
    (t: Waiting) => Doomed(t, now, valid)
  }

  /** A pass over the queue that drops the given tasks. */
  function Purge(q: Queue, drop: Waiting -> bool): Queue
    decreases |q.tasks|
  {
    if q.tasks == [] then q
    else
      var last := q.tasks[|q.tasks| - 1];
      var rest := Purge(Queue(q.tasks[..|q.tasks| - 1], q.stats), drop);
      if drop(last) then Queue(rest.tasks, Removed(rest.stats, last)) else Queue(rest.tasks + [last], rest.stats)
  }

  /** The rejections of an expiry pass, in queue order. */
  function Doom(tasks: seq<Waiting>, now: nat, valid: Msg -> bool): seq<Rejected>
    decreases |tasks|
  {
    if tasks == [] then []
    else
      var t := tasks[|tasks| - 1];
      Doom(tasks[..|tasks| - 1], now, valid)
      + if Doomed(t, now, valid) then [Rejected(t.message, if now >= t.deadline then Timeout else SessionInvalid)] else []
  }

  function CountCode(r: seq<Rejected>, code: RejectCode): nat
    decreases |r|
  {
    if r == [] then 0 else CountCode(r[..|r| - 1], code) + if r[|r| - 1].code == code then 1 else 0
  }

  /** A queue after the expiry pass. */
  function Swept(q: Queue, now: nat, valid: Msg -> bool): Queue {
    var d, p := Doom(q.tasks, now, valid), Purge(q, Dooms(now, valid));
    p.(stats := p.stats.(expired := p.stats.expired + CountCode(d, Timeout), stale := p.stats.stale + CountCode(d, SessionInvalid)))
  }

  datatype Drain = Drain(queue: Queue, sent: seq<Item>, rejected: seq<Rejected>, used: nat)

  /** The head leaves the queue: it was taken, or it is business nobody can take. */
  predicate Moves(t: Waiting, a: DispatchResult) {
    a == Accepted || (a != Backpressure && !t.lifecycle)
  }

  function AfterHead(q: Queue, a: DispatchResult): Queue
    requires q.tasks != []
  {
    var s := if a == Accepted then q.stats.(accepted := q.stats.accepted + 1) else q.stats.(internalErrors := q.stats.internalErrors + 1);
    Queue(q.tasks[1..], Removed(s, q.tasks[0]))
  }

  function HeadSent(q: Queue, a: DispatchResult): seq<Item>
    requires q.tasks != []
  {
    if a == Accepted then [ItemOf(q.tasks[0])] else []
  }

  function Stuck(q: Queue, a: DispatchResult): Queue {
    if a == Backpressure then q else q.(stats := q.stats.(internalErrors := q.stats.internalErrors + 1))
  }

  /** Trying the head again and again: k counts the attempts of the whole pump. */
  function DrainQueue(q: Queue, tries: nat, k: nat, answer: nat -> DispatchResult): Drain
    decreases tries
  {
    if q.tasks == [] || tries == 0 then Drain(q, [], [], 0)
    else if !Moves(q.tasks[0], answer(k)) then Drain(Stuck(q, answer(k)), [], [], 1)
    else
      var a := answer(k);
      var d := DrainQueue(AfterHead(q, a), tries - 1, k + 1, answer);
      Drain(d.queue, HeadSent(q, a) + d.sent, (if a == Accepted then [] else [Rejected(q.tasks[0].message, Internal)]) + d.rejected, d.used + 1)
  }

  // What each queue keeps.

  /** a is b with some elements left out. */
  predicate Subsequence<T(==)>(a: seq<T>, b: seq<T>)
    decreases |b|
  {
    if a == [] then true
    else if b == [] then false
    else (a[|a| - 1] == b[|b| - 1] && Subsequence(a[..|a| - 1], b[..|b| - 1])) || Subsequence(a, b[..|b| - 1])
  }

  lemma SubsequenceGrows<T>(a: seq<T>, b: seq<T>, x: T)
    requires Subsequence(a, b)
    ensures Subsequence(a + [x], b + [x]) && Subsequence(a, b + [x])
  {
    assert (a + [x])[..|a|] == a && (b + [x])[..|b|] == b;
  }

  lemma {:induction false} SubsequenceLoses<T>(a: seq<T>, x: T, c: seq<T>, b: seq<T>)
    requires Subsequence(a + [x] + c, b)
    ensures Subsequence(a + c, b)
    decreases |b|
  {
    var s := a + [x] + c;
    if b == [] || a + c == [] {
    } else if s[|s| - 1] == b[|b| - 1] && Subsequence(s[..|s| - 1], b[..|b| - 1]) {
      if c == [] {
        assert s[..|s| - 1] == a && a + c == a;
        assert b == b[..|b| - 1] + [b[|b| - 1]];
        SubsequenceGrows(a, b[..|b| - 1], b[|b| - 1]);
      } else {
        var c' := c[..|c| - 1];
        assert s[..|s| - 1] == a + [x] + c';
        SubsequenceLoses(a, x, c', b[..|b| - 1]);
        assert a + c == (a + c') + [c[|c| - 1]] && b == b[..|b| - 1] + [b[|b| - 1]];
        SubsequenceGrows(a + c', b[..|b| - 1], b[|b| - 1]);
      }
    } else {
      SubsequenceLoses(a, x, c, b[..|b| - 1]);
      assert b == b[..|b| - 1] + [b[|b| - 1]];
      SubsequenceGrows(a + c, b[..|b| - 1], b[|b| - 1]);
    }
  }

  /** The lifecycle notices of a list, in order. */
  function Notices(items: seq<Item>): seq<Item>
    decreases |items|
  {
    if items == [] then []
    else Notices(items[..|items| - 1]) + if items[|items| - 1].lifecycle then [items[|items| - 1]] else []
  }

  lemma {:induction false} NoticesSplit(a: seq<Item>, b: seq<Item>)
    ensures Notices(a + b) == Notices(a) + Notices(b)
    decreases |b|
  {
    if b == [] {
      assert a + b == a;
    } else {
      NoticesSplit(a, b[..|b| - 1]);
      assert (a + b)[..|a + b| - 1] == a + b[..|b| - 1];
    }
  }

  /** The counters as a recount of the queue. */
  function Recount(tasks: seq<Waiting>): (nat, nat, nat)
    decreases |tasks|
  {
    if tasks == [] then (0, 0, 0)
    else
      var (b, n, l), t := Recount(tasks[..|tasks| - 1]), tasks[|tasks| - 1];
      if t.lifecycle then (b, n, l + 1) else (b + 1, n + t.bytes, l)
  }

  predicate Counted(q: Queue) {
    Recount(q.tasks) == (q.stats.businessTasks, q.stats.businessBytes, q.stats.lifecycleTasks)
  }

  predicate WithinLimits(q: Queue, l: Limits) {
    q.stats.businessTasks <= l.maxTasks && q.stats.businessBytes <= l.maxBytes
  }

  /** What was submitted, minus refused business: the order is kept and no lifecycle notice is missing. */
  ghost predicate Flow(kept: seq<Item>, submitted: seq<Item>) {
    Subsequence(kept, submitted) && Notices(kept) == Notices(submitted)
  }

  /** Counters and limits are right; what was sent, followed by what waits, is the flow submitted. */
  ghost predicate QueueOk(q: Queue, l: Limits, sent: seq<Item>, submitted: seq<Item>) {
    Counted(q) && WithinLimits(q, l) && Flow(sent + Items(q.tasks), submitted) && q.stats.accepted == |sent|
  }

  /** In particular the notices sent, followed by those waiting, are exactly those submitted. */
  lemma NoNoticeIsLost(q: Queue, l: Limits, sent: seq<Item>, submitted: seq<Item>)
    requires QueueOk(q, l, sent, submitted)
    ensures Notices(sent) + Notices(Items(q.tasks)) == Notices(submitted)
    ensures Subsequence(sent, submitted)
  {
    NoticesSplit(sent, Items(q.tasks));
    PrefixIsSubsequence(sent, Items(q.tasks), submitted);
  }

  lemma {:induction false} PrefixIsSubsequence<T>(a: seq<T>, c: seq<T>, b: seq<T>)
    requires Subsequence(a + c, b)
    ensures Subsequence(a, b)
    decreases |c|
  {
    if c == [] {
      assert a + c == a;
    } else {
      assert a + c == a + [c[0]] + c[1..];
      SubsequenceLoses(a, c[0], c[1..], b);
      PrefixIsSubsequence(a, c[1..], b);
    }
  }

  lemma ItemsSplit(a: seq<Waiting>, b: seq<Waiting>)
    ensures Items(a + b) == Items(a) + Items(b)
  {
  }

  lemma {:induction false} RecountSplit(a: seq<Waiting>, b: seq<Waiting>)
    ensures var (x, y, z), (u, v, w) := Recount(a), Recount(b); Recount(a + b) == (x + u, y + v, z + w)
    decreases |b|
  {
    if b == [] {
      assert a + b == a;
    } else {
      RecountSplit(a, b[..|b| - 1]);
      assert (a + b)[..|a + b| - 1] == a + b[..|b| - 1];
    }
  }

  lemma RecountOne(t: Waiting)
    ensures Recount([t]) == if t.lifecycle then (0, 0, 1) else (1, t.bytes, 0)
  {
    assert [t][..0] == [];
  }

  lemma NoticesOne(items: seq<Item>, x: Item)
    ensures Notices(items + [x]) == Notices(items) + (if x.lifecycle then [x] else [])
    ensures Notices([x]) == if x.lifecycle then [x] else []
  {
    assert (items + [x])[..|items|] == items && [x][..0] == [];
  }

  lemma FlowRefuses(kept: seq<Item>, submitted: seq<Item>, x: Item)
    requires Flow(kept, submitted) && !x.lifecycle
    ensures Flow(kept, submitted + [x])
  {
    SubsequenceGrows(kept, submitted, x);
    NoticesOne(submitted, x);
  }

  lemma FlowAdds(kept: seq<Item>, submitted: seq<Item>, x: Item)
    requires Flow(kept, submitted)
    ensures Flow(kept + [x], submitted + [x])
  {
    SubsequenceGrows(kept, submitted, x);
    NoticesOne(submitted, x);
    NoticesOne(kept, x);
  }

  lemma FlowDrops(a: seq<Item>, x: Item, c: seq<Item>, submitted: seq<Item>)
    requires Flow(a + [x] + c, submitted) && !x.lifecycle
    ensures Flow(a + c, submitted)
  {
    SubsequenceLoses(a, x, c, submitted);
    NoticesSplit(a + [x], c);
    NoticesOne(a, x);
    NoticesSplit(a, c);
  }

  /** Submitting keeps a queue's books: a lifecycle notice is sent or queued, never refused. */
  lemma SubmitKeeps(q: Queue, l: Limits, message: Msg, lifecycle: bool, now: nat, answer: DispatchResult, sent: seq<Item>, submitted: seq<Item>)
    requires QueueOk(q, l, sent, submitted)
    ensures var r, x := Decide(q, l, message, lifecycle, now, answer), Item(message, lifecycle);
            && QueueOk(r.queue, l, if r.sent then sent + [x] else sent, submitted + [x])
            && (lifecycle ==> r.admission == Admitted || r.admission == Queued)
            && (r.admission == Queued ==> |r.queue.tasks| == |q.tasks| + 1 && ItemOf(r.queue.tasks[|q.tasks|]) == x)
  {
    var r, x := Decide(q, l, message, lifecycle, now, answer), Item(message, lifecycle);
    if r.sent {
      assert sent + Items(q.tasks) == sent && sent + [x] + Items(q.tasks) == sent + [x];
      FlowAdds(sent, submitted, x);
    } else if r.admission == Queued {
      var t := r.queue.tasks[|q.tasks|];
      assert r.queue.tasks == q.tasks + [t] && ItemOf(t) == x;
      QueuedCounts(q, t, r.queue.stats);
      QueuedFlows(q, t, sent, submitted);
    } else {
      FlowRefuses(sent + Items(q.tasks), submitted, x);
    }
  }

  lemma QueuedFlows(q: Queue, t: Waiting, sent: seq<Item>, submitted: seq<Item>)
    requires Flow(sent + Items(q.tasks), submitted)
    ensures Flow(sent + Items(q.tasks + [t]), submitted + [ItemOf(t)])
  {
    FlowAdds(sent + Items(q.tasks), submitted, ItemOf(t));
    ItemsSplit(q.tasks, [t]);
    assert sent + (Items(q.tasks) + Items([t])) == sent + Items(q.tasks) + [ItemOf(t)];
  }

  lemma QueuedCounts(q: Queue, t: Waiting, s: Stats)
    requires Counted(q) && s.businessTasks == Added(q.stats, t).businessTasks && s.businessBytes == Added(q.stats, t).businessBytes
    requires s.lifecycleTasks == Added(q.stats, t).lifecycleTasks
    ensures Counted(Queue(q.tasks + [t], s))
  {
    RecountSplit(q.tasks, [t]);
    RecountOne(t);
  }

  /** Dropping business from the middle of a queue leaves the flow intact. */
  lemma {:induction false} PurgeFlows(q: Queue, drop: Waiting -> bool, pre: seq<Item>, suf: seq<Item>, b: seq<Item>)
    requires forall t :: drop(t) ==> !t.lifecycle
    requires Flow(pre + Items(q.tasks) + suf, b)
    ensures Flow(pre + Items(Purge(q, drop).tasks) + suf, b)
    decreases |q.tasks|
  {
    if q.tasks != [] {
      var front, last := q.tasks[..|q.tasks| - 1], q.tasks[|q.tasks| - 1];
      var fq, x := Queue(front, q.stats), ItemOf(last);
      assert Items(q.tasks) == Items(front) + [x];
      if drop(last) {
        assert pre + Items(q.tasks) + suf == (pre + Items(front)) + [x] + suf;
        FlowDrops(pre + Items(front), x, suf, b);
        PurgeFlows(fq, drop, pre, suf, b);
      } else {
        assert pre + Items(q.tasks) + suf == pre + Items(front) + ([x] + suf);
        PurgeFlows(fq, drop, pre, [x] + suf, b);
        var rest := Purge(fq, drop).tasks;
        assert pre + Items(rest + [last]) + suf == pre + Items(rest) + ([x] + suf);
      }
    }
  }

  /** The counters exceed the recount by the same amount before and after. */
  predicate Exceeds(q: Queue, x: nat, y: nat, z: nat) {
    var (b, n, l) := Recount(q.tasks);
    q.stats.businessTasks == b + x && q.stats.businessBytes == n + y && q.stats.lifecycleTasks == l + z
  }

  lemma {:induction false} PurgeCounts(q: Queue, drop: Waiting -> bool, x: nat, y: nat, z: nat)
    requires Exceeds(q, x, y, z)
    ensures var p := Purge(q, drop);
            && Exceeds(p, x, y, z) && p.stats.accepted == q.stats.accepted
            && p.stats.businessTasks <= q.stats.businessTasks && p.stats.businessBytes <= q.stats.businessBytes
    decreases |q.tasks|
  {
    if q.tasks != [] {
      var front, last := q.tasks[..|q.tasks| - 1], q.tasks[|q.tasks| - 1];
      var u, v, w := if last.lifecycle then 0 else 1, if last.lifecycle then 0 else last.bytes, if last.lifecycle then 1 else 0;
      PurgeCounts(Queue(front, q.stats), drop, x + u, y + v, z + w);
      var rest := Purge(Queue(front, q.stats), drop).tasks;
      assert (rest + [last])[..|rest|] == rest;
    }
  }

  /** A purge of business keeps a queue's books. */
  lemma PurgeKeeps(q: Queue, drop: Waiting -> bool, l: Limits, sent: seq<Item>, submitted: seq<Item>)
    requires QueueOk(q, l, sent, submitted) && forall t :: drop(t) ==> !t.lifecycle
    ensures QueueOk(Purge(q, drop), l, sent, submitted)
  {
    PurgeCounts(q, drop, 0, 0, 0);
    assert sent + Items(q.tasks) + [] == sent + Items(q.tasks);
    PurgeFlows(q, drop, sent, [], submitted);
    assert sent + Items(Purge(q, drop).tasks) + [] == sent + Items(Purge(q, drop).tasks);
  }

  /** What a purge leaves are tasks that were there and are not to be dropped. */
  lemma {:induction false} PurgeLeaves(q: Queue, drop: Waiting -> bool)
    ensures forall i :: 0 <= i < |Purge(q, drop).tasks| ==> Purge(q, drop).tasks[i] in q.tasks && !drop(Purge(q, drop).tasks[i])
    decreases |q.tasks|
  {
    if q.tasks != [] { PurgeLeaves(Queue(q.tasks[..|q.tasks| - 1], q.stats), drop); }
  }

  lemma HeadCounts(q: Queue, s: Stats)
    requires Counted(q) && q.tasks != []
    requires s.businessTasks == q.stats.businessTasks && s.businessBytes == q.stats.businessBytes && s.lifecycleTasks == q.stats.lifecycleTasks
    ensures Counted(Queue(q.tasks[1..], Removed(s, q.tasks[0])))
  {
    assert q.tasks == [q.tasks[0]] + q.tasks[1..];
    RecountSplit([q.tasks[0]], q.tasks[1..]);
    RecountOne(q.tasks[0]);
  }

  lemma HeadFlows(q: Queue, a: DispatchResult, sent: seq<Item>, submitted: seq<Item>)
    requires Flow(sent + Items(q.tasks), submitted) && q.tasks != [] && Moves(q.tasks[0], a)
    ensures Flow(sent + HeadSent(q, a) + Items(AfterHead(q, a).tasks), submitted)
  {
    var x, rest := ItemOf(q.tasks[0]), Items(q.tasks[1..]);
    assert sent + Items(q.tasks) == sent + [x] + rest;
    if a != Accepted {
      FlowDrops(sent, x, rest, submitted);
      assert sent + [] == sent;
    }
  }

  lemma HeadMoves(q: Queue, l: Limits, a: DispatchResult, sent: seq<Item>, submitted: seq<Item>)
    requires QueueOk(q, l, sent, submitted) && q.tasks != [] && Moves(q.tasks[0], a)
    ensures QueueOk(AfterHead(q, a), l, sent + HeadSent(q, a), submitted)
  {
    HeadFlows(q, a, sent, submitted);
    HeadCounts(q, if a == Accepted then q.stats.(accepted := q.stats.accepted + 1) else q.stats.(internalErrors := q.stats.internalErrors + 1));
  }

  /** Draining keeps a queue's books: what it sends leaves the queue from the front, in order. */
  lemma {:induction false} DrainKeeps(q: Queue, l: Limits, tries: nat, k: nat, answer: nat -> DispatchResult, sent: seq<Item>, submitted: seq<Item>)
    requires QueueOk(q, l, sent, submitted)
    ensures var d := DrainQueue(q, tries, k, answer); QueueOk(d.queue, l, sent + d.sent, submitted)
    decreases tries
  {
    if q.tasks == [] || tries == 0 || !Moves(q.tasks[0], answer(k)) {
      assert sent + [] == sent;
      assert Items(Stuck(q, answer(k)).tasks) == Items(q.tasks);
    } else {
      var next, head := AfterHead(q, answer(k)), HeadSent(q, answer(k));
      HeadMoves(q, l, answer(k), sent, submitted);
      DrainKeeps(next, l, tries - 1, k + 1, answer, sent + head, submitted);
      Reassociate(sent, head, DrainQueue(next, tries - 1, k + 1, answer).sent);
    }
  }

  lemma Reassociate<T>(a: seq<T>, b: seq<T>, c: seq<T>)
    ensures a + b + c == a + (b + c)
  {
  }

  lemma {:induction false} DrainIsBounded(q: Queue, tries: nat, k: nat, answer: nat -> DispatchResult)
    ensures var d := DrainQueue(q, tries, k, answer); d.used <= tries && |d.sent| <= d.used
    decreases tries
  {
    if !(q.tasks == [] || tries == 0 || !Moves(q.tasks[0], answer(k))) {
      DrainIsBounded(AfterHead(q, answer(k)), tries - 1, k + 1, answer);
    }
  }

  /** A pump only sends what was waiting. */
  lemma {:induction false} DrainSendsWaiting(q: Queue, tries: nat, k: nat, answer: nat -> DispatchResult, x: Item)
    requires x in DrainQueue(q, tries, k, answer).sent
    ensures exists t :: t in q.tasks && ItemOf(t) == x
    decreases tries
  {
    if ItemOf(q.tasks[0]) != x {
      DrainSendsWaiting(AfterHead(q, answer(k)), tries - 1, k + 1, answer, x);
    }
  }
}
