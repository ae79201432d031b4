/** All the waiting queues of the network thread, pumped in turn. */
module WorkerPending {
  import opened TaskDelivery
  import opened PendingSpec

  /** A pump in progress: queues, whose turn it is, what each worker was sent, rejections, attempts. */
  datatype Pumping = Pumping(queues: seq<Queue>, cursor: nat, sent: seq<seq<Item>>, rejected: seq<Rejected>, total: nat)

  predicate Shaped(p: Pumping) { p.queues != [] && |p.sent| == |p.queues| && p.cursor < |p.queues| }

  function Least(a: nat, b: nat): nat { if a < b then a else b }

  /** One worker's turn. */
  function Turn(p: Pumping, l: Limits, answer: nat -> DispatchResult): (r: Pumping)
    requires Shaped(p) && p.total < l.globalAttempts
    ensures Shaped(r)
  {
    var w := p.cursor;
    var d := DrainQueue(p.queues[w], Least(l.perWorkerAttempts, l.globalAttempts - p.total), p.total, answer);
    Pumping(p.queues[w := d.queue], (w + 1) % |p.queues|, p.sent[w := p.sent[w] + d.sent], p.rejected + d.rejected, p.total + d.used)
  }

  function Rounds(p: Pumping, n: nat, l: Limits, answer: nat -> DispatchResult): (r: Pumping)
    requires Shaped(p)
    ensures Shaped(r)
    decreases n
  {
    if n == 0 || p.total >= l.globalAttempts then p else Rounds(Turn(p, l, answer), n - 1, l, answer)
  }

  function SweptAll(queues: seq<Queue>, now: nat, valid: Msg -> bool): seq<Queue> {
    seq(|queues|, w requires 0 <= w < |queues| => Swept(queues[w], now, valid))
  }

  function DoomAll(queues: seq<Queue>, now: nat, valid: Msg -> bool): seq<Rejected>
    decreases |queues|
  {
    if queues == [] then []
    else DoomAll(queues[..|queues| - 1], now, valid) + Doom(queues[|queues| - 1].tasks, now, valid)
  }

  function Nothing(n: nat): seq<seq<Item>> { seq(n, _ => []) }

  function Pump(queues: seq<Queue>, cursor: nat, now: nat, valid: Msg -> bool, l: Limits, answer: nat -> DispatchResult): Pumping
    requires queues != [] && cursor < |queues|
  {
    Rounds(Pumping(SweptAll(queues, now, valid), cursor, Nothing(|queues|), DoomAll(queues, now, valid), 0), |queues|, l, answer)
  }

  function OfSession(session: nat): Waiting -> bool {
    (t: Waiting) => !t.lifecycle && t.message.call.session == session
  }

  function Cancelled(queues: seq<Queue>, session: nat): seq<Queue> {
    seq(|queues|, w requires 0 <= w < |queues| => Purge(queues[w], OfSession(session)))
  }

  /** Every queue's books are right. */
  ghost predicate AllOk(queues: seq<Queue>, l: Limits, sent: seq<seq<Item>>, submitted: seq<seq<Item>>) {
    && |queues| == |sent| == |submitted|
    && forall w :: 0 <= w < |queues| ==> QueueOk(queues[w], l, sent[w], submitted[w])
  }

  function Joined(a: seq<seq<Item>>, b: seq<seq<Item>>): seq<seq<Item>>
    requires |a| == |b|
  {
    seq(|a|, w requires 0 <= w < |a| => a[w] + b[w])
  }

  lemma SweptKeeps(q: Queue, now: nat, valid: Msg -> bool, l: Limits, sent: seq<Item>, submitted: seq<Item>)
    requires QueueOk(q, l, sent, submitted)
    ensures QueueOk(Swept(q, now, valid), l, sent, submitted)
    ensures forall t :: t in Swept(q, now, valid).tasks ==> t in q.tasks && !Doomed(t, now, valid)
  {
    PurgeKeeps(q, Dooms(now, valid), l, sent, submitted);
    PurgeLeaves(q, Dooms(now, valid));
  }

  /** The queue holds only tasks of the given one, neither expired nor invalid. */
  ghost predicate FreshQueue(q: Queue, from: Queue, now: nat, valid: Msg -> bool) {
    forall t :: t in q.tasks ==> t in from.tasks && !Doomed(t, now, valid)
  }

  ghost predicate Fresh(queues: seq<Queue>, from: seq<Queue>, now: nat, valid: Msg -> bool) {
    |queues| == |from| && forall w :: 0 <= w < |queues| ==> FreshQueue(queues[w], from[w], now, valid)
  }

  lemma {:induction false} DrainLeaves(q: Queue, tries: nat, k: nat, answer: nat -> DispatchResult)
    ensures forall t :: t in DrainQueue(q, tries, k, answer).queue.tasks ==> t in q.tasks
    decreases tries
  {
    if !(q.tasks == [] || tries == 0 || !Moves(q.tasks[0], answer(k))) {
      DrainLeaves(AfterHead(q, answer(k)), tries - 1, k + 1, answer);
    }
  }

  predicate Live(x: Item, q: Queue, now: nat, valid: Msg -> bool) {
    exists t :: t in q.tasks && ItemOf(t) == x && !Doomed(t, now, valid)
  }

  ghost predicate LiveList(sent: seq<Item>, q: Queue, now: nat, valid: Msg -> bool) {
    forall i :: 0 <= i < |sent| ==> Live(sent[i], q, now, valid)
  }

  /** Everything sent was waiting in the given queues, unexpired and valid unless it is a notice. */
  ghost predicate SentLive(sent: seq<seq<Item>>, from: seq<Queue>, now: nat, valid: Msg -> bool) {
    |sent| == |from| && forall w :: 0 <= w < |sent| ==> LiveList(sent[w], from[w], now, valid)
  }

  lemma TurnKeeps(p: Pumping, l: Limits, answer: nat -> DispatchResult, w: nat, before: seq<Item>, submitted: seq<Item>)
    requires Shaped(p) && p.total < l.globalAttempts && w < |p.queues| && QueueOk(p.queues[w], l, before + p.sent[w], submitted)
    ensures var r := Turn(p, l, answer); |r.queues| == |p.queues| && QueueOk(r.queues[w], l, before + r.sent[w], submitted)
  {
    if w == p.cursor {
      var tries := Least(l.perWorkerAttempts, l.globalAttempts - p.total);
      DrainKeeps(p.queues[w], l, tries, p.total, answer, before + p.sent[w], submitted);
      Reassociate(before, p.sent[w], DrainQueue(p.queues[w], tries, p.total, answer).sent);
    }
  }

  lemma DrainSendsLive(q: Queue, from: Queue, tries: nat, k: nat, answer: nat -> DispatchResult, now: nat, valid: Msg -> bool)
    requires FreshQueue(q, from, now, valid)
    ensures var d := DrainQueue(q, tries, k, answer); FreshQueue(d.queue, from, now, valid) && LiveList(d.sent, from, now, valid)
  {
    var d := DrainQueue(q, tries, k, answer);
    DrainLeaves(q, tries, k, answer);
    forall i | 0 <= i < |d.sent| ensures Live(d.sent[i], from, now, valid) {
      DrainSendsWaiting(q, tries, k, answer, d.sent[i]);
      var t :| t in q.tasks && ItemOf(t) == d.sent[i];
      assert t in from.tasks && !Doomed(t, now, valid);
    }
  }

  lemma TurnSendsLive(p: Pumping, l: Limits, answer: nat -> DispatchResult, from: seq<Queue>, now: nat, valid: Msg -> bool)
    requires Shaped(p) && p.total < l.globalAttempts && Fresh(p.queues, from, now, valid) && SentLive(p.sent, from, now, valid)
    ensures var r := Turn(p, l, answer); Fresh(r.queues, from, now, valid) && SentLive(r.sent, from, now, valid)
  {
    var w, r := p.cursor, Turn(p, l, answer);
    assert FreshQueue(p.queues[w], from[w], now, valid) && LiveList(p.sent[w], from[w], now, valid);
    DrainSendsLive(p.queues[w], from[w], Least(l.perWorkerAttempts, l.globalAttempts - p.total), p.total, answer, now, valid);
    forall v | 0 <= v < |r.queues| ensures FreshQueue(r.queues[v], from[v], now, valid) && LiveList(r.sent[v], from[v], now, valid) {
      assert FreshQueue(p.queues[v], from[v], now, valid) && LiveList(p.sent[v], from[v], now, valid);
    }
  }

  lemma {:induction false} RoundsKeep(p: Pumping, n: nat, l: Limits, answer: nat -> DispatchResult, w: nat, before: seq<Item>, submitted: seq<Item>)
    requires Shaped(p) && w < |p.queues| && QueueOk(p.queues[w], l, before + p.sent[w], submitted)
    ensures var r := Rounds(p, n, l, answer); |r.queues| == |p.queues| && QueueOk(r.queues[w], l, before + r.sent[w], submitted)
    decreases n
  {
    if n > 0 && p.total < l.globalAttempts {
      TurnKeeps(p, l, answer, w, before, submitted);
      RoundsKeep(Turn(p, l, answer), n - 1, l, answer, w, before, submitted);
    }
  }

  lemma {:induction false} RoundsAreBounded(p: Pumping, n: nat, l: Limits, answer: nat -> DispatchResult)
    requires Shaped(p) && p.total <= l.globalAttempts
    ensures Rounds(p, n, l, answer).total <= l.globalAttempts && |Rounds(p, n, l, answer).queues| == |p.queues|
    decreases n
  {
    if n > 0 && p.total < l.globalAttempts {
      DrainIsBounded(p.queues[p.cursor], Least(l.perWorkerAttempts, l.globalAttempts - p.total), p.total, answer);
      RoundsAreBounded(Turn(p, l, answer), n - 1, l, answer);
    }
  }

  lemma {:induction false} RoundsSendLive(p: Pumping, n: nat, l: Limits, answer: nat -> DispatchResult, from: seq<Queue>, now: nat, valid: Msg -> bool)
    requires Shaped(p) && Fresh(p.queues, from, now, valid) && SentLive(p.sent, from, now, valid)
    ensures SentLive(Rounds(p, n, l, answer).sent, from, now, valid)
    decreases n
  {
    if n > 0 && p.total < l.globalAttempts {
      TurnSendsLive(p, l, answer, from, now, valid);
      RoundsSendLive(Turn(p, l, answer), n - 1, l, answer, from, now, valid);
    }
  }

  /** A pump keeps every queue's books, stays within the attempts allowed, and never sends business
      that has expired or whose session is no longer valid. */
  lemma PumpKeeps(queues: seq<Queue>, cursor: nat, now: nat, valid: Msg -> bool, l: Limits, answer: nat -> DispatchResult,
                  sent: seq<seq<Item>>, submitted: seq<seq<Item>>)
    requires queues != [] && cursor < |queues| && AllOk(queues, l, sent, submitted)
    ensures var p := Pump(queues, cursor, now, valid, l, answer);
            && |p.sent| == |sent| && AllOk(p.queues, l, Joined(sent, p.sent), submitted)
            && p.total <= l.globalAttempts && SentLive(p.sent, queues, now, valid)
  {
    var swept, none := SweptAll(queues, now, valid), Nothing(|queues|);
    forall w | 0 <= w < |queues|
      ensures QueueOk(swept[w], l, sent[w], submitted[w])
      ensures forall t :: t in swept[w].tasks ==> t in queues[w].tasks && !Doomed(t, now, valid)
    {
      SweptKeeps(queues[w], now, valid, l, sent[w], submitted[w]);
    }
    var p := Pumping(swept, cursor, none, DoomAll(queues, now, valid), 0);
    RoundsAreBounded(p, |queues|, l, answer);
    forall w | 0 <= w < |queues| ensures QueueOk(Rounds(p, |queues|, l, answer).queues[w], l, sent[w] + Rounds(p, |queues|, l, answer).sent[w], submitted[w]) {
      assert sent[w] + none[w] == sent[w];
      RoundsKeep(p, |queues|, l, answer, w, sent[w], submitted[w]);
    }
    RoundsSendLive(p, |queues|, l, answer, queues, now, valid);
  }

  class WorkerPendingTasks {
    var queues: seq<Queue>
    var cursor: nat
    const limits: Limits
    ghost var sent: seq<seq<Item>>
    ghost var submitted: seq<seq<Item>>

    ghost predicate Valid()
      reads this
    {
      ValidLimits(limits) && queues != [] && cursor < |queues| && AllOk(queues, limits, sent, submitted)
    }

    constructor (workers: nat, l: Limits)
      requires workers > 0 && ValidLimits(l)
      ensures Valid() && |queues| == workers && limits == l
    {
      limits, cursor := l, 0;
      queues := seq(workers, _ => NoTasks);
      sent, submitted := seq(workers, _ => []), seq(workers, _ => []);
    }

    method SubmitTask(worker: nat, message: Msg, lifecycle: bool, now: nat, answer: DispatchResult) returns (a: Admission)
      requires Valid()
      modifies `queues, `sent, `submitted
      ensures Valid()
      ensures worker >= |old(queues)| ==> a == InternalError && queues == old(queues) && sent == old(sent) && submitted == old(submitted)
      ensures worker < |old(queues)| ==>
                var r, x := Decide(old(queues)[worker], limits, message, lifecycle, now, answer), Item(message, lifecycle);
                && a == r.admission && queues == old(queues)[worker := r.queue]
                && submitted == old(submitted)[worker := old(submitted)[worker] + [x]]
                && sent == if r.sent then old(sent)[worker := old(sent)[worker] + [x]] else old(sent)
    {
      if worker >= |queues| { return InternalError; }
      var q := queues[worker];
      ghost var r, x := Decide(q, limits, message, lifecycle, now, answer), Item(message, lifecycle);
      SubmitKeeps(q, limits, message, lifecycle, now, answer, sent[worker], submitted[worker]);
      ghost var sent', submitted' := if r.sent then sent[worker := sent[worker] + [x]] else sent, submitted[worker := submitted[worker] + [x]];
      a, q := Admit(q, message, lifecycle, now, answer);
      OneQueueChanged(queues, limits, sent, submitted, worker, q, sent', submitted');
      queues := queues[worker := q];
      sent, submitted := sent', submitted';
    }

    /** The decision for one queue. */
    method Admit(q: Queue, message: Msg, lifecycle: bool, now: nat, answer: DispatchResult) returns (a: Admission, q': Queue)
      ensures (q', a) == (Decide(q, limits, message, lifecycle, now, answer).queue, Decide(q, limits, message, lifecycle, now, answer).admission)
    {
      q' := q;
      if q.tasks == [] {
        if answer == Accepted {
          return Admitted, q'.(stats := q'.stats.(accepted := q'.stats.accepted + 1));
        }
        if answer != Backpressure {
          q' := q'.(stats := q'.stats.(internalErrors := q'.stats.internalErrors + 1));
          if !lifecycle { return InternalError, q'; }
        }
        if !lifecycle { return Busy, q'.(stats := q'.stats.(busy := q'.stats.busy + 1, directBusy := q'.stats.directBusy + 1)); }
      }
      var bytes := limits.overhead + |message.body|;
      if !lifecycle && q'.stats.businessTasks >= limits.maxTasks {
        return Busy, q'.(stats := q'.stats.(busy := q'.stats.busy + 1, taskLimitBusy := q'.stats.taskLimitBusy + 1));
      }
      if !lifecycle && TooManyBytes(q', limits, bytes) {
        return Busy, q'.(stats := q'.stats.(busy := q'.stats.busy + 1, byteLimitBusy := q'.stats.byteLimitBusy + 1));
      }
      var t := Waiting(message, lifecycle, Deadline(limits, now), bytes);
      return Queued, Queue(q'.tasks + [t], Added(q'.stats, t));
    }

    /** Expires, then tries the heads of the queues in turn, within the attempts allowed. */
    method PumpAll(now: nat, valid: Msg -> bool, answer: nat -> DispatchResult) returns (rejected: seq<Rejected>)
      requires Valid()
      modifies `queues, `cursor, `sent
      ensures Valid()
      ensures var p := Pump(old(queues), old(cursor), now, valid, limits, answer);
              && queues == p.queues && cursor == p.cursor && rejected == p.rejected
              && |p.sent| == |old(sent)| && sent == Joined(old(sent), p.sent)
    {
      PumpKeeps(queues, cursor, now, valid, limits, answer, sent, submitted);
      ghost var p := Pump(queues, cursor, now, valid, limits, answer);
      var swept, doomed := SweepAll(queues, now, valid);
      var qs, c, more := Tries(swept, cursor, doomed, answer);
      queues, cursor, rejected := qs, c, more;
      sent := Joined(sent, p.sent);
    }

    /** The workers' turns, starting where the last pump stopped. */
    method Tries(swept: seq<Queue>, start: nat, doomed: seq<Rejected>, answer: nat -> DispatchResult)
      returns (qs: seq<Queue>, c: nat, rejected: seq<Rejected>)
      requires swept != [] && start < |swept|
      ensures var p := Rounds(Pumping(swept, start, Nothing(|swept|), doomed, 0), |swept|, limits, answer);
              qs == p.queues && c == p.cursor && rejected == p.rejected
    {
      ghost var now := Pumping(swept, start, Nothing(|swept|), doomed, 0);
      ghost var end := Rounds(now, |swept|, limits, answer);
      var n: nat, total: nat := 0, 0;
      qs, c, rejected := swept, start, doomed;
      while n < |swept| && total < limits.globalAttempts
        invariant n <= |swept| && Shaped(now) && now == Pumping(qs, c, now.sent, rejected, total)
        invariant Rounds(now, |swept| - n, limits, answer) == end
      {
        qs, c, rejected, total, now := OneTurn(qs, c, rejected, total, answer, now, |swept| - n);
        n := n + 1;
      }
    }

    method OneTurn(qs: seq<Queue>, c: nat, rejected: seq<Rejected>, total: nat, answer: nat -> DispatchResult, ghost now: Pumping, ghost turns: nat)
      returns (qs': seq<Queue>, c': nat, rejected': seq<Rejected>, total': nat, ghost next: Pumping)
      requires Shaped(now) && now == Pumping(qs, c, now.sent, rejected, total) && total < limits.globalAttempts && turns > 0
      ensures Shaped(next) && next == Pumping(qs', c', next.sent, rejected', total')
      ensures Rounds(next, turns - 1, limits, answer) == Rounds(now, turns, limits, answer)
    {
      next := Turn(now, limits, answer);
      var q, more, used := DrainOne(qs[c], total, answer);
      qs', rejected', total' := qs[c := q], rejected + more, total + used;
      c' := (c + 1) % |qs|;
    }

    static method SweepAll(queues: seq<Queue>, now: nat, valid: Msg -> bool) returns (swept: seq<Queue>, rejected: seq<Rejected>)
      ensures swept == SweptAll(queues, now, valid) && rejected == DoomAll(queues, now, valid)
    {
      swept, rejected := [], [];
      var w := 0;
      while w < |queues|
        invariant w <= |queues| && swept == SweptAll(queues[..w], now, valid) && rejected == DoomAll(queues[..w], now, valid)
      {
        assert queues[..w + 1][..w] == queues[..w];
        var q, doomed := SweepOne(queues[w], now, valid);
        swept, rejected, w := swept + [q], rejected + doomed, w + 1;
      }
      assert queues[..w] == queues;
    }

    /** One queue's expiry pass. */
    static method SweepOne(q: Queue, now: nat, valid: Msg -> bool) returns (q': Queue, rejected: seq<Rejected>)
      ensures q' == Swept(q, now, valid) && rejected == Doom(q.tasks, now, valid)
    {
      var p := PurgeOne(q, Dooms(now, valid));
      var expired, stale;
      rejected, expired, stale := ListDoomed(q.tasks, now, valid);
      q' := p.(stats := p.stats.(expired := p.stats.expired + expired, stale := p.stats.stale + stale));
    }

    static method ListDoomed(tasks: seq<Waiting>, now: nat, valid: Msg -> bool) returns (rejected: seq<Rejected>, expired: nat, stale: nat)
      ensures rejected == Doom(tasks, now, valid) && expired == CountCode(rejected, Timeout) && stale == CountCode(rejected, SessionInvalid)
    {
      rejected, expired, stale := [], 0, 0;
      var i := 0;
      while i < |tasks|
        invariant i <= |tasks| && rejected == Doom(tasks[..i], now, valid)
        invariant expired == CountCode(rejected, Timeout) && stale == CountCode(rejected, SessionInvalid)
      {
        assert tasks[..i + 1][..i] == tasks[..i];
        if Doomed(tasks[i], now, valid) {
          var r := Rejected(tasks[i].message, if now >= tasks[i].deadline then Timeout else SessionInvalid);
          assert (rejected + [r])[..|rejected|] == rejected;
          rejected := rejected + [r];
          if r.code == Timeout { expired := expired + 1; } else { stale := stale + 1; }
        }
        i := i + 1;
      }
      assert tasks[..i] == tasks;
    }

    static method PurgeOne(q: Queue, drop: Waiting -> bool) returns (q': Queue)
      ensures q' == Purge(q, drop)
    {
      var i := 0;
      q' := Queue([], q.stats);
      while i < |q.tasks|
        invariant i <= |q.tasks| && q' == Purge(Queue(q.tasks[..i], q.stats), drop)
      {
        assert q.tasks[..i + 1][..i] == q.tasks[..i];
        var t := q.tasks[i];
        q' := if drop(t) then Queue(q'.tasks, Removed(q'.stats, t)) else Queue(q'.tasks + [t], q'.stats);
        i := i + 1;
      }
      assert q.tasks[..i] == q.tasks;
    }

    method DrainOne(q0: Queue, total: nat, answer: nat -> DispatchResult) returns (q: Queue, rejected: seq<Rejected>, used: nat)
      requires total < limits.globalAttempts
      ensures var d := DrainQueue(q0, Least(limits.perWorkerAttempts, limits.globalAttempts - total), total, answer);
              q == d.queue && rejected == d.rejected && used == d.used
    {
      var tries := Least(limits.perWorkerAttempts, limits.globalAttempts - total);
      q, rejected, used := q0, [], 0;
      ghost var sofar: seq<Item> := [];
      ghost var d := DrainQueue(q0, tries, total, answer);
      DrainFromIs([], [], 0, q0, tries, total, answer);
      ResumeStarts(d);
      while q.tasks != [] && used < tries
        invariant used <= tries && d == DrainFrom(sofar, rejected, used, q, tries - used, total + used, answer)
      {
        var t, a := q.tasks[0], answer(total + used);
        if !Moves(t, a) {
          q, used := Stuck(q, a), used + 1;
          return;
        }
        sofar := sofar + HeadSent(q, a);
        if a != Accepted { rejected := rejected + [Rejected(t.message, Internal)]; }
        q, used := AfterHead(q, a), used + 1;
      }
    }

    /** A closed session takes its waiting business with it, and nothing else. */
    method CancelSession(session: nat)
      requires Valid()
      modifies `queues
      ensures Valid() && queues == Cancelled(old(queues), session)
    {
      CancelKeeps(queues, limits, sent, submitted, session);
      var all, left, w := queues, [], 0;
      while w < |all|
        invariant w <= |all| && left == Cancelled(all[..w], session)
      {
        var q := PurgeOne(all[w], OfSession(session));
        left, w := left + [q], w + 1;
      }
      assert all[..w] == all;
      queues := left;
    }
  }

  /** A drain continued after some of its work is done. */
  ghost function Resumed(sent: seq<Item>, rejected: seq<Rejected>, used: nat, rest: Drain): Drain {
    Drain(rest.queue, sent + rest.sent, rejected + rest.rejected, used + rest.used)
  }

  /** The same turn with what was done so far carried along, as the loop does. */
  ghost function DrainFrom(sent: seq<Item>, rejected: seq<Rejected>, used: nat, q: Queue, tries: nat, k: nat, answer: nat -> DispatchResult): Drain
    decreases tries
  {
    if q.tasks == [] || tries == 0 then Drain(q, sent, rejected, used)
    else if !Moves(q.tasks[0], answer(k)) then Drain(Stuck(q, answer(k)), sent, rejected, used + 1)
    else
      DrainFrom(sent + HeadSent(q, answer(k)),
                if answer(k) == Accepted then rejected else rejected + [Rejected(q.tasks[0].message, Internal)],
                used + 1, AfterHead(q, answer(k)), tries - 1, k + 1, answer)
  }

  lemma {:induction false} DrainFromIs(sent: seq<Item>, rejected: seq<Rejected>, used: nat, q: Queue, tries: nat, k: nat, answer: nat -> DispatchResult)
    ensures DrainFrom(sent, rejected, used, q, tries, k, answer) == Resumed(sent, rejected, used, DrainQueue(q, tries, k, answer))
    decreases tries
  {
    if q.tasks == [] || tries == 0 {
      ResumeEnds(sent, rejected, used, q, tries, k, answer);
    } else if !Moves(q.tasks[0], answer(k)) {
      ResumeStops(sent, rejected, used, q, tries, k, answer);
    } else {
      ResumeMoves(sent, rejected, used, q, tries, k, answer);
      DrainFromIs(sent + HeadSent(q, answer(k)),
                  if answer(k) == Accepted then rejected else rejected + [Rejected(q.tasks[0].message, Internal)],
                  used + 1, AfterHead(q, answer(k)), tries - 1, k + 1, answer);
    }
  }

  lemma ResumeStarts(d: Drain)
    ensures Resumed([], [], 0, d) == d
  {
    assert [] + d.sent == d.sent && [] + d.rejected == d.rejected;
  }

  lemma ResumeEnds(sent: seq<Item>, rejected: seq<Rejected>, used: nat, q: Queue, tries: nat, k: nat, answer: nat -> DispatchResult)
    requires q.tasks == [] || tries == 0
    ensures Resumed(sent, rejected, used, DrainQueue(q, tries, k, answer)) == Drain(q, sent, rejected, used)
  {
    assert sent + [] == sent && rejected + [] == rejected;
  }

  lemma ResumeStops(sent: seq<Item>, rejected: seq<Rejected>, used: nat, q: Queue, tries: nat, k: nat, answer: nat -> DispatchResult)
    requires q.tasks != [] && tries > 0 && !Moves(q.tasks[0], answer(k))
    ensures Resumed(sent, rejected, used, DrainQueue(q, tries, k, answer)) == Drain(Stuck(q, answer(k)), sent, rejected, used + 1)
  {
    assert sent + [] == sent && rejected + [] == rejected;
  }

  lemma ResumeMoves(sent: seq<Item>, rejected: seq<Rejected>, used: nat, q: Queue, tries: nat, k: nat, answer: nat -> DispatchResult)
    requires q.tasks != [] && tries > 0 && Moves(q.tasks[0], answer(k))
    ensures Resumed(sent, rejected, used, DrainQueue(q, tries, k, answer))
         == Resumed(sent + HeadSent(q, answer(k)),
                    if answer(k) == Accepted then rejected else rejected + [Rejected(q.tasks[0].message, Internal)],
                    used + 1, DrainQueue(AfterHead(q, answer(k)), tries - 1, k + 1, answer))
  {
    var d := DrainQueue(AfterHead(q, answer(k)), tries - 1, k + 1, answer);
    Reassociate(sent, HeadSent(q, answer(k)), d.sent);
    var mine := if answer(k) == Accepted then [] else [Rejected(q.tasks[0].message, Internal)];
    Reassociate(rejected, mine, d.rejected);
    assert rejected + [] == rejected;
  }

  lemma OneQueueChanged(queues: seq<Queue>, l: Limits, sent: seq<seq<Item>>, submitted: seq<seq<Item>>, w: nat, q: Queue,
                        sent': seq<seq<Item>>, submitted': seq<seq<Item>>)
    requires AllOk(queues, l, sent, submitted) && w < |queues| && |sent'| == |submitted'| == |queues|
    requires QueueOk(q, l, sent'[w], submitted'[w])
    requires forall v :: 0 <= v < |queues| && v != w ==> sent'[v] == sent[v] && submitted'[v] == submitted[v]
    ensures AllOk(queues[w := q], l, sent', submitted')
  {
  }

  lemma CancelKeeps(queues: seq<Queue>, l: Limits, sent: seq<seq<Item>>, submitted: seq<seq<Item>>, session: nat)
    requires AllOk(queues, l, sent, submitted)
    ensures AllOk(Cancelled(queues, session), l, sent, submitted)
  {
    forall w | 0 <= w < |queues| ensures QueueOk(Cancelled(queues, session)[w], l, sent[w], submitted[w]) {
      PurgeKeeps(queues[w], OfSession(session), l, sent[w], submitted[w]);
    }
  }
}
