/** What a submission, an expiry pass, a cancellation and a turn do to the tasks that wait: which are
    taken, which stay, which are turned away and with what answer. */
module PendingOutcomes {
  import opened TaskDelivery
  import opened PendingSpec
  import opened WorkerPending
  import PR = PendingRuns

  /** The tasks for which the session is not to blame, in order. */
  function Others(tasks: seq<Waiting>, session: nat): seq<Waiting> {
    if tasks == [] then []
    else (if tasks[0].lifecycle || tasks[0].message.call.session != session then [tasks[0]] else []) + Others(tasks[1..], session)
  }

  /** The tasks that outlive an expiry pass, in order. */
  function Survivors(tasks: seq<Waiting>, now: nat, valid: Msg -> bool): seq<Waiting> {
    if tasks == [] then []
    else
      (if tasks[0].lifecycle || (now < tasks[0].deadline && valid(tasks[0].message)) then [tasks[0]] else [])
      + Survivors(tasks[1..], now, valid)
  }

  /** The answers to those that do not: too late, or whose session is gone. */
  function Refusals(tasks: seq<Waiting>, now: nat, valid: Msg -> bool): seq<Rejected> {
    if tasks == [] then []
    else
      (if tasks[0].lifecycle then []
       else if now >= tasks[0].deadline then [Rejected(tasks[0].message, Timeout)]
       else if !valid(tasks[0].message) then [Rejected(tasks[0].message, SessionInvalid)]
       else [])
      + Refusals(tasks[1..], now, valid)
  }

  lemma {:induction false} OthersAppend(a: seq<Waiting>, x: Waiting, session: nat)
    ensures Others(a + [x], session) == Others(a, session) + Others([x], session)
  {
    if a == [] {
      assert a + [x] == [x];
    } else {
      OthersAppend(a[1..], x, session);
      assert (a + [x])[1..] == a[1..] + [x];
    }
  }

  lemma {:induction false} SurvivorsAppend(a: seq<Waiting>, x: Waiting, now: nat, valid: Msg -> bool)
    ensures Survivors(a + [x], now, valid) == Survivors(a, now, valid) + Survivors([x], now, valid)
  {
    if a == [] {
      assert a + [x] == [x];
    } else {
      SurvivorsAppend(a[1..], x, now, valid);
      assert (a + [x])[1..] == a[1..] + [x] && (a + [x])[0] == a[0];
    }
  }

  lemma {:induction false} RefusalsAppend(a: seq<Waiting>, x: Waiting, now: nat, valid: Msg -> bool)
    ensures Refusals(a + [x], now, valid) == Refusals(a, now, valid) + Refusals([x], now, valid)
  {
    if a == [] {
      assert a + [x] == [x];
    } else {
      RefusalsAppend(a[1..], x, now, valid);
      assert (a + [x])[1..] == a[1..] + [x] && (a + [x])[0] == a[0];
    }
  }

  lemma {:induction false} PurgedOfSession(q: Queue, session: nat)
    ensures Purge(q, OfSession(session)).tasks == Others(q.tasks, session)
    decreases |q.tasks|
  {
    if q.tasks != [] {
      var front, last := q.tasks[..|q.tasks| - 1], q.tasks[|q.tasks| - 1];
      PurgedOfSession(Queue(front, q.stats), session);
      OthersAppend(front, last, session);
      assert q.tasks == front + [last];
    }
  }

  /** Cancelling a session leaves every worker exactly its lifecycle tasks and those of other sessions, in order. */
  lemma CancelOutcome(queues: seq<Queue>, session: nat, w: nat)
    requires w < |queues|
    ensures |Cancelled(queues, session)| == |queues| && Cancelled(queues, session)[w].tasks == Others(queues[w].tasks, session)
  {
    PurgedOfSession(queues[w], session);
  }

  lemma {:induction false} PurgedByClock(q: Queue, now: nat, valid: Msg -> bool)
    ensures Purge(q, Dooms(now, valid)).tasks == Survivors(q.tasks, now, valid)
    ensures Doom(q.tasks, now, valid) == Refusals(q.tasks, now, valid)
    decreases |q.tasks|
  {
    if q.tasks != [] {
      var front, last := q.tasks[..|q.tasks| - 1], q.tasks[|q.tasks| - 1];
      PurgedByClock(Queue(front, q.stats), now, valid);
      SurvivorsAppend(front, last, now, valid);
      RefusalsAppend(front, last, now, valid);
      assert q.tasks == front + [last];
    }
  }

  function TooLate(tasks: seq<Waiting>, now: nat): set<int> {
    set i | 0 <= i < |tasks| && !tasks[i].lifecycle && now >= tasks[i].deadline
  }

  function Orphaned(tasks: seq<Waiting>, now: nat, valid: Msg -> bool): set<int> {
    set i | 0 <= i < |tasks| && !tasks[i].lifecycle && now < tasks[i].deadline && !valid(tasks[i].message)
  }

  /** The expiry pass over one queue: who stays, who is told what, and what is counted. */
  lemma SweepOutcome(q: Queue, now: nat, valid: Msg -> bool)
    ensures Swept(q, now, valid).tasks == Survivors(q.tasks, now, valid) && Doom(q.tasks, now, valid) == Refusals(q.tasks, now, valid)
    ensures var s := Swept(q, now, valid).stats;
            && s.expired == q.stats.expired + |TooLate(q.tasks, now)| && s.stale == q.stats.stale + |Orphaned(q.tasks, now, valid)|
            && s.accepted == q.stats.accepted && s.busy == q.stats.busy && s.internalErrors == q.stats.internalErrors
  {
    PurgedByClock(q, now, valid);
    RefusalsCounted(q.tasks, now, valid);
    PurgeCountsOnly(q, Dooms(now, valid));
  }

  lemma {:induction false} PurgeCountsOnly(q: Queue, drop: Waiting -> bool)
    ensures var s := Purge(q, drop).stats;
            s == q.stats.(businessTasks := s.businessTasks, businessBytes := s.businessBytes, lifecycleTasks := s.lifecycleTasks)
    decreases |q.tasks|
  {
    if q.tasks != [] { PurgeCountsOnly(Queue(q.tasks[..|q.tasks| - 1], q.stats), drop); }
  }

  lemma CountOne(d: seq<Rejected>, x: Rejected, code: RejectCode)
    ensures CountCode(d + [x], code) == CountCode(d, code) + if x.code == code then 1 else 0
  {
    assert (d + [x])[..|d|] == d;
  }

  lemma OneMoreLate(front: seq<Waiting>, last: Waiting, now: nat)
    ensures |TooLate(front + [last], now)| == |TooLate(front, now)| + if !last.lifecycle && now >= last.deadline then 1 else 0
  {
    assert TooLate(front + [last], now) == TooLate(front, now) + if !last.lifecycle && now >= last.deadline then {|front|} else {};
  }

  lemma OneMoreOrphan(front: seq<Waiting>, last: Waiting, now: nat, valid: Msg -> bool)
    ensures |Orphaned(front + [last], now, valid)|
         == |Orphaned(front, now, valid)| + if !last.lifecycle && now < last.deadline && !valid(last.message) then 1 else 0
  {
    assert Orphaned(front + [last], now, valid)
        == Orphaned(front, now, valid) + if !last.lifecycle && now < last.deadline && !valid(last.message) then {|front|} else {};
  }

  lemma {:induction false} RefusalsCounted(tasks: seq<Waiting>, now: nat, valid: Msg -> bool)
    ensures CountCode(Doom(tasks, now, valid), Timeout) == |TooLate(tasks, now)|
    ensures CountCode(Doom(tasks, now, valid), SessionInvalid) == |Orphaned(tasks, now, valid)|
    decreases |tasks|
  {
    if tasks != [] {
      var front, last := tasks[..|tasks| - 1], tasks[|tasks| - 1];
      var d := Doom(front, now, valid);
      RefusalsCounted(front, now, valid);
      OneMoreLate(front, last, now);
      OneMoreOrphan(front, last, now, valid);
      assert tasks == front + [last];
      var x := Rejected(last.message, if now >= last.deadline then Timeout else SessionInvalid);
      CountOne(d, x, Timeout);
      CountOne(d, x, SessionInvalid);
      assert d + [] == d;
    }
  }

  /** The business that waits for a worker, and its size. */
  predicate RoomFor(q: Queue, l: Limits, bytes: nat) {
    Recount(q.tasks).0 < l.maxTasks && Recount(q.tasks).1 + bytes <= l.maxBytes
  }

  function Earlier(a: nat, b: nat): nat { if a <= b then a else b }

  /** A submission, from the queue's contents: sent at once when nothing waits and the worker takes it;
      otherwise a notice is queued, and business is queued exactly behind others with room to spare. */
  predicate RightAnswer(q: Queue, l: Limits, message: Msg, lifecycle: bool, now: nat, answer: DispatchResult, r: Submission) {
    var bytes := l.overhead + |message.body|;
    && (r.admission == Admitted <==> q.tasks == [] && answer == Accepted) && (r.sent <==> r.admission == Admitted)
    && (r.admission == Queued <==> r.admission != Admitted && (lifecycle || (q.tasks != [] && RoomFor(q, l, bytes))))
    && (r.admission == InternalError <==> q.tasks == [] && !lifecycle && answer != Accepted && answer != Backpressure)
    && r.queue.tasks
       == if r.admission != Queued then q.tasks
          else q.tasks + [Waiting(message, lifecycle, Earlier(now + l.timeoutMs * 1000, LAST_TIME), bytes)]
  }

  function One(b: bool): nat { if b then 1 else 0 }

  /** And what it is counted as. */
  predicate RightCounts(q: Queue, l: Limits, answer: DispatchResult, r: Submission) {
    var s, s' := q.stats, r.queue.stats;
    && s'.accepted == s.accepted + One(r.admission == Admitted) && s'.busy == s.busy + One(r.admission == Busy)
    && s'.directBusy == s.directBusy + One(r.admission == Busy && q.tasks == [])
    && s'.taskLimitBusy == s.taskLimitBusy + One(r.admission == Busy && q.tasks != [] && Recount(q.tasks).0 >= l.maxTasks)
    && s'.byteLimitBusy == s.byteLimitBusy + One(r.admission == Busy && q.tasks != [] && Recount(q.tasks).0 < l.maxTasks)
    && s'.internalErrors == s.internalErrors + One(q.tasks == [] && answer != Accepted && answer != Backpressure)
    && s'.expired == s.expired && s'.stale == s.stale
  }

  lemma SubmitAnswer(q: Queue, l: Limits, message: Msg, lifecycle: bool, now: nat, answer: DispatchResult)
    requires Counted(q)
    ensures RightAnswer(q, l, message, lifecycle, now, answer, Decide(q, l, message, lifecycle, now, answer))
    ensures RightCounts(q, l, answer, Decide(q, l, message, lifecycle, now, answer))
  {
  }

  /** After any calls whatever, a submission is answered and counted as described. */
  lemma SubmitOutcome(n: nat, l: Limits, calls: seq<PR.Call>, w: nat, message: Msg, lifecycle: bool, now: nat, answer: DispatchResult)
    requires w < n
    ensures var q := PR.Run(n, l, calls).queues[w];
            var r := Decide(q, l, message, lifecycle, now, answer);
            RightAnswer(q, l, message, lifecycle, now, answer, r) && RightCounts(q, l, answer, r)
  {
    PR.NoNoticeIsEverLost(n, l, calls, w);
    SubmitAnswer(PR.Run(n, l, calls).queues[w], l, message, lifecycle, now, answer);
  }

  /** Each head a turn gets past was taken and is sent, or was business the worker would not have and is answered so. */
  lemma {:induction false} PassedAreAnswered(q: Queue, tries: nat, k: nat, answer: nat -> DispatchResult, j: nat)
    requires j < |q.tasks| - |DrainQueue(q, tries, k, answer).queue.tasks|
    ensures var d := DrainQueue(q, tries, k, answer);
            if answer(k + j) == Accepted then ItemOf(q.tasks[j]) in d.sent
            else !q.tasks[j].lifecycle && answer(k + j) != Backpressure && Rejected(q.tasks[j].message, Internal) in d.rejected
    decreases tries
  {
    if q.tasks != [] && tries != 0 && Moves(q.tasks[0], answer(k)) && j > 0 {
      PassedAreAnswered(AfterHead(q, answer(k)), tries - 1, k + 1, answer, j - 1);
      assert k + 1 + (j - 1) == k + j;
    }
  }

  /** How many of n attempts failed for another reason than a full queue. */
  function Failures(k: nat, n: nat, answer: nat -> DispatchResult): nat
    decreases n
  {
    if n == 0 then 0 else One(answer(k) != Accepted && answer(k) != Backpressure) + Failures(k + 1, n - 1, answer)
  }

  /** What a turn counts. */
  lemma {:induction false} DrainCounts(q: Queue, tries: nat, k: nat, answer: nat -> DispatchResult)
    ensures var d := DrainQueue(q, tries, k, answer);
            && d.queue.stats.internalErrors == q.stats.internalErrors + Failures(k, d.used, answer)
            && d.queue.stats.accepted == q.stats.accepted + |d.sent| && d.queue.stats.busy == q.stats.busy
            && d.queue.stats.expired == q.stats.expired && d.queue.stats.stale == q.stats.stale
    decreases tries
  {
    if q.tasks != [] && tries != 0 {
      if Moves(q.tasks[0], answer(k)) {
        DrainCounts(AfterHead(q, answer(k)), tries - 1, k + 1, answer);
      } else {
        assert Failures(k + 1, 0, answer) == 0;
      }
    }
  }
}
