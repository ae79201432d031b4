/** Over any run of the waiting queues every message submitted is accounted for exactly once: it was sent,
    it waits, its submitter was told, or its session was cancelled. */
module PendingConservation {
  import opened TaskDelivery
  import opened PendingSpec
  import opened WorkerPending
  import opened PR = PendingRuns
  import opened PendingOutcomes

  // How often the message m occurs.

  function Is(m: Msg, x: Msg): nat { if m == x then 1 else 0 }

  function Waits(m: Msg, tasks: seq<Waiting>): nat { if tasks == [] then 0 else Is(m, tasks[0].message) + Waits(m, tasks[1..]) }

  function WaitsAll(m: Msg, queues: seq<Queue>): nat
    decreases |queues|
  {
    if queues == [] then 0 else WaitsAll(m, queues[..|queues| - 1]) + Waits(m, queues[|queues| - 1].tasks)
  }

  function Went(m: Msg, items: seq<Item>): nat { if items == [] then 0 else Is(m, items[0].message) + Went(m, items[1..]) }

  function WentAll(m: Msg, sent: seq<seq<Item>>): nat
    decreases |sent|
  {
    if sent == [] then 0 else WentAll(m, sent[..|sent| - 1]) + Went(m, sent[|sent| - 1])
  }

  function Told(m: Msg, r: seq<Rejected>): nat { if r == [] then 0 else Is(m, r[0].message) + Told(m, r[1..]) }

  /** The business of one session. */
  function Cut(m: Msg, tasks: seq<Waiting>, session: nat): nat {
    if tasks == [] then 0
    else (if !tasks[0].lifecycle && tasks[0].message.call.session == session then Is(m, tasks[0].message) else 0) + Cut(m, tasks[1..], session)
  }

  function CutAll(m: Msg, queues: seq<Queue>, session: nat): nat
    decreases |queues|
  {
    if queues == [] then 0 else CutAll(m, queues[..|queues| - 1], session) + Cut(m, queues[|queues| - 1].tasks, session)
  }

  // ---- sums ------------------------------------------------------------------------------------------------

  lemma {:induction false} WaitsAppend(m: Msg, a: seq<Waiting>, x: Waiting)
    ensures Waits(m, a + [x]) == Waits(m, a) + Is(m, x.message)
  {
    if a == [] {
      assert [x][1..] == [] && [] + [x] == [x];
    } else {
      WaitsAppend(m, a[1..], x);
      assert (a + [x])[1..] == a[1..] + [x];
    }
  }

  lemma {:induction false} WentSplit(m: Msg, a: seq<Item>, b: seq<Item>)
    ensures Went(m, a + b) == Went(m, a) + Went(m, b)
  {
    if a == [] {
      assert a + b == b;
    } else {
      WentSplit(m, a[1..], b);
      assert (a + b)[1..] == a[1..] + b;
    }
  }

  lemma {:induction false} ToldSplit(m: Msg, a: seq<Rejected>, b: seq<Rejected>)
    ensures Told(m, a + b) == Told(m, a) + Told(m, b)
  {
    if a == [] {
      assert a + b == b;
    } else {
      ToldSplit(m, a[1..], b);
      assert (a + b)[1..] == a[1..] + b;
    }
  }

  lemma ToldOne(m: Msg, x: Rejected, rest: seq<Rejected>)
    ensures Told(m, [x] + rest) == Is(m, x.message) + Told(m, rest)
  {
    assert ([x] + rest)[1..] == rest;
  }

  /** Replacing one queue replaces its share of the sum. */
  lemma {:induction false} WaitsUpdate(m: Msg, queues: seq<Queue>, w: nat, q: Queue)
    requires w < |queues|
    ensures WaitsAll(m, queues[w := q]) + Waits(m, queues[w].tasks) == WaitsAll(m, queues) + Waits(m, q.tasks)
    decreases |queues|
  {
    var n := |queues| - 1;
    if w == n {
      assert queues[w := q][..n] == queues[..n];
    } else {
      WaitsUpdate(m, queues[..n], w, q);
      assert queues[w := q][..n] == queues[..n][w := q];
    }
  }

  lemma {:induction false} WentUpdate(m: Msg, sent: seq<seq<Item>>, w: nat, more: seq<Item>)
    requires w < |sent|
    ensures WentAll(m, sent[w := sent[w] + more]) == WentAll(m, sent) + Went(m, more)
    decreases |sent|
  {
    var n := |sent| - 1;
    WentSplit(m, sent[w], more);
    if w == n {
      assert sent[w := sent[w] + more][..n] == sent[..n];
    } else {
      WentUpdate(m, sent[..n], w, more);
      assert sent[w := sent[w] + more][..n] == sent[..n][w := sent[..n][w] + more];
    }
  }

  lemma {:induction false} WentJoined(m: Msg, a: seq<seq<Item>>, b: seq<seq<Item>>)
    requires |a| == |b|
    ensures WentAll(m, Joined(a, b)) == WentAll(m, a) + WentAll(m, b)
    decreases |a|
  {
    if a != [] {
      var n := |a| - 1;
      WentJoined(m, a[..n], b[..n]);
      WentSplit(m, a[n], b[n]);
      assert Joined(a, b)[..n] == Joined(a[..n], b[..n]);
    }
  }

  lemma {:induction false} NothingWent(m: Msg, n: nat)
    ensures WentAll(m, Nothing(n)) == 0
  {
    if n != 0 {
      NothingWent(m, n - 1);
      assert Nothing(n)[..n - 1] == Nothing(n - 1);
    }
  }

  // ---- one call --------------------------------------------------------------------------------------------

  lemma {:induction false} SweepSplits(m: Msg, tasks: seq<Waiting>, now: nat, valid: Msg -> bool)
    ensures Waits(m, Survivors(tasks, now, valid)) + Told(m, Refusals(tasks, now, valid)) == Waits(m, tasks)
  {
    if tasks != [] {
      var rest, refused := Survivors(tasks[1..], now, valid), Refusals(tasks[1..], now, valid);
      SweepSplits(m, tasks[1..], now, valid);
      assert ([tasks[0]] + rest)[1..] == rest && [] + rest == rest && [] + refused == refused;
      ToldOne(m, Rejected(tasks[0].message, Timeout), refused);
      ToldOne(m, Rejected(tasks[0].message, SessionInvalid), refused);
    }
  }

  lemma {:induction false} SweepAllSplits(m: Msg, queues: seq<Queue>, now: nat, valid: Msg -> bool)
    ensures WaitsAll(m, SweptAll(queues, now, valid)) + Told(m, DoomAll(queues, now, valid)) == WaitsAll(m, queues)
    decreases |queues|
  {
    if queues != [] {
      var n := |queues| - 1;
      SweepAllSplits(m, queues[..n], now, valid);
      PurgedByClock(queues[n], now, valid);
      SweepSplits(m, queues[n].tasks, now, valid);
      ToldSplit(m, DoomAll(queues[..n], now, valid), Doom(queues[n].tasks, now, valid));
      assert SweptAll(queues, now, valid)[..n] == SweptAll(queues[..n], now, valid);
    }
  }

  lemma {:induction false} CutSplits(m: Msg, tasks: seq<Waiting>, session: nat)
    ensures Waits(m, Others(tasks, session)) + Cut(m, tasks, session) == Waits(m, tasks)
  {
    if tasks != [] {
      var rest := Others(tasks[1..], session);
      CutSplits(m, tasks[1..], session);
      assert ([tasks[0]] + rest)[1..] == rest && [] + rest == rest;
    }
  }

  lemma {:induction false} CancelSplits(m: Msg, queues: seq<Queue>, session: nat)
    ensures WaitsAll(m, Cancelled(queues, session)) + CutAll(m, queues, session) == WaitsAll(m, queues)
    decreases |queues|
  {
    if queues != [] {
      var n := |queues| - 1;
      CancelSplits(m, queues[..n], session);
      PurgedOfSession(queues[n], session);
      CutSplits(m, queues[n].tasks, session);
      assert Cancelled(queues, session)[..n] == Cancelled(queues[..n], session);
    }
  }

  lemma {:induction false} DrainSplits(m: Msg, q: Queue, tries: nat, k: nat, answer: nat -> DispatchResult)
    ensures var d := DrainQueue(q, tries, k, answer); Waits(m, d.queue.tasks) + Went(m, d.sent) + Told(m, d.rejected) == Waits(m, q.tasks)
    decreases tries
  {
    if q.tasks != [] && tries != 0 && Moves(q.tasks[0], answer(k)) {
      var d := DrainQueue(AfterHead(q, answer(k)), tries - 1, k + 1, answer);
      DrainSplits(m, AfterHead(q, answer(k)), tries - 1, k + 1, answer);
      ToldOne(m, Rejected(q.tasks[0].message, Internal), d.rejected);
      assert ([ItemOf(q.tasks[0])] + d.sent)[1..] == d.sent && [] + d.sent == d.sent && [] + d.rejected == d.rejected;
    }
  }

  function Sum(m: Msg, p: Pumping): nat { WaitsAll(m, p.queues) + WentAll(m, p.sent) + Told(m, p.rejected) }

  lemma TurnSplits(m: Msg, p: Pumping, l: Limits, answer: nat -> DispatchResult)
    requires Shaped(p) && p.total < l.globalAttempts
    ensures Sum(m, Turn(p, l, answer)) == Sum(m, p)
  {
    var w := p.cursor;
    var tries := Least(l.perWorkerAttempts, l.globalAttempts - p.total);
    var d := DrainQueue(p.queues[w], tries, p.total, answer);
    DrainSplits(m, p.queues[w], tries, p.total, answer);
    WaitsUpdate(m, p.queues, w, d.queue);
    WentUpdate(m, p.sent, w, d.sent);
    ToldSplit(m, p.rejected, d.rejected);
  }

  lemma {:induction false} RoundsSplit(m: Msg, p: Pumping, n: nat, l: Limits, answer: nat -> DispatchResult)
    requires Shaped(p)
    ensures Sum(m, Rounds(p, n, l, answer)) == Sum(m, p)
    decreases n
  {
    if n != 0 && p.total < l.globalAttempts {
      TurnSplits(m, p, l, answer);
      RoundsSplit(m, Turn(p, l, answer), n - 1, l, answer);
    }
  }

  /** What a pump found waiting still waits, was sent by it, or is among its rejections. */
  lemma PumpSplits(m: Msg, queues: seq<Queue>, cursor: nat, now: nat, valid: Msg -> bool, l: Limits, answer: nat -> DispatchResult)
    requires cursor < |queues|
    ensures Sum(m, Pump(queues, cursor, now, valid, l, answer)) == WaitsAll(m, queues)
  {
    RoundsSplit(m, Pumping(SweptAll(queues, now, valid), cursor, Nothing(|queues|), DoomAll(queues, now, valid), 0), |queues|, l, answer);
    SweepAllSplits(m, queues, now, valid);
    NothingWent(m, |queues|);
  }

  // ---- whole runs ------------------------------------------------------------------------------------------

  /** What a call turns away: its own message, those it reports rejected, or the session's business. */
  function TurnedAway(m: Msg, s: PR.State, l: Limits, call: PR.Call): nat
    requires Sized(s, |s.queues|)
  {
    match call
    case Submit(w, message, lifecycle, now, answer) =>
      if w >= |s.queues| then Is(m, message)
      else
        var a := Decide(s.queues[w], l, message, lifecycle, now, answer).admission;
        if a == Busy || a == InternalError then Is(m, message) else 0
    case PumpOnce(now, valid, answers) => Told(m, Pump(s.queues, s.cursor, now, valid, l, answers).rejected)
    case CancelAll(session) => CutAll(m, s.queues, session)
  }

  function AllTurnedAway(m: Msg, n: nat, l: Limits, calls: seq<PR.Call>): nat
    requires n > 0
    decreases |calls|
  {
    if calls == [] then 0
    else AllTurnedAway(m, n, l, calls[..|calls| - 1]) + TurnedAway(m, Run(n, l, calls[..|calls| - 1]), l, calls[|calls| - 1])
  }

  function AllSubmitted(m: Msg, calls: seq<PR.Call>): nat
    decreases |calls|
  {
    if calls == [] then 0
    else AllSubmitted(m, calls[..|calls| - 1]) + if calls[|calls| - 1].Submit? then Is(m, calls[|calls| - 1].message) else 0
  }

  lemma SubmitSplits(m: Msg, s: PR.State, l: Limits, call: PR.Call)
    requires Sized(s, |s.queues|) && call.Submit?
    ensures var s' := Next(s, l, call);
            WaitsAll(m, s'.queues) + WentAll(m, s'.sent) + TurnedAway(m, s, l, call) == WaitsAll(m, s.queues) + WentAll(m, s.sent) + Is(m, call.message)
  {
    var w := call.worker;
    if w < |s.queues| {
      var q, x := s.queues[w], Item(call.message, call.lifecycle);
      var r := Decide(q, l, call.message, call.lifecycle, call.now, call.answer);
      WaitsUpdate(m, s.queues, w, r.queue);
      WentUpdate(m, s.sent, w, [x]);
      assert [x][1..] == [] && Went(m, [x]) == Is(m, call.message);
      if r.admission == Queued {
        WaitsAppend(m, q.tasks, r.queue.tasks[|q.tasks|]);
      } else {
        assert r.queue.tasks == q.tasks;
      }
    }
  }

  lemma StepSplits(m: Msg, s: PR.State, l: Limits, call: PR.Call)
    requires Sized(s, |s.queues|)
    ensures var s' := Next(s, l, call);
            WaitsAll(m, s'.queues) + WentAll(m, s'.sent) + TurnedAway(m, s, l, call)
            == WaitsAll(m, s.queues) + WentAll(m, s.sent) + if call.Submit? then Is(m, call.message) else 0
  {
    match call
    case Submit(_, _, _, _, _) => SubmitSplits(m, s, l, call);
    case PumpOnce(now, valid, answers) =>
      PumpSize(s.queues, s.cursor, now, valid, l, answers);
      PumpSplits(m, s.queues, s.cursor, now, valid, l, answers);
      WentJoined(m, s.sent, Pump(s.queues, s.cursor, now, valid, l, answers).sent);
    case CancelAll(session) => CancelSplits(m, s.queues, session);
  }

  lemma {:induction false} NothingAtFirst(m: Msg, n: nat)
    ensures WaitsAll(m, seq(n, _ => NoTasks)) == 0 && WentAll(m, seq(n, _ => [])) == 0
  {
    if n != 0 {
      NothingAtFirst(m, n - 1);
      assert seq(n, _ => NoTasks)[..n - 1] == seq(n - 1, _ => NoTasks);
      assert seq<seq<Item>>(n, _ => [])[..n - 1] == seq<seq<Item>>(n - 1, _ => []);
    }
  }

  /**
   * After any calls: counted with repetitions, the messages submitted are those sent, those waiting and those
   * turned away, that is answered busy or with an error, reported rejected by a pump, or cancelled with their
   * session. None is lost, and none is both sent and refused.
   */
  lemma {:induction false} EveryMessageIsAccountedFor(m: Msg, n: nat, l: Limits, calls: seq<PR.Call>)
    requires n > 0
    ensures var s := Run(n, l, calls);
            AllSubmitted(m, calls) == WaitsAll(m, s.queues) + WentAll(m, s.sent) + AllTurnedAway(m, n, l, calls)
    decreases |calls|
  {
    if calls == [] {
      NothingAtFirst(m, n);
    } else {
      var before, call := calls[..|calls| - 1], calls[|calls| - 1];
      EveryMessageIsAccountedFor(m, n, l, before);
      StepSplits(m, Run(n, l, before), l, call);
    }
  }
}
