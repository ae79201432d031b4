/** What a pump is bound to do: how each worker's turn ends, that every worker gets one, and that with
    queues that take what they are offered everything waiting is sent after boundedly many pumps. */
module PumpProgress {
  import opened TaskDelivery
  import opened PendingSpec
  import opened WorkerPending

  /** The head cannot be moved on: its queue is full, or it is a notice and was not taken. */
  predicate Blocked(t: Waiting, a: DispatchResult) { a == Backpressure || (t.lifecycle && a != Accepted) }

  /** How many tasks a turn moved on. */
  function Gone(q: Queue, q': Queue): int { |q.tasks| - |q'.tasks| }

  /** How a turn ends when m tasks have moved on. */
  predicate EndsAfter(q: Queue, tries: nat, k: nat, answer: nat -> DispatchResult, m: nat, used: nat) {
    && m <= |q.tasks| && m <= used <= tries
    && (if used == m then m == |q.tasks| || m == tries else used == m + 1 && m < |q.tasks| && Blocked(q.tasks[m], answer(k + m)))
  }

  predicate Outcome(q: Queue, tries: nat, k: nat, answer: nat -> DispatchResult, d: Drain) {
    var m := Gone(q, d.queue);
    m >= 0 && EndsAfter(q, tries, k, answer, m, d.used) && d.queue.tasks == q.tasks[m..] && |d.sent| + |d.rejected| == m
  }

  /** A turn goes on past each head until the queue is empty, the attempts are used up, or the head is blocked. */
  lemma {:induction false} DrainOutcome(q: Queue, tries: nat, k: nat, answer: nat -> DispatchResult)
    ensures Outcome(q, tries, k, answer, DrainQueue(q, tries, k, answer))
    decreases tries
  {
    if q.tasks != [] && tries != 0 && Moves(q.tasks[0], answer(k)) {
      DrainOutcome(AfterHead(q, answer(k)), tries - 1, k + 1, answer);
      DrainGoesOn(q, tries, k, answer);
    } else {
      DrainStops(q, tries, k, answer);
    }
  }

  lemma OnePast(q: Queue, q1: Queue, tries: nat, k: nat, answer: nat -> DispatchResult, m: nat, used: nat)
    requires q.tasks != [] && q1.tasks == q.tasks[1..] && EndsAfter(q1, tries, k + 1, answer, m, used)
    ensures q1.tasks[m..] == q.tasks[m + 1..] && EndsAfter(q, tries + 1, k, answer, m + 1, used + 1)
  {
    assert k + 1 + m == k + (m + 1);
  }

  lemma DrainStops(q: Queue, tries: nat, k: nat, answer: nat -> DispatchResult)
    requires !(q.tasks != [] && tries != 0 && Moves(q.tasks[0], answer(k)))
    ensures Outcome(q, tries, k, answer, DrainQueue(q, tries, k, answer))
  {
  }

  lemma DrainGoesOn(q: Queue, tries: nat, k: nat, answer: nat -> DispatchResult)
    requires q.tasks != [] && tries != 0 && Moves(q.tasks[0], answer(k))
    requires Outcome(AfterHead(q, answer(k)), tries - 1, k + 1, answer, DrainQueue(AfterHead(q, answer(k)), tries - 1, k + 1, answer))
    ensures Outcome(q, tries, k, answer, DrainQueue(q, tries, k, answer))
  {
    var q1 := AfterHead(q, answer(k));
    var d1 := DrainQueue(q1, tries - 1, k + 1, answer);
    OnePast(q, q1, tries - 1, k, answer, Gone(q1, d1.queue), d1.used);
  }

  /** And only past heads that are not blocked. */
  lemma {:induction false} PassedWereFree(q: Queue, tries: nat, k: nat, answer: nat -> DispatchResult, j: nat)
    requires j < Gone(q, DrainQueue(q, tries, k, answer).queue)
    ensures j < |q.tasks| && !Blocked(q.tasks[j], answer(k + j))
    decreases tries
  {
    if q.tasks != [] && tries != 0 && Moves(q.tasks[0], answer(k)) {
      if j > 0 {
        PassedWereFree(AfterHead(q, answer(k)), tries - 1, k + 1, answer, j - 1);
        assert k + 1 + (j - 1) == k + j;
      }
    }
  }

  /** The first m tasks, without the head and with it. */
  lemma HeadFirst(tasks: seq<Waiting>, m: nat)
    requires 0 < m <= |tasks|
    ensures Items(tasks[..m]) == [ItemOf(tasks[0])] + Items(tasks[1..][..m - 1]) && tasks[m..] == tasks[1..][m - 1..]
  {
    assert tasks[..m] == [tasks[0]] + tasks[1..][..m - 1];
    ItemsSplit([tasks[0]], tasks[1..][..m - 1]);
  }

  /** The attempts that a turn makes are all accepted: it takes m tasks and sends exactly those. */
  predicate TakesFirst(q: Queue, m: nat, d: Drain) {
    m <= |q.tasks| && d.used == m && d.queue.tasks == q.tasks[m..] && d.sent == Items(q.tasks[..m]) && d.rejected == []
  }

  lemma TakesOneMore(q: Queue, tries: nat, k: nat, answer: nat -> DispatchResult, m: nat)
    requires q.tasks != [] && tries != 0 && answer(k) == Accepted && m > 0
    requires TakesFirst(AfterHead(q, Accepted), m - 1, DrainQueue(AfterHead(q, Accepted), tries - 1, k + 1, answer))
    ensures TakesFirst(q, m, DrainQueue(q, tries, k, answer))
  {
    HeadFirst(q.tasks, m);
  }

  /** What taking its heads in order sends: with every attempt accepted, exactly those items. */
  lemma {:induction false} AcceptedAreSent(q: Queue, tries: nat, k: nat, answer: nat -> DispatchResult)
    requires forall j :: answer(j) == Accepted
    ensures TakesFirst(q, Least(|q.tasks|, tries), DrainQueue(q, tries, k, answer))
    decreases tries
  {
    if q.tasks != [] && tries != 0 {
      AcceptedAreSent(AfterHead(q, answer(k)), tries - 1, k + 1, answer);
      TakesOneMore(q, tries, k, answer, Least(|q.tasks|, tries));
    }
  }

  // ---- the turns of one pump -----------------------------------------------------------------------------

  /** How many turns it takes until the worker's: counted round from the cursor. */
  function Ahead(cursor: nat, w: nat, workers: nat): nat
    requires cursor < workers && w < workers
  {
    if w >= cursor then w - cursor else w + workers - cursor
  }

  /** The turns a pump takes before its attempts are used up. */
  function TurnsTaken(p: Pumping, n: nat, l: Limits, answer: nat -> DispatchResult): (t: nat)
    requires Shaped(p)
    ensures t <= n
    decreases n
  {
    if n == 0 || p.total >= l.globalAttempts then 0 else 1 + TurnsTaken(Turn(p, l, answer), n - 1, l, answer)
  }

  /** A worker's turn was used well: its queue is empty, it moved its whole share on, or its head is blocked. */
  ghost predicate Served(q: Queue, q': Queue, l: Limits, from: nat, to: nat, answer: nat -> DispatchResult) {
    q'.tasks == [] || Gone(q, q') == l.perWorkerAttempts || exists k :: from <= k < to && Blocked(q'.tasks[0], answer(k))
  }

  lemma NextOf(c: nat, n: nat)
    requires c < n
    ensures (c + 1) % n == if c + 1 == n then 0 else c + 1
  {
  }

  lemma TurnMoves(p: Pumping, l: Limits, answer: nat -> DispatchResult, w: nat)
    requires Shaped(p) && p.total < l.globalAttempts && w < |p.queues|
    ensures var r := Turn(p, l, answer);
            && |r.queues| == |p.queues| && p.total <= r.total <= l.globalAttempts
            && r.cursor == (if p.cursor + 1 == |p.queues| then 0 else p.cursor + 1)
            && (w != p.cursor ==> r.queues[w] == p.queues[w])
  {
    DrainOutcome(p.queues[p.cursor], Least(l.perWorkerAttempts, l.globalAttempts - p.total), p.total, answer);
    NextOf(p.cursor, |p.queues|);
  }

  lemma TurnServes(p: Pumping, l: Limits, answer: nat -> DispatchResult)
    requires Shaped(p) && p.total < l.globalAttempts
    ensures var r, w := Turn(p, l, answer), p.cursor;
            |r.queues| == |p.queues| && (r.total < l.globalAttempts ==> Served(p.queues[w], r.queues[w], l, p.total, r.total, answer))
  {
    var w := p.cursor;
    var tries := Least(l.perWorkerAttempts, l.globalAttempts - p.total);
    var d := DrainQueue(p.queues[w], tries, p.total, answer);
    DrainOutcome(p.queues[w], tries, p.total, answer);
    var m := Gone(p.queues[w], d.queue);
    if p.total + d.used < l.globalAttempts && d.used > m { assert Blocked(d.queue.tasks[0], answer(p.total + m)); }
  }

  lemma TurnOutcome(p: Pumping, l: Limits, answer: nat -> DispatchResult, w: nat)
    requires Shaped(p) && p.total < l.globalAttempts && w < |p.queues|
    ensures var r := Turn(p, l, answer);
            && |r.queues| == |p.queues| && p.total <= r.total <= l.globalAttempts
            && r.cursor == (if p.cursor + 1 == |p.queues| then 0 else p.cursor + 1)
            && (if w != p.cursor then r.queues[w] == p.queues[w]
                else r.total < l.globalAttempts ==> Served(p.queues[w], r.queues[w], l, p.total, r.total, answer))
  {
    TurnMoves(p, l, answer, w);
    TurnServes(p, l, answer);
  }

  /** Turns go round: a worker whose turn has come was served unless the attempts ran out, and the others are
      untouched; the cursor stands where the turns ended. */
  lemma {:induction false} RoundsOutcome(p: Pumping, n: nat, l: Limits, answer: nat -> DispatchResult, w: nat)
    requires Shaped(p) && n <= |p.queues| && w < |p.queues| && p.total <= l.globalAttempts
    ensures var r, t := Rounds(p, n, l, answer), TurnsTaken(p, n, l, answer);
            && |r.queues| == |p.queues| && p.total <= r.total <= l.globalAttempts && (t < n ==> r.total == l.globalAttempts)
            && Ahead(p.cursor, r.cursor, |p.queues|) == (if t == |p.queues| then 0 else t)
            && (if Ahead(p.cursor, w, |p.queues|) >= t then r.queues[w] == p.queues[w]
                else r.total < l.globalAttempts ==> Served(p.queues[w], r.queues[w], l, p.total, r.total, answer))
    decreases n
  {
    if n != 0 && p.total < l.globalAttempts {
      var p1 := Turn(p, l, answer);
      TurnOutcome(p, l, answer, w);
      RoundsOutcome(p1, n - 1, l, answer, w);
    }
  }

  /** One pump takes some number of turns, round the workers from the cursor. If attempts are left over, every
      worker had its turn: its queue is empty, or moved its whole share on, or stands before a blocked head. */
  lemma PumpOutcome(queues: seq<Queue>, cursor: nat, now: nat, valid: Msg -> bool, l: Limits, answer: nat -> DispatchResult, w: nat)
    returns (turns: nat)
    requires cursor < |queues| && w < |queues|
    ensures var p := Pump(queues, cursor, now, valid, l, answer);
            && turns <= |queues| == |p.queues| && p.total <= l.globalAttempts && p.cursor < |queues|
            && (l.globalAttempts > 0 ==> turns > 0) && (p.total < l.globalAttempts ==> turns == |queues|)
            && Ahead(cursor, p.cursor, |queues|) == (if turns == |queues| then 0 else turns)
            && (if Ahead(cursor, w, |queues|) >= turns then p.queues[w] == SweptAll(queues, now, valid)[w]
                else p.total < l.globalAttempts ==> Served(SweptAll(queues, now, valid)[w], p.queues[w], l, 0, p.total, answer))
  {
    var start := Pumping(SweptAll(queues, now, valid), cursor, Nothing(|queues|), DoomAll(queues, now, valid), 0);
    RoundsOutcome(start, |queues|, l, answer, w);
    turns := TurnsTaken(start, |queues|, l, answer);
  }

  // ---- everything waiting is sent ----------------------------------------------------------------------------

  function Waitings(queues: seq<Queue>): nat
    decreases |queues|
  {
    if queues == [] then 0 else Waitings(queues[..|queues| - 1]) + |queues[|queues| - 1].tasks|
  }

  lemma {:induction false} WaitingsUpdate(queues: seq<Queue>, w: nat, q: Queue)
    requires w < |queues|
    ensures Waitings(queues[w := q]) == Waitings(queues) - |queues[w].tasks| + |q.tasks|
    decreases |queues|
  {
    var last := |queues| - 1;
    if w == last {
      assert queues[w := q][..last] == queues[..last];
    } else {
      assert queues[w := q][..last] == queues[..last][w := q];
      WaitingsUpdate(queues[..last], w, q);
    }
  }

  lemma {:induction false} WaitingsShrink(queues: seq<Queue>, queues': seq<Queue>)
    requires |queues| == |queues'| && forall w :: 0 <= w < |queues| ==> |queues'[w].tasks| <= |queues[w].tasks|
    ensures Waitings(queues') <= Waitings(queues)
    decreases |queues|
  {
    if queues != [] { WaitingsShrink(queues[..|queues| - 1], queues'[..|queues| - 1]); }
  }

  lemma {:induction false} NoneWaiting(queues: seq<Queue>, w: nat)
    requires w < |queues|
    ensures |queues[w].tasks| <= Waitings(queues)
    decreases |queues|
  {
    if w < |queues| - 1 { NoneWaiting(queues[..|queues| - 1], w); }
  }

  lemma {:induction false} SomeWaiting(queues: seq<Queue>) returns (w: nat)
    requires Waitings(queues) > 0
    ensures w < |queues| && queues[w].tasks != []
    decreases |queues|
  {
    w := |queues| - 1;
    if queues[w].tasks == [] { w := SomeWaiting(queues[..w]); }
  }

  lemma {:induction false} PurgeShrinks(q: Queue, drop: Waiting -> bool)
    ensures |Purge(q, drop).tasks| <= |q.tasks|
    decreases |q.tasks|
  {
    if q.tasks != [] { PurgeShrinks(Queue(q.tasks[..|q.tasks| - 1], q.stats), drop); }
  }

  lemma SweepShrinks(queues: seq<Queue>, now: nat, valid: Msg -> bool)
    ensures Waitings(SweptAll(queues, now, valid)) <= Waitings(queues)
  {
    forall w | 0 <= w < |queues| ensures |Swept(queues[w], now, valid).tasks| <= |queues[w].tasks| {
      PurgeShrinks(queues[w], Dooms(now, valid));
    }
    WaitingsShrink(queues, SweptAll(queues, now, valid));
  }

  /** With every attempt accepted, each attempt of a pump sends one waiting task. */
  lemma {:induction false} AttemptsSend(p: Pumping, n: nat, l: Limits, answer: nat -> DispatchResult)
    requires Shaped(p) && (forall j :: answer(j) == Accepted)
    ensures var r := Rounds(p, n, l, answer); Waitings(r.queues) + r.total == Waitings(p.queues) + p.total
    decreases n
  {
    if n != 0 && p.total < l.globalAttempts {
      TurnSends(p, l, answer);
      AttemptsSend(Turn(p, l, answer), n - 1, l, answer);
    }
  }

  lemma TurnSends(p: Pumping, l: Limits, answer: nat -> DispatchResult)
    requires Shaped(p) && (forall j :: answer(j) == Accepted) && p.total < l.globalAttempts
    ensures var r := Turn(p, l, answer); Waitings(r.queues) + r.total == Waitings(p.queues) + p.total
  {
    var c := p.cursor;
    AcceptedAreSent(p.queues[c], Least(l.perWorkerAttempts, l.globalAttempts - p.total), p.total, answer);
    WaitingsUpdate(p.queues, c, Turn(p, l, answer).queues[c]);
  }

  /** And a worker with something waiting is not passed over. */
  lemma {:induction false} RoundsSend(p: Pumping, n: nat, l: Limits, answer: nat -> DispatchResult, w: nat)
    requires Shaped(p) && n <= |p.queues| && (forall j :: answer(j) == Accepted) && l.perWorkerAttempts > 0 && p.total < l.globalAttempts
    requires w < |p.queues| && Ahead(p.cursor, w, |p.queues|) < n && p.queues[w].tasks != []
    ensures Rounds(p, n, l, answer).total > p.total
    decreases n
  {
    var p1, c := Turn(p, l, answer), p.cursor;
    TurnOutcome(p, l, answer, w);
    AcceptedAreSent(p.queues[c], Least(l.perWorkerAttempts, l.globalAttempts - p.total), p.total, answer);
    RoundsOutcome(p1, n - 1, l, answer, w);
    if c != w && p1.total < l.globalAttempts { RoundsSend(p1, n - 1, l, answer, w); }
  }

  /** A pump with an accepting sender leaves nothing, or less than was waiting. */
  lemma PumpSendsSome(queues: seq<Queue>, cursor: nat, now: nat, valid: Msg -> bool, l: Limits, answer: nat -> DispatchResult)
    requires cursor < |queues| && ValidLimits(l) && (forall j :: answer(j) == Accepted)
    ensures var p := Pump(queues, cursor, now, valid, l, answer);
            p.cursor < |p.queues| == |queues| && (Waitings(p.queues) == 0 || Waitings(p.queues) < Waitings(queues))
  {
    var start := Pumping(SweptAll(queues, now, valid), cursor, Nothing(|queues|), DoomAll(queues, now, valid), 0);
    AttemptsSend(start, |queues|, l, answer);
    SweepShrinks(queues, now, valid);
    RoundsOutcome(start, |queues|, l, answer, cursor);
    if Waitings(start.queues) > 0 {
      var w := SomeWaiting(start.queues);
      RoundsSend(start, |queues|, l, answer, w);
    }
  }

  // ---- many pumps ---------------------------------------------------------------------------------------------

  /** The clock, the test of the sessions and the answers of one pump. */
  datatype Circumstance = Circumstance(now: nat, valid: Msg -> bool, answer: nat -> DispatchResult)

  /** The queues and the cursor after a series of pumps. */
  function Pumps(queues: seq<Queue>, cursor: nat, l: Limits, cs: seq<Circumstance>): (r: (seq<Queue>, nat))
    requires cursor < |queues|
    ensures r.1 < |r.0| == |queues|
    decreases |cs|
  {
    if cs == [] then (queues, cursor)
    else
      RoundsKeepWorkers(queues, cursor, l, cs[0]);
      var p := Pump(queues, cursor, cs[0].now, cs[0].valid, l, cs[0].answer);
      Pumps(p.queues, p.cursor, l, cs[1..])
  }

  lemma RoundsKeepWorkers(queues: seq<Queue>, cursor: nat, l: Limits, c: Circumstance)
    requires cursor < |queues|
    ensures var p := Pump(queues, cursor, c.now, c.valid, l, c.answer); p.cursor < |p.queues| == |queues|
  {
    var turns := PumpOutcome(queues, cursor, c.now, c.valid, l, c.answer, cursor);
  }

  /** From any state, as many pumps with accepting senders as there are waiting tasks leave nothing waiting. */
  lemma {:induction false} EverythingIsSent(queues: seq<Queue>, cursor: nat, l: Limits, cs: seq<Circumstance>, w: nat)
    requires cursor < |queues| && w < |queues| && ValidLimits(l) && |cs| >= Waitings(queues)
    requires forall i, j :: 0 <= i < |cs| ==> cs[i].answer(j) == Accepted
    ensures Pumps(queues, cursor, l, cs).0[w].tasks == []
    decreases |cs|
  {
    if cs == [] {
      NoneWaiting(queues, w);
    } else {
      var p := Pump(queues, cursor, cs[0].now, cs[0].valid, l, cs[0].answer);
      PumpSendsSome(queues, cursor, cs[0].now, cs[0].valid, l, cs[0].answer);
      EverythingIsSent(p.queues, p.cursor, l, cs[1..], w);
    }
  }
}
