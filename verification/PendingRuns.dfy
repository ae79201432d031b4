/** Whole runs of the waiting queues: any calls, in any order, from empty queues on. */
module PendingRuns {
  import opened TaskDelivery
  import opened PendingSpec
  import opened WorkerPending

  datatype Call =
    | Submit(worker: nat, message: Msg, lifecycle: bool, now: nat, answer: DispatchResult)
    | PumpOnce(now: nat, valid: Msg -> bool, answers: nat -> DispatchResult)
    | CancelAll(session: nat)

  /** The queues, whose turn it is, and what each worker was sent so far. */
  datatype State = State(queues: seq<Queue>, cursor: nat, sent: seq<seq<Item>>)

  predicate Sized(s: State, n: nat) { |s.queues| == |s.sent| == n && s.cursor < n }

  function Next(s: State, l: Limits, call: Call): State
    requires Sized(s, |s.queues|)
  {
    match call
    case Submit(worker, message, lifecycle, now, answer) =>
      if worker >= |s.queues| then s
      else
        var r := Decide(s.queues[worker], l, message, lifecycle, now, answer);
        s.(queues := s.queues[worker := r.queue],
           sent := if r.sent then s.sent[worker := s.sent[worker] + [Item(message, lifecycle)]] else s.sent)
    case PumpOnce(now, valid, answers) =>
      var p := Pump(s.queues, s.cursor, now, valid, l, answers);
      State(p.queues, p.cursor, if |p.sent| == |s.sent| then Joined(s.sent, p.sent) else s.sent)
    case CancelAll(session) => s.(queues := Cancelled(s.queues, session))
  }

  /** What the calls submitted to a worker, in order: told by the calls alone. */
  function Submissions(calls: seq<Call>, w: nat): seq<Item>
    decreases |calls|
  {
    if calls == [] then []
    else
      var last := calls[|calls| - 1];
      Submissions(calls[..|calls| - 1], w)
      + if last.Submit? && last.worker == w then [Item(last.message, last.lifecycle)] else []
  }

  function Empty(n: nat): State { State(seq(n, _ => NoTasks), 0, seq(n, _ => [])) }

  /** The state after the calls, together with its size. */
  function Run(n: nat, l: Limits, calls: seq<Call>): (s: State)
    requires n > 0
    ensures Sized(s, n)
    decreases |calls|
  {
    if calls == [] then Empty(n)
    else
      var s := Run(n, l, calls[..|calls| - 1]);
      var call := calls[|calls| - 1];
      if call.PumpOnce? then PumpSize(s.queues, s.cursor, call.now, call.valid, l, call.answers); Next(s, l, call) else Next(s, l, call)
  }

  lemma {:induction false} RoundsSize(p: Pumping, k: nat, l: Limits, answers: nat -> DispatchResult)
    requires Shaped(p)
    ensures |Rounds(p, k, l, answers).queues| == |p.queues|
    decreases k
  {
    if !(k == 0 || p.total >= l.globalAttempts) { RoundsSize(Turn(p, l, answers), k - 1, l, answers); }
  }

  lemma PumpSize(queues: seq<Queue>, cursor: nat, now: nat, valid: Msg -> bool, l: Limits, answers: nat -> DispatchResult)
    requires cursor < |queues|
    ensures var p := Pump(queues, cursor, now, valid, l, answers);
            |p.queues| == |p.sent| == |queues| && p.cursor < |queues|
  {
    RoundsSize(Pumping(SweptAll(queues, now, valid), cursor, Nothing(|queues|), DoomAll(queues, now, valid), 0), |queues|, l, answers);
  }

  function AllSubmissions(n: nat, calls: seq<Call>): seq<seq<Item>> {
    seq(n, w requires 0 <= w < n => Submissions(calls, w))
  }

  lemma SubmissionsGrow(before: seq<Call>, call: Call, w: nat)
    ensures Submissions(before + [call], w)
         == Submissions(before, w) + (if call.Submit? && call.worker == w then [Item(call.message, call.lifecycle)] else [])
  {
    assert (before + [call])[..|before|] == before;
  }

  lemma QuietCall(n: nat, before: seq<Call>, call: Call)
    requires call.Submit? ==> call.worker >= n
    ensures AllSubmissions(n, before + [call]) == AllSubmissions(n, before)
  {
    forall w | 0 <= w < n ensures Submissions(before + [call], w) == Submissions(before, w) {
      SubmissionsGrow(before, call, w);
      assert Submissions(before, w) + [] == Submissions(before, w);
    }
  }

  lemma SubmitStep(s: State, n: nat, l: Limits, before: seq<Call>, call: Call)
    requires n > 0 && Sized(s, n) && AllOk(s.queues, l, s.sent, AllSubmissions(n, before)) && call.Submit? && call.worker < n
    ensures var s' := Next(s, l, call); AllOk(s'.queues, l, s'.sent, AllSubmissions(n, before + [call]))
  {
    var was, now, v := AllSubmissions(n, before), AllSubmissions(n, before + [call]), call.worker;
    forall w | 0 <= w < n ensures now[w] == if w == v then was[w] + [Item(call.message, call.lifecycle)] else was[w] {
      SubmissionsGrow(before, call, w);
    }
    SubmitKeeps(s.queues[v], l, call.message, call.lifecycle, call.now, call.answer, s.sent[v], was[v]);
    var s' := Next(s, l, call);
    OneQueueChanged(s.queues, l, s.sent, was, v, s'.queues[v], s'.sent, now);
  }

  lemma StepKeeps(s: State, n: nat, l: Limits, before: seq<Call>, call: Call)
    requires n > 0 && Sized(s, n) && AllOk(s.queues, l, s.sent, AllSubmissions(n, before))
    ensures var s' := Next(s, l, call); AllOk(s'.queues, l, s'.sent, AllSubmissions(n, before + [call]))
  {
    if call.Submit? && call.worker < n {
      SubmitStep(s, n, l, before, call);
    } else {
      QuietCall(n, before, call);
      var was := AllSubmissions(n, before);
      match call
      case Submit(_, _, _, _, _) =>
      case PumpOnce(at, valid, answers) => PumpKeeps(s.queues, s.cursor, at, valid, l, answers, s.sent, was);
      case CancelAll(session) => CancelKeeps(s.queues, l, s.sent, was, session);
    }
  }

  lemma {:induction false} RunKeeps(n: nat, l: Limits, calls: seq<Call>)
    requires n > 0
    ensures var s := Run(n, l, calls); AllOk(s.queues, l, s.sent, AllSubmissions(n, calls))
    decreases |calls|
  {
    if calls != [] {
      var before, call := calls[..|calls| - 1], calls[|calls| - 1];
      RunKeeps(n, l, before);
      StepKeeps(Run(n, l, before), n, l, before, call);
      assert calls == before + [call];
    }
  }

  /** After any calls, for every worker: the notices sent, followed by those waiting, are exactly those
      submitted, in order; everything sent was submitted, in order; the counters are a recount of the
      queue, and the business in it is within its limits. */
  lemma NoNoticeIsEverLost(n: nat, l: Limits, calls: seq<Call>, w: nat)
    requires w < n
    ensures var s := Run(n, l, calls);
            && Notices(s.sent[w]) + Notices(Items(s.queues[w].tasks)) == Notices(Submissions(calls, w))
            && Subsequence(s.sent[w], Submissions(calls, w))
            && Counted(s.queues[w]) && WithinLimits(s.queues[w], l)
  {
    RunKeeps(n, l, calls);
    var s := Run(n, l, calls);
    assert QueueOk(s.queues[w], l, s.sent[w], AllSubmissions(n, calls)[w]);
    NoNoticeIsLost(s.queues[w], l, s.sent[w], Submissions(calls, w));
  }
}
