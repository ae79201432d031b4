/** Whole runs of the wheel, told by the messages it sends. */
module TimerRuns {
  import opened TimerWheel

  datatype Step = Add(item: Item) | CancelUser(user: nat) | TickOnce

  /** The wheel, the record of births and cancellations, and every message sent so far with its tick. */
  datatype State = State(w: Wheel, h: History, log: seq<Firing>)

  /** An empty wheel of n slots. */
  function Empty(n: nat): State { State(Wheel(seq(n, _ => []), map[], map[], 1, 0), History(0, map[], map[], {}), []) }

  function Firings(fired: seq<(nat, Item)>, tick: nat): seq<Firing> {
    seq(|fired|, i requires 0 <= i < |fired| => Firing(fired[i].0, tick, fired[i].1))
  }

  /** A delay shorter than a tick counts as one tick. */
  function Clamped(item: Item, tickMs: nat): Item { if item.interval < tickMs then item.(interval := tickMs) else item }

  function Next(s: State, step: Step, tickMs: nat): (r: State)
    requires Shaped(s.w) && tickMs > 0
    ensures Shaped(r.w) && |r.w.slots| == |s.w.slots|
  {
    match step
    case Add(item) =>
      var ticks := TicksFor(item.interval, tickMs);
      s.(w := Launch(s.w, Clamped(item, tickMs), ticks),
         h := s.h.(born := s.h.born[s.w.nextId := Birth(s.h.now, ticks, item.user)]))
    case CancelUser(user) =>
      var w := Cancel(s.w, user);
      s.(w := w, h := s.h.(cancelled := s.h.cancelled + (s.w.live.Keys - w.live.Keys)))
    case TickOnce =>
      TickShape(s.w, tickMs);
      State(Tick(s.w, tickMs), AfterTick(s.w, s.h, tickMs), s.log + Firings(DueNow(Turned(s.w)), s.h.now + 1))
  }

  lemma {:induction false} FireShape(w: Wheel, fired: seq<(nat, Item)>, tickMs: nat)
    requires Shaped(w) && tickMs > 0
    ensures |FireAll(w, fired, tickMs).slots| == |w.slots|
    decreases |fired|
  {
    if fired != [] { FireShape(Fire(w, fired[0].0, fired[0].1, tickMs), fired[1..], tickMs); }
  }

  lemma TickShape(w: Wheel, tickMs: nat)
    requires Shaped(w) && tickMs > 0
    ensures |Tick(w, tickMs).slots| == |w.slots|
  {
    FireShape(Collect(Turned(w)), DueNow(Turned(w)), tickMs);
  }

  function Run(s: State, steps: seq<Step>, tickMs: nat): (r: State)
    requires Shaped(s.w) && tickMs > 0
    ensures Shaped(r.w) && |r.w.slots| == |s.w.slots|
    decreases |steps|
  {
    if steps == [] then s else Run(Next(s, steps[0], tickMs), steps[1..], tickMs)
  }

  /** The ticks at which a timer's message was sent, in order. */
  function SentAt(log: seq<Firing>, id: nat): seq<nat>
    decreases |log|
  {
    if log == [] then []
    else (if log[0].id == id then [log[0].tick] else []) + SentAt(log[1..], id)
  }

  lemma {:induction false} SentAtSplit(a: seq<Firing>, b: seq<Firing>, id: nat)
    ensures SentAt(a + b, id) == SentAt(a, id) + SentAt(b, id)
    decreases |a|
  {
    if a == [] {
      assert [] + b == b;
    } else {
      assert (a + b)[1..] == a[1..] + b && (a + b)[0] == a[0];
      SentAtSplit(a[1..], b, id);
      var first := if a[0].id == id then [a[0].tick] else [];
      Reassociate(first, SentAt(a[1..], id), SentAt(b, id));
      assert SentAt(a + b, id) == first + SentAt(a[1..] + b, id);
    }
  }

  lemma Reassociate(a: seq<nat>, b: seq<nat>, c: seq<nat>)
    ensures a + b + c == a + (b + c)
  {
  }

  /** The messages sent are exactly the firings on record, each once. */
  predicate Logged(log: seq<Firing>, fired: map<nat, nat>, id: nat) {
    SentAt(log, id) == if id in fired then [fired[id]] else []
  }

  ghost predicate LogOk(s: State) {
    forall id: nat :: Logged(s.log, s.h.fired, id)
  }

  ghost predicate Good(s: State) { Sound(s.w, s.h) && LogOk(s) }

  predicate Distinct(fired: seq<(nat, Item)>) { forall i, j :: 0 <= i < j < |fired| ==> fired[i].0 != fired[j].0 }

  lemma {:induction false} SentAtOnce(fired: seq<(nat, Item)>, tick: nat, id: nat)
    requires Distinct(fired)
    ensures SentAt(Firings(fired, tick), id) == if exists i :: 0 <= i < |fired| && fired[i].0 == id then [tick] else []
    decreases |fired|
  {
    if fired != [] {
      var rest := fired[1..];
      assert Firings(fired, tick)[1..] == Firings(rest, tick);
      SentAtOnce(rest, tick, id);
      if fired[0].0 == id {
        assert forall i :: 0 <= i < |rest| ==> rest[i].0 == fired[i + 1].0 != id;
      } else {
        assert forall i :: 0 <= i < |rest| ==> rest[i] == fired[i + 1];
        assert (exists i :: 0 <= i < |fired| && fired[i].0 == id) ==> exists i :: 0 <= i < |rest| && rest[i].0 == id by {
          if i :| 0 <= i < |fired| && fired[i].0 == id { assert rest[i - 1].0 == id; }
        }
      }
    }
  }

  lemma {:induction false} DueNoRepeats(bucket: seq<nat>, live: map<nat, LiveTimer>)
    requires NoRepeats(bucket)
    ensures NoRepeats(Due(bucket, live))
    decreases |bucket|
  {
    if bucket != [] {
      DueNoRepeats(bucket[1..], live);
      DueMembers(bucket[1..], live, bucket[0]);
    }
  }

  lemma DueNowIsDistinct(w: Wheel, h: History)
    requires Sound(w, h)
    ensures Distinct(DueNow(Turned(w)))
  {
    var t := Turned(w);
    assert SlotOk(w, h, t.cur);
    DueNoRepeats(t.slots[t.cur], t.live);
  }

  /** The firings on record after a tick: those before it, and the timers due at it. */
  lemma TickFires(w: Wheel, h: History, tickMs: nat, id: nat)
    requires Sound(w, h) && tickMs > 0
    ensures var fired := AfterTick(w, h, tickMs).fired;
            && (id in fired <==> id in h.fired || id in DueSet(w, h))
            && (id in DueSet(w, h) ==> fired[id] == h.now + 1 && id !in h.fired)
            && (id in h.fired ==> fired[id] == h.fired[id])
  {
    TickKeeps(w, h, tickMs);
  }

  lemma DueNowLogged(w: Wheel, h: History, id: nat)
    requires Sound(w, h)
    ensures SentAt(Firings(DueNow(Turned(w)), h.now + 1), id) == if id in DueSet(w, h) then [h.now + 1] else []
  {
    DueNowIsDueSet(w, h);
    DueNowIsDistinct(w, h);
    SentAtOnce(DueNow(Turned(w)), h.now + 1, id);
  }

  lemma TickLogs(w: Wheel, h: History, log: seq<Firing>, tickMs: nat, id: nat)
    requires Sound(w, h) && tickMs > 0 && Logged(log, h.fired, id)
    ensures Logged(log + Firings(DueNow(Turned(w)), h.now + 1), AfterTick(w, h, tickMs).fired, id)
  {
    TickFires(w, h, tickMs, id);
    DueNowLogged(w, h, id);
    SentAtSplit(log, Firings(DueNow(Turned(w)), h.now + 1), id);
  }

  lemma StepKeepsGood(s: State, step: Step, tickMs: nat)
    requires Good(s) && tickMs > 0
    ensures Good(Next(s, step, tickMs))
  {
    match step
    case Add(item) => LaunchKeeps(s.w, s.h, Clamped(item, tickMs), TicksFor(item.interval, tickMs));
    case CancelUser(user) => CancelKeeps(s.w, s.h, user);
    case TickOnce =>
      TickKeeps(s.w, s.h, tickMs);
      forall id: nat ensures Logged(Next(s, TickOnce, tickMs).log, AfterTick(s.w, s.h, tickMs).fired, id) {
        assert Logged(s.log, s.h.fired, id);
        TickLogs(s.w, s.h, s.log, tickMs, id);
      }
  }

  lemma EmptyIsGood(n: nat)
    requires n > 1
    ensures Good(Empty(n))
  {
    assert 0 % n == 0;
  }

  lemma {:induction false} RunKeepsGood(s: State, steps: seq<Step>, tickMs: nat)
    requires Good(s) && tickMs > 0
    ensures Good(Run(s, steps, tickMs))
    decreases |steps|
  {
    if steps != [] {
      StepKeepsGood(s, steps[0], tickMs);
      RunKeepsGood(Next(s, steps[0], tickMs), steps[1..], tickMs);
    }
  }

  function Ticks(steps: seq<Step>): nat
    decreases |steps|
  {
    if steps == [] then 0 else (if steps[0].TickOnce? then 1 else 0) + Ticks(steps[1..])
  }

  /** What one step does to a timer that exists: its birth stays, and it is cancelled only by its user. */
  lemma StepRemembers(s: State, step: Step, tickMs: nat, id: nat)
    requires Sound(s.w, s.h) && tickMs > 0 && id in s.h.born
    ensures var s' := Next(s, step, tickMs);
            && id in s'.h.born && s'.h.born[id] == s.h.born[id]
            && s'.h.now == s.h.now + (if step.TickOnce? then 1 else 0)
            && (id in s.h.cancelled ==> id in s'.h.cancelled)
            && (id in s'.h.cancelled ==> id in s.h.cancelled || step == CancelUser(s.h.born[id].user))
  {
    match step
    case Add(item) => NextIdIsNew(s.w, s.h);
    case CancelUser(user) =>
      CancelKeeps(s.w, s.h, user);
      assert id in s.w.live ==> Pending(s.w, s.h, id);
    case TickOnce => TickKeeps(s.w, s.h, tickMs);
  }

  lemma {:induction false} RunRemembers(s: State, steps: seq<Step>, tickMs: nat, id: nat)
    requires Good(s) && tickMs > 0 && id in s.h.born
    ensures var r := Run(s, steps, tickMs);
            && id in r.h.born && r.h.born[id] == s.h.born[id] && r.h.now == s.h.now + Ticks(steps)
            && (id in s.h.cancelled ==> id in r.h.cancelled)
            && (id in r.h.cancelled ==> id in s.h.cancelled || CancelUser(s.h.born[id].user) in steps)
    decreases |steps|
  {
    if steps != [] {
      StepKeepsGood(s, steps[0], tickMs);
      StepRemembers(s, steps[0], tickMs, id);
      RunRemembers(Next(s, steps[0], tickMs), steps[1..], tickMs, id);
    }
  }

  /** From a good state on, an uncancelled timer's messages are told by its birth alone. */
  lemma SentWhenDue(s: State, steps: seq<Step>, tickMs: nat, id: nat)
    requires Good(s) && tickMs > 0 && id in s.h.born && id !in s.h.cancelled && CancelUser(s.h.born[id].user) !in steps
    ensures var due := DueOf(s.h.born[id], |s.w.slots|);
            SentAt(Run(s, steps, tickMs).log, id) == if due <= s.h.now + Ticks(steps) then [due] else []
  {
    RunKeepsGood(s, steps, tickMs);
    RunRemembers(s, steps, tickMs, id);
    var r := Run(s, steps, tickMs);
    FiresExactlyWhenDue(r.w, r.h, id);
    assert Logged(r.log, r.h.fired, id);
  }

  /** On every run from the empty wheel: a timer added at any moment, and not cancelled afterwards, sends
      its message exactly once, at exactly its due tick, as soon as the wheel gets there. */
  lemma AddedTimerFiresOnceWhenDue(n: nat, tickMs: nat, before: seq<Step>, item: Item, after: seq<Step>)
    requires n > 1 && tickMs > 0 && CancelUser(item.user) !in after
    ensures var s := Run(Empty(n), before, tickMs);
            var r := Run(Next(s, Add(item), tickMs), after, tickMs);
            var due := DueOf(Birth(s.h.now, TicksFor(item.interval, tickMs), item.user), n);
            SentAt(r.log, s.w.nextId) == if due <= s.h.now + Ticks(after) then [due] else []
  {
    EmptyIsGood(n);
    RunKeepsGood(Empty(n), before, tickMs);
    AddedIsSentWhenDue(Run(Empty(n), before, tickMs), item, after, tickMs);
  }

  lemma AddedIsSentWhenDue(s: State, item: Item, after: seq<Step>, tickMs: nat)
    requires Good(s) && tickMs > 0 && CancelUser(item.user) !in after
    ensures var due := DueOf(Birth(s.h.now, TicksFor(item.interval, tickMs), item.user), |s.w.slots|);
            var r := Run(Next(s, Add(item), tickMs), after, tickMs);
            SentAt(r.log, s.w.nextId) == if due <= s.h.now + Ticks(after) then [due] else []
  {
    AddedIsBorn(s, item, tickMs);
    SentWhenDue(Next(s, Add(item), tickMs), after, tickMs, s.w.nextId);
  }

  lemma AddedIsBorn(s: State, item: Item, tickMs: nat)
    requires Good(s) && tickMs > 0
    ensures var s', id := Next(s, Add(item), tickMs), s.w.nextId;
            && id in s'.h.born && s'.h.born[id] == Birth(s.h.now, TicksFor(item.interval, tickMs), item.user)
            && id !in s'.h.cancelled && s'.h.now == s.h.now && Good(s')
  {
    NextIdIsNew(s.w, s.h);
    StepKeepsGood(s, Add(item), tickMs);
  }

  /** On every run: a timer that is live when its user cancels never sends its message afterwards. */
  lemma CancelledNeverFires(n: nat, tickMs: nat, before: seq<Step>, user: nat, after: seq<Step>, id: nat)
    requires n > 1 && tickMs > 0
    requires var s := Run(Empty(n), before, tickMs); id in s.w.live && s.w.live[id].item.user == user
    ensures var s := Run(Empty(n), before, tickMs);
            SentAt(Run(Next(s, CancelUser(user), tickMs), after, tickMs).log, id) == []
  {
    EmptyIsGood(n);
    RunKeepsGood(Empty(n), before, tickMs);
    var s := Run(Empty(n), before, tickMs);
    var s' := Next(s, CancelUser(user), tickMs);
    assert Pending(s.w, s.h, id);
    CancelKeeps(s.w, s.h, user);
    StepKeepsGood(s, CancelUser(user), tickMs);
    RunKeepsGood(s', after, tickMs);
    RunRemembers(s', after, tickMs, id);
    var r := Run(s', after, tickMs);
    assert Accounted(r.w, r.h, id) && Logged(r.log, r.h.fired, id);
  }

  /** Wheel ticks are counted by the run, and every message sent belongs to a timer added before. */
  lemma RunCountsTicks(n: nat, tickMs: nat, steps: seq<Step>)
    requires n > 1 && tickMs > 0
    ensures Run(Empty(n), steps, tickMs).h.now == Ticks(steps)
  {
    EmptyIsGood(n);
    NowCounts(Empty(n), steps, tickMs);
  }

  lemma {:induction false} NowCounts(s: State, steps: seq<Step>, tickMs: nat)
    requires Good(s) && tickMs > 0
    ensures Run(s, steps, tickMs).h.now == s.h.now + Ticks(steps)
    decreases |steps|
  {
    if steps != [] {
      StepKeepsGood(s, steps[0], tickMs);
      if steps[0].TickOnce? { TickKeeps(s.w, s.h, tickMs); }
      NowCounts(Next(s, steps[0], tickMs), steps[1..], tickMs);
    }
  }
}
