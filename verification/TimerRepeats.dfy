/** What repeating timers send over a whole run, and what a cancelled user does not. */
module TimerRepeats {
  import opened TimerWheel
  import opened TimerRuns

  /** The ticks at which a message satisfying the test was sent, in order. */
  function SentOf(log: seq<Firing>, p: Item -> bool): seq<nat>
    decreases |log|
  {
    if log == [] then []
    else (if p(log[0].item) then [log[0].tick] else []) + SentOf(log[1..], p)
  }

  lemma {:induction false} SentOfSplit(a: seq<Firing>, b: seq<Firing>, p: Item -> bool)
    ensures SentOf(a + b, p) == SentOf(a, p) + SentOf(b, p)
    decreases |a|
  {
    if a == [] {
      assert [] + b == b;
    } else {
      SentOfSplit(a[1..], b, p);
      assert (a + b)[1..] == a[1..] + b && (a + b)[0] == a[0];
      Reassociate(if p(a[0].item) then [a[0].tick] else [], SentOf(a[1..], p), SentOf(b, p));
    }
  }

  // ---- no live timer, no message ------------------------------------------------------------

  ghost predicate Quiet(live: map<nat, LiveTimer>, p: Item -> bool) { forall id <- live :: !p(live[id].item) }

  ghost predicate NoneFires(fired: seq<(nat, Item)>, p: Item -> bool) { forall i :: 0 <= i < |fired| ==> !p(fired[i].1) }

  /** No timer satisfying the test is added. */
  ghost predicate NotAdded(steps: seq<Step>, p: Item -> bool, tickMs: nat) {
    forall i :: 0 <= i < |steps| && steps[i].Add? ==> !p(Clamped(steps[i].item, tickMs))
  }

  lemma {:induction false} NothingSent(fired: seq<(nat, Item)>, tick: nat, p: Item -> bool)
    requires NoneFires(fired, p)
    ensures SentOf(Firings(fired, tick), p) == []
    decreases |fired|
  {
    if fired != [] {
      assert Firings(fired, tick)[1..] == Firings(fired[1..], tick);
      NothingSent(fired[1..], tick, p);
    }
  }

  lemma {:induction false} FireAllQuiet(w: Wheel, fired: seq<(nat, Item)>, tickMs: nat, p: Item -> bool)
    requires Shaped(w) && tickMs > 0 && Quiet(w.live, p) && NoneFires(fired, p)
    ensures Quiet(FireAll(w, fired, tickMs).live, p)
    decreases |fired|
  {
    if fired != [] {
      assert !p(fired[0].1);
      FireAllQuiet(Fire(w, fired[0].0, fired[0].1, tickMs), fired[1..], tickMs, p);
    }
  }

  lemma DueNowQuiet(w: Wheel, p: Item -> bool)
    requires Shaped(w) && Quiet(w.live, p)
    ensures NoneFires(DueNow(w), p)
  {
    DueIsLive(w.slots[w.cur], w.live);
  }

  lemma StepQuiet(s: State, step: Step, tickMs: nat, p: Item -> bool)
    requires Shaped(s.w) && tickMs > 0 && Quiet(s.w.live, p) && NotAdded([step], p, tickMs)
    ensures var s' := Next(s, step, tickMs); Quiet(s'.w.live, p) && SentOf(s'.log, p) == SentOf(s.log, p)
  {
    assert [step][0] == step;
    if step.TickOnce? {
      var fired := DueNow(Turned(s.w));
      DueNowQuiet(Turned(s.w), p);
      FireAllQuiet(Collect(Turned(s.w)), fired, tickMs, p);
      LogStays(s.log, fired, s.h.now + 1, p);
    }
  }

  lemma {:induction false} RunQuiet(s: State, steps: seq<Step>, tickMs: nat, p: Item -> bool)
    requires Shaped(s.w) && tickMs > 0 && Quiet(s.w.live, p) && NotAdded(steps, p, tickMs)
    ensures SentOf(Run(s, steps, tickMs).log, p) == SentOf(s.log, p)
    decreases |steps|
  {
    if steps != [] {
      StepQuiet(s, steps[0], tickMs, p);
      RunQuiet(Next(s, steps[0], tickMs), steps[1..], tickMs, p);
    }
  }

  /** On every run: once a user cancels, no message of that user is sent until it adds a timer again,
      whatever repeating timers it had and however often they had started over. */
  lemma CancelledUserIsSilent(n: nat, tickMs: nat, before: seq<Step>, user: nat, after: seq<Step>)
    requires n > 1 && tickMs > 0 && forall i :: 0 <= i < |after| && after[i].Add? ==> after[i].item.user != user
    ensures var s := Run(Empty(n), before, tickMs);
            SentOf(Run(Next(s, CancelUser(user), tickMs), after, tickMs).log, (x: Item) => x.user == user)
            == SentOf(s.log, (x: Item) => x.user == user)
  {
    EmptyIsGood(n);
    RunKeepsGood(Empty(n), before, tickMs);
    var s := Run(Empty(n), before, tickMs);
    CancelKeeps(s.w, s.h, user);
    RunQuiet(Next(s, CancelUser(user), tickMs), after, tickMs, (x: Item) => x.user == user);
  }

  // ---- one live timer ------------------------------------------------------------------------

  /** The timer is live, carries the item and is due at the given tick. */
  predicate Waits(w: Wheel, h: History, id: nat, x: Item, due: nat) {
    |w.slots| > 1 && id in w.live && w.live[id].item == x && id in h.born && DueOf(h.born[id], |w.slots|) == due
  }

  function Period(x: Item, slots: nat, tickMs: nat): (p: nat)
    requires slots > 1 && tickMs > 0
    ensures p > 0
  {
    DueOf(Birth(0, TicksFor(x.interval, tickMs), x.user), slots)
  }

  lemma {:induction false} FireAllKeepsLive(w: Wheel, fired: seq<(nat, Item)>, tickMs: nat, id: nat)
    requires Shaped(w) && tickMs > 0 && id in w.live && id < w.nextId
    ensures var r := FireAll(w, fired, tickMs); id in r.live && r.live[id] == w.live[id]
    decreases |fired|
  {
    if fired != [] { FireAllKeepsLive(Fire(w, fired[0].0, fired[0].1, tickMs), fired[1..], tickMs, id); }
  }

  /** A timer that is not due at the next tick survives any step but its user's cancellation. */
  lemma StepKeepsWaiting(s: State, step: Step, tickMs: nat, id: nat, x: Item, due: nat)
    requires Sound(s.w, s.h) && tickMs > 0 && Waits(s.w, s.h, id, x, due) && step != CancelUser(x.user)
    requires step.TickOnce? ==> due != s.h.now + 1
    ensures var s' := Next(s, step, tickMs); Waits(s'.w, s'.h, id, x, due)
  {
    assert Pending(s.w, s.h, id) && Accounted(s.w, s.h, id);
    StepRemembers(s, step, tickMs, id);
    if step.CancelUser? {
      CancelKeeps(s.w, s.h, step.user);
    } else if step.TickOnce? {
      CollectedLive(s.w, s.h, id);
      FireAllKeepsLive(Collect(Turned(s.w)), DueNow(Turned(s.w)), tickMs, id);
    }
  }

  /** The history once the first fired timer is handled. */
  function BornAgain(w: Wheel, h: History, x: Item, tickMs: nat): History
    requires tickMs > 0
  {
    if x.repeating then h.(born := h.born[w.nextId := Birth(h.now, TicksFor(x.interval, tickMs), x.user)]) else h
  }

  ghost predicate Gone(w: Wheel, h: History, fired: seq<(nat, Item)>) {
    forall i :: 0 <= i < |fired| ==> fired[i].0 in h.born && fired[i].0 !in w.live
  }

  lemma FireOne(w: Wheel, h: History, fired: seq<(nat, Item)>, tickMs: nat)
    requires Sound(w, h) && tickMs > 0 && fired != [] && Gone(w, h, fired)
    ensures var w1, h1, x := Fire(w, fired[0].0, fired[0].1, tickMs), BornAgain(w, h, fired[0].1, tickMs), fired[0].1;
            && Sound(w1, h1) && Gone(w1, h1, fired[1..]) && |w1.slots| == |w.slots| && h1.now == h.now
            && Reborn(w, h, fired, tickMs) == Reborn(w1, h1, fired[1..], tickMs)
            && (x.repeating ==> Waits(w1, h1, w.nextId, x, h.now + Period(x, |w.slots|, tickMs)) && w.nextId < w1.nextId)
  {
    var (id, x) := fired[0];
    NextIdIsNew(w, h);
    if x.repeating { LaunchKeeps(w, h, x, TicksFor(x.interval, tickMs)); } else { ForgetKeeps(w, h, id, x, tickMs); }
  }

  lemma FireAllKeepsWaiting(w: Wheel, h: History, fired: seq<(nat, Item)>, tickMs: nat, id: nat, x: Item, due: nat)
    requires Sound(w, h) && tickMs > 0 && Gone(w, h, fired) && Waits(w, h, id, x, due) && id < w.nextId
    ensures Waits(FireAll(w, fired, tickMs), Reborn(w, h, fired, tickMs), id, x, due)
  {
    FireAllKeepsLive(w, fired, tickMs, id);
    FireAllKeeps(w, h, fired, tickMs);
    FireShape(w, fired, tickMs);
  }

  /** A repeating timer among those fired starts over under a new number. */
  lemma {:induction false} FiredIsReborn(w: Wheel, h: History, fired: seq<(nat, Item)>, tickMs: nat, j: nat) returns (heir: nat)
    requires Sound(w, h) && tickMs > 0 && j < |fired| && fired[j].1.repeating && Gone(w, h, fired)
    ensures var x := fired[j].1;
            Waits(FireAll(w, fired, tickMs), Reborn(w, h, fired, tickMs), heir, x, h.now + Period(x, |w.slots|, tickMs))
    decreases |fired|
  {
    var w1, h1 := Fire(w, fired[0].0, fired[0].1, tickMs), BornAgain(w, h, fired[0].1, tickMs);
    FireOne(w, h, fired, tickMs);
    if j == 0 {
      heir := w.nextId;
      FireAllKeepsWaiting(w1, h1, fired[1..], tickMs, heir, fired[0].1, h.now + Period(fired[0].1, |w.slots|, tickMs));
    } else {
      heir := FiredIsReborn(w1, h1, fired[1..], tickMs, j - 1);
    }
  }

  lemma DueAreGone(w: Wheel, h: History)
    requires Sound(w, h)
    ensures Sound(Collect(Turned(w)), Ticked(w, h)) && Gone(Collect(Turned(w)), Ticked(w, h), DueNow(Turned(w)))
  {
    CollectKeeps(w, h);
    DueNowIsDueSet(w, h);
    var fired := DueNow(Turned(w));
    forall i | 0 <= i < |fired| ensures fired[i].0 in h.born && fired[i].0 !in Collect(Turned(w)).live {
      CollectedTimer(w, h, fired[i].0);
    }
  }

  /** The tick at which a repeating timer is due fires it and starts it over. */
  lemma DueStartsOver(w: Wheel, h: History, tickMs: nat, id: nat) returns (heir: nat, j: nat)
    requires Sound(w, h) && tickMs > 0 && id in DueSet(w, h) && w.live[id].item.repeating
    ensures var x := w.live[id].item;
            && Waits(Tick(w, tickMs), AfterTick(w, h, tickMs), heir, x, h.now + 1 + Period(x, |w.slots|, tickMs))
            && j < |DueNow(Turned(w))| && DueNow(Turned(w))[j] == (id, x)
  {
    DueNowIsDueSet(w, h);
    DueAreGone(w, h);
    j :| 0 <= j < |DueNow(Turned(w))| && DueNow(Turned(w))[j].0 == id;
    heir := FiredIsReborn(Collect(Turned(w)), Ticked(w, h), DueNow(Turned(w)), tickMs, j);
  }

  ghost predicate IsSent(log: seq<Firing>, tick: nat, x: Item) { exists id :: Firing(id, tick, x) in log }

  lemma FiredIsSent(log: seq<Firing>, fired: seq<(nat, Item)>, tick: nat, j: nat)
    requires j < |fired|
    ensures IsSent(log + Firings(fired, tick), tick, fired[j].1)
  {
    var all := log + Firings(fired, tick);
    assert all[|log| + j] == Firing(fired[j].0, tick, fired[j].1);
  }

  // ---- the beat of a repeating timer -----------------------------------------------------------

  /** The ticks from the first to the last one, a period apart. */
  function Beats(first: nat, period: nat, last: nat): seq<nat>
    requires period > 0
    decreases last - first
  {
    if first > last then [] else [first] + Beats(first + period, period, last)
  }

  /** They are the first one and every whole number of periods after it, up to the last. */
  lemma {:induction false} BeatsAre(first: nat, period: nat, last: nat, k: nat)
    requires period > 0
    ensures var b := Beats(first, period, last);
            && (k < |b| <==> first + k * period <= last) && (k < |b| ==> b[k] == first + k * period)
    decreases k
  {
    if k > 0 {
      assert k * period == period + (k - 1) * period && (k - 1) * period >= 0;
      BeatsAre(first + period, period, last, k - 1);
    }
  }

  /** The next beat after the given tick. */
  function NextBeat(first: nat, period: nat, now: nat): (due: nat)
    requires period > 0
    ensures now < due
    decreases now - first
  {
    if now < first then first else NextBeat(first + period, period, now)
  }

  lemma {:induction false} BeatGoesOn(first: nat, period: nat, now: nat)
    requires period > 0
    ensures var due := NextBeat(first, period, now);
            if due == now + 1
            then NextBeat(first, period, due) == due + period && Beats(first, period, due) == Beats(first, period, now) + [due]
            else NextBeat(first, period, now + 1) == due && Beats(first, period, now + 1) == Beats(first, period, now)
    decreases now - first
  {
    if now >= first { BeatGoesOn(first + period, period, now); }
  }

  /** The states that runs from an empty wheel lead to. */
  ghost predicate Reachable(s: State, tickMs: nat) {
    tickMs > 0 && Shaped(s.w) && exists n: nat, past :: n > 1 && s == Run(Empty(n), past, tickMs)
  }

  lemma ReachableIsSound(s: State, tickMs: nat)
    requires Reachable(s, tickMs)
    ensures Sound(s.w, s.h)
  {
    var n: nat, past :| n > 1 && s == Run(Empty(n), past, tickMs);
    EmptyIsGood(n);
    RunKeepsGood(Empty(n), past, tickMs);
  }

  lemma NextIsReachable(s: State, step: Step, tickMs: nat)
    requires Reachable(s, tickMs)
    ensures Reachable(Next(s, step, tickMs), tickMs)
  {
    var n: nat, past :| n > 1 && s == Run(Empty(n), past, tickMs);
    RunOneMore(Empty(n), past, step, tickMs);
  }

  lemma {:induction false} RunOneMore(s: State, past: seq<Step>, step: Step, tickMs: nat)
    requires Shaped(s.w) && tickMs > 0
    ensures Run(s, past + [step], tickMs) == Next(Run(s, past, tickMs), step, tickMs)
    decreases |past|
  {
    if past == [] {
      assert [step][1..] == [];
    } else {
      assert (past + [step])[1..] == past[1..] + [step];
      RunOneMore(Next(s, past[0], tickMs), past[1..], step, tickMs);
    }
  }

  /** A repeating timer on a wheel of the given size, by its message, its first firing and its period. */
  datatype Rhythm = Rhythm(x: Item, first: nat, period: nat, slots: nat, tickMs: nat)

  predicate Steady(b: Rhythm) {
    b.slots > 1 && b.tickMs > 0 && b.x.repeating && b.period > 0 && b.period == Period(b.x, b.slots, b.tickMs)
  }

  function NextDue(b: Rhythm, now: nat): nat
    requires b.period > 0
  {
    NextBeat(b.first, b.period, now)
  }

  /** The instance of the timer that waits for its next beat. */
  predicate Turn(w: Wheel, h: History, b: Rhythm, id: nat)
    requires b.period > 0
  {
    |w.slots| == b.slots && Waits(w, h, id, b.x, NextDue(b, h.now))
  }

  /** The beats so far. */
  function Played(b: Rhythm, now: nat): seq<nat>
    requires b.period > 0
  {
    Beats(b.first, b.period, now)
  }

  /** A step at which the timer is not due: it waits on. */
  lemma StepWaits(s: State, step: Step, b: Rhythm, id: nat)
    requires Sound(s.w, s.h) && Steady(b) && Turn(s.w, s.h, b, id) && step != CancelUser(b.x.user)
    requires !(step.TickOnce? && NextDue(b, s.h.now) == s.h.now + 1)
    ensures var s' := Next(s, step, b.tickMs); Turn(s'.w, s'.h, b, id) && Played(b, s'.h.now) == Played(b, s.h.now)
  {
    StepKeepsWaiting(s, step, b.tickMs, id, b.x, NextDue(b, s.h.now));
    StepRemembers(s, step, b.tickMs, id);
    if step.TickOnce? { BeatGoesOn(b.first, b.period, s.h.now); }
  }

  /** The tick at which it is due: one more beat, and the next turn begins. */
  lemma TickTurns(w: Wheel, h: History, b: Rhythm, id: nat) returns (heir: nat, j: nat)
    requires Sound(w, h) && Steady(b) && Turn(w, h, b, id) && NextDue(b, h.now) == h.now + 1
    ensures Turn(Tick(w, b.tickMs), AfterTick(w, h, b.tickMs), b, heir)
    ensures AfterTick(w, h, b.tickMs).now == h.now + 1 && Played(b, h.now + 1) == Played(b, h.now) + [h.now + 1]
    ensures j < |DueNow(Turned(w))| && DueNow(Turned(w))[j] == (id, b.x)
  {
    heir, j := DueStartsOver(w, h, b.tickMs, id);
    TickMoves(w, h, b.tickMs);
    BeatGoesOn(b.first, b.period, h.now);
  }

  lemma TickMoves(w: Wheel, h: History, tickMs: nat)
    requires Sound(w, h) && tickMs > 0
    ensures |Tick(w, tickMs).slots| == |w.slots| && AfterTick(w, h, tickMs).now == h.now + 1
  {
    TickShape(w, tickMs);
    TickKeeps(w, h, tickMs);
  }

  ghost predicate AllSent(log: seq<Firing>, beats: seq<nat>, x: Item) { forall t :: t in beats ==> IsSent(log, t, x) }

  lemma StillSent(log: seq<Firing>, more: seq<Firing>, beats: seq<nat>, x: Item)
    requires AllSent(log, beats, x)
    ensures AllSent(log + more, beats, x)
  {
    forall t | t in beats ensures IsSent(log + more, t, x) {
      assert IsSent(log, t, x);
      var id :| Firing(id, t, x) in log;
      assert Firing(id, t, x) in log + more;
    }
  }

  lemma TickSends(w: Wheel, h: History, log: seq<Firing>, b: Rhythm, id: nat) returns (heir: nat)
    requires Sound(w, h) && Steady(b) && Turn(w, h, b, id) && NextDue(b, h.now) == h.now + 1 && AllSent(log, Played(b, h.now), b.x)
    ensures Turn(Tick(w, b.tickMs), AfterTick(w, h, b.tickMs), b, heir)
    ensures AfterTick(w, h, b.tickMs).now == h.now + 1
    ensures AllSent(log + Firings(DueNow(Turned(w)), h.now + 1), Played(b, h.now + 1), b.x)
  {
    var j;
    heir, j := TickTurns(w, h, b, id);
    StillSent(log, Firings(DueNow(Turned(w)), h.now + 1), Played(b, h.now), b.x);
    FiredIsSent(log, DueNow(Turned(w)), h.now + 1, j);
  }

  lemma LogOfStep(s: State, step: Step, tickMs: nat)
    requires Shaped(s.w) && tickMs > 0
    ensures Next(s, step, tickMs).log == if step.TickOnce? then s.log + Firings(DueNow(Turned(s.w)), s.h.now + 1) else s.log
  {
  }

  /** One step of a run: every beat so far has been sent. */
  lemma StepSends(s: State, step: Step, b: Rhythm, id: nat) returns (id': nat)
    requires Reachable(s, b.tickMs) && Steady(b) && Turn(s.w, s.h, b, id) && step != CancelUser(b.x.user)
    requires AllSent(s.log, Played(b, s.h.now), b.x)
    ensures var s' := Next(s, step, b.tickMs); Turn(s'.w, s'.h, b, id') && AllSent(s'.log, Played(b, s'.h.now), b.x)
  {
    id' := id;
    if step.TickOnce? && NextDue(b, s.h.now) == s.h.now + 1 {
      ReachableIsSound(s, b.tickMs);
      id' := DueSends(s, b, id);
    } else {
      StepKeepsSent(s, step, b, id);
    }
  }

  lemma DueSends(s: State, b: Rhythm, id: nat) returns (heir: nat)
    requires Sound(s.w, s.h) && Steady(b) && Turn(s.w, s.h, b, id) && NextDue(b, s.h.now) == s.h.now + 1 && AllSent(s.log, Played(b, s.h.now), b.x)
    ensures var s' := Next(s, TickOnce, b.tickMs);
            Turn(s'.w, s'.h, b, heir) && AllSent(s'.log, Played(b, s'.h.now), b.x)
  {
    heir := TickSends(s.w, s.h, s.log, b, id);
  }

  lemma StepKeepsSent(s: State, step: Step, b: Rhythm, id: nat)
    requires Reachable(s, b.tickMs) && Steady(b) && Turn(s.w, s.h, b, id) && step != CancelUser(b.x.user)
    requires AllSent(s.log, Played(b, s.h.now), b.x) && !(step.TickOnce? && NextDue(b, s.h.now) == s.h.now + 1)
    ensures var s' := Next(s, step, b.tickMs); Turn(s'.w, s'.h, b, id) && AllSent(s'.log, Played(b, s'.h.now), b.x)
  {
    ReachableIsSound(s, b.tickMs);
    StepWaits(s, step, b, id);
    LogOfStep(s, step, b.tickMs);
    StillSent(s.log, Firings(DueNow(Turned(s.w)), s.h.now + 1), Played(b, s.h.now), b.x);
  }

  lemma {:induction false} RunSends(s: State, steps: seq<Step>, b: Rhythm, id: nat)
    requires Reachable(s, b.tickMs) && Steady(b) && Turn(s.w, s.h, b, id) && CancelUser(b.x.user) !in steps
    requires AllSent(s.log, Played(b, s.h.now), b.x)
    ensures var r := Run(s, steps, b.tickMs); AllSent(r.log, Played(b, r.h.now), b.x)
    decreases |steps|
  {
    if steps != [] {
      NextIsReachable(s, steps[0], b.tickMs);
      var id' := StepSends(s, steps[0], b, id);
      RunSends(Next(s, steps[0], b.tickMs), steps[1..], b, id');
    }
  }

  /** The rhythm of a timer added at the given tick. */
  function RhythmOf(item: Item, now: nat, slots: nat, tickMs: nat): (b: Rhythm)
    requires slots > 1 && tickMs > 0
    ensures b.period > 0
  {
    var x := Clamped(item, tickMs);
    var period := Period(x, slots, tickMs);
    Rhythm(x, now + period, period, slots, tickMs)
  }

  lemma AddedTakesTurn(s: State, item: Item, tickMs: nat)
    requires Reachable(s, tickMs) && item.repeating
    ensures var s', b := Next(s, Add(item), tickMs), RhythmOf(item, s.h.now, |s.w.slots|, tickMs);
            && Reachable(s', tickMs) && Steady(b) && Turn(s'.w, s'.h, b, s.w.nextId)
            && s'.h.now == s.h.now && s'.log == s.log && Played(b, s.h.now) == []
  {
    ReachableIsSound(s, tickMs);
    NextIsReachable(s, Add(item), tickMs);
    NextIdIsNew(s.w, s.h);
  }

  /** On every run: a repeating timer added at any moment, and not cancelled, sends its message a period
      later and each period after that, for as long as the wheel turns. */
  lemma RepeatingTimerFiresEveryPeriod(n: nat, tickMs: nat, before: seq<Step>, item: Item, after: seq<Step>)
    requires n > 1 && tickMs > 0 && item.repeating && CancelUser(item.user) !in after
    ensures var s := Run(Empty(n), before, tickMs);
            var r, b := Run(Next(s, Add(item), tickMs), after, tickMs), RhythmOf(item, s.h.now, n, tickMs);
            AllSent(r.log, Played(b, r.h.now), b.x)
  {
    var s := Run(Empty(n), before, tickMs);
    var b := RhythmOf(item, s.h.now, n, tickMs);
    AddedTakesTurn(s, item, tickMs);
    RunSends(Next(s, Add(item), tickMs), after, b, s.w.nextId);
  }

  // ---- and nothing else ----------------------------------------------------------------------

  function Holders(live: map<nat, LiveTimer>, p: Item -> bool): set<nat> { set id | id in live && p(live[id].item) }

  /** This live timer alone satisfies the test. */
  predicate Alone(live: map<nat, LiveTimer>, id: nat, p: Item -> bool) { Holders(live, p) == {id} }

  lemma AloneIff(live: map<nat, LiveTimer>, id: nat, p: Item -> bool)
    ensures Alone(live, id, p) <==> id in live && p(live[id].item) && forall k <- live :: p(live[k].item) ==> k == id
  {
    assert id in Holders(live, p) <==> id in live && p(live[id].item);
    forall k | k in live ensures k in Holders(live, p) <==> p(live[k].item) {}
  }

  /** Exactly one of the fired timers satisfies the test. */
  ghost predicate FiresAlone(fired: seq<(nat, Item)>, j: nat, p: Item -> bool) {
    j < |fired| && p(fired[j].1) && forall i :: 0 <= i < |fired| && i != j ==> !p(fired[i].1)
  }

  lemma {:induction false} OneSent(fired: seq<(nat, Item)>, tick: nat, j: nat, p: Item -> bool)
    requires FiresAlone(fired, j, p)
    ensures SentOf(Firings(fired, tick), p) == [tick]
    decreases |fired|
  {
    assert Firings(fired, tick)[1..] == Firings(fired[1..], tick);
    if j == 0 {
      NothingSent(fired[1..], tick, p);
    } else {
      assert !p(fired[0].1);
      OneSent(fired[1..], tick, j - 1, p);
    }
  }

  lemma {:induction false} FireAllAlone(w: Wheel, fired: seq<(nat, Item)>, tickMs: nat, id: nat, p: Item -> bool)
    requires Shaped(w) && tickMs > 0 && Alone(w.live, id, p) && NoneFires(fired, p) && id < w.nextId
    ensures Alone(FireAll(w, fired, tickMs).live, id, p)
    decreases |fired|
  {
    if fired != [] {
      var w1 := Fire(w, fired[0].0, fired[0].1, tickMs);
      assert !p(fired[0].1);
      AloneIff(w.live, id, p);
      AloneIff(w1.live, id, p);
      FireAllAlone(w1, fired[1..], tickMs, id, p);
    }
  }

  lemma {:induction false} HeirIsAlone(w: Wheel, fired: seq<(nat, Item)>, tickMs: nat, j: nat, p: Item -> bool) returns (heir: nat)
    requires Shaped(w) && tickMs > 0 && Quiet(w.live, p) && FiresAlone(fired, j, p) && fired[j].1.repeating
    ensures Alone(FireAll(w, fired, tickMs).live, heir, p)
    decreases |fired|
  {
    var w1 := Fire(w, fired[0].0, fired[0].1, tickMs);
    if j == 0 {
      heir := w.nextId;
      AloneIff(w1.live, heir, p);
      FireAllAlone(w1, fired[1..], tickMs, heir, p);
    } else {
      assert !p(fired[0].1);
      heir := HeirIsAlone(w1, fired[1..], tickMs, j - 1, p);
    }
  }

  lemma NotYetDue(w: Wheel, h: History, id: nat, p: Item -> bool)
    requires Sound(w, h) && id !in DueSet(w, h) && Alone(w.live, id, p)
    ensures NoneFires(DueNow(Turned(w)), p) && Alone(Collect(Turned(w)).live, id, p) && id < w.nextId
  {
    DueNowIsDueSet(w, h);
    AloneIff(w.live, id, p);
    CollectedLive(w, h, id);
    forall k | k in Collect(Turned(w)).live ensures p(Collect(Turned(w)).live[k].item) ==> k == id { CollectedLive(w, h, k); }
    AloneIff(Collect(Turned(w)).live, id, p);
    assert Pending(w, h, id) && Accounted(w, h, id);
  }

  /** The tick at which nothing satisfying the test is due. */
  lemma TickAlone(w: Wheel, h: History, log: seq<Firing>, tickMs: nat, id: nat, p: Item -> bool)
    requires Sound(w, h) && tickMs > 0 && id !in DueSet(w, h) && Alone(w.live, id, p)
    ensures Alone(Tick(w, tickMs).live, id, p)
    ensures SentOf(log + Firings(DueNow(Turned(w)), h.now + 1), p) == SentOf(log, p)
  {
    NotYetDue(w, h, id, p);
    FireAllAlone(Collect(Turned(w)), DueNow(Turned(w)), tickMs, id, p);
    LogStays(log, DueNow(Turned(w)), h.now + 1, p);
  }

  lemma LogStays(log: seq<Firing>, fired: seq<(nat, Item)>, tick: nat, p: Item -> bool)
    requires NoneFires(fired, p)
    ensures SentOf(log + Firings(fired, tick), p) == SentOf(log, p)
  {
    SentOfSplit(log, Firings(fired, tick), p);
    NothingSent(fired, tick, p);
  }

  lemma LogGains(log: seq<Firing>, fired: seq<(nat, Item)>, tick: nat, j: nat, p: Item -> bool)
    requires FiresAlone(fired, j, p)
    ensures SentOf(log + Firings(fired, tick), p) == SentOf(log, p) + [tick]
  {
    SentOfSplit(log, Firings(fired, tick), p);
    OneSent(fired, tick, j, p);
  }

  /** The tick at which exactly one timer satisfying the test is due. */
  lemma TickDueAlone(w: Wheel, h: History, log: seq<Firing>, tickMs: nat, id: nat, p: Item -> bool) returns (heir: nat)
    requires Sound(w, h) && tickMs > 0 && id in DueSet(w, h) && w.live[id].item.repeating && Alone(w.live, id, p)
    ensures Alone(Tick(w, tickMs).live, heir, p)
    ensures SentOf(log + Firings(DueNow(Turned(w)), h.now + 1), p) == SentOf(log, p) + [h.now + 1]
  {
    var j := OneIsDue(w, h, id, p);
    CollectIsQuiet(w, h, id, p);
    heir := HeirIsAlone(Collect(Turned(w)), DueNow(Turned(w)), tickMs, j, p);
    LogGains(log, DueNow(Turned(w)), h.now + 1, j, p);
  }

  lemma OneIsDue(w: Wheel, h: History, id: nat, p: Item -> bool) returns (j: nat)
    requires Sound(w, h) && id in DueSet(w, h) && Alone(w.live, id, p)
    ensures FiresAlone(DueNow(Turned(w)), j, p) && DueNow(Turned(w))[j].1 == w.live[id].item
  {
    AloneIff(w.live, id, p);
    DueNowIsDueSet(w, h);
    DueNowIsDistinct(w, h);
    var fired := DueNow(Turned(w));
    j :| 0 <= j < |fired| && fired[j].0 == id;
    forall i | 0 <= i < |fired| && i != j ensures !p(fired[i].1) { assert fired[i].0 != fired[j].0; }
  }

  lemma CollectIsQuiet(w: Wheel, h: History, id: nat, p: Item -> bool)
    requires Sound(w, h) && id in DueSet(w, h) && Alone(w.live, id, p)
    ensures Quiet(Collect(Turned(w)).live, p)
  {
    AloneIff(w.live, id, p);
    forall k | k in Collect(Turned(w)).live ensures !p(Collect(Turned(w)).live[k].item) { CollectedLive(w, h, k); }
  }

  /** Since the timer was added, its message was sent exactly at the beats. */
  ghost predicate OnBeat(log: seq<Firing>, base: seq<nat>, beats: seq<nat>, p: Item -> bool) { SentOf(log, p) == base + beats }

  lemma OneMoreBeat(log: seq<Firing>, log': seq<Firing>, base: seq<nat>, beats: seq<nat>, beats': seq<nat>, t: nat, p: Item -> bool)
    requires OnBeat(log, base, beats, p) && SentOf(log', p) == SentOf(log, p) + [t] && beats' == beats + [t]
    ensures OnBeat(log', base, beats', p)
  {
    Reassociate(base, beats, [t]);
  }

  /** The tick at which the lone timer is due: it alone sends the message and its heir is alone again. */
  lemma TickOnBeat(w: Wheel, h: History, log: seq<Firing>, b: Rhythm, id: nat, base: seq<nat>, p: Item -> bool) returns (heir: nat)
    requires Sound(w, h) && Steady(b) && Turn(w, h, b, id) && NextDue(b, h.now) == h.now + 1 && p(b.x) && Alone(w.live, id, p)
    requires OnBeat(log, base, Played(b, h.now), p)
    ensures Turn(Tick(w, b.tickMs), AfterTick(w, h, b.tickMs), b, heir)
    ensures Alone(Tick(w, b.tickMs).live, heir, p) && AfterTick(w, h, b.tickMs).now == h.now + 1
    ensures OnBeat(log + Firings(DueNow(Turned(w)), h.now + 1), base, Played(b, h.now + 1), p)
  {
    var j, other;
    heir, j := TickTurns(w, h, b, id);
    other := TickDueAlone(w, h, log, b.tickMs, id, p);
    AloneIff(Tick(w, b.tickMs).live, other, p);
    assert heir == other;
    OneMoreBeat(log, log + Firings(DueNow(Turned(w)), h.now + 1), base, Played(b, h.now), Played(b, h.now + 1), h.now + 1, p);
  }

  lemma OtherStepAlone(s: State, step: Step, tickMs: nat, id: nat, x: Item, due: nat, p: Item -> bool)
    requires Sound(s.w, s.h) && tickMs > 0 && Waits(s.w, s.h, id, x, due) && Alone(s.w.live, id, p)
    requires NotAdded([step], p, tickMs) && !step.TickOnce? && step != CancelUser(x.user)
    ensures Alone(Next(s, step, tickMs).w.live, id, p)
  {
    assert [step][0] == step;
    assert Pending(s.w, s.h, id) && Accounted(s.w, s.h, id);
    if step.CancelUser? { CancelKeeps(s.w, s.h, step.user); }
    AloneIff(s.w.live, id, p);
    AloneIff(Next(s, step, tickMs).w.live, id, p);
  }

  lemma StepAlone(s: State, step: Step, tickMs: nat, id: nat, x: Item, due: nat, p: Item -> bool)
    requires Sound(s.w, s.h) && tickMs > 0 && Waits(s.w, s.h, id, x, due) && Alone(s.w.live, id, p)
    requires NotAdded([step], p, tickMs) && !(step.TickOnce? && due == s.h.now + 1) && step != CancelUser(x.user)
    ensures var s' := Next(s, step, tickMs); Alone(s'.w.live, id, p) && SentOf(s'.log, p) == SentOf(s.log, p)
  {
    assert [step][0] == step;
    if step.TickOnce? { TickAlone(s.w, s.h, s.log, tickMs, id, p); } else { OtherStepAlone(s, step, tickMs, id, x, due, p); }
  }

  /** One step of a run in which the timer is the only one to send its message. */
  lemma StepOnBeat(s: State, step: Step, b: Rhythm, id: nat, base: seq<nat>, p: Item -> bool) returns (id': nat)
    requires Reachable(s, b.tickMs) && Steady(b) && Turn(s.w, s.h, b, id) && step != CancelUser(b.x.user)
    requires p(b.x) && Alone(s.w.live, id, p) && NotAdded([step], p, b.tickMs) && OnBeat(s.log, base, Played(b, s.h.now), p)
    ensures var s' := Next(s, step, b.tickMs);
            Turn(s'.w, s'.h, b, id') && Alone(s'.w.live, id', p) && OnBeat(s'.log, base, Played(b, s'.h.now), p)
  {
    id' := id;
    if step.TickOnce? && NextDue(b, s.h.now) == s.h.now + 1 {
      ReachableIsSound(s, b.tickMs);
      id' := DueOnBeat(s, b, id, base, p);
    } else {
      StepKeepsBeat(s, step, b, id, base, p);
    }
  }

  lemma DueOnBeat(s: State, b: Rhythm, id: nat, base: seq<nat>, p: Item -> bool) returns (heir: nat)
    requires Sound(s.w, s.h) && Steady(b) && Turn(s.w, s.h, b, id) && NextDue(b, s.h.now) == s.h.now + 1 && p(b.x) && Alone(s.w.live, id, p)
    requires OnBeat(s.log, base, Played(b, s.h.now), p)
    ensures var s' := Next(s, TickOnce, b.tickMs);
            Turn(s'.w, s'.h, b, heir) && Alone(s'.w.live, heir, p) && OnBeat(s'.log, base, Played(b, s'.h.now), p)
  {
    heir := TickOnBeat(s.w, s.h, s.log, b, id, base, p);
  }

  lemma StepKeepsBeat(s: State, step: Step, b: Rhythm, id: nat, base: seq<nat>, p: Item -> bool)
    requires Reachable(s, b.tickMs) && Steady(b) && Turn(s.w, s.h, b, id) && step != CancelUser(b.x.user)
    requires Alone(s.w.live, id, p) && NotAdded([step], p, b.tickMs) && OnBeat(s.log, base, Played(b, s.h.now), p)
    requires !(step.TickOnce? && NextDue(b, s.h.now) == s.h.now + 1)
    ensures var s' := Next(s, step, b.tickMs);
            Turn(s'.w, s'.h, b, id) && Alone(s'.w.live, id, p) && OnBeat(s'.log, base, Played(b, s'.h.now), p)
  {
    ReachableIsSound(s, b.tickMs);
    StepWaits(s, step, b, id);
    StepAlone(s, step, b.tickMs, id, b.x, NextDue(b, s.h.now), p);
  }

  lemma {:induction false} RunOnBeat(s: State, steps: seq<Step>, b: Rhythm, id: nat, base: seq<nat>, p: Item -> bool)
    requires Reachable(s, b.tickMs) && Steady(b) && Turn(s.w, s.h, b, id) && CancelUser(b.x.user) !in steps
    requires p(b.x) && Alone(s.w.live, id, p) && NotAdded(steps, p, b.tickMs) && OnBeat(s.log, base, Played(b, s.h.now), p)
    ensures var r := Run(s, steps, b.tickMs); OnBeat(r.log, base, Played(b, r.h.now), p)
    decreases |steps|
  {
    if steps != [] {
      NextIsReachable(s, steps[0], b.tickMs);
      var id' := StepOnBeat(s, steps[0], b, id, base, p);
      RunOnBeat(Next(s, steps[0], b.tickMs), steps[1..], b, id', base, p);
    }
  }

  lemma AddedIsAlone(s: State, item: Item, tickMs: nat, p: Item -> bool)
    requires Shaped(s.w) && tickMs > 0 && Quiet(s.w.live, p) && p(Clamped(item, tickMs))
    ensures Alone(Next(s, Add(item), tickMs).w.live, s.w.nextId, p)
  {
    AloneIff(Next(s, Add(item), tickMs).w.live, s.w.nextId, p);
  }

  /** On every run: a message that one repeating timer alone sends goes out at the beats of that timer,
      once each, and at no other tick. */
  lemma LoneTimerSendsOncePerPeriod(n: nat, tickMs: nat, before: seq<Step>, item: Item, after: seq<Step>, p: Item -> bool)
    requires n > 1 && tickMs > 0 && item.repeating && CancelUser(item.user) !in after
    requires p(Clamped(item, tickMs)) && Quiet(Run(Empty(n), before, tickMs).w.live, p) && NotAdded(after, p, tickMs)
    ensures var s := Run(Empty(n), before, tickMs);
            var r, b := Run(Next(s, Add(item), tickMs), after, tickMs), RhythmOf(item, s.h.now, n, tickMs);
            SentOf(r.log, p) == SentOf(s.log, p) + Played(b, r.h.now)
  {
    var s := Run(Empty(n), before, tickMs);
    var b := RhythmOf(item, s.h.now, n, tickMs);
    AddedTakesTurn(s, item, tickMs);
    AddedIsAlone(s, item, tickMs, p);
    assert SentOf(s.log, p) + [] == SentOf(s.log, p);
    RunOnBeat(Next(s, Add(item), tickMs), after, b, s.w.nextId, SentOf(s.log, p), p);
  }
}
