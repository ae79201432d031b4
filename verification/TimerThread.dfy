/** The timer thread's mutable wheel: commands, ticks and the clock-driven advance. */
module TimerThread {
  import opened TimerWheel
  import R = TimerRuns

  class TimerThread {
    var slots: seq<seq<nat>>
    var live: map<nat, LiveTimer>
    var byUser: map<nat, seq<nat>>
    var nextId: nat
    var cur: nat
    var advanced: nat
    var skipped: nat
    var sent: seq<Item>
    const tickMs: nat
    ghost var history: History
    ghost var log: seq<Firing>

    /** The thread as the run theorems see it. */
    ghost function Whole(): R.State
      reads this
    {
      R.State(Model(), history, log)
    }

    ghost function Model(): Wheel
      reads this
    {
      Wheel(slots, live, byUser, nextId, cur)
    }

    /** Every live timer sits in its slot and under its user; history is what really happened. */
    ghost predicate Valid()
      reads this
    {
      tickMs > 0 && Sound(Model(), history) && history.now == advanced && sent == Messages(log)
    }

    constructor (tick: nat, wheelSlots: nat)
      ensures Valid() && advanced == 0 && skipped == 0 && live == map[] && sent == []
      ensures Whole() == R.Empty(|slots|)
      ensures |slots| == (if wheelSlots > 1 then wheelSlots else 256)
      ensures tickMs == if tick < 1 then 1 else if tick > 1000 then 1000 else tick
    {
      var n := if wheelSlots > 1 then wheelSlots else 256;
      tickMs := if tick < 1 then 1 else if tick > 1000 then 1000 else tick;
      slots := seq(n, _ => []);
      live, byUser, nextId, cur, advanced, skipped, sent := map[], map[], 1, 0, 0, 0, [];
      history := History(0, map[], map[], {});
      log := [];
      new;
      assert 0 % n == 0;
    }

    method Insert(id: nat, item: Item, ticks: nat)
      requires Shaped(Model())
      modifies `slots, `live
      ensures Model() == TimerWheel.Insert(old(Model()), id, item, ticks)
    {
      var slot := (cur + ticks % |slots|) % |slots|;
      live := live[id := LiveTimer(ticks / |slots|, item)];
      slots := slots[slot := slots[slot] + [id]];
    }

    /** A new instance of a timer, due when its delay is over. */
    method Launch(item: Item)
      requires Valid()
      modifies `slots, `live, `byUser, `nextId, `history
      ensures Valid()
      ensures Model() == TimerWheel.Launch(old(Model()), item, TicksFor(item.interval, tickMs))
      ensures history == old(history).(born := old(history).born[old(nextId) := Birth(advanced, TicksFor(item.interval, tickMs), item.user)])
    {
      LaunchKeeps(Model(), history, item, TicksFor(item.interval, tickMs));
      var id := nextId;
      history := history.(born := history.born[id := Birth(advanced, TicksFor(item.interval, tickMs), item.user)]);
      byUser := Push(byUser, item.user, id);
      nextId := nextId + 1;
      Insert(id, item, TicksFor(item.interval, tickMs));
    }

    /** An ADD command: fires after its delay, rounded up to ticks; older timers of the same user id stay. */
    method DoAdd(op: Item)
      requires Valid()
      modifies `slots, `live, `byUser, `nextId, `history
      ensures Valid()
      ensures old(nextId) in history.born
      ensures history.born[old(nextId)] == Birth(advanced, TicksFor(op.interval, tickMs), op.user)
      ensures old(nextId) in live && live[old(nextId)].item.user == op.user
      ensures forall id <- old(live) :: id in live && live[id] == old(live)[id]
      ensures history.fired == old(history).fired && history.cancelled == old(history).cancelled
      ensures Whole() == R.Next(old(Whole()), R.Add(op), tickMs)
    {
      ClampedTicks(op.interval, tickMs);
      NextIdIsNew(Model(), history);
      Launch(op.(interval := if op.interval < tickMs then tickMs else op.interval));
    }

    /** A CANCEL command: no timer of this user id is live afterwards, every other one is untouched. */
    method DoCancel(user: nat)
      requires Valid()
      modifies `live, `byUser, `history
      ensures Valid()
      ensures LostUser(old(live), live, user)
      ensures history == old(history).(cancelled := old(history).cancelled + (old(live).Keys - live.Keys))
      ensures Whole() == R.Next(old(Whole()), R.CancelUser(user), tickMs)
    {
      CancelKeeps(Model(), history, user);
      history := history.(cancelled := history.cancelled + (live.Keys - Cancel(Model(), user).live.Keys));
      Erase(user);
    }

    method Erase(user: nat)
      modifies `live, `byUser
      ensures Model() == Cancel(old(Model()), user)
    {
      if user in byUser {
        var ids := byUser[user];
        byUser := byUser - {user};
        live := map id | id in live && id !in ids :: live[id];
      }
    }

    /** Takes the due timers out of the current slot; the rest lose a revolution. */
    method CollectSlot() returns (fired: seq<(nat, Item)>)
      requires Shaped(Model()) && NoRepeats(slots[cur])
      modifies `slots, `live
      ensures Model() == Collect(old(Model())) && fired == DueNow(old(Model()))
    {
      var bucket, keep, i := slots[cur], [], 0;
      ghost var was := live;
      fired := [];
      DueIsLive(bucket, was);
      assert Visited([], was) == was;
      while i < |bucket|
        invariant i <= |bucket| && live == Visited(bucket[..i], was) && keep == Kept(bucket[..i], was)
        invariant forall k :: 0 <= k < |Due(bucket[..i], was)| ==> Due(bucket[..i], was)[k] in was
        invariant fired == Items(Due(bucket[..i], was), was)
        modifies `live
      {
        OneMoreVisit(bucket, i, was);
        var id := bucket[i];
        if id in live {
          if live[id].left > 0 {
            live := live[id := live[id].(left := live[id].left - 1)];
            keep := keep + [id];
          } else {
            fired := fired + [(id, live[id].item)];
            live := live - {id};
          }
        }
        i := i + 1;
      }
      assert bucket[..i] == bucket;
      slots := slots[cur := keep];
    }

    /** A fired timer: its event goes out, a repeating one starts over, another leaves its user's list. */
    method FireOne(id: nat, item: Item)
      requires Shaped(Model()) && tickMs > 0
      modifies `slots, `live, `byUser, `nextId, `sent
      ensures Model() == Fire(old(Model()), id, item, tickMs) && sent == old(sent) + [item]
    {
      if item.repeating {
        byUser := Push(byUser, item.user, nextId);
        nextId := nextId + 1;
        Insert(nextId - 1, item, TicksFor(item.interval, tickMs));
      } else if item.user in byUser {
        var left := Without(byUser[item.user], id);
        byUser := if left == [] then byUser - {item.user} else byUser[item.user := left];
      }
      sent := sent + [item];
    }

    method FireEach(fired: seq<(nat, Item)>)
      requires Shaped(Model()) && tickMs > 0
      modifies `slots, `live, `byUser, `nextId, `sent
      ensures Model() == FireAll(old(Model()), fired, tickMs)
      ensures sent == old(sent) + FiredItems(fired)
    {
      var i := 0;
      while i < |fired|
        invariant i <= |fired| && Shaped(Model())
        invariant FireAll(old(Model()), fired, tickMs) == FireAll(Model(), fired[i..], tickMs)
        invariant sent == old(sent) + FiredItems(fired[..i])
      {
        FireOne(fired[i].0, fired[i].1);
        assert FiredItems(fired[..i + 1]) == FiredItems(fired[..i]) + [fired[i].1];
        i := i + 1;
      }
      assert fired[..i] == fired;
    }

    method TurnWheel()
      requires Shaped(Model()) && NoRepeats(Turned(Model()).slots[Turned(Model()).cur]) && tickMs > 0
      modifies `slots, `live, `byUser, `nextId, `cur, `sent
      ensures Model() == Tick(old(Model()), tickMs) && sent == old(sent) + FiredItems(DueNow(Turned(old(Model()))))
    {
      cur := (cur + 1) % |slots|;
      var fired := CollectSlot();
      FireEach(fired);
    }

    /** One tick: exactly the timers due at it fire, in slot order. */
    method AdvanceOne()
      requires Valid()
      modifies `slots, `live, `byUser, `nextId, `cur, `advanced, `sent, `history, `log
      ensures Valid() && advanced == old(advanced) + 1
      ensures Whole() == R.Next(old(Whole()), R.TickOnce, tickMs)
      ensures history == AfterTick(old(Model()), old(history), tickMs)
      ensures sent == old(sent) + FiredItems(DueNow(Turned(old(Model()))))
    {
      TickKeeps(Model(), history, tickMs);
      SlotHasNoRepeats(Model(), history);
      MessagesGrow(log, DueNow(Turned(Model())), advanced + 1);
      log := log + R.Firings(DueNow(Turned(Model())), advanced + 1);
      history := AfterTick(Model(), history, tickMs);
      advanced := advanced + 1;
      TurnWheel();
    }

    /** One round of the loop at a clock reading: at most five ticks, the rest is given up. */
    method Round(elapsed: int)
      requires Valid()
      modifies this
      ensures Valid()
      ensures var p := PlanRound(elapsed, old(skipped), old(advanced)); advanced == old(advanced) + p.ticks && skipped == p.skipped
      ensures advanced + skipped <= elapsed || (advanced == old(advanced) && skipped == old(skipped))
    {
      var n := elapsed - skipped - advanced;
      if n < 0 { n := 0; }
      if n > MAX_CATCHUP {
        skipped := skipped + n - MAX_CATCHUP;
        n := MAX_CATCHUP;
      }
      ghost var lost := skipped;
      var i := 0;
      while i < n
        invariant 0 <= i <= n && Valid() && advanced == old(advanced) + i && skipped == lost
      {
        AdvanceOne();
        i := i + 1;
      }
    }
  }

  /** The messages of a log, without their ticks. */
  function Messages(log: seq<Firing>): seq<Item> { seq(|log|, i requires 0 <= i < |log| => log[i].item) }

  lemma MessagesGrow(log: seq<Firing>, fired: seq<(nat, Item)>, tick: nat)
    ensures Messages(log + R.Firings(fired, tick)) == Messages(log) + FiredItems(fired)
  {
  }

  lemma SlotHasNoRepeats(w: Wheel, h: History)
    requires Sound(w, h)
    ensures NoRepeats(Turned(w).slots[Turned(w).cur])
  {
    assert SlotOk(w, h, Turned(w).cur);
  }

  lemma ClampedTicks(delay: nat, tickMs: nat)
    requires tickMs > 0
    ensures TicksFor(if delay < tickMs then tickMs else delay, tickMs) == TicksFor(delay, tickMs)
  {
  }

  lemma {:induction false} DueGrows(ids: seq<nat>, id: nat, live: map<nat, LiveTimer>)
    ensures Due(ids + [id], live) == Due(ids, live) + if id in live && live[id].left == 0 then [id] else []
    ensures Kept(ids + [id], live) == Kept(ids, live) + if id in live && live[id].left > 0 then [id] else []
    decreases |ids|
  {
    if ids != [] {
      DueGrows(ids[1..], id, live);
      assert (ids + [id])[1..] == ids[1..] + [id];
    }
  }

  lemma VisitedGrows(ids: seq<nat>, id: nat, was: map<nat, LiveTimer>)
    requires id !in ids
    ensures var now := Visited(ids, was);
            && (id in now <==> id in was) && (id in was ==> now[id] == was[id])
            && Visited(ids + [id], was) == (if id !in was then now else if was[id].left == 0 then now - {id}
                                            else now[id := was[id].(left := was[id].left - 1)])
  {
    assert forall k :: k in ids + [id] <==> k in ids || k == id;
  }

  /** Visiting one more id of a bucket without repeats. */
  lemma OneMoreVisit(bucket: seq<nat>, i: nat, was: map<nat, LiveTimer>)
    requires i < |bucket| && NoRepeats(bucket)
    ensures var id, now := bucket[i], Visited(bucket[..i], was);
            && Due(bucket[..i + 1], was) == Due(bucket[..i], was) + (if id in was && was[id].left == 0 then [id] else [])
            && Kept(bucket[..i + 1], was) == Kept(bucket[..i], was) + (if id in was && was[id].left > 0 then [id] else [])
            && (id in now <==> id in was) && (id in was ==> now[id] == was[id])
            && Visited(bucket[..i + 1], was) == (if id !in was then now else if was[id].left == 0 then now - {id}
                                                 else now[id := was[id].(left := was[id].left - 1)])
  {
    assert bucket[..i + 1] == bucket[..i] + [bucket[i]];
    DueGrows(bucket[..i], bucket[i], was);
    VisitedGrows(bucket[..i], bucket[i], was);
  }
}
