/** The hashed timer wheel: slots, left rounds, lazy cancellation and the clock that drives it. */
module TimerWheel {

  const MAX_CATCHUP: nat := 5

  datatype Item = Item(user: nat, owner: nat, interval: nat, repeating: bool, payload: nat)

  datatype LiveTimer = LiveTimer(left: nat, item: Item)

  /** The history of one inserted timer: the wheel tick of its insertion and its length in ticks. */
  datatype Birth = Birth(at: nat, ticks: nat, user: nat)

  datatype Firing = Firing(id: nat, tick: nat, item: Item)

  // Arithmetic of the wheel.

  function CeilDiv(a: nat, b: nat): nat
    requires b > 0
  {
    (a + b - 1) / b
  }

  /** A delay in ticks, rounded up, at least one. */
  function TicksFor(delay: nat, tickMs: nat): (t: nat)
    requires tickMs > 0
    ensures t > 0 && (t - 1) * tickMs < (if delay < tickMs then tickMs else delay) <= t * tickMs
  {
    var d := if delay < tickMs then tickMs else delay;
    CeilDivBounds(d, tickMs);
    CeilDiv(d, tickMs)
  }

  lemma CeilDivBounds(a: nat, b: nat)
    requires a > 0 && b > 0
    ensures var t := CeilDiv(a, b); t > 0 && (t - 1) * b < a <= t * b
  {
    var t := CeilDiv(a, b);
    assert a + b - 1 == t * b + (a + b - 1) % b;
    assert (t - 1) * b == t * b - b;
  }

  /** The wheel tick at which a timer is due: a whole number of revolutions waits one more. */
  function DueOf(b: Birth, slots: nat): nat
    requires slots > 1
  {
    b.at + b.ticks + if b.ticks % slots == 0 then slots else 0
  }

  function SlotOf(due: nat, slots: nat): (s: nat)
    requires slots > 1
    ensures s < slots
  {
    due % slots
  }

  /** Revolutions still to go once the next visit of the slot is not the last. */
  function LeftOf(due: nat, now: nat, slots: nat): nat
    requires slots > 1 && now < due
  {
    (due - now - 1) / slots
  }

  lemma DivUnique(a: int, b: int, q: int, r: int)
    requires b > 0 && a == q * b + r && 0 <= r < b
    ensures a / b == q && a % b == r
  {
    var d := a / b - q;
    assert a == (a / b) * b + a % b;
    assert d * b == r - a % b by { assert d * b == (a / b) * b - q * b; }
    assert d >= 1 ==> d * b >= b;
    assert d <= -1 ==> d * b <= -b;
  }

  /** Where an inserted timer goes is where it is due, with the rounds it has to wait. */
  lemma InsertArithmetic(now: nat, ticks: nat, user: nat, slots: nat)
    requires slots > 1 && ticks > 0
    ensures var due := DueOf(Birth(now, ticks, user), slots);
            && now < due && SlotOf(due, slots) == (now % slots + ticks % slots) % slots
            && LeftOf(due, now, slots) == ticks / slots
  {
    var due := DueOf(Birth(now, ticks, user), slots);
    var q, r := ticks / slots, ticks % slots;
    assert ticks == q * slots + r;
    if r == 0 {
      DivUnique(due - now - 1, slots, q, slots - 1);
    } else {
      DivUnique(due - now - 1, slots, q, r - 1);
    }
    ModSum(now, ticks, slots);
    if r == 0 { ModShift(now + ticks, slots); }
  }

  lemma ModSum(a: nat, b: nat, m: nat)
    requires m > 0
    ensures (a + b) % m == (a % m + b % m) % m
  {
    var s := a % m + b % m;
    assert a + b == (a / m + b / m) * m + s by {
      assert a == (a / m) * m + a % m && b == (b / m) * m + b % m;
      assert (a / m + b / m) * m == (a / m) * m + (b / m) * m;
    }
    var k := a / m + b / m;
    assert s == (s / m) * m + s % m;
    assert (k + s / m) * m == k * m + (s / m) * m;
    DivUnique(a + b, m, k + s / m, s % m);
  }

  lemma ModShift(a: nat, m: nat)
    requires m > 0
    ensures (a + m) % m == a % m
  {
    assert a == (a / m) * m + a % m;
    assert (a / m + 1) * m == (a / m) * m + m;
    DivUnique(a + m, m, a / m + 1, a % m);
  }

  /** One tick on: in the slot now reached a timer is due or loses a round; elsewhere nothing changes. */
  lemma TickArithmetic(due: nat, now: nat, slots: nat)
    requires slots > 1 && now < due
    ensures SlotOf(due, slots) == SlotOf(now + 1, slots) ==>
              && (LeftOf(due, now, slots) == 0 <==> due == now + 1)
              && (due > now + 1 ==> LeftOf(due, now + 1, slots) == LeftOf(due, now, slots) - 1)
    ensures SlotOf(due, slots) != SlotOf(now + 1, slots) ==>
              due > now + 1 && LeftOf(due, now + 1, slots) == LeftOf(due, now, slots)
  {
    var gap := due - now - 1;
    var q, r := gap / slots, gap % slots;
    assert gap == q * slots + r;
    ModSum(now + 1, gap, slots);
    var c := (now + 1) % slots;
    if r == 0 {
      assert due % slots == c by { DivUnique(c + 0, slots, 0, c); }
      if q > 0 {
        assert (q - 1) * slots == q * slots - slots;
        DivUnique(gap - 1, slots, q - 1, slots - 1);
      }
    } else {
      DivUnique(gap - 1, slots, q, r - 1);
      if c + r < slots { DivUnique(c + r, slots, 0, c + r); } else { DivUnique(c + r, slots, 1, c + r - slots); }
      assert due % slots != c;
    }
    if q == 0 && r == 0 { assert q * slots == 0; }
  }

  // The wheel as a value.

  datatype Wheel = Wheel(slots: seq<seq<nat>>, live: map<nat, LiveTimer>, byUser: map<nat, seq<nat>>, nextId: nat, cur: nat)

  predicate Shaped(w: Wheel) { |w.slots| > 1 && w.cur < |w.slots| }

  function IdsOf(byUser: map<nat, seq<nat>>, user: nat): seq<nat> {
    if user in byUser then byUser[user] else []
  }

  function Push(byUser: map<nat, seq<nat>>, user: nat, id: nat): map<nat, seq<nat>> {
    byUser[user := IdsOf(byUser, user) + [id]]
  }

  /** Puts a timer into the slot its delay points at, with the revolutions it has to sit out. */
  function Insert(w: Wheel, id: nat, item: Item, ticks: nat): Wheel
    requires Shaped(w)
  {
    var slot := (w.cur + ticks % |w.slots|) % |w.slots|;
    w.(live := w.live[id := LiveTimer(ticks / |w.slots|, item)], slots := w.slots[slot := w.slots[slot] + [id]])
  }

  /** A new instance of a timer: a fresh internal id, registered under the user's id. */
  function Launch(w: Wheel, item: Item, ticks: nat): Wheel
    requires Shaped(w)
  {
    Insert(w.(byUser := Push(w.byUser, item.user, w.nextId), nextId := w.nextId + 1), w.nextId, item, ticks)
  }

  function Cancel(w: Wheel, user: nat): Wheel {
    if user !in w.byUser then w
    else w.(live := map id | id in w.live && id !in w.byUser[user] :: w.live[id], byUser := w.byUser - {user})
  }

  /** The ids of a bucket that are due, and those that stay for another revolution. */
  function Due(bucket: seq<nat>, live: map<nat, LiveTimer>): seq<nat>
    decreases |bucket|
  {
    if bucket == [] then []
    else (if bucket[0] in live && live[bucket[0]].left == 0 then [bucket[0]] else []) + Due(bucket[1..], live)
  }

  function Kept(bucket: seq<nat>, live: map<nat, LiveTimer>): seq<nat>
    decreases |bucket|
  {
    if bucket == [] then []
    else (if bucket[0] in live && live[bucket[0]].left > 0 then [bucket[0]] else []) + Kept(bucket[1..], live)
  }

  function Visited(bucket: seq<nat>, live: map<nat, LiveTimer>): map<nat, LiveTimer> {
    map id | id in live && !(id in bucket && live[id].left == 0) ::
      if id in bucket then live[id].(left := live[id].left - 1) else live[id]
  }

  function Collect(w: Wheel): Wheel
    requires Shaped(w)
  {
    var bucket := w.slots[w.cur];
    w.(slots := w.slots[w.cur := Kept(bucket, w.live)], live := Visited(bucket, w.live))
  }

  function Without(ids: seq<nat>, id: nat): seq<nat>
    decreases |ids|
  {
    if ids == [] then [] else (if ids[0] == id then [] else [ids[0]]) + Without(ids[1..], id)
  }

  /** After a timer fired: a repeating one starts over, another is forgotten by its user. */
  function Fire(w: Wheel, id: nat, item: Item, tickMs: nat): Wheel
    requires Shaped(w) && tickMs > 0
  {
    if item.repeating then Launch(w, item, TicksFor(item.interval, tickMs))
    else if item.user !in w.byUser then w
    else
      var left := Without(w.byUser[item.user], id);
      w.(byUser := if left == [] then w.byUser - {item.user} else w.byUser[item.user := left])
  }

  function FireAll(w: Wheel, fired: seq<(nat, Item)>, tickMs: nat): (r: Wheel)
    requires Shaped(w) && tickMs > 0
    ensures Shaped(r)
    decreases |fired|
  {
    if fired == [] then w else FireAll(Fire(w, fired[0].0, fired[0].1, tickMs), fired[1..], tickMs)
  }

  function Items(ids: seq<nat>, live: map<nat, LiveTimer>): seq<(nat, Item)>
    requires forall i :: 0 <= i < |ids| ==> ids[i] in live
  {
    seq(|ids|, i requires 0 <= i < |ids| => (ids[i], live[ids[i]].item))
  }

  lemma DueIsLive(bucket: seq<nat>, live: map<nat, LiveTimer>)
    ensures forall i :: 0 <= i < |Due(bucket, live)| ==> Due(bucket, live)[i] in live
    decreases |bucket|
  {
    if bucket != [] { DueIsLive(bucket[1..], live); }
  }

  function Turned(w: Wheel): (r: Wheel)
    requires Shaped(w)
    ensures Shaped(r)
  {
    w.(cur := (w.cur + 1) % |w.slots|)
  }

  function DueNow(w: Wheel): seq<(nat, Item)>
    requires Shaped(w)
  {
    DueIsLive(w.slots[w.cur], w.live);
    Items(Due(w.slots[w.cur], w.live), w.live)
  }

  function FiredItems(fired: seq<(nat, Item)>): seq<Item> {
    seq(|fired|, i requires 0 <= i < |fired| => fired[i].1)
  }

  /** One tick of the wheel. */
  function Tick(w: Wheel, tickMs: nat): (r: Wheel)
    requires Shaped(w) && tickMs > 0
    ensures Shaped(r)
  {
    FireAll(Collect(Turned(w)), DueNow(Turned(w)), tickMs)
  }

  // What the wheel guarantees.

  /** now counts wheel ticks; born, fired and cancelled record every timer ever inserted. */
  datatype History = History(now: nat, born: map<nat, Birth>, fired: map<nat, nat>, cancelled: set<nat>)

  predicate Pending(w: Wheel, h: History, id: nat)
    requires |w.slots| > 1 && id in w.live
  {
    && id in h.born && id !in h.fired && id !in h.cancelled && h.born[id].user == w.live[id].item.user
    && var due := DueOf(h.born[id], |w.slots|);
       && h.now < due && w.live[id].left == LeftOf(due, h.now, |w.slots|)
       && id in w.slots[SlotOf(due, |w.slots|)]
  }

  /** A live timer is registered under its user's id. */
  predicate Indexed(w: Wheel, id: nat)
    requires id in w.live
  {
    id in IdsOf(w.byUser, w.live[id].item.user)
  }

  /** A slot holds each id once, and a live one only if it is due there. */
  ghost predicate SlotOk(w: Wheel, h: History, s: nat)
    requires |w.slots| > 1 && s < |w.slots|
  {
    && (forall j, k :: 0 <= j < k < |w.slots[s]| ==> w.slots[s][j] != w.slots[s][k])
    && (forall k :: 0 <= k < |w.slots[s]| ==> w.slots[s][k] < w.nextId)
    && (forall id :: id in w.slots[s] && id in w.live && id in h.born ==> SlotOf(DueOf(h.born[id], |w.slots|), |w.slots|) == s)
  }

  /** A user's list names only that user's timers, though old ones may linger in it. */
  ghost predicate ListOk(w: Wheel, h: History, user: nat) {
    forall id :: id in IdsOf(w.byUser, user) ==> id in h.born && h.born[id].user == user
  }

  /** Every timer ever inserted is live, fired at exactly its due tick, or cancelled. */
  predicate Accounted(w: Wheel, h: History, id: nat)
    requires |w.slots| > 1 && id in h.born
  {
    && id < w.nextId
    && (id in w.live || id in h.fired || id in h.cancelled)
    && (id in h.fired ==> h.fired[id] == DueOf(h.born[id], |w.slots|) <= h.now && id !in w.live)
    && (id in h.cancelled ==> id !in w.live && id !in h.fired)
  }

  ghost predicate Sound(w: Wheel, h: History) {
    && Shaped(w) && w.cur == SlotOf(h.now, |w.slots|)
    && h.fired.Keys <= h.born.Keys && h.cancelled <= h.born.Keys
    && (forall id <- w.live :: Pending(w, h, id) && Indexed(w, id))
    && (forall s: nat :: s < |w.slots| ==> SlotOk(w, h, s))
    && (forall id <- h.born :: Accounted(w, h, id))
    && (forall user: nat :: ListOk(w, h, user))
  }

  /** The slots only gained ids. */
  ghost predicate Grown(w: Wheel, w': Wheel) {
    |w.slots| == |w'.slots| && forall s: nat, id :: s < |w.slots| && id in w.slots[s] ==> id in w'.slots[s]
  }

  lemma PendingStays(w: Wheel, h: History, w': Wheel, h': History, id: nat)
    requires |w.slots| > 1 && Grown(w, w') && id in w.live && id in w'.live && w'.live[id] == w.live[id]
    requires Pending(w, h, id) && h'.now == h.now && id in h'.born && h'.born[id] == h.born[id]
    requires id !in h'.fired && id !in h'.cancelled
    ensures Pending(w', h', id)
  {
  }

  lemma NextIdIsNew(w: Wheel, h: History)
    requires Sound(w, h)
    ensures w.nextId !in h.born && w.nextId !in w.live && w.nextId !in h.fired && w.nextId !in h.cancelled
    ensures forall s: nat :: s < |w.slots| ==> w.nextId !in w.slots[s]
  {
    forall id | id in h.born ensures id < w.nextId { assert Accounted(w, h, id); }
    forall id | id in w.live ensures id in h.born { assert Pending(w, h, id); }
    forall s: nat | s < |w.slots| ensures w.nextId !in w.slots[s] {
      assert SlotOk(w, h, s);
    }
  }

  lemma LaunchedSlots(w: Wheel, h: History, item: Item, ticks: nat)
    requires Sound(w, h) && ticks > 0
    ensures var slot := SlotOf(DueOf(Birth(h.now, ticks, item.user), |w.slots|), |w.slots|);
            Launch(w, item, ticks).slots == w.slots[slot := w.slots[slot] + [w.nextId]]
    ensures Grown(w, Launch(w, item, ticks))
  {
    InsertArithmetic(h.now, ticks, item.user, |w.slots|);
  }

  lemma LaunchedSlotOk(w: Wheel, h: History, item: Item, ticks: nat, s: nat)
    requires Sound(w, h) && ticks > 0 && s < |w.slots|
    ensures SlotOk(Launch(w, item, ticks), h.(born := h.born[w.nextId := Birth(h.now, ticks, item.user)]), s)
  {
    NextIdIsNew(w, h);
    LaunchedSlots(w, h, item, ticks);
    assert SlotOk(w, h, s);
  }

  lemma LaunchedPending(w: Wheel, h: History, item: Item, ticks: nat, k: nat)
    requires Sound(w, h) && ticks > 0 && k in Launch(w, item, ticks).live
    ensures var w', h' := Launch(w, item, ticks), h.(born := h.born[w.nextId := Birth(h.now, ticks, item.user)]);
            Pending(w', h', k) && Indexed(w', k)
  {
    var w', h' := Launch(w, item, ticks), h.(born := h.born[w.nextId := Birth(h.now, ticks, item.user)]);
    NextIdIsNew(w, h);
    LaunchedSlots(w, h, item, ticks);
    if k == w.nextId {
      InsertArithmetic(h.now, ticks, item.user, |w.slots|);
    } else {
      assert Pending(w, h, k) && Indexed(w, k);
      PendingStays(w, h, w', h', k);
    }
  }

  /** Inserting: due exactly ticks wheel ticks from now, or one revolution later when the delay is a
      whole number of revolutions. */
  lemma LaunchKeeps(w: Wheel, h: History, item: Item, ticks: nat)
    requires Sound(w, h) && ticks > 0
    ensures Sound(Launch(w, item, ticks), h.(born := h.born[w.nextId := Birth(h.now, ticks, item.user)]))
  {
    var w', h' := Launch(w, item, ticks), h.(born := h.born[w.nextId := Birth(h.now, ticks, item.user)]);
    forall k | k in w'.live ensures Pending(w', h', k) && Indexed(w', k) {
      LaunchedPending(w, h, item, ticks, k);
    }
    forall s: nat | s < |w.slots| ensures SlotOk(w', h', s) {
      LaunchedSlotOk(w, h, item, ticks, s);
    }
    NextIdIsNew(w, h);
    forall k | k in h'.born ensures Accounted(w', h', k) {
      if k != w.nextId { assert Accounted(w, h, k); }
    }
    forall user: nat ensures ListOk(w', h', user) { assert ListOk(w, h, user); }
  }

  /** The live timers lost exactly those of one user. */
  predicate LostUser(live: map<nat, LiveTimer>, live': map<nat, LiveTimer>, user: nat) {
    && live'.Keys == live.Keys - (set id | id in live && live[id].item.user == user)
    && forall id <- live' :: live'[id] == live[id]
  }

  /** Cancelling: none of the user's timers is live any more, and no one else's is touched. */
  lemma CancelKeeps(w: Wheel, h: History, user: nat)
    requires Sound(w, h)
    ensures Sound(Cancel(w, user), h.(cancelled := h.cancelled + (w.live.Keys - Cancel(w, user).live.Keys)))
    ensures LostUser(w.live, Cancel(w, user).live, user)
  {
    var w' := Cancel(w, user);
    var h' := h.(cancelled := h.cancelled + (w.live.Keys - w'.live.Keys));
    forall id | id in w.live ensures Pending(w, h, id) && Indexed(w, id) {}
    assert ListOk(w, h, user);
    forall id | id in w'.live ensures Pending(w', h', id) && Indexed(w', id) {
      PendingStays(w, h, w', h', id);
    }
    forall s: nat | s < |w.slots| ensures SlotOk(w', h', s) {
      assert SlotOk(w, h, s);
    }
    forall k | k in h'.born ensures Accounted(w', h', k) {
      assert Accounted(w, h, k);
    }
    forall u: nat ensures ListOk(w', h', u) { assert ListOk(w, h, u); }
  }

  // One tick.

  lemma {:induction false} DueMembers(bucket: seq<nat>, live: map<nat, LiveTimer>, id: nat)
    ensures id in Due(bucket, live) <==> id in bucket && id in live && live[id].left == 0
    ensures id in Kept(bucket, live) <==> id in bucket && id in live && live[id].left > 0
    decreases |bucket|
  {
    if bucket != [] {
      assert id in bucket <==> id == bucket[0] || id in bucket[1..];
      DueMembers(bucket[1..], live, id);
    }
  }

  predicate NoRepeats(ids: seq<nat>) {
    forall j, k :: 0 <= j < k < |ids| ==> ids[j] != ids[k]
  }

  lemma {:induction false} KeptNoRepeats(bucket: seq<nat>, live: map<nat, LiveTimer>)
    requires NoRepeats(bucket)
    ensures NoRepeats(Kept(bucket, live))
    decreases |bucket|
  {
    if bucket != [] {
      KeptNoRepeats(bucket[1..], live);
      DueMembers(bucket[1..], live, bucket[0]);
      assert bucket[0] !in bucket[1..];
    }
  }

  lemma TurnArithmetic(now: nat, n: nat)
    requires n > 1
    ensures (now % n + 1) % n == (now + 1) % n
  {
    ModSum(now, 1, n);
    DivUnique(1, n, 0, 1);
  }

  /** The timers the tick to now + 1 makes fire. */
  function DueSet(w: Wheel, h: History): set<nat>
    requires |w.slots| > 1
  {
    set id | id in w.live && id in h.born && DueOf(h.born[id], |w.slots|) == h.now + 1
  }

  function Ticked(w: Wheel, h: History): History
    requires |w.slots| > 1
  {
    h.(now := h.now + 1, fired := h.fired + map id | id in DueSet(w, h) :: h.now + 1)
  }

  /** In the slot reached, the due timers are those without rounds left, and they are due now. */
  lemma VisitedTimer(w: Wheel, h: History, id: nat)
    requires Sound(w, h) && id in w.live
    ensures var n := |w.slots|;
            var c := SlotOf(h.now + 1, n);
            var due := DueOf(h.born[id], n);
            && (id in w.slots[c] <==> SlotOf(due, n) == c)
            && (id in w.slots[c] ==> (w.live[id].left == 0 <==> due == h.now + 1))
            && (due == h.now + 1 ==> id in w.slots[c])
            && (due > h.now + 1 ==> LeftOf(due, h.now + 1, n) == if id in w.slots[c] then w.live[id].left - 1 else w.live[id].left)
  {
    var n := |w.slots|;
    assert Pending(w, h, id);
    assert SlotOk(w, h, SlotOf(h.now + 1, n));
    TickArithmetic(DueOf(h.born[id], n), h.now, n);
  }

  lemma CollectShape(w: Wheel, h: History)
    requires Sound(w, h)
    ensures var c := SlotOf(h.now + 1, |w.slots|);
            Collect(Turned(w)) == w.(cur := c, slots := w.slots[c := Kept(w.slots[c], w.live)], live := Visited(w.slots[c], w.live))
  {
    TurnArithmetic(h.now, |w.slots|);
  }

  /** Which timers a collection leaves live, and with how many rounds. */
  lemma CollectedLive(w: Wheel, h: History, id: nat)
    requires Sound(w, h)
    ensures var w', n := Collect(Turned(w)), |w.slots|;
            && (id in w'.live <==> id in w.live && id !in DueSet(w, h))
            && (id in w'.live ==>
                  var due := DueOf(h.born[id], n);
                  && due > h.now + 1 && w'.live[id] == w.live[id].(left := LeftOf(due, h.now + 1, n))
                  && id in w'.slots[SlotOf(due, n)])
  {
    var c := SlotOf(h.now + 1, |w.slots|);
    CollectShape(w, h);
    if id in w.live {
      assert Pending(w, h, id);
      VisitedTimer(w, h, id);
      DueMembers(w.slots[c], w.live, id);
    }
  }

  lemma CollectedTimer(w: Wheel, h: History, id: nat)
    requires Sound(w, h)
    ensures var w' := Collect(Turned(w));
            && (id in w'.live <==> id in w.live && id !in DueSet(w, h))
            && (id in w'.live ==> Pending(w', Ticked(w, h), id) && Indexed(w', id))
  {
    CollectedLive(w, h, id);
    if id in w.live { assert Pending(w, h, id) && Indexed(w, id); }
  }

  /** A slot that only lost ids, under a wheel that only lost live timers, is still in order. */
  lemma SlotShrinks(w: Wheel, h: History, w': Wheel, h': History, s: nat)
    requires |w.slots| == |w'.slots| > 1 && s < |w.slots| && SlotOk(w, h, s)
    requires NoRepeats(w'.slots[s]) && (forall id :: id in w'.slots[s] ==> id in w.slots[s])
    requires w'.live.Keys <= w.live.Keys && w'.nextId == w.nextId && h'.born == h.born
    ensures SlotOk(w', h', s)
  {
    forall k | 0 <= k < |w'.slots[s]| ensures w'.slots[s][k] < w'.nextId {
      assert w'.slots[s][k] in w.slots[s];
    }
  }

  lemma CollectedSlot(w: Wheel, h: History, s: nat)
    requires Sound(w, h) && s < |w.slots|
    ensures SlotOk(Collect(Turned(w)), Ticked(w, h), s)
  {
    CollectShape(w, h);
    assert SlotOk(w, h, s);
    KeptNoRepeats(w.slots[s], w.live);
    forall id ensures id in Kept(w.slots[s], w.live) ==> id in w.slots[s] {
      if id in Kept(w.slots[s], w.live) { DueMembers(w.slots[s], w.live, id); }
    }
    SlotShrinks(w, h, Collect(Turned(w)), Ticked(w, h), s);
  }

  lemma CollectKeeps(w: Wheel, h: History)
    requires Sound(w, h)
    ensures Sound(Collect(Turned(w)), Ticked(w, h))
  {
    var w', h' := Collect(Turned(w)), Ticked(w, h);
    TurnArithmetic(h.now, |w.slots|);
    forall id | id in w'.live ensures Pending(w', h', id) && Indexed(w', id) { CollectedTimer(w, h, id); }
    forall s: nat | s < |w.slots| ensures SlotOk(w', h', s) { CollectedSlot(w, h, s); }
    forall id | id in h'.born ensures Accounted(w', h', id) {
      assert Accounted(w, h, id);
      CollectedTimer(w, h, id);
    }
    forall user: nat ensures ListOk(w', h', user) { assert ListOk(w, h, user); }
  }

  /** The list of fired items is exactly the set of due timers, each with its own item. */
  lemma DueNowIsDueSet(w: Wheel, h: History)
    requires Sound(w, h)
    ensures forall i :: 0 <= i < |DueNow(Turned(w))| ==>
              var f := DueNow(Turned(w))[i]; f.0 in DueSet(w, h) && f.1 == w.live[f.0].item
    ensures forall id <- DueSet(w, h) :: exists i :: 0 <= i < |DueNow(Turned(w))| && DueNow(Turned(w))[i].0 == id
  {
    var n := |w.slots|;
    TurnArithmetic(h.now, n);
    var bucket := w.slots[SlotOf(h.now + 1, n)];
    var ids := Due(bucket, w.live);
    DueIsLive(bucket, w.live);
    forall i | 0 <= i < |ids| ensures ids[i] in DueSet(w, h) {
      DueMembers(bucket, w.live, ids[i]);
      VisitedTimer(w, h, ids[i]);
      assert Pending(w, h, ids[i]);
    }
    forall id | id in DueSet(w, h) ensures exists i :: 0 <= i < |DueNow(Turned(w))| && DueNow(Turned(w))[i].0 == id {
      VisitedTimer(w, h, id);
      DueMembers(bucket, w.live, id);
      var i :| 0 <= i < |ids| && ids[i] == id;
      assert DueNow(Turned(w))[i].0 == id;
    }
  }

  lemma {:induction false} WithoutKeeps(ids: seq<nat>, id: nat, other: nat)
    requires other != id
    ensures other in Without(ids, id) <==> other in ids
    decreases |ids|
  {
    if ids != [] {
      WithoutKeeps(ids[1..], id, other);
      assert other in ids <==> other == ids[0] || other in ids[1..];
    }
  }

  lemma ForgottenList(w: Wheel, h: History, id: nat, item: Item, tickMs: nat, user: nat)
    requires Sound(w, h) && !item.repeating && tickMs > 0
    ensures ListOk(Fire(w, id, item, tickMs), h, user)
  {
    assert ListOk(w, h, user);
    forall k | k in IdsOf(Fire(w, id, item, tickMs).byUser, user) ensures k in IdsOf(w.byUser, user) {
      if user == item.user && user in w.byUser { WithoutIsPart(w.byUser[user], id, k); }
    }
  }

  lemma {:induction false} WithoutIsPart(ids: seq<nat>, id: nat, k: nat)
    requires k in Without(ids, id)
    ensures k in ids
    decreases |ids|
  {
    if k in Without(ids[1..], id) { WithoutIsPart(ids[1..], id, k); }
  }

  /** Forgetting a timer that is no longer live loses no live one. */
  lemma ForgetKeeps(w: Wheel, h: History, id: nat, item: Item, tickMs: nat)
    requires Sound(w, h) && id !in w.live && !item.repeating && tickMs > 0
    ensures Sound(Fire(w, id, item, tickMs), h)
  {
    var w' := Fire(w, id, item, tickMs);
    forall k | k in w'.live ensures Pending(w', h, k) && Indexed(w', k) {
      assert Pending(w, h, k) && Indexed(w, k);
      WithoutKeeps(IdsOf(w.byUser, item.user), id, k);
    }
    forall s: nat | s < |w.slots| ensures SlotOk(w', h, s) { assert SlotOk(w, h, s); }
    forall k | k in h.born ensures Accounted(w', h, k) { assert Accounted(w, h, k); }
    forall user: nat ensures ListOk(w', h, user) { ForgottenList(w, h, id, item, tickMs, user); }
  }

  /** The history after the fired timers were handled: repeating ones are born again. */
  function Reborn(w: Wheel, h: History, fired: seq<(nat, Item)>, tickMs: nat): History
    requires Shaped(w) && tickMs > 0
    decreases |fired|
  {
    if fired == [] then h
    else
      var (id, item) := fired[0];
      Reborn(Fire(w, id, item, tickMs),
             if item.repeating then h.(born := h.born[w.nextId := Birth(h.now, TicksFor(item.interval, tickMs), item.user)]) else h,
             fired[1..], tickMs)
  }

  lemma {:induction false} FireAllKeeps(w: Wheel, h: History, fired: seq<(nat, Item)>, tickMs: nat)
    requires Sound(w, h) && tickMs > 0
    requires forall i :: 0 <= i < |fired| ==> fired[i].0 in h.born && fired[i].0 !in w.live
    ensures Sound(FireAll(w, fired, tickMs), Reborn(w, h, fired, tickMs))
    ensures var h' := Reborn(w, h, fired, tickMs);
            && h'.now == h.now && h'.fired == h.fired && h'.cancelled == h.cancelled
            && forall id <- h.born :: id in h'.born && h'.born[id] == h.born[id]
    decreases |fired|
  {
    if fired != [] {
      var (id, item) := fired[0];
      NextIdIsNew(w, h);
      if item.repeating {
        LaunchKeeps(w, h, item, TicksFor(item.interval, tickMs));
        FireAllKeeps(Fire(w, id, item, tickMs), h.(born := h.born[w.nextId := Birth(h.now, TicksFor(item.interval, tickMs), item.user)]), fired[1..], tickMs);
      } else {
        ForgetKeeps(w, h, id, item, tickMs);
        FireAllKeeps(Fire(w, id, item, tickMs), h, fired[1..], tickMs);
      }
    }
  }

  function AfterTick(w: Wheel, h: History, tickMs: nat): History
    requires Shaped(w) && tickMs > 0
  {
    Reborn(Collect(Turned(w)), Ticked(w, h), DueNow(Turned(w)), tickMs)
  }

  /** Nothing is forgotten: the births known before are known after. */
  ghost predicate Remembers(h: History, h': History) {
    forall id <- h.born :: id in h'.born && h'.born[id] == h.born[id]
  }

  /** A tick: exactly the timers due at it fire, none of them for the second time. */
  lemma TickKeeps(w: Wheel, h: History, tickMs: nat)
    requires Sound(w, h) && tickMs > 0
    ensures var h' := AfterTick(w, h, tickMs);
            && Sound(Tick(w, tickMs), h') && h'.now == h.now + 1 && h'.cancelled == h.cancelled && Remembers(h, h')
            && h'.fired == Ticked(w, h).fired && DueSet(w, h) !! h.fired.Keys
  {
    CollectKeeps(w, h);
    DueNowIsDueSet(w, h);
    var fired := DueNow(Turned(w));
    forall i | 0 <= i < |fired| ensures fired[i].0 in h.born && fired[i].0 !in Collect(Turned(w)).live {
      CollectedTimer(w, h, fired[i].0);
    }
    forall id | id in DueSet(w, h) ensures id !in h.fired { assert Pending(w, h, id); }
    FireAllKeeps(Collect(Turned(w)), Ticked(w, h), fired, tickMs);
  }

  /** Wheel exactness: a timer that was not cancelled has fired, at exactly its due tick, once the
      wheel is there, and is still live before. */
  lemma FiresExactlyWhenDue(w: Wheel, h: History, id: nat)
    requires Sound(w, h) && id in h.born && id !in h.cancelled
    ensures var due := DueOf(h.born[id], |w.slots|);
            && (h.now >= due <==> id in h.fired)
            && (id in h.fired ==> h.fired[id] == due && id !in w.live)
            && (h.now < due <==> id in w.live)
  {
    assert Accounted(w, h, id);
    assert id in w.live ==> Pending(w, h, id);
  }

  // The clock that drives the wheel.

  datatype Plan = Plan(ticks: nat, skipped: nat)

  /** How many ticks one round advances, and how many it gives up. */
  function PlanRound(elapsed: int, skipped: nat, advanced: nat): Plan {
    var behind := elapsed - skipped - advanced;
    if behind < 0 then Plan(0, skipped)
    else if behind > MAX_CATCHUP then Plan(MAX_CATCHUP, skipped + behind - MAX_CATCHUP)
    else Plan(behind, skipped)
  }

  /** Rounds at successive clock readings: the ticks advanced and skipped after all of them. */
  function Rounds(clock: seq<int>, skipped: nat, advanced: nat): (nat, nat)
    decreases |clock|
  {
    if clock == [] then (advanced, skipped)
    else
      var p := PlanRound(clock[0], skipped, advanced);
      Rounds(clock[1..], p.skipped, advanced + p.ticks)
  }

  /** The wheel never runs ahead of the clock, never advances more than five ticks a round, and what
      it once skipped it never makes up: it trails the clock by at least that much for good. */
  lemma {:induction false} WheelTrailsClock(clock: seq<int>, skipped: nat, advanced: nat, elapsed: int)
    requires advanced + skipped <= elapsed
    requires forall i :: 0 <= i < |clock| ==> elapsed <= clock[i]
    requires forall i, j :: 0 <= i < j < |clock| ==> clock[i] <= clock[j]
    ensures var (a, s) := Rounds(clock, skipped, advanced);
            && skipped <= s && advanced <= a <= advanced + MAX_CATCHUP * |clock|
            && a + s == if clock == [] then advanced + skipped else clock[|clock| - 1]
    decreases |clock|
  {
    if clock != [] {
      var p := PlanRound(clock[0], skipped, advanced);
      WheelTrailsClock(clock[1..], p.skipped, advanced + p.ticks, clock[0]);
    }
  }

  /** A round brings the wheel up to the clock exactly when nothing was ever skipped and it is at
      most five ticks behind. */
  lemma CaughtUpIff(elapsed: int, skipped: nat, advanced: nat)
    requires advanced + skipped <= elapsed
    ensures advanced + PlanRound(elapsed, skipped, advanced).ticks == elapsed <==> skipped == 0 && elapsed - advanced <= MAX_CATCHUP
  {
  }

  /** The clock reading before round i; rounds start with an empty wheel at elapsed tick `from`. */
  function ReadingBefore(clock: seq<int>, i: nat, from: int): int
    requires i < |clock|
  {
    if i == 0 then from else clock[i - 1]
  }

  /** No round comes more than five ticks after the one before it. */
  predicate KeepsPace(clock: seq<int>, from: int) {
    forall i :: 0 <= i < |clock| ==> clock[i] - ReadingBefore(clock, i, from) <= MAX_CATCHUP
  }

  predicate Advances(clock: seq<int>, from: int) {
    forall i :: 0 <= i < |clock| ==> ReadingBefore(clock, i, from) <= clock[i]
  }

  lemma PaceOfRest(clock: seq<int>, from: int)
    requires clock != []
    ensures KeepsPace(clock, from) <==> clock[0] - from <= MAX_CATCHUP && KeepsPace(clock[1..], clock[0])
    ensures Advances(clock, from) <==> from <= clock[0] && Advances(clock[1..], clock[0])
  {
    forall i | 0 <= i < |clock| - 1
      ensures clock[1..][i] == clock[i + 1] && ReadingBefore(clock[1..], i, clock[0]) == ReadingBefore(clock, i + 1, from)
    {
    }
    if KeepsPace(clock[1..], clock[0]) && clock[0] - from <= MAX_CATCHUP {
      forall i | 0 <= i < |clock| ensures clock[i] - ReadingBefore(clock, i, from) <= MAX_CATCHUP {
        if i > 0 { assert clock[1..][i - 1] - ReadingBefore(clock[1..], i - 1, clock[0]) <= MAX_CATCHUP; }
      }
    }
    if KeepsPace(clock, from) {
      forall i | 0 <= i < |clock| - 1 ensures clock[1..][i] - ReadingBefore(clock[1..], i, clock[0]) <= MAX_CATCHUP {
        assert clock[i + 1] - ReadingBefore(clock, i + 1, from) <= MAX_CATCHUP;
      }
    }
    if Advances(clock[1..], clock[0]) && from <= clock[0] {
      forall i | 0 <= i < |clock| ensures ReadingBefore(clock, i, from) <= clock[i] {
        if i > 0 { assert ReadingBefore(clock[1..], i - 1, clock[0]) <= clock[1..][i - 1]; }
      }
    }
    if Advances(clock, from) {
      forall i | 0 <= i < |clock| - 1 ensures ReadingBefore(clock[1..], i, clock[0]) <= clock[1..][i] {
        assert ReadingBefore(clock, i + 1, from) <= clock[i + 1];
      }
    }
  }

  /** Over any rounds: nothing more is given up exactly when every round keeps pace. */
  lemma {:induction false} NothingSkippedIff(clock: seq<int>, skipped: nat, advanced: nat)
    requires Advances(clock, advanced + skipped)
    ensures var (a, s) := Rounds(clock, skipped, advanced);
            && skipped <= s && (s == skipped <==> KeepsPace(clock, advanced + skipped))
            && a + s == if clock == [] then advanced + skipped else clock[|clock| - 1]
    decreases |clock|
  {
    if clock != [] {
      var p := PlanRound(clock[0], skipped, advanced);
      PaceOfRest(clock, advanced + skipped);
      assert advanced + p.ticks + p.skipped == clock[0];
      NothingSkippedIff(clock[1..], p.skipped, advanced + p.ticks);
    }
  }

  /** From the start of the thread: after any rounds the wheel is level with the clock exactly when no
      round ever found more than five ticks outstanding. One late round is never made up. */
  lemma LevelIff(clock: seq<int>)
    requires clock != [] && Advances(clock, 0)
    ensures Rounds(clock, 0, 0).0 == clock[|clock| - 1] <==> KeepsPace(clock, 0)
  {
    NothingSkippedIff(clock, 0, 0);
  }

  /** Ten ticks late, the wheel gives up five of them; a second later, keeping pace, it still lags five. */
  lemma SkippedTicksAreLost()
    ensures Rounds([10], 0, 0) == (5, 5)
    ensures Rounds([10, 15, 20, 25, 30], 0, 0) == (25, 5)
  {
    assert [10, 15, 20, 25, 30][1..] == [15, 20, 25, 30];
    assert [15, 20, 25, 30][1..] == [20, 25, 30] && [20, 25, 30][1..] == [25, 30] && [25, 30][1..] == [30] && [30][1..] == [];
    assert Rounds([30], 5, 20) == Rounds([], 5, 25) == (25, 5);
    assert Rounds([25, 30], 5, 15) == (25, 5);
    assert Rounds([20, 25, 30], 5, 10) == (25, 5);
    assert Rounds([15, 20, 25, 30], 5, 5) == (25, 5);
    assert [10][1..] == [];
  }

  // What the users' lists forget.

  lemma {:induction false} WithoutIs(ids: seq<nat>, id: nat, k: nat)
    ensures k in Without(ids, id) <==> k in ids && k != id
    ensures id !in ids ==> Without(ids, id) == ids
    decreases |ids|
  {
    if ids != [] { WithoutIs(ids[1..], id, k); }
  }

  /** A timer that does not repeat is taken off its user's list when it fires, and a list that is empty goes;
      nothing else changes. */
  lemma FiredIsForgotten(w: Wheel, id: nat, item: Item, tickMs: nat, k: nat)
    requires Shaped(w) && tickMs > 0 && !item.repeating
    ensures var w' := Fire(w, id, item, tickMs);
            && w' == w.(byUser := w'.byUser)
            && (k in IdsOf(w'.byUser, item.user) <==> k in IdsOf(w.byUser, item.user) && k != id)
            && (item.user in w.byUser ==> (item.user in w'.byUser <==> IdsOf(w'.byUser, item.user) != []))
            && (forall u :: u != item.user ==> IdsOf(w'.byUser, u) == IdsOf(w.byUser, u))
  {
    WithoutIs(IdsOf(w.byUser, item.user), id, k);
  }

  /** A cancelled user has no list, and exactly the timers on it are gone. */
  lemma CancelledIsForgotten(w: Wheel, user: nat, id: nat)
    ensures var w' := Cancel(w, user);
            && user !in w'.byUser && w'.slots == w.slots && w'.nextId == w.nextId
            && (id in w'.live <==> id in w.live && id !in IdsOf(w.byUser, user)) && (id in w'.live ==> w'.live[id] == w.live[id])
            && (forall u :: u != user ==> IdsOf(w'.byUser, u) == IdsOf(w.byUser, u))
  {
  }
}
