/** A player's bag: one stack per item id, each in its own slot. */
module Bags {
  import opened Common
  import opened Database
  import opened Transactions
  import opened PlayerSnapshot
  import opened SaveTheorems

  datatype BagState = BagState(items: map<int, ItemRow>, capacity: nat, nextSlot: nat)

  predicate StackAt(b: BagState, id: int)
    requires id in b.items
  {
    var r := b.items[id];
    r.id == id && 0 < id <= MAX_U32 && 0 < r.quantity <= MAX_U16 && 0 <= r.slot <= MAX_U16 && r.slot < b.nextSlot
  }

  /** What every operation of the bag keeps. */
  ghost predicate SoundBag(b: BagState) {
    && 0 < b.capacity <= MAX_SLOTS && b.nextSlot <= MAX_SLOTS && |b.items| <= b.capacity
    && (forall id <- b.items :: StackAt(b, id))
    && (forall i, j :: i in b.items && j in b.items && b.items[i].slot == b.items[j].slot ==> i == j)
  }

  function Add(b: BagState, id: nat, n: nat): Option<BagState> {
    if id == 0 || n == 0 then None
    else if id in b.items then
      if b.items[id].quantity + n > MAX_U16 then None
      else Some(b.(items := b.items[id := b.items[id].(quantity := b.items[id].quantity + n)]))
    else if |b.items| >= b.capacity || b.nextSlot >= MAX_SLOTS then None
    else Some(b.(items := b.items[id := ItemRow(id, b.nextSlot, n)], nextSlot := b.nextSlot + 1))
  }

  function Reduce(b: BagState, id: nat, n: nat): Option<BagState> {
    if id == 0 || n == 0 || id !in b.items || b.items[id].quantity < n then None
    else if b.items[id].quantity == n then Some(b.(items := b.items - {id}))
    else Some(b.(items := b.items[id := b.items[id].(quantity := b.items[id].quantity - n)]))
  }

  function CountOf(b: BagState, id: nat): int {
    if id in b.items then b.items[id].quantity else 0
  }

  lemma AddKeeps(b: BagState, id: nat, n: nat)
    requires SoundBag(b) && id <= MAX_U32 && n <= MAX_U16
    ensures Add(b, id, n).Some? ==> SoundBag(Add(b, id, n).value)
  {
    var r := Add(b, id, n);
    if r.Some? {
      forall k | k in r.value.items ensures StackAt(r.value, k) {
        if k in b.items { assert StackAt(b, k); }
      }
    }
  }

  lemma ReduceKeeps(b: BagState, id: nat, n: nat)
    requires SoundBag(b)
    ensures Reduce(b, id, n).Some? ==> SoundBag(Reduce(b, id, n).value)
  {
  }

  /** Every stack but that of the item is as it was; the item's own stays in its slot. */
  ghost predicate OthersStay(b: BagState, b': BagState, id: nat) {
    && b'.capacity == b.capacity && b'.items.Keys - {id} == b.items.Keys - {id}
    && (forall k <- b.items :: k != id ==> k in b'.items && b'.items[k] == b.items[k])
    && (id in b.items && id in b'.items ==> b'.items[id].slot == b.items[id].slot)
  }

  /** Items are added, all or none, exactly when the stack stays within 65535 or a new stack finds room and a slot never used. */
  lemma AddOutcome(b: BagState, id: nat, n: nat)
    requires SoundBag(b)
    ensures Add(b, id, n).Some? <==>
              && id != 0 && n != 0
              && (if CountOf(b, id) > 0 then CountOf(b, id) + n <= 65535 else |b.items| < b.capacity && b.nextSlot < 65536)
    ensures Add(b, id, n).Some? ==>
              var b' := Add(b, id, n).value;
              && OthersStay(b, b', id) && CountOf(b', id) == CountOf(b, id) + n
              && (if id in b.items then b'.nextSlot == b.nextSlot else b'.items[id].slot == b.nextSlot && b'.nextSlot == b.nextSlot + 1)
  {
    if id in b.items { assert StackAt(b, id); }
  }

  /** Items are taken away exactly when there are that many; a stack emptied is gone, and its slot is not used again. */
  lemma ReduceOutcome(b: BagState, id: nat, n: nat)
    requires SoundBag(b)
    ensures Reduce(b, id, n).Some? <==> id != 0 && 0 < n <= CountOf(b, id)
    ensures Reduce(b, id, n).Some? ==>
              var b' := Reduce(b, id, n).value;
              && OthersStay(b, b', id) && CountOf(b', id) == CountOf(b, id) - n && (id in b'.items <==> CountOf(b, id) > n)
              && b'.nextSlot == b.nextSlot
  {
    if id in b.items { assert StackAt(b, id); }
  }

  /** Adding then taking away the same amount leaves every count as it was. */
  lemma AddThenReduce(b: BagState, id: nat, n: nat, k: nat)
    requires SoundBag(b) && Add(b, id, n).Some?
    ensures var r := Reduce(Add(b, id, n).value, id, n);
            r.Some? && CountOf(r.value, k) == CountOf(b, k) && r.value.items.Keys == b.items.Keys
  {
  }

  /** The one listing of the stacks in slot order. */
  predicate IsView(items: map<int, ItemRow>, out: seq<ItemRow>) {
    && Sorted(out) && |out| == |items|
    && (forall i :: 0 <= i < |out| ==> out[i].id in items && items[out[i].id] == out[i])
    && (forall id <- items :: items[id] in out)
  }

  lemma {:induction false} SortedUnique(a: seq<ItemRow>, b: seq<ItemRow>)
    requires Sorted(a) && Sorted(b) && (forall r :: r in a <==> r in b)
    ensures a == b
    decreases |a|
  {
    if a == [] {
      assert forall i :: 0 <= i < |b| ==> b[i] in b;
    } else {
      assert a[0] in b && (b != [] ==> b[0] in a);
      assert a[0] == b[0];
      forall r ensures r in a[1..] <==> r in b[1..] {
        assert r in a <==> r == a[0] || r in a[1..];
        assert r in b <==> r == b[0] || r in b[1..];
      }
      SortedUnique(a[1..], b[1..]);
    }
  }

  lemma ViewIsUnique(items: map<int, ItemRow>, a: seq<ItemRow>, b: seq<ItemRow>)
    requires IsView(items, a) && IsView(items, b)
    ensures a == b
  {
    SortedUnique(a, b);
  }

  /** A view of a sound bag is a list of stacks that can be stored and restored. */
  lemma ViewIsStorable(b: BagState, out: seq<ItemRow>)
    requires SoundBag(b) && IsView(b.items, out)
    ensures StacksOk(out, b.nextSlot) && |out| <= b.capacity
    ensures forall i :: 0 <= i < |out| ==> TypedItem(out[i])
    ensures SortBySlot(out) == out
  {
    SortedStays(out);
    forall i | 0 <= i < |out| ensures StackOk(out[i], b.nextSlot) && TypedItem(out[i]) {
      assert StackAt(b, out[i].id);
    }
  }

  /** The stacks of a list, by item id. */
  function ById(rows: seq<ItemRow>): map<int, ItemRow> {
    if rows == [] then map[] else ById(rows[..|rows| - 1])[rows[|rows| - 1].id := rows[|rows| - 1]]
  }

  predicate Restorable(capacity: nat, nextSlot: nat, rows: seq<ItemRow>) {
    0 < capacity <= MAX_SLOTS && nextSlot <= MAX_SLOTS && |rows| <= capacity && StacksOk(rows, nextSlot)
  }

  lemma {:induction false} ByIdHolds(rows: seq<ItemRow>)
    requires DistinctIds(rows)
    ensures |ById(rows)| == |rows|
    ensures forall i :: 0 <= i < |rows| ==> rows[i].id in ById(rows) && ById(rows)[rows[i].id] == rows[i]
    ensures forall id <- ById(rows) :: ById(rows)[id] in rows && ById(rows)[id].id == id
    decreases |rows|
  {
    if rows != [] {
      var front, last := rows[..|rows| - 1], rows[|rows| - 1];
      ByIdHolds(front);
      assert last.id !in ById(front);
    }
  }

  /** Restoring the view of a bag gives the bag back. */
  lemma RestoreOfView(b: BagState, out: seq<ItemRow>)
    requires SoundBag(b) && IsView(b.items, out)
    ensures Restorable(b.capacity, b.nextSlot, out)
    ensures ById(out) == b.items
  {
    ViewIsStorable(b, out);
    ByIdHolds(out);
    forall id: int | id in b.items ensures id in ById(out) && ById(out)[id] == b.items[id] {
      assert StackAt(b, id);
      assert b.items[id] in out;
    }
    forall id | id in ById(out) ensures id in b.items {
      assert ById(out)[id] in out;
    }
  }

  /** From a bag through its frozen view, the tables and a load, back to the very same bag. */
  lemma LoadGivesBagBack(b: BagState, s: Snapshot, db: Db, w: Weather)
    requires SoundBag(b) && IsView(b.items, s.items) && s.capacity == b.capacity && s.nextSlot == b.nextSlot
    requires Storable(s) && Typed(s) && Stored(db, s)
    requires w.begin.Fine? && ThreeFine(w, 0) && w.commit.Fine?
    ensures var r := Execute(LoadTask(s.player), db, w).result;
            && LoadOk(s.player, r)
            && var l := Loaded(s.player, r);
               && l == s.(revision := 0, token := 0)
               && Restorable(l.capacity, l.nextSlot, l.items) && BagState(ById(l.items), l.capacity, l.nextSlot) == b
  {
    SaveThenLoad(s, db, w);
    ViewIsStorable(b, s.items);
    RestoreOfView(b, s.items);
  }

  class Bag {
    var items: map<int, ItemRow>
    var capacity: nat
    var nextSlot: nat

    ghost function Model(): BagState
      reads this
    {
      BagState(items, capacity, nextSlot)
    }

    constructor (limit: nat)
      requires limit <= MAX_SLOTS
      ensures SoundBag(Model()) && Model() == BagState(map[], if limit == 0 then 1 else limit, 0)
    {
      items, capacity, nextSlot := map[], if limit == 0 then 1 else limit, 0;
    }

    method AddItem(id: nat, n: nat) returns (ok: bool)
      requires SoundBag(Model()) && id <= MAX_U32 && n <= MAX_U16
      modifies `items, `nextSlot
      ensures SoundBag(Model())
      ensures match Add(old(Model()), id, n)
              case Some(b) => ok && Model() == b
              case None => !ok && Model() == old(Model())
    {
      AddKeeps(Model(), id, n);
      if id == 0 || n == 0 { return false; }
      if id in items {
        if items[id].quantity + n > MAX_U16 { return false; }
        items := items[id := items[id].(quantity := items[id].quantity + n)];
        return true;
      }
      if |items| >= capacity || nextSlot >= MAX_SLOTS { return false; }
      items := items[id := ItemRow(id, nextSlot, n)];
      nextSlot := nextSlot + 1;
      return true;
    }

    method ReduceItem(id: nat, n: nat) returns (ok: bool)
      requires SoundBag(Model())
      modifies `items
      ensures SoundBag(Model())
      ensures match Reduce(old(Model()), id, n)
              case Some(b) => ok && Model() == b
              case None => !ok && Model() == old(Model())
    {
      ReduceKeeps(Model(), id, n);
      if id == 0 || n == 0 { return false; }
      if id !in items || items[id].quantity < n { return false; }
      var left := items[id].(quantity := items[id].quantity - n);
      items := if left.quantity == 0 then items - {id} else items[id := left];
      return true;
    }

    method Clear()
      requires SoundBag(Model())
      modifies `items, `nextSlot
      ensures SoundBag(Model()) && Model() == BagState(map[], old(capacity), 0)
    {
      items, nextSlot := map[], 0;
    }

    /** The stacks in slot order. */
    method View() returns (out: seq<ItemRow>)
      requires SoundBag(Model())
      ensures IsView(items, out)
    {
      out := [];
      var left: set<int> := items.Keys;
      while left != {}
        invariant left <= items.Keys && |out| == |items| - |left|
        invariant DistinctSlots(out)
        invariant forall i :: 0 <= i < |out| ==> out[i].id in items && out[i].id !in left && items[out[i].id] == out[i]
        invariant forall id <- items :: id !in left ==> items[id] in out
        decreases left
      {
        SomeMember(left);
        var id: int :| id in left;
        assert StackAt(Model(), id);
        out := out + [items[id]];
        left := left - {id};
      }
      SortedListing(items, out);
      out := SortBySlot(out);
    }

    /** Validates the stored stacks, then replaces the bag as a whole. */
    method Restore(limit: nat, slots: nat, rows: seq<ItemRow>) returns (ok: bool)
      requires SoundBag(Model()) && forall i :: 0 <= i < |rows| ==> TypedItem(rows[i])
      modifies this
      ensures SoundBag(Model()) && ok == Restorable(limit, slots, rows)
      ensures Model() == if ok then BagState(ById(rows), limit, slots) else old(Model())
    {
      if limit == 0 || limit > MAX_SLOTS || slots > MAX_SLOTS || |rows| > limit { return false; }
      if exists i :: 0 <= i < |rows| && !StackOk(rows[i], slots) { return false; }
      var distinct := AllDistinct(rows);
      if !distinct { return false; }
      RestoredIsOk(limit, slots, rows);
      items, capacity, nextSlot := ById(rows), limit, slots;
      return true;
    }
  }

  lemma SomeMember(s: set<int>)
    ensures s != {} ==> exists k: int :: k in s
  {
    if forall k: int :: k !in s { assert s == {}; }
  }

  lemma SortedListing(items: map<int, ItemRow>, out: seq<ItemRow>)
    requires DistinctSlots(out) && |out| == |items|
    requires forall i :: 0 <= i < |out| ==> out[i].id in items && items[out[i].id] == out[i]
    requires forall id <- items :: items[id] in out
    ensures IsView(items, SortBySlot(out))
  {
    SortBySlotSorts(out);
    var sorted := SortBySlot(out);
    forall i | 0 <= i < |sorted| ensures sorted[i].id in items && items[sorted[i].id] == sorted[i] {
      SortedMembers(out, sorted[i]);
    }
    forall id: int | id in items ensures items[id] in sorted {
      SortedMembers(out, items[id]);
    }
  }

  lemma RestoredIsOk(limit: nat, slots: nat, rows: seq<ItemRow>)
    requires Restorable(limit, slots, rows) && forall i :: 0 <= i < |rows| ==> TypedItem(rows[i])
    ensures SoundBag(BagState(ById(rows), limit, slots))
  {
    ByIdHolds(rows);
  }
}
