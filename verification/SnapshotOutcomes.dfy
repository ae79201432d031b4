/** Which snapshots can be stored, and exactly which query results are read as a role. */
module SnapshotOutcomes {
  import opened DbValue
  import opened Database
  import opened PlayerSnapshot

  /** A stack of at least one item, in a slot that was given out. */
  predicate Stack(r: ItemRow, nextSlot: nat) {
    1 <= r.id <= 0xFFFF_FFFF && 1 <= r.quantity <= 0xFFFF && 0 <= r.slot < nextSlot && r.slot <= 0xFFFF
  }

  /** No item and no slot occurs twice. */
  predicate NoneTwice(rows: seq<ItemRow>) {
    forall i, j :: 0 <= i < |rows| && 0 <= j < |rows| && (rows[i].id == rows[j].id || rows[i].slot == rows[j].slot) ==> i == j
  }

  /** A bag with room for its stacks. */
  predicate SoundStacks(s: Snapshot) {
    && 1 <= s.capacity <= 65536 && s.nextSlot <= 65536 && |s.items| <= s.capacity
    && (forall i :: 0 <= i < |s.items| ==> Stack(s.items[i], s.nextSlot)) && NoneTwice(s.items)
  }

  predicate Within(v: int, lo: int, hi: int) { lo <= v <= hi }

  predicate SoundState(s: Snapshot) {
    && Within(s.hp, 0, 0xFFFF) && Within(s.mp, 0, 0xFFFF) && Within(s.gold, 0, 0xFFFF_FFFF) && Within(s.scene, 1, 0xFFFF_FFFF)
    && Within(s.x, -0x8000_0000, 0x7FFF_FFFF) && Within(s.y, -0x8000_0000, 0x7FFF_FFFF) && Within(s.dir, -0x8000_0000, 0x7FFF_FFFF)
  }

  /** A snapshot with fields of the right width can be stored exactly when it is a player's, at a version, in a scene, with
      a sound bag. */
  lemma StorableIff(s: Snapshot)
    requires Typed(s)
    ensures Storable(s) <==> Within(s.player, 1, 0x7FFF_FFFF_FFFF_FFFF) && Within(s.version, 1, 0x7FFF_FFFF_FFFF_FFFF) && SoundState(s) && SoundStacks(s)
  {
    if StacksOk(s.items, s.nextSlot) {
      forall i, j | 0 <= i < |s.items| && 0 <= j < |s.items| && (s.items[i].id == s.items[j].id || s.items[i].slot == s.items[j].slot) ensures i == j {}
    }
    forall i | 0 <= i < |s.items| ensures StackOk(s.items[i], s.nextSlot) <==> Stack(s.items[i], s.nextSlot) {
      assert TypedItem(s.items[i]);
    }
  }

  /** The three result sets of a role: its row, its bag's row if it has one, and its stacks. */
  function Rows(s: Snapshot, saved: bool): Val {
    Arr([Arr([PlayerVal(MainRow(s))]), Arr(if saved then [ContainerVal(MetaRow(s))] else []), ItemVals(s.items)])
  }

  /** A role without a bag's row: it was never saved, and owns nothing. */
  predicate NeverSaved(s: Snapshot) { s.version == 0 && s.items == [] && s.capacity == 64 && s.nextSlot == 0 }

  /** What is read is a sound role, and the result sets are its rows, field by field. */
  lemma LoadedAreRows(player: nat, r: DbResult) returns (saved: bool)
    requires LoadOk(player, r)
    ensures var s := Loaded(player, r);
            && Succeeded(r) && r.player == s.player == player && s.revision == s.token == 0 && SoundState(s) && SoundStacks(s)
            && r.data == Rows(s, saved) && (!saved ==> NeverSaved(s))
  {
    var s := Loaded(player, r);
    var main, bag, items := r.data.a[0], r.data.a[1], r.data.a[2];
    saved := bag.a != [];
    RowIs(main.a[0]);
    if saved {
      assert bag.a[0] == Arr([bag.a[0].a[0], bag.a[0].a[1], bag.a[0].a[2]]);
      assert bag.a == [bag.a[0]];
    }
    ItemsAre(items.a);
    StacksAre(items.a, s.nextSlot);
    assert main.a == [main.a[0]] && r.data.a == [main, bag, items];
  }

  lemma RowIs(v: Val)
    requires Ints(v, 8)
    ensures v == Arr([Int(v.a[0].i), Int(v.a[1].i), Int(v.a[2].i), Int(v.a[3].i), Int(v.a[4].i), Int(v.a[5].i), Int(v.a[6].i), Int(v.a[7].i)])
  {
    assert v.a == [v.a[0], v.a[1], v.a[2], v.a[3], v.a[4], v.a[5], v.a[6], v.a[7]];
  }

  lemma ItemIs(v: Val)
    requires Ints(v, 3)
    ensures ItemVal(RowOf(v)) == v
  {
    assert v.a == [v.a[0], v.a[1], v.a[2]];
  }

  lemma ItemsAre(items: seq<Val>)
    requires forall i :: 0 <= i < |items| ==> Ints(items[i], 3)
    ensures ItemVals(RowsOf(items)) == Arr(items)
  {
    forall i | 0 <= i < |items| ensures ItemVals(RowsOf(items)).a[i] == items[i] { ItemIs(items[i]); }
    assert ItemVals(RowsOf(items)).a == items;
  }

  lemma StacksAre(items: seq<Val>, nextSlot: int)
    requires LoadedStacksOk(items, nextSlot) && nextSlot >= 0
    ensures forall i :: 0 <= i < |items| ==> Stack(RowsOf(items)[i], nextSlot)
    ensures NoneTwice(RowsOf(items))
  {
    var rows := RowsOf(items);
    forall i | 0 <= i < |items| ensures Stack(rows[i], nextSlot) { assert LoadedStackOk(items[i], nextSlot); }
    forall i, j | 0 <= i < |rows| && 0 <= j < |rows| && (rows[i].id == rows[j].id || rows[i].slot == rows[j].slot) ensures i == j {}
  }

  /** And conversely: the rows of any sound role, if it has a bag's row or was never saved, are read as that role. */
  lemma RowsAreLoaded(player: nat, r: DbResult, s: Snapshot, saved: bool)
    requires Succeeded(r) && r.player == s.player == player && s.revision == s.token == 0 && SoundState(s) && SoundStacks(s)
    requires r.data == Rows(s, saved) && (!saved ==> NeverSaved(s))
    ensures LoadOk(player, r) && Loaded(player, r) == s
  {
    var items := r.data.a[2].a;
    forall i | 0 <= i < |items| ensures Ints(items[i], 3) && RowOf(items[i]) == s.items[i] && LoadedStackOk(items[i], s.nextSlot) {
      assert Stack(s.items[i], s.nextSlot);
    }
    assert RowsOf(items) == s.items;
    assert Ints(r.data.a[0].a[0], 8);
    assert saved ==> Ints(r.data.a[1].a[0], 3);
  }
}
