/** Frozen player snapshots, the transaction that stores one, and the query that reads it back. */
module PlayerSnapshot {
  import opened Common
  import opened DbValue
  import opened Database

  const MAX_U16: nat := 0xFFFF
  const MAX_U32: nat := 0xFFFF_FFFF
  const MIN_I32: int := -0x8000_0000
  const MAX_I32: nat := 0x7FFF_FFFF
  const MAX_SLOTS: nat := 65536
  const DEFAULT_CAPACITY: nat := 64

  datatype Snapshot = Snapshot(
    player: nat, hp: nat, mp: nat, gold: nat, x: int, y: int, dir: int, scene: nat,
    capacity: nat, nextSlot: nat, items: seq<ItemRow>, version: nat, revision: nat, token: nat)

  /** The widths of the fields. */
  predicate Typed(s: Snapshot) {
    && s.hp <= MAX_U16 && s.mp <= MAX_U16 && s.gold <= MAX_U32 && s.scene <= MAX_U32
    && MIN_I32 <= s.x <= MAX_I32 && MIN_I32 <= s.y <= MAX_I32 && MIN_I32 <= s.dir <= MAX_I32
    && forall i :: 0 <= i < |s.items| ==> TypedItem(s.items[i])
  }

  predicate TypedItem(r: ItemRow) {
    0 <= r.id <= MAX_U32 && 0 <= r.slot <= MAX_U16 && 0 <= r.quantity <= MAX_U16
  }

  predicate DistinctIds(rows: seq<ItemRow>) {
    forall i, j :: 0 <= i < j < |rows| ==> rows[i].id != rows[j].id
  }

  predicate StackOk(r: ItemRow, nextSlot: nat) {
    r.id != 0 && r.quantity != 0 && r.slot < nextSlot
  }

  predicate StacksOk(rows: seq<ItemRow>, nextSlot: nat) {
    && (forall i :: 0 <= i < |rows| ==> StackOk(rows[i], nextSlot))
    && DistinctIds(rows) && DistinctSlots(rows)
  }

  predicate MetaOk(s: Snapshot) {
    && 0 < s.player <= MAX_I64 && 0 < s.version <= MAX_I64 && s.scene != 0
    && 0 < s.capacity <= MAX_SLOTS && s.nextSlot <= MAX_SLOTS && |s.items| <= s.capacity
  }

  /** The snapshots that can be stored. */
  predicate Storable(s: Snapshot) {
    MetaOk(s) && StacksOk(s.items, s.nextSlot)
  }

  function MainRow(s: Snapshot): PlayerRow {
    PlayerRow(s.hp, s.mp, s.gold, s.x, s.y, s.dir, s.scene, s.version)
  }

  function MetaRow(s: Snapshot): ContainerRow {
    ContainerRow(s.capacity, s.nextSlot, s.version)
  }

  function Write1(stmt: Stmt, expected: int): SqlStep { SqlStep(2, stmt, expected, false, Nil) }

  function Check(stmt: Stmt, expected: Val): SqlStep { SqlStep(1, stmt, -1, true, expected) }

  function Inserts(player: nat, rows: seq<ItemRow>): seq<SqlStep> {
    seq(|rows|, i requires 0 <= i < |rows| => Write1(InsertItem(player, rows[i]), 1))
  }

  function SaveHead(s: Snapshot): seq<SqlStep> {
    [Write1(UpdatePlayer(s.player, MainRow(s)), 1),
     Write1(UpsertContainer(s.player, MetaRow(s)), -1),
     Write1(DeleteItems(s.player), -1)]
  }

  function SaveSteps(s: Snapshot, rows: seq<ItemRow>): seq<SqlStep> {
    SaveHead(s) + Inserts(s.player, rows)
  }

  function Checks(s: Snapshot, rows: seq<ItemRow>): seq<SqlStep> {
    [Check(SelectPlayer(s.player), Arr([PlayerVal(MainRow(s))])),
     Check(SelectContainer(s.player), Arr([ContainerVal(MetaRow(s))])),
     Check(SelectItems(s.player), ItemVals(rows))]
  }

  /** The task that stores a snapshot, its stacks in slot order. */
  function SaveTask(s: Snapshot): DbTask {
    var rows := SortBySlot(s.items);
    DbTask(5, false, SaveSteps(s, rows), Checks(s, rows), s.player, s.version, s.revision, s.token)
  }

  /** The scan for duplicate ids and slots, with the two sets it keeps. */
  method AllDistinct(rows: seq<ItemRow>) returns (ok: bool)
    ensures ok <==> DistinctIds(rows) && DistinctSlots(rows)
  {
    var ids, slots, i := {}, {}, 0;
    while i < |rows|
      invariant i <= |rows| && DistinctIds(rows[..i]) && DistinctSlots(rows[..i])
      invariant ids == (set k | 0 <= k < i :: rows[k].id) && slots == (set k | 0 <= k < i :: rows[k].slot)
    {
      if rows[i].id in ids || rows[i].slot in slots { return false; }
      ids, slots, i := ids + {rows[i].id}, slots + {rows[i].slot}, i + 1;
    }
    assert rows[..i] == rows;
    return true;
  }

  /** Rejects metadata out of range and duplicate or empty stacks, else builds the save task. */
  method BuildSave(s: Snapshot) returns (task: Option<DbTask>)
    ensures task == if Storable(s) then Some(SaveTask(s)) else None
  {
    if !MetaOk(s) || exists i :: 0 <= i < |s.items| && !StackOk(s.items[i], s.nextSlot) { return None; }
    var ok := AllDistinct(s.items);
    return if ok then Some(SaveTask(s)) else None;
  }

  /** The query task of a login. */
  function LoadTask(player: nat): DbTask {
    DbTask(4, false,
           [SqlStep(1, SelectPlayer(player), -1, false, Nil),
            SqlStep(1, SelectContainer(player), -1, false, Nil),
            SqlStep(1, SelectItems(player), -1, false, Nil)], [], player, 0, 0, 0)
  }

  predicate Ints(v: Val, n: nat) {
    v.Arr? && |v.a| == n && forall i :: 0 <= i < n ==> v.a[i].Int?
  }

  predicate MainOk(v: Val) {
    && v.Arr? && |v.a| == 1 && Ints(v.a[0], 8)
    && var row := v.a[0].a;
       && 0 <= row[0].i <= MAX_U16 && 0 <= row[1].i <= MAX_U16 && 0 <= row[2].i <= MAX_U32
       && 0 < row[6].i <= MAX_U32 && 0 <= row[7].i
       && MIN_I32 <= row[3].i <= MAX_I32 && MIN_I32 <= row[4].i <= MAX_I32 && MIN_I32 <= row[5].i <= MAX_I32
  }

  /** The bag row may only be missing for a role that was never saved and owns nothing. */
  predicate BagOk(v: Val, version: int, noItems: bool) {
    && v.Arr? && |v.a| <= 1
    && if v.a == [] then version == 0 && noItems
       else Ints(v.a[0], 3) && 0 < v.a[0].a[0].i <= MAX_SLOTS && 0 <= v.a[0].a[1].i <= MAX_SLOTS && v.a[0].a[2].i == version
  }

  function CapacityOf(v: Val): int
    requires v.Arr? && (v.a != [] ==> Ints(v.a[0], 3))
  {
    if v.a == [] then DEFAULT_CAPACITY else v.a[0].a[0].i
  }

  function NextSlotOf(v: Val): int
    requires v.Arr? && (v.a != [] ==> Ints(v.a[0], 3))
  {
    if v.a == [] then 0 else v.a[0].a[1].i
  }

  function RowOf(v: Val): ItemRow
    requires Ints(v, 3)
  {
    ItemRow(v.a[0].i, v.a[1].i, v.a[2].i)
  }

  predicate LoadedStackOk(v: Val, nextSlot: int) {
    && Ints(v, 3)
    && var r := RowOf(v); 0 < r.id <= MAX_U32 && 0 <= r.slot < nextSlot && r.slot <= MAX_U16 && 0 < r.quantity <= MAX_U16
  }

  function RowsOf(items: seq<Val>): seq<ItemRow>
    requires forall i :: 0 <= i < |items| ==> Ints(items[i], 3)
  {
    seq(|items|, i requires 0 <= i < |items| => RowOf(items[i]))
  }

  predicate LoadedStacksOk(items: seq<Val>, nextSlot: int) {
    && (forall i :: 0 <= i < |items| ==> LoadedStackOk(items[i], nextSlot))
    && DistinctIds(RowsOf(items)) && DistinctSlots(RowsOf(items))
  }

  /** The loaded rows describe a complete, consistent role. */
  predicate LoadOk(player: nat, r: DbResult) {
    && Succeeded(r) && r.player == player && r.data.Arr? && |r.data.a| == 3
    && var main, bag, items := r.data.a[0], r.data.a[1], r.data.a[2];
       && MainOk(main) && items.Arr? && BagOk(bag, main.a[0].a[7].i, items.a == [])
       && LoadedStacksOk(items.a, NextSlotOf(bag)) && |items.a| <= CapacityOf(bag)
  }

  function Loaded(player: nat, r: DbResult): Snapshot
    requires LoadOk(player, r)
  {
    var row, bag := r.data.a[0].a[0].a, r.data.a[1];
    Snapshot(player, row[0].i, row[1].i, row[2].i, row[3].i, row[4].i, row[5].i, row[6].i,
             CapacityOf(bag), NextSlotOf(bag), RowsOf(r.data.a[2].a), row[7].i, 0, 0)
  }

  /** Reads a role from the three result sets, or refuses it as a whole. */
  method ParseLoad(player: nat, r: DbResult) returns (snap: Option<Snapshot>)
    ensures snap == if LoadOk(player, r) then Some(Loaded(player, r)) else None
  {
    if !Succeeded(r) || r.player != player || !r.data.Arr? || |r.data.a| != 3 { return None; }
    var main, bag, items := r.data.a[0], r.data.a[1], r.data.a[2];
    if !MainOk(main) || !items.Arr? || !BagOk(bag, main.a[0].a[7].i, items.a == []) { return None; }
    if exists i :: 0 <= i < |items.a| && !LoadedStackOk(items.a[i], NextSlotOf(bag)) { return None; }
    var ok := AllDistinct(RowsOf(items.a));
    if !ok || |items.a| > CapacityOf(bag) { return None; }
    return Some(Loaded(player, r));
  }
}
