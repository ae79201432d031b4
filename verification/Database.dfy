/** The three player tables and what each of the server's fixed statements does to them. */
module Database {
  import opened DbValue

  const MAX_I64: nat := 0x7FFF_FFFF_FFFF_FFFF

  datatype PlayerRow = PlayerRow(hp: int, mp: int, gold: int, x: int, y: int, dir: int, scene: int, version: int)

  datatype ContainerRow = ContainerRow(capacity: int, nextSlot: int, version: int)

  datatype ItemRow = ItemRow(id: int, slot: int, quantity: int)

  /** Tables keyed by player id; item rows are kept in the order they were inserted. */
  datatype Db = Db(players: map<nat, PlayerRow>, containers: map<nat, ContainerRow>, items: map<nat, seq<ItemRow>>)

  datatype Verb = Select | Insert | Update | Delete | OtherVerb

  /** The fixed statements, and any other one given by its verb and effect. A malformed text is
      empty or contains a semicolon. */
  datatype Stmt =
    | SelectVersion(player: nat)
    | SelectPlayer(player: nat)
    | SelectContainer(player: nat)
    | SelectItems(player: nat)
    | UpdatePlayer(player: nat, row: PlayerRow)
    | UpsertContainer(player: nat, meta: ContainerRow)
    | DeleteItems(player: nat)
    | InsertItem(player: nat, item: ItemRow)
    | OtherStmt(verb: Verb, effect: Db -> (Db, Val))
    | Malformed

  function VerbOf(s: Stmt): Verb {
    match s
    case SelectVersion(_) => Select
    case SelectPlayer(_) => Select
    case SelectContainer(_) => Select
    case SelectItems(_) => Select
    case UpdatePlayer(_, _) => Update
    case UpsertContainer(_, _) => Insert
    case DeleteItems(_) => Delete
    case InsertItem(_, _) => Insert
    case OtherStmt(verb, _) => verb
    case Malformed => OtherVerb
  }

  function ItemsOf(db: Db, player: nat): seq<ItemRow> {
    if player in db.items then db.items[player] else []
  }

  function InsertBySlot(rows: seq<ItemRow>, r: ItemRow): seq<ItemRow>
    decreases |rows|
  {
    if rows == [] || r.slot < rows[0].slot then [r] + rows else [rows[0]] + InsertBySlot(rows[1..], r)
  }

  /** ORDER BY slot, rows with equal slots staying in place. */
  function SortBySlot(rows: seq<ItemRow>): seq<ItemRow>
    decreases |rows|
  {
    if rows == [] then [] else InsertBySlot(SortBySlot(rows[..|rows| - 1]), rows[|rows| - 1])
  }

  function PlayerVal(r: PlayerRow): Val {
    Arr([Int(r.hp), Int(r.mp), Int(r.gold), Int(r.x), Int(r.y), Int(r.dir), Int(r.scene), Int(r.version)])
  }

  function ContainerVal(r: ContainerRow): Val {
    Arr([Int(r.capacity), Int(r.nextSlot), Int(r.version)])
  }

  function ItemVal(r: ItemRow): Val {
    Arr([Int(r.id), Int(r.slot), Int(r.quantity)])
  }

  function ItemVals(rows: seq<ItemRow>): Val {
    Arr(seq(|rows|, i requires 0 <= i < |rows| => ItemVal(rows[i])))
  }

  /** What an executed statement reports: affected rows and the insert id. */
  function Affected(n: int): Val { Arr([Int(n), Int(0)]) }

  /** The meaning of one statement inside a transaction. */
  function Effect(s: Stmt, db: Db): (Db, Val) {
    match s
    case SelectVersion(p) => (db, if p in db.players then Arr([Arr([Int(db.players[p].version)])]) else Arr([]))
    case SelectPlayer(p) => (db, if p in db.players then Arr([PlayerVal(db.players[p])]) else Arr([]))
    case SelectContainer(p) => (db, if p in db.containers then Arr([ContainerVal(db.containers[p])]) else Arr([]))
    case SelectItems(p) => (db, ItemVals(SortBySlot(ItemsOf(db, p))))
    case UpdatePlayer(p, row) =>
      if p in db.players && db.players[p].version < row.version then (db.(players := db.players[p := row]), Affected(1))
      else (db, Affected(0))
    case UpsertContainer(p, meta) =>
      (db.(containers := db.containers[p := meta]), Affected(if p in db.containers then 2 else 1))
    case DeleteItems(p) => (db.(items := db.items[p := []]), Affected(|ItemsOf(db, p)|))
    case InsertItem(p, item) => (db.(items := db.items[p := ItemsOf(db, p) + [item]]), Affected(1))
    case OtherStmt(verb, effect) => if verb == Select then (db, effect(db).1) else effect(db)
    case Malformed => (db, Nil)
  }

  lemma SelectsReadOnly(s: Stmt, db: Db)
    requires VerbOf(s) == Select
    ensures Effect(s, db).0 == db
  {
  }

  /** One step of a transaction: a query (1) or an execution (2), and what it must report. */
  datatype SqlStep = SqlStep(kind: nat, stmt: Stmt, expectedAffected: int, checkData: bool, expectedData: Val)

  datatype DbTask = DbTask(
    kind: nat, hasArgs: bool, steps: seq<SqlStep>, verification: seq<SqlStep>,
    player: nat, version: nat, revision: nat, token: nat)

  datatype DbResult = DbResult(
    errcode: int, class_: ResultClass, native: nat, data: Val,
    player: nat, version: nat, revision: nat, token: nat)

  predicate Succeeded(r: DbResult) { r.errcode == 0 && r.class_ == Success }

  predicate ValidStep(s: SqlStep) {
    && !s.stmt.Malformed? && s.expectedAffected >= -1
    && (s.kind == 1 || s.kind == 2) && (s.kind == 1 ==> s.expectedAffected == -1)
    && (if s.kind == 1 then VerbOf(s.stmt) == Select else VerbOf(s.stmt) in {Insert, Update, Delete})
  }

  // Sorting facts.

  predicate Sorted(rows: seq<ItemRow>) {
    forall i, j :: 0 <= i < j < |rows| ==> rows[i].slot < rows[j].slot
  }

  predicate DistinctSlots(rows: seq<ItemRow>) {
    forall i, j :: 0 <= i < j < |rows| ==> rows[i].slot != rows[j].slot
  }

  lemma {:induction false} InsertLast(rows: seq<ItemRow>, r: ItemRow)
    requires forall i :: 0 <= i < |rows| ==> rows[i].slot < r.slot
    ensures InsertBySlot(rows, r) == rows + [r]
    decreases |rows|
  {
    if rows != [] {
      InsertLast(rows[1..], r);
    }
  }

  /** Rows already in slot order come back unchanged. */
  lemma {:induction false} SortedStays(rows: seq<ItemRow>)
    requires Sorted(rows)
    ensures SortBySlot(rows) == rows
    decreases |rows|
  {
    if rows != [] {
      SortedStays(rows[..|rows| - 1]);
      InsertLast(rows[..|rows| - 1], rows[|rows| - 1]);
    }
  }

  lemma {:induction false} InsertAdds(rows: seq<ItemRow>, r: ItemRow)
    ensures multiset(InsertBySlot(rows, r)) == multiset(rows) + multiset{r}
    decreases |rows|
  {
    if rows != [] && !(r.slot < rows[0].slot) {
      InsertAdds(rows[1..], r);
      assert rows == [rows[0]] + rows[1..];
    }
  }

  lemma InsertMembers(rows: seq<ItemRow>, r: ItemRow, x: ItemRow)
    requires x in InsertBySlot(rows, r)
    ensures x in rows || x == r
  {
    InsertAdds(rows, r);
    assert x in multiset(InsertBySlot(rows, r));
  }

  lemma {:induction false} InsertKeeps(rows: seq<ItemRow>, r: ItemRow)
    requires Sorted(rows) && forall i :: 0 <= i < |rows| ==> rows[i].slot != r.slot
    ensures Sorted(InsertBySlot(rows, r))
    decreases |rows|
  {
    if rows != [] && !(r.slot < rows[0].slot) {
      InsertKeeps(rows[1..], r);
      var rest := InsertBySlot(rows[1..], r);
      forall k | 0 <= k < |rest| ensures rows[0].slot < rest[k].slot {
        InsertMembers(rows[1..], r, rest[k]);
      }
    }
  }

  /** Sorting by distinct slots yields the same rows in strictly increasing slot order. */
  lemma {:induction false} SortBySlotSorts(rows: seq<ItemRow>)
    requires DistinctSlots(rows)
    ensures Sorted(SortBySlot(rows)) && multiset(SortBySlot(rows)) == multiset(rows) && |SortBySlot(rows)| == |rows|
    decreases |rows|
  {
    if rows != [] {
      var front, last := rows[..|rows| - 1], rows[|rows| - 1];
      SortBySlotSorts(front);
      var s := SortBySlot(front);
      forall i | 0 <= i < |s| ensures s[i].slot != last.slot {
        assert s[i] in multiset(s);
        assert s[i] in multiset(front);
      }
      InsertKeeps(s, last);
      InsertAdds(s, last);
      assert rows == front + [last];
      assert |multiset(SortBySlot(rows))| == |multiset(rows)|;
    }
  }

  predicate WeaklySorted(rows: seq<ItemRow>) {
    forall i, j :: 0 <= i < j < |rows| ==> rows[i].slot <= rows[j].slot
  }

  lemma {:induction false} InsertWeakly(rows: seq<ItemRow>, r: ItemRow)
    requires WeaklySorted(rows)
    ensures WeaklySorted(InsertBySlot(rows, r))
    decreases |rows|
  {
    if rows != [] && !(r.slot < rows[0].slot) {
      InsertWeakly(rows[1..], r);
      var rest := InsertBySlot(rows[1..], r);
      forall k | 0 <= k < |rest| ensures rows[0].slot <= rest[k].slot {
        InsertMembers(rows[1..], r, rest[k]);
      }
    }
  }

  /** Whatever the rows, a query ordered by slot returns them in order. */
  lemma {:induction false} SortBySlotOrders(rows: seq<ItemRow>)
    ensures WeaklySorted(SortBySlot(rows))
    decreases |rows|
  {
    if rows != [] {
      SortBySlotOrders(rows[..|rows| - 1]);
      InsertWeakly(SortBySlot(rows[..|rows| - 1]), rows[|rows| - 1]);
    }
  }

  /** The rows of one slot, in order. */
  function OfSlot(rows: seq<ItemRow>, slot: int): seq<ItemRow> {
    if rows == [] then [] else (if rows[0].slot == slot then [rows[0]] else []) + OfSlot(rows[1..], slot)
  }

  lemma OfSlotFirst(r: ItemRow, rows: seq<ItemRow>, slot: int)
    ensures OfSlot([r] + rows, slot) == (if r.slot == slot then [r] else []) + OfSlot(rows, slot)
  {
    assert ([r] + rows)[1..] == rows;
  }

  lemma {:induction false} OfSlotLast(rows: seq<ItemRow>, r: ItemRow, slot: int)
    ensures OfSlot(rows + [r], slot) == OfSlot(rows, slot) + if r.slot == slot then [r] else []
    decreases |rows|
  {
    if rows == [] {
      assert [r][1..] == [] && [] + [r] == [r];
    } else {
      OfSlotLast(rows[1..], r, slot);
      assert rows + [r] == [rows[0]] + (rows[1..] + [r]);
      OfSlotFirst(rows[0], rows[1..] + [r], slot);
    }
  }

  lemma {:induction false} NoneOfSlot(rows: seq<ItemRow>, slot: int)
    requires forall i :: 0 <= i < |rows| ==> rows[i].slot > slot
    ensures OfSlot(rows, slot) == []
    decreases |rows|
  {
    if rows != [] { NoneOfSlot(rows[1..], slot); }
  }

  lemma {:induction false} InsertGoesLast(rows: seq<ItemRow>, r: ItemRow, slot: int)
    requires WeaklySorted(rows)
    ensures OfSlot(InsertBySlot(rows, r), slot) == OfSlot(rows, slot) + if r.slot == slot then [r] else []
    decreases |rows|
  {
    if rows == [] || r.slot < rows[0].slot {
      OfSlotFirst(r, rows, slot);
      if r.slot == slot { NoneOfSlot(rows, slot); }
    } else {
      InsertGoesLast(rows[1..], r, slot);
      OfSlotFirst(rows[0], InsertBySlot(rows[1..], r), slot);
    }
  }

  /** Rows of equal slots stay in the order they were stored in. */
  lemma {:induction false} SortBySlotIsStable(rows: seq<ItemRow>, slot: int)
    ensures OfSlot(SortBySlot(rows), slot) == OfSlot(rows, slot)
    decreases |rows|
  {
    if rows != [] {
      var front, last := rows[..|rows| - 1], rows[|rows| - 1];
      SortBySlotIsStable(front, slot);
      SortBySlotOrders(front);
      InsertGoesLast(SortBySlot(front), last, slot);
      OfSlotLast(front, last, slot);
      assert rows == front + [last];
    }
  }
}
