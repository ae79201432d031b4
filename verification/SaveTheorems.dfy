/** What transactions guarantee, and that saving then loading a player gives back the snapshot. */
module SaveTheorems {
  import opened Common
  import opened DbValue
  import opened Database
  import opened Transactions
  import opened PlayerSnapshot

  /** Transactions are all-or-nothing: only a success or an unknown outcome may have changed the
      tables, and then by the whole task; a retryable failure has committed nothing. */
  lemma AllOrNothing(task: DbTask, db: Db, w: Weather)
    requires Honest(w)
    ensures var o := Execute(task, db, w);
            && (!o.committed ==> o.db == db)
            && (o.committed ==> exists k, results :: RunSteps(task, db, task.steps, k, w) == Through(o.db, results))
            && (o.committed ==> o.result.class_ == Success || o.result.class_ == OutcomeUnknown)
            && (o.result.class_ != OutcomeUnknown && !Succeeded(o.result) ==> o.db == db)
            && (o.result.class_ == Retryable ==> !o.committed && o.db == db)
  {
    CheckClass(task, db, task.verification, 1, w);
    StoppedClass(task, db, task.steps, 0, w);
    StoppedClass(task, db, task.steps, 1, w);
  }

  lemma {:induction false} CheckClass(task: DbTask, db: Db, checks: seq<SqlStep>, k: nat, w: Weather)
    requires Honest(w)
    ensures var r := RunChecks(task, db, checks, k, w); r.class_ == Success <==> r.errcode == 0
    ensures RunChecks(task, db, checks, k, w).class_ == Success <==> Matches(db, checks) && NoFaults(w, k, |checks|)
    decreases |checks|
  {
    if checks != [] {
      CheckClass(task, db, checks[1..], k + 1, w);
      EqualValueIsEquality(Effect(checks[0].stmt, db).1, checks[0].expectedData);
      assert Matches(db, checks) <==> Effect(checks[0].stmt, db).1 == checks[0].expectedData && Matches(db, checks[1..]);
    }
  }

  /** Every query still gives the rows it expects. */
  predicate Matches(db: Db, checks: seq<SqlStep>)
    decreases |checks|
  {
    checks == [] || (Effect(checks[0].stmt, db).1 == checks[0].expectedData && Matches(db, checks[1..]))
  }

  predicate NoFaults(w: Weather, k: nat, n: nat)
    decreases n
  {
    n == 0 || (w.execute(k).Fine? && NoFaults(w, k + 1, n - 1))
  }

  lemma {:induction false} StoppedClass(task: DbTask, db: Db, steps: seq<SqlStep>, k: nat, w: Weather)
    requires Honest(w)
    ensures var p := RunSteps(task, db, steps, k, w); p.Stopped? ==> p.result.errcode != 0 && p.result.class_ != Success
    decreases |steps|
  {
    if steps != [] {
      StoppedClass(task, Effect(steps[0].stmt, db).0, steps[1..], k + 1, w);
    }
  }

  /** The tables hold exactly this snapshot. */
  predicate Stored(db: Db, s: Snapshot) {
    && s.player in db.players && db.players[s.player] == MainRow(s)
    && s.player in db.containers && db.containers[s.player] == MetaRow(s)
    && SortBySlot(ItemsOf(db, s.player)) == SortBySlot(s.items)
  }

  /** The tables after the save steps. */
  function Saved(db: Db, s: Snapshot): Db {
    Db(db.players[s.player := MainRow(s)], db.containers[s.player := MetaRow(s)], db.items[s.player := SortBySlot(s.items)])
  }

  /** The tables hold the player at a lower version than the snapshot's. */
  predicate VersionBelow(db: Db, s: Snapshot) {
    s.player in db.players && db.players[s.player].version < s.version
  }

  function WithItems(db: Db, player: nat, rows: seq<ItemRow>): Db {
    db.(items := db.items[player := rows])
  }

  lemma {:induction false} InsertsRun(task: DbTask, db: Db, player: nat, done: seq<ItemRow>, rows: seq<ItemRow>, k: nat, w: Weather)
    ensures var p := RunSteps(task, WithItems(db, player, done), Inserts(player, rows), k, w);
            if NoFaults(w, k, |rows|) then p.Through? && p.db == WithItems(db, player, done + rows) else p.Stopped?
    decreases |rows|
  {
    if rows == [] {
      assert done + rows == done;
    } else {
      var steps := Inserts(player, rows);
      var next := done + [rows[0]];
      assert steps[1..] == Inserts(player, rows[1..]);
      assert Effect(steps[0].stmt, WithItems(db, player, done)).0 == WithItems(db, player, next);
      InsertsRun(task, db, player, next, rows[1..], k + 1, w);
      assert next + rows[1..] == done + rows;
    }
  }

  lemma FirstStep(task: DbTask, db: Db, step: SqlStep, rest: seq<SqlStep>, k: nat, w: Weather)
    ensures var p := RunSteps(task, db, [step] + rest, k, w);
            var (db', v) := Effect(step.stmt, db);
            if w.execute(k).Fine? && MeetsAffected(step, v) && MeetsData(step, v) then
              p == Prefixed([v], RunSteps(task, db', rest, k + 1, w))
            else p.Stopped?
  {
    assert ([step] + rest)[1..] == rest;
  }

  /** The tables after the first three save steps. */
  function Cleared(db: Db, s: Snapshot): Db {
    Db(db.players[s.player := MainRow(s)], db.containers[s.player := MetaRow(s)], db.items[s.player := []])
  }

  predicate ThreeFine(w: Weather, k: nat) {
    w.execute(k).Fine? && w.execute(k + 1).Fine? && w.execute(k + 2).Fine?
  }

  lemma HeadRuns(task: DbTask, db: Db, s: Snapshot, rest: seq<SqlStep>, k: nat, w: Weather)
    ensures var p := RunSteps(task, db, SaveHead(s) + rest, k, w);
            if VersionBelow(db, s) && ThreeFine(w, k) then
              p.Stopped? == RunSteps(task, Cleared(db, s), rest, k + 3, w).Stopped?
              && (p.Through? ==> p.db == RunSteps(task, Cleared(db, s), rest, k + 3, w).db)
            else p.Stopped?
  {
    var s0, s1, s2 := SaveHead(s)[0], SaveHead(s)[1], SaveHead(s)[2];
    assert SaveHead(s) + rest == [s0] + ([s1] + ([s2] + rest));
    var d1 := Effect(s0.stmt, db).0;
    var d2 := Effect(s1.stmt, d1).0;
    FirstStep(task, db, s0, [s1] + ([s2] + rest), k, w);
    FirstStep(task, d1, s1, [s2] + rest, k + 1, w);
    FirstStep(task, d2, s2, rest, k + 2, w);
    if VersionBelow(db, s) { assert Effect(s2.stmt, d2).0 == Cleared(db, s); }
  }

  lemma FaultsSplit(w: Weather, k: nat, n: nat)
    ensures NoFaults(w, k, 3 + n) <==> ThreeFine(w, k) && NoFaults(w, k + 3, n)
  {
    assert NoFaults(w, k, 3 + n) <==> w.execute(k).Fine? && NoFaults(w, k + 1, 2 + n);
    assert NoFaults(w, k + 1, 2 + n) <==> w.execute(k + 1).Fine? && NoFaults(w, k + 2, 1 + n);
  }

  /** Without faults the save steps all meet their expectations exactly when the stored version is
      lower, and leave exactly the snapshot behind. */
  lemma SaveStepsRun(task: DbTask, db: Db, s: Snapshot, k: nat, w: Weather)
    ensures var rows := SortBySlot(s.items);
            var p := RunSteps(task, db, SaveSteps(s, rows), k, w);
            if VersionBelow(db, s) && NoFaults(w, k, 3 + |rows|) then p.Through? && p.db == Saved(db, s) else p.Stopped?
  {
    var rows := SortBySlot(s.items);
    HeadRuns(task, db, s, Inserts(s.player, rows), k, w);
    InsertsRun(task, Cleared(db, s), s.player, [], rows, k + 3, w);
    FaultsSplit(w, k, |rows|);
    assert WithItems(Cleared(db, s), s.player, []) == Cleared(db, s);
    assert [] + rows == rows;
  }

  lemma ItemValsInjective(a: seq<ItemRow>, b: seq<ItemRow>)
    requires ItemVals(a) == ItemVals(b)
    ensures a == b
  {
    var va, vb := ItemVals(a).a, ItemVals(b).a;
    assert |a| == |va| && |b| == |vb|;
    forall i | 0 <= i < |a| ensures a[i] == b[i] {
      assert va[i] == ItemVal(a[i]) && vb[i] == ItemVal(b[i]);
      assert ItemVal(a[i]).a[0] == ItemVal(b[i]).a[0] && ItemVal(a[i]).a[1] == ItemVal(b[i]).a[1]
          && ItemVal(a[i]).a[2] == ItemVal(b[i]).a[2];
    }
  }

  lemma PlayerValInjective(a: PlayerRow, b: PlayerRow)
    requires PlayerVal(a) == PlayerVal(b)
    ensures a == b
  {
    var va, vb := PlayerVal(a).a, PlayerVal(b).a;
    assert va[0] == vb[0] && va[1] == vb[1] && va[2] == vb[2] && va[3] == vb[3];
    assert va[4] == vb[4] && va[5] == vb[5] && va[6] == vb[6] && va[7] == vb[7];
  }

  lemma ContainerValInjective(a: ContainerRow, b: ContainerRow)
    requires ContainerVal(a) == ContainerVal(b)
    ensures a == b
  {
    var va, vb := ContainerVal(a).a, ContainerVal(b).a;
    assert va[0] == vb[0] && va[1] == vb[1] && va[2] == vb[2];
  }

  lemma OneRow(a: Val, b: Val)
    requires Arr([a]) == Arr([b])
    ensures a == b
  {
    assert Arr([a]).a[0] == Arr([b]).a[0];
  }

  /** The three verification queries match exactly when the tables hold the snapshot. */
  lemma ChecksMeanStored(db: Db, s: Snapshot)
    ensures Matches(db, Checks(s, SortBySlot(s.items))) <==> Stored(db, s)
  {
    var rows, p := SortBySlot(s.items), s.player;
    var checks := Checks(s, rows);
    assert Matches(db, checks[1..][1..][1..]);
    assert Matches(db, checks[1..][1..]) <==> Effect(checks[2].stmt, db).1 == checks[2].expectedData;
    assert Matches(db, checks[1..]) <==> Effect(checks[1].stmt, db).1 == checks[1].expectedData && Matches(db, checks[1..][1..]);
    assert Matches(db, checks) <==>
      && Effect(checks[0].stmt, db).1 == checks[0].expectedData
      && Effect(checks[1].stmt, db).1 == checks[1].expectedData
      && Effect(checks[2].stmt, db).1 == checks[2].expectedData;
    if Matches(db, checks) {
      if p in db.players { OneRow(PlayerVal(db.players[p]), PlayerVal(MainRow(s))); PlayerValInjective(db.players[p], MainRow(s)); }
      if p in db.containers { OneRow(ContainerVal(db.containers[p]), ContainerVal(MetaRow(s))); ContainerValInjective(db.containers[p], MetaRow(s)); }
      ItemValsInjective(SortBySlot(ItemsOf(db, p)), rows);
      assert Arr([]).a != Arr([PlayerVal(MainRow(s))]).a;
      assert Arr([]).a != Arr([ContainerVal(MetaRow(s))]).a;
    }
  }

  lemma SavedIsStored(db: Db, s: Snapshot)
    requires DistinctSlots(s.items)
    ensures Stored(Saved(db, s), s)
  {
    SortBySlotSorts(s.items);
    SortedStays(SortBySlot(s.items));
  }

  /** The save task of a storable snapshot passes the executor's own checks. */
  lemma SaveIsWellFormed(s: Snapshot)
    requires Storable(s)
    ensures WellFormed(SaveTask(s))
  {
    SortBySlotSorts(s.items);
    var task := SaveTask(s);
    forall i | 0 <= i < |task.steps| ensures ValidStep(task.steps[i]) {
      if i >= 3 { assert task.steps[i] == Inserts(s.player, SortBySlot(s.items))[i - 3]; }
    }
  }

  lemma LockReports(db: Db, player: nat)
    ensures LockedVersion(Effect(SelectVersion(player), db).1)
         == if player in db.players && db.players[player].version >= 0 then Some(db.players[player].version) else None
  {
  }

  predicate Carries(r: DbResult, task: DbTask) {
    r.player == task.player && r.version == task.version && r.revision == task.revision && r.token == task.token
  }

  lemma {:induction false} StepsCarry(task: DbTask, db: Db, steps: seq<SqlStep>, k: nat, w: Weather)
    ensures var p := RunSteps(task, db, steps, k, w); p.Stopped? ==> Carries(p.result, task)
    decreases |steps|
  {
    if steps != [] { StepsCarry(task, Effect(steps[0].stmt, db).0, steps[1..], k + 1, w); }
  }

  lemma {:induction false} ChecksCarry(task: DbTask, db: Db, checks: seq<SqlStep>, k: nat, w: Weather)
    ensures Carries(RunChecks(task, db, checks, k, w), task)
    decreases |checks|
  {
    if checks != [] { ChecksCarry(task, db, checks[1..], k + 1, w); }
  }

  /** Every result names the task it answers. */
  lemma ResultCarries(task: DbTask, db: Db, w: Weather)
    ensures Carries(Execute(task, db, w).result, task)
  {
    StepsCarry(task, db, task.steps, 0, w);
    StepsCarry(task, db, task.steps, 1, w);
    ChecksCarry(task, db, task.verification, 1, w);
  }

  lemma WriteOutcome(s: Snapshot, db: Db, w: Weather)
    requires Storable(s) && Honest(w)
    ensures var o := Write(SaveTask(s), db, 1, w);
            && (o.committed ==> VersionBelow(db, s) && o.db == Saved(db, s) && Stored(o.db, s))
            && (Succeeded(o.result) ==> o.committed)
  {
    SaveStepsRun(SaveTask(s), db, s, 1, w);
    StoppedClass(SaveTask(s), db, SaveTask(s).steps, 1, w);
    SavedIsStored(db, s);
  }

  lemma ReplayOutcome(s: Snapshot, db: Db, w: Weather)
    requires Storable(s) && Honest(w)
    ensures Succeeded(Aborted(RunChecks(SaveTask(s), db, SaveTask(s).verification, 1, w), w)) ==> Stored(db, s)
  {
    CheckClass(SaveTask(s), db, SaveTask(s).verification, 1, w);
    ChecksMeanStored(db, s);
  }

  /** Everything a save can do to the tables. A success means they hold exactly the snapshot; a
      commit only ever raises the stored version; the same version with another payload is never
      overwritten; a retryable failure has committed nothing. */
  lemma SaveOutcome(s: Snapshot, db: Db, w: Weather)
    requires Storable(s) && Honest(w)
    ensures var o := Execute(SaveTask(s), db, w);
            && (o.committed ==> VersionBelow(db, s) && o.db == Saved(db, s) && Stored(o.db, s))
            && (!o.committed ==> o.db == db)
            && (Succeeded(o.result) ==> Stored(o.db, s))
            && Carries(o.result, SaveTask(s))
            && (o.result.class_ == Retryable ==> !o.committed)
  {
    SaveIsWellFormed(s);
    AllOrNothing(SaveTask(s), db, w);
    ResultCarries(SaveTask(s), db, w);
    WriteOutcome(s, db, w);
    ReplayOutcome(s, db, w);
  }

  /** Replaying a stored save succeeds and changes nothing. */
  lemma ReplaySucceeds(s: Snapshot, db: Db, w: Weather)
    requires Storable(s) && Honest(w) && Stored(db, s)
    requires w.begin.Fine? && NoFaults(w, 0, 4) && w.rollback
    ensures Succeeded(Execute(SaveTask(s), db, w).result) && Execute(SaveTask(s), db, w).db == db
  {
    var task := SaveTask(s);
    SaveIsWellFormed(s);
    LockReports(db, s.player);
    CheckClass(task, db, task.verification, 1, w);
    ChecksMeanStored(db, s);
  }

  /** A first save of a fair-weather transaction succeeds. */
  lemma SaveSucceeds(s: Snapshot, db: Db, w: Weather)
    requires Storable(s) && VersionBelow(db, s) && db.players[s.player].version >= 0
    requires w.begin.Fine? && NoFaults(w, 0, 4 + |SortBySlot(s.items)|) && w.commit.Fine?
    ensures var o := Execute(SaveTask(s), db, w); Succeeded(o.result) && o.committed && Stored(o.db, s)
  {
    SaveIsWellFormed(s);
    LockReports(db, s.player);
    SaveStepsRun(SaveTask(s), db, s, 1, w);
    SavedIsStored(db, s);
  }

  /** A save leaves every other player's rows alone. */
  lemma SaveTouchesOnlyOwner(s: Snapshot, db: Db, w: Weather, other: Snapshot)
    requires Storable(s) && Honest(w) && other.player != s.player
    ensures var o := Execute(SaveTask(s), db, w);
            && (Stored(o.db, other) <==> Stored(db, other))
            && (other.player in o.db.players <==> other.player in db.players)
            && (other.player in db.players ==> o.db.players[other.player] == db.players[other.player])
  {
    SaveOutcome(s, db, w);
  }

  /** The rows of a stored snapshot, as the load query reports them. */
  function LoadData(db: Db, player: nat): Val {
    Arr([Effect(SelectPlayer(player), db).1, Effect(SelectContainer(player), db).1, Effect(SelectItems(player), db).1])
  }

  lemma LoadRuns(db: Db, player: nat, w: Weather)
    requires w.begin.Fine? && ThreeFine(w, 0) && w.commit.Fine?
    ensures Execute(LoadTask(player), db, w) == Outcome(Blank(LoadTask(player)).(data := LoadData(db, player)), db, true)
  {
    var task := LoadTask(player);
    var s0, s1, s2 := task.steps[0], task.steps[1], task.steps[2];
    assert task.steps == [s0] + ([s1] + ([s2] + []));
    FirstStep(task, db, s0, [s1] + ([s2] + []), 0, w);
    FirstStep(task, db, s1, [s2] + [], 1, w);
    FirstStep(task, db, s2, [], 2, w);
    var p := RunSteps(task, db, task.steps, 0, w);
    var v0, v1, v2 := Effect(s0.stmt, db).1, Effect(s1.stmt, db).1, Effect(s2.stmt, db).1;
    assert [v0] + ([v1] + ([v2] + [])) == [v0, v1, v2];
    assert p == Through(db, [v0, v1, v2]);
  }

  lemma ItemValsRows(rows: seq<ItemRow>)
    ensures forall i :: 0 <= i < |rows| ==> Ints(ItemVals(rows).a[i], 3)
    ensures RowsOf(ItemVals(rows).a) == rows
  {
    var vals := ItemVals(rows).a;
    forall i | 0 <= i < |rows| ensures Ints(vals[i], 3) && RowOf(vals[i]) == rows[i] {
      assert vals[i] == ItemVal(rows[i]);
    }
  }

  lemma SortedMembers(rows: seq<ItemRow>, r: ItemRow)
    requires DistinctSlots(rows)
    ensures r in SortBySlot(rows) <==> r in rows
  {
    SortBySlotSorts(rows);
    assert r in multiset(SortBySlot(rows)) <==> r in multiset(rows);
  }

  lemma SameMemberSameId(rows: seq<ItemRow>, a: ItemRow, b: ItemRow)
    requires DistinctIds(rows) && a in rows && b in rows && a.id == b.id
    ensures a == b
  {
  }

  /** Sorting keeps every stack and its distinctness. */
  lemma SortedStacksOk(rows: seq<ItemRow>, nextSlot: nat)
    requires StacksOk(rows, nextSlot)
    ensures StacksOk(SortBySlot(rows), nextSlot) && |SortBySlot(rows)| == |rows|
  {
    var sorted := SortBySlot(rows);
    SortBySlotSorts(rows);
    forall i | 0 <= i < |sorted| ensures StackOk(sorted[i], nextSlot) {
      SortedMembers(rows, sorted[i]);
    }
    forall i, j | 0 <= i < j < |sorted| ensures sorted[i].id != sorted[j].id {
      SortedMembers(rows, sorted[i]);
      SortedMembers(rows, sorted[j]);
      if sorted[i].id == sorted[j].id { SameMemberSameId(rows, sorted[i], sorted[j]); }
    }
  }

  lemma LoadedRowsOk(s: Snapshot)
    requires Storable(s) && Typed(s)
    ensures LoadedStacksOk(ItemVals(SortBySlot(s.items)).a, s.nextSlot)
  {
    var rows := SortBySlot(s.items);
    SortedStacksOk(s.items, s.nextSlot);
    ItemValsRows(rows);
    forall i | 0 <= i < |rows| ensures LoadedStackOk(ItemVals(rows).a[i], s.nextSlot) {
      assert RowsOf(ItemVals(rows).a)[i] == rows[i];
      SortedMembers(s.items, rows[i]);
    }
  }

  /** Save, then load: the rows of a stored snapshot parse back to it, stacks in slot order. */
  lemma SaveThenLoad(s: Snapshot, db: Db, w: Weather)
    requires Storable(s) && Typed(s) && Stored(db, s)
    requires w.begin.Fine? && ThreeFine(w, 0) && w.commit.Fine?
    ensures var r := Execute(LoadTask(s.player), db, w).result;
            LoadOk(s.player, r) && Loaded(s.player, r) == s.(items := SortBySlot(s.items), revision := 0, token := 0)
  {
    LoadRuns(db, s.player, w);
    LoadedRowsOk(s);
    ItemValsRows(SortBySlot(s.items));
    SortedStacksOk(s.items, s.nextSlot);
    assert PlayerVal(MainRow(s)).a[7] == Int(s.version);
  }

  /** Whatever a load accepts can be installed: its stacks are distinct and inside the bag. */
  lemma LoadedIsConsistent(player: nat, r: DbResult)
    requires LoadOk(player, r)
    ensures var s := Loaded(player, r);
            Typed(s) && StacksOk(s.items, s.nextSlot) && |s.items| <= s.capacity && 0 < s.capacity <= MAX_SLOTS && s.nextSlot <= MAX_SLOTS
  {
  }
}
