/** A live player: its state, the revision that counts changes, and the mark of unsaved ones. */
module Players {
  import opened Common
  import opened Database
  import opened PlayerSnapshot
  import opened Bags

  const MAX_U64: nat := 0xFFFF_FFFF_FFFF_FFFF

  datatype Purchase = Purchase(operation: string, cost: nat, item: nat, count: nat, rules: nat)

  /** A purchase set aside until the save layer confirms it: the bag it will leave behind. */
  datatype Reservation = Reservation(request: Purchase, gold: nat, bag: BagState)

  /** A purchase with an operation id of acceptable length, an item, a count and a rule version. */
  predicate Complete(p: Purchase) {
    p.operation != "" && |p.operation| <= 128 && p.item != 0 && p.count != 0 && p.rules != 0
  }

  function Clamp(v: int, lo: int, hi: int): int
    requires lo <= hi
  {
    if v < lo then lo else if v > hi then hi else v
  }

  function Distance(a: int, b: int): nat { if a < b then b - a else a - b }

  /** Clamping gives the value of the range that is nearest. */
  lemma ClampIsNearest(v: int, lo: int, hi: int, k: int)
    requires lo <= k <= hi
    ensures lo <= Clamp(v, lo, hi) <= hi && Distance(v, Clamp(v, lo, hi)) <= Distance(v, k)
  {
  }

  method RestoredBag(s: Snapshot) returns (b: Option<BagState>)
    requires Typed(s)
    ensures b == if Restorable(s.capacity, s.nextSlot, s.items) then Some(BagState(ById(s.items), s.capacity, s.nextSlot)) else None
    ensures b.Some? ==> SoundBag(b.value)
  {
    var restored := new Bag(DEFAULT_CAPACITY);
    var fits := restored.Restore(s.capacity, s.nextSlot, s.items);
    return if fits then Some(BagState(restored.items, restored.capacity, restored.nextSlot)) else None;
  }

  class Player {
    var id: nat
    var epoch: nat
    var hp: nat
    var mp: nat
    var gold: nat
    var x: int
    var y: int
    var dir: int
    var scene: nat
    var bag: BagState
    var revision: nat
    var persistedVersion: nat
    var persistedRevision: nat
    var dirty: bool
    var reservation: Option<Reservation>

    /** Field widths, a sound bag, and a reservation that still is the current state plus its purchase. */
    ghost predicate Valid()
      reads this
    {
      && hp <= MAX_U16 && mp <= MAX_U16 && gold <= MAX_U32 && 0 < scene <= MAX_U32
      && MIN_I32 <= x <= MAX_I32 && MIN_I32 <= y <= MAX_I32 && MIN_I32 <= dir <= MAX_I32
      && SoundBag(bag) && revision <= MAX_U64 && persistedRevision <= revision
      && (reservation.Some? ==>
            var r := reservation.value;
            && r.request.cost <= gold && r.gold == gold - r.request.cost
            && r.request.item <= MAX_U32 && r.request.count <= MAX_U16
            && Add(bag, r.request.item, r.request.count) == Some(r.bag))
    }

    /** A change counts one revision and marks the player unsaved, unless the counter is exhausted;
        no change counts nothing. */
    twostate predicate Counted(changed: bool, threw: bool)
      reads this
    {
      && (threw <==> changed && old(revision) == MAX_U64)
      && revision == old(revision) + (if changed && !threw then 1 else 0)
      && dirty == (old(dirty) || (changed && !threw))
    }

    constructor ()
      ensures Valid() && id == 0 && revision == 0 && persistedVersion == 0 && !dirty && reservation == None
      ensures hp == 100 && mp == 50 && gold == 0 && x == y == dir == 0 && scene == 1
      ensures bag == BagState(map[], DEFAULT_CAPACITY, 0)
    {
      id, epoch, hp, mp, gold, x, y, dir, scene := 0, 0, 100, 50, 0, 0, 0, 0, 1;
      bag, revision, persistedVersion, persistedRevision := BagState(map[], DEFAULT_CAPACITY, 0), 0, 0, 0;
      dirty, reservation := false, None;
    }

    method RecordMutation()
      requires revision < MAX_U64
      modifies `revision, `dirty
      ensures revision == old(revision) + 1 && dirty
    {
      revision := revision + 1;
      dirty := true;
    }

    method SetHp(v: nat) returns (threw: bool)
      requires Valid() && v <= MAX_U16
      modifies `hp, `revision, `dirty
      ensures Valid() && Counted(old(hp) != v, threw) && hp == if threw then old(hp) else v
    {
      if hp == v { return false; }
      if revision == MAX_U64 { return true; }
      hp := v;
      RecordMutation();
      return false;
    }

    method ModifyHp(delta: int) returns (threw: bool)
      requires Valid()
      modifies `hp, `revision, `dirty
      ensures Valid() && (threw ==> hp == old(hp)) && (!threw ==> hp == Clamp(old(hp) + delta, 0, MAX_U16))
      ensures Counted(Clamp(old(hp) + delta, 0, MAX_U16) != old(hp), threw)
    {
      threw := SetHp(Clamp(hp + delta, 0, MAX_U16));
    }

    /** Gold saturates at both ends; a pending purchase freezes it. */
    method AddGold(delta: int) returns (threw: bool)
      requires Valid()
      modifies `gold, `revision, `dirty
      ensures Valid()
      ensures if old(reservation).Some? then threw && gold == old(gold) && revision == old(revision) && dirty == old(dirty)
              else
                && Counted(Clamp(old(gold) + delta, 0, MAX_U32) != old(gold), threw)
                && gold == if threw then old(gold) else Clamp(old(gold) + delta, 0, MAX_U32)
    {
      if reservation.Some? { return true; }
      var lo, hi: int := -(gold as int), MAX_U32 - gold;
      var value := gold + Clamp(delta, lo, hi);
      if value == gold { return false; }
      if revision == MAX_U64 { return true; }
      gold := value;
      RecordMutation();
      return false;
    }

    method SetPos(nx: int, ny: int, nd: int) returns (threw: bool)
      requires Valid() && MIN_I32 <= nx <= MAX_I32 && MIN_I32 <= ny <= MAX_I32 && MIN_I32 <= nd <= MAX_I32
      modifies `x, `y, `dir, `revision, `dirty
      ensures Valid() && Counted((old(x), old(y), old(dir)) != (nx, ny, nd), threw)
      ensures (x, y, dir) == if threw then (old(x), old(y), old(dir)) else (nx, ny, nd)
    {
      if x == nx && y == ny && dir == nd { return false; }
      if revision == MAX_U64 { return true; }
      x, y, dir := nx, ny, nd;
      RecordMutation();
      return false;
    }

    method SetScene(n: nat) returns (threw: bool)
      requires Valid() && n <= MAX_U32
      modifies `scene, `revision, `dirty
      ensures Valid() && (n == 0 ==> threw && scene == old(scene) && revision == old(revision) && dirty == old(dirty))
      ensures n != 0 ==> Counted(old(scene) != n, threw) && scene == if threw then old(scene) else n
    {
      if n == 0 { return true; }
      if scene == n { return false; }
      if revision == MAX_U64 { return true; }
      scene := n;
      RecordMutation();
      return false;
    }

    /** Puts items into the bag, or takes them out; nothing changes unless the bag accepts. */
    method ChangeItems(adding: bool, item: nat, count: nat) returns (ok: bool, threw: bool)
      requires Valid() && item <= MAX_U32 && count <= MAX_U16
      modifies `bag, `revision, `dirty
      ensures Valid()
      ensures threw <==> old(reservation).None? && old(revision) == MAX_U64
      ensures var next := if adding then Add(old(bag), item, count) else Reduce(old(bag), item, count);
              && ok == (old(reservation).None? && !threw && next.Some?)
              && bag == (if ok then next.value else old(bag))
              && revision == old(revision) + (if ok then 1 else 0) && dirty == (old(dirty) || ok)
    {
      if reservation.Some? { return false, false; }
      if revision == MAX_U64 { return false, true; }
      AddKeeps(bag, item, count);
      ReduceKeeps(bag, item, count);
      var next := if adding then Add(bag, item, count) else Reduce(bag, item, count);
      if next.None? { return false, false; }
      bag := next.value;
      RecordMutation();
      return true, false;
    }

    /** The only way to lose the mark: the confirmed revision is the current one. */
    method ConfirmSave(version: nat, rev: nat)
      requires Valid()
      modifies `persistedVersion, `persistedRevision, `dirty
      ensures Valid()
      ensures if rev > revision || version < old(persistedVersion) then
                persistedVersion == old(persistedVersion) && persistedRevision == old(persistedRevision) && dirty == old(dirty)
              else
                persistedVersion == version && persistedRevision == rev && dirty == (old(dirty) && rev != revision)
    {
      if rev > revision || version < persistedVersion { return; }
      persistedVersion, persistedRevision := version, rev;
      if rev == revision { dirty := false; }
    }

    /** A full copy of the state under a version and a token, stacks in slot order. */
    method FreezeSaveSnapshot(version: nat, token: nat) returns (s: Snapshot)
      requires Valid() && version <= MAX_I64
      ensures Typed(s) && IsView(bag.items, s.items) && SortBySlot(s.items) == s.items
      ensures s == Snapshot(id, hp, mp, gold, x, y, dir, scene, bag.capacity, bag.nextSlot, s.items, version, revision, token)
      ensures 0 < id <= MAX_I64 && 0 < version ==> Storable(s)
    {
      var copy := new Bag(bag.capacity);
      copy.items, copy.capacity, copy.nextSlot := bag.items, bag.capacity, bag.nextSlot;
      var items := copy.View();
      ViewIsStorable(bag, items);
      s := Snapshot(id, hp, mp, gold, x, y, dir, scene, bag.capacity, bag.nextSlot, items, version, revision, token);
    }

    /** The scalar state is the snapshot's, freshly loaded and saved. */
    ghost predicate Installed(s: Snapshot)
      reads this
    {
      && id == s.player && hp == s.hp && mp == s.mp && gold == s.gold && x == s.x && y == s.y && dir == s.dir && scene == s.scene
      && revision == 0 && persistedRevision == 0 && persistedVersion == s.version && !dirty
    }

    ghost predicate Installable(s: Snapshot)
      reads this
    {
      && reservation.None? && 0 < s.player <= MAX_I64 && s.scene != 0 && s.version <= MAX_I64
      && (id == 0 || id == s.player) && Restorable(s.capacity, s.nextSlot, s.items)
    }

    method Accept(s: Snapshot) returns (b: Option<BagState>)
      requires Typed(s)
      ensures b == if Installable(s) then Some(BagState(ById(s.items), s.capacity, s.nextSlot)) else None
      ensures b.Some? ==> SoundBag(b.value)
    {
      if reservation.Some? || s.player == 0 || s.player > MAX_I64 || s.scene == 0 || s.version > MAX_I64
         || (id != 0 && id != s.player) { return None; }
      b := RestoredBag(s);
    }

    method Install(s: Snapshot)
      modifies `id, `hp, `mp, `gold, `x, `y, `dir, `scene, `revision, `persistedVersion, `persistedRevision, `dirty
      ensures Installed(s)
    {
      id, hp, mp, gold, x, y, dir, scene := s.player, s.hp, s.mp, s.gold, s.x, s.y, s.dir, s.scene;
      revision, persistedVersion, persistedRevision, dirty := 0, s.version, 0, false;
    }

    /** Installs a loaded snapshot as a new life of the object, or changes nothing. */
    method RestoreSaveSnapshot(s: Snapshot) returns (ok: bool)
      requires Valid() && Typed(s)
      modifies this
      ensures Valid()
      ensures ok == old(Installable(s))
      ensures ok ==>
                && Installed(s) && bag == BagState(ById(s.items), s.capacity, s.nextSlot)
                && epoch == old(epoch) && reservation == None
      ensures !ok ==> unchanged(this)
    {
      var restored := Accept(s);
      if restored.None? { return false; }
      Install(s);
      bag := restored.value;
      return true;
    }

    method ReserveEconomy(request: Purchase) returns (ok: bool, threw: bool)
      requires Valid() && request.item <= MAX_U32 && request.count <= MAX_U16
      modifies `reservation
      ensures Valid()
      ensures old(reservation).Some? ==>
                ok == (old(reservation).value.request == request) && !threw && reservation == old(reservation)
      ensures old(reservation).None? ==>
                var named := 0 < |request.operation| <= 128 && request.item > 0 && request.count > 0 && request.rules > 0;
                var sound := id != 0 && named && request.cost <= gold;
                && (threw <==> sound && revision == MAX_U64)
                && (ok <==> sound && !threw && Add(bag, request.item, request.count).Some?)
                && reservation == if ok then Some(Reservation(request, gold - request.cost, Add(bag, request.item, request.count).value))
                                  else None
    {
      if reservation.Some? { return reservation.value.request == request, false; }
      if id == 0 || !Complete(request) || request.cost > gold { return false, false; }
      if revision == MAX_U64 { return false, true; }
      var prepared := Add(bag, request.item, request.count);
      if prepared.None? { return false, false; }
      reservation := Some(Reservation(request, gold - request.cost, prepared.value));
      return true, false;
    }

    /** A committed purchase takes exactly its price and adds exactly its items, whatever happened
        to the rest of the player since it was reserved. */
    method CommitEconomy(operation: string) returns (ok: bool, threw: bool)
      requires Valid()
      modifies `gold, `bag, `reservation, `revision, `dirty
      ensures Valid()
      ensures ok || threw <==> old(reservation).Some? && old(reservation).value.request.operation == operation
      ensures threw ==> !ok && old(revision) == MAX_U64
      ensures ok ==> old(revision) < MAX_U64
      ensures ok ==>
                var r := old(reservation).value.request;
                && gold == old(gold) - r.cost && CountOf(bag, r.item) == CountOf(old(bag), r.item) + r.count
                && (forall k :: k != r.item ==> CountOf(bag, k) == CountOf(old(bag), k))
                && reservation == None && revision == old(revision) + 1 && dirty
      ensures !ok ==> (gold, bag, reservation, revision, dirty) == old((gold, bag, reservation, revision, dirty))
    {
      if reservation.None? || reservation.value.request.operation != operation { return false, false; }
      if revision == MAX_U64 { return false, true; }
      var r := reservation.value;
      AddKeeps(bag, r.request.item, r.request.count);
      gold, bag, reservation := r.gold, r.bag, None;
      RecordMutation();
      return true, false;
    }

    method CancelEconomy(operation: string) returns (ok: bool)
      requires Valid()
      modifies `reservation
      ensures Valid()
      ensures ok == (old(reservation).Some? && old(reservation).value.request.operation == operation)
      ensures reservation == if ok then None else old(reservation)
    {
      if reservation.None? || reservation.value.request.operation != operation { return false; }
      reservation := None;
      return true;
    }
  }
}
