/** One worker's replica: records, tombstones, watermarks and the grid that indexes them. */
module AoiReplica {
  import opened Common
  import opened AoiTypes
  import opened AoiReplicaSpec
  import opened AoiGrid

  // ---- views and the dirty set ---------------------------------------------------------

  predicate LocalIn(ents: map<EntityId, Entity>, self: WorkerId, id: EntityId) {
    id in ents && ents[id].owner == self
  }

  /** Brute force: the other entities whose cell the observer's cell sees. */
  ghost function Seen(ents: map<EntityId, Entity>, near: (nat, nat) -> bool, obs: EntityId): set<Entity>
    requires obs in ents
  {
    set id | id in ents && id != obs && near(ents[obs].cell, ents[id].cell) :: ents[id]
  }

  /** Everyone who could notice that id changed from one table to the other is in the dirty set. */
  ghost predicate Marked(before: map<EntityId, Entity>, after: map<EntityId, Entity>, self: WorkerId,
                         near: (nat, nat) -> bool, id: EntityId, dirty: set<EntityId>) {
    && (LocalIn(before, self, id) || LocalIn(after, self, id) ==> id in dirty)
    && (forall obs ::
          && LocalIn(before, self, obs) && obs != id
          && (|| (id in before && near(before[obs].cell, before[id].cell))
              || (id in after && near(before[obs].cell, after[id].cell)))
          ==> obs in dirty)
  }

  ghost predicate Changed(before: map<EntityId, Entity>, after: map<EntityId, Entity>, id: EntityId) {
    (id in before) != (id in after) || (id in before && before[id] != after[id])
  }

  /** No local observer outside the dirty set sees anything different. */
  ghost predicate DirtyComplete(before: map<EntityId, Entity>, after: map<EntityId, Entity>, self: WorkerId,
                                near: (nat, nat) -> bool, dirty: set<EntityId>) {
    forall obs :: obs !in dirty && (LocalIn(before, self, obs) || LocalIn(after, self, obs)) ==>
      && obs in before && obs in after && before[obs] == after[obs]
      && Seen(before, near, obs) == Seen(after, near, obs)
  }

  lemma MarkedIsComplete(before: map<EntityId, Entity>, after: map<EntityId, Entity>, self: WorkerId,
                         near: (nat, nat) -> bool, dirty: set<EntityId>)
    requires forall id :: Changed(before, after, id) ==> Marked(before, after, self, near, id, dirty)
    ensures DirtyComplete(before, after, self, near, dirty)
  {
    forall obs | obs !in dirty && (LocalIn(before, self, obs) || LocalIn(after, self, obs))
      ensures obs in before && obs in after && before[obs] == after[obs]
      ensures Seen(before, near, obs) == Seen(after, near, obs)
    {
      assert !Changed(before, after, obs);
      SeenContained(before, after, self, near, dirty, obs);
      SeenContained'(before, after, self, near, dirty, obs);
    }
  }

  lemma SeenContained(before: map<EntityId, Entity>, after: map<EntityId, Entity>, self: WorkerId,
                      near: (nat, nat) -> bool, dirty: set<EntityId>, obs: EntityId)
    requires forall id :: Changed(before, after, id) ==> Marked(before, after, self, near, id, dirty)
    requires obs !in dirty && LocalIn(before, self, obs) && !Changed(before, after, obs)
    ensures Seen(before, near, obs) <= Seen(after, near, obs)
  {
    forall e | e in Seen(before, near, obs)
      ensures e in Seen(after, near, obs)
    {
      var id :| id in before && id != obs && near(before[obs].cell, before[id].cell) && before[id] == e;
      assert !Changed(before, after, id);
    }
  }

  lemma SeenContained'(before: map<EntityId, Entity>, after: map<EntityId, Entity>, self: WorkerId,
                       near: (nat, nat) -> bool, dirty: set<EntityId>, obs: EntityId)
    requires forall id :: Changed(before, after, id) ==> Marked(before, after, self, near, id, dirty)
    requires obs !in dirty && LocalIn(before, self, obs) && !Changed(before, after, obs)
    ensures Seen(after, near, obs) <= Seen(before, near, obs)
  {
    forall e | e in Seen(after, near, obs)
      ensures e in Seen(before, near, obs)
    {
      var id :| id in after && id != obs && near(after[obs].cell, after[id].cell) && after[id] == e;
      assert !Changed(before, after, id);
    }
  }

  // ---- staging a snapshot ---------------------------------------------------------------

  /** Every watcher of the cell is in the set. */
  ghost predicate Covers(watch: (nat, EntityId) -> bool, cell: nat, d: set<EntityId>) {
    forall obs :: watch(cell, obs) ==> obs in d
  }

  /** The temporary copy on which a snapshot is installed before it replaces the live tables. */
  class Staging {
    const m: GridMap
    ghost const watch: (nat, EntityId) -> bool
    var grid: Grid
    var ents: map<EntityId, Entity>
    var dirty: set<EntityId>

    ghost predicate Ok()
      reads this, grid
    {
      && grid.Valid() && grid.m == m
      && (forall c: nat, x :: grid.Holds(c, x) <==> x in ents && ents[x].cell == c)
      && (forall c: nat, x :: grid.Watched(c, x) == watch(c, x))
    }

    constructor (g: Grid, ents: map<EntityId, Entity>, dirty: set<EntityId>)
      requires g.Valid()
      requires forall c: nat, x :: g.Holds(c, x) <==> x in ents && ents[x].cell == c
      ensures Ok() && fresh(grid) && m == g.m && grid.near == g.near && grid.at == g.at
      ensures this.ents == ents && this.dirty == dirty
      ensures forall c: nat, x :: watch(c, x) == g.Watched(c, x)
    {
      this.m := g.m;
      this.ents := ents;
      this.dirty := dirty;
      var live := g.cells;
      this.watch := (c: nat, x: EntityId) => c < |live| && x in live[c].watchers;
      this.grid := new Grid.Copy(g);
      new;
      assert forall c: nat, x :: grid.Holds(c, x) == g.Holds(c, x);
    }

    method Remove(id: EntityId)
      requires Ok() && id in ents
      modifies this`ents, this`dirty, grid
      ensures Ok() && ents == old(ents) - {id}
      ensures old(dirty) <= dirty && Covers(watch, old(ents)[id].cell, dirty)
    {
      dirty := grid.MarkWatchers(ents[id].cell, dirty);
      grid.RemoveEntity(id, ents[id].cell);
      ents := ents - {id};
    }

    method Put(e: Entity)
      requires Ok() && e.cell < m.CellCount()
      modifies this`ents, this`dirty, grid
      ensures Ok() && ents == old(ents)[e.id := e]
      ensures old(dirty) <= dirty && Covers(watch, e.cell, dirty)
      ensures e.id in old(ents) ==> Covers(watch, old(ents)[e.id].cell, dirty)
    {
      if e.id in ents {
        dirty := grid.MarkWatchers(ents[e.id].cell, dirty);
        grid.RemoveEntity(e.id, ents[e.id].cell);
      }
      ents := ents[e.id := e];
      grid.AddEntity(e.id, e.cell);
      dirty := grid.MarkWatchers(e.cell, dirty);
    }
  }

  /** What dropping the unlisted records leaves. */
  function Kept(c: Core, owner: WorkerId, seqNo: nat, inc: map<EntityId, Entity>): map<EntityId, Entity> {
    c.ents - (set id | id in c.ents && Dropped(c.ents[id], owner, seqNo) && id !in inc)
  }

  /** Every record the snapshot drops, replaces or adds has its old and new cell covered. */
  ghost predicate AllCovered(c: Core, owner: WorkerId, seqNo: nat, inc: map<EntityId, Entity>,
                             watch: (nat, EntityId) -> bool, d: set<EntityId>) {
    && (forall x <- c.ents :: Dropped(c.ents[x], owner, seqNo) && x !in inc ==> Covers(watch, c.ents[x].cell, d))
    && (forall x <- inc :: !Newer(c, x, seqNo) ==>
          Covers(watch, inc[x].cell, d) && (x in c.ents ==> Covers(watch, c.ents[x].cell, d)))
  }

  lemma StagedIsMarked(c: Core, owner: WorkerId, seqNo: nat, inc: map<EntityId, Entity>,
                       near: (nat, nat) -> bool, watch: (nat, EntityId) -> bool, count: nat, d: set<EntityId>, id: EntityId)
    requires owner != c.self && AllCovered(c, owner, seqNo, inc, watch, d)
    requires forall x <- inc :: inc[x].owner == owner && inc[x].cell < count && (x in c.ents ==> c.ents[x].owner == owner)
    requires forall x <- c.ents :: c.ents[x].cell < count
    requires forall cell: nat, x :: LocalIn(c.ents, c.self, x) && near(c.ents[x].cell, cell) && cell < count ==> watch(cell, x)
    requires Changed(c.ents, InstallSnapshot(c, owner, seqNo, inc).ents, id)
    ensures Marked(c.ents, InstallSnapshot(c, owner, seqNo, inc).ents, c.self, near, id, d)
  {
  }

  // ---- the replica ---------------------------------------------------------------------

  class Replica {
    const self: WorkerId
    const m: GridMap
    ghost const near: (nat, nat) -> bool
    ghost const at: Locator
    var grid: Grid
    var ents: map<EntityId, Entity>
    var tombs: map<EntityId, Tombstone>
    var water: map<WorkerId, nat>

    ghost function View(): Core
      reads this
    {
      Core(self, ents, tombs, water)
    }

    /** The grid lists every record in its own cell and nowhere else, and every local entity as a
        watcher of exactly the cells around it. */
    ghost predicate Valid()
      reads this, grid
    {
      && grid.Valid() && grid.m == m && grid.near == near && grid.at == at
      && Records(ents)
      && (forall c: nat, x :: grid.Holds(c, x) <==> x in ents && ents[x].cell == c)
      && Watching()
    }

    ghost predicate Records(table: map<EntityId, Entity>)
    {
      forall x <- table :: table[x].id == x && at(table[x].x, table[x].y) == Some(table[x].cell) && table[x].cell < m.CellCount()
    }

    ghost predicate Watching()
      reads this, grid
    {
      forall c: nat, x :: grid.Watched(c, x) <==> LocalIn(ents, self, x) && near(ents[x].cell, c) && c < m.CellCount()
    }

    constructor (self: WorkerId, m: GridMap)
      requires m.Ok()
      ensures Valid() && this.self == self && this.m == m && fresh(grid)
      ensures View() == Core(self, map[], map[], map[])
    {
      this.self := self;
      this.m := m;
      var g := new Grid(m);
      this.grid := g;
      this.near := g.near;
      this.at := g.at;
      this.ents := map[];
      this.tombs := map[];
      this.water := map[];
    }

    // ---- local events ------------------------------------------------------------------

    /** Takes a local entity out of the grid: its cell's list and the lists it watches. */
    method Unregister(id: EntityId)
      requires Valid() && LocalIn(ents, self, id)
      modifies grid
      ensures grid.Valid()
      ensures forall c: nat, x :: grid.Holds(c, x) <==> x in ents && x != id && ents[x].cell == c
      ensures forall c: nat, x ::
                grid.Watched(c, x) <==> x != id && LocalIn(ents, self, x) && near(ents[x].cell, c) && c < m.CellCount()
    {
      var e := ents[id];
      grid.Unwatch(id, e.x, e.y, e.cell);
      grid.RemoveEntity(e.id, e.cell);
    }

    /** Puts a local entity into the grid: its cell's list and the lists it watches. */
    method Place(id: EntityId, x: nat, y: nat, cell: nat)
      requires grid.Valid() && grid.at == at && grid.near == near && grid.m == m
      requires at(x, y) == Some(cell) && cell < m.CellCount()
      modifies grid
      ensures grid.Valid()
      ensures forall c: nat, o :: grid.Holds(c, o) == (old(grid.Holds(c, o)) || (c == cell && o == id))
      ensures forall c: nat, o ::
                grid.Watched(c, o) == (old(grid.Watched(c, o)) || (o == id && near(cell, c) && c < m.CellCount()))
    {
      grid.Watch(id, x, y, cell);
      grid.AddEntity(id, cell);
    }

    method OnLocalEntry(ev: Event, cell: nat, dirty: set<EntityId>) returns (d: set<EntityId>)
      requires Valid() && ev.owner == self && at(ev.x, ev.y) == Some(cell) && cell < m.CellCount()
      requires ev.id in ents ==> ents[ev.id].owner == self
      modifies this, grid
      ensures Valid() && grid == old(grid) && tombs == old(tombs) && water == old(water)
      ensures ents == old(ents)[ev.id := EntityOf(ev, cell)]
      ensures dirty <= d && Marked(old(ents), ents, self, near, ev.id, d)
    {
      d := dirty;
      if ev.id in ents {
        var e := ents[ev.id];
        Unregister(ev.id);
        d := grid.MarkWatchers(e.cell, d);
      }
      ents := ents[ev.id := EntityOf(ev, cell)];
      Place(ev.id, ev.x, ev.y, cell);
      d := grid.MarkWatchers(cell, d);
    }

    method OnLocalMove(ev: Event, cell: nat, dirty: set<EntityId>) returns (d: set<EntityId>)
      requires Valid() && ev.owner == self && at(ev.x, ev.y) == Some(cell) && cell < m.CellCount()
      requires ev.id in ents && ents[ev.id].owner == self
      modifies this, grid
      ensures Valid() && grid == old(grid) && tombs == old(tombs) && water == old(water)
      ensures ents == old(ents)[ev.id := EntityOf(ev, cell)]
      ensures dirty <= d && Marked(old(ents), ents, self, near, ev.id, d)
    {
      var e := ents[ev.id];
      d := dirty;
      if cell != e.cell {
        Unregister(ev.id);
        d := grid.MarkWatchers(e.cell, d);
      } else {
        ents := ents[ev.id := EntityOf(ev, cell)];
        d := grid.MarkWatchers(e.cell, d);
        return;
      }
      ents := ents[ev.id := EntityOf(ev, cell)];
      Place(ev.id, ev.x, ev.y, cell);
      d := grid.MarkWatchers(cell, d);
    }

    method OnLocalLeave(ev: Event, dirty: set<EntityId>) returns (d: set<EntityId>)
      requires Valid() && ev.owner == self && (ev.id in ents ==> ents[ev.id].owner == self)
      modifies this, grid
      ensures Valid() && grid == old(grid) && water == old(water)
      ensures ents == old(ents) - {ev.id} && tombs == old(tombs)[ev.id := TombstoneOf(ev)]
      ensures dirty <= d && Marked(old(ents), ents, self, near, ev.id, d)
    {
      d := dirty;
      if ev.id !in ents {
        tombs := tombs[ev.id := TombstoneOf(ev)];
        return;
      }
      var e := ents[ev.id];
      d := grid.MarkWatchers(e.cell, d);
      Unregister(ev.id);
      grid.RemoveWatcher(ev.id, e.cell);
      tombs := tombs[ev.id := TombstoneOf(ev)];
      ents := ents - {ev.id};
    }

    // ---- remote events -----------------------------------------------------------------

    method OnRemoteEntry(ev: Event, cell: nat, dirty: set<EntityId>) returns (d: set<EntityId>)
      requires Valid() && ev.owner != self && at(ev.x, ev.y) == Some(cell) && cell < m.CellCount()
      requires ev.id in ents ==> ents[ev.id].owner == ev.owner
      modifies this, grid
      ensures Valid() && grid == old(grid) && tombs == old(tombs) && water == old(water)
      ensures ents == old(ents)[ev.id := EntityOf(ev, cell)]
      ensures dirty <= d && Marked(old(ents), ents, self, near, ev.id, d)
    {
      d := dirty;
      if ev.id in ents {
        var e := ents[ev.id];
        d := grid.MarkWatchers(e.cell, d);
        grid.RemoveEntity(e.id, e.cell);
      }
      ents := ents[ev.id := EntityOf(ev, cell)];
      grid.AddEntity(ev.id, cell);
      d := grid.MarkWatchers(cell, d);
    }

    method OnRemoteMove(ev: Event, cell: nat, dirty: set<EntityId>) returns (d: set<EntityId>)
      requires Valid() && ev.owner != self && at(ev.x, ev.y) == Some(cell) && cell < m.CellCount()
      requires ev.id in ents && ents[ev.id].owner == ev.owner
      modifies this, grid
      ensures Valid() && grid == old(grid) && tombs == old(tombs) && water == old(water)
      ensures ents == old(ents)[ev.id := EntityOf(ev, cell)]
      ensures dirty <= d && Marked(old(ents), ents, self, near, ev.id, d)
    {
      var e := ents[ev.id];
      d := dirty;
      if cell != e.cell {
        d := grid.MarkWatchers(e.cell, d);
        grid.RemoveEntity(e.id, e.cell);
      } else {
        ents := ents[ev.id := EntityOf(ev, cell)];
        d := grid.MarkWatchers(e.cell, d);
        return;
      }
      ents := ents[ev.id := EntityOf(ev, cell)];
      grid.AddEntity(ev.id, cell);
      d := grid.MarkWatchers(cell, d);
    }

    method OnRemoteLeave(ev: Event, dirty: set<EntityId>) returns (d: set<EntityId>)
      requires Valid() && ev.owner != self && (ev.id in ents ==> ents[ev.id].owner == ev.owner)
      modifies this, grid
      ensures Valid() && grid == old(grid) && water == old(water)
      ensures ents == old(ents) - {ev.id} && tombs == old(tombs)[ev.id := TombstoneOf(ev)]
      ensures dirty <= d && Marked(old(ents), ents, self, near, ev.id, d)
    {
      d := dirty;
      if ev.id !in ents {
        tombs := tombs[ev.id := TombstoneOf(ev)];
        return;
      }
      var e := ents[ev.id];
      d := grid.MarkWatchers(e.cell, d);
      grid.RemoveEntity(ev.id, e.cell);
      tombs := tombs[ev.id := TombstoneOf(ev)];
      ents := ents - {ev.id};
    }

    /** Offers one event. Only an accepted event changes anything, and whoever could see the
        difference is in the dirty set. */
    method Apply(ev: Event, local: bool, dirty: set<EntityId>) returns (r: ApplyResult, d: set<EntityId>)
      requires Valid()
      modifies this, grid
      ensures Valid() && grid == old(grid)
      ensures r == Decide(old(View()), at, ev, local)
      ensures View() == ApplyEvent(old(View()), at, ev, local)
      ensures dirty <= d && (r != Applied ==> d == dirty)
      ensures DirtyComplete(old(ents), ents, self, near, d)
    {
      d := dirty;
      r, d := Offer(ev, local, dirty);
      forall id | Changed(old(ents), ents, id)
        ensures Marked(old(ents), ents, self, near, id, d)
      {
      }
      MarkedIsComplete(old(ents), ents, self, near, d);
    }

    method Offer(ev: Event, local: bool, dirty: set<EntityId>) returns (r: ApplyResult, d: set<EntityId>)
      requires Valid()
      modifies this, grid
      ensures Valid() && grid == old(grid)
      ensures r == Decide(old(View()), at, ev, local)
      ensures View() == ApplyEvent(old(View()), at, ev, local)
      ensures dirty <= d && (r != Applied ==> d == dirty)
      ensures r == Applied ==> Marked(old(ents), ents, self, near, ev.id, d)
    {
      d := dirty;
      if local != (ev.owner == self) { return BadSource, d; }
      if ev.kind == InvalidMsg || ev.id == NO_ENTITY || !ValidKind(ev.entityKind) { return Invalid, d; }
      if !local && ev.owner in water && ev.ownerSeq <= water[ev.owner] { return Ignored, d; }
      if (ev.id in ents && ents[ev.id].owner != ev.owner) || (ev.id in tombs && tombs[ev.id].owner != ev.owner) {
        return BadSource, d;
      }
      if ev.id in tombs && tombs[ev.id].generation >= ev.generation { return Ignored, d; }
      if ev.id in ents {
        if Stale(ents[ev.id], ev) { return Ignored, d; }
        if ev.generation == ents[ev.id].generation &&
           (ev.entityKind != ents[ev.id].kind || ev.businessId != ents[ev.id].businessId) {
          return Invalid, d;
        }
      }
      var target := m.Locate(ev.x, ev.y);
      var cell := 0;
      if ev.kind != Leave {
        if target.None? { return OutOfBounds, d; }
        cell := target.value;
      }
      if ev.kind == Move && (ev.id !in ents || ev.generation != ents[ev.id].generation) { return NeedSnapshot, d; }
      d := Process(ev, local, cell, dirty);
      r := Applied;
    }

    method Process(ev: Event, local: bool, cell: nat, dirty: set<EntityId>) returns (d: set<EntityId>)
      requires Valid() && local == (ev.owner == self) && ev.kind != InvalidMsg
      requires ev.id in ents ==> ents[ev.id].owner == ev.owner
      requires ev.kind == Move ==> ev.id in ents
      requires ev.kind != Leave ==> at(ev.x, ev.y) == Some(cell) && cell < m.CellCount()
      modifies this, grid
      ensures Valid() && grid == old(grid)
      ensures View() == Install(old(View()), at, ev)
      ensures dirty <= d && Marked(old(ents), ents, self, near, ev.id, d)
    {
      match ev.kind
      case Entry =>
        if local { d := OnLocalEntry(ev, cell, dirty); } else { d := OnRemoteEntry(ev, cell, dirty); }
      case Move =>
        if local { d := OnLocalMove(ev, cell, dirty); } else { d := OnRemoteMove(ev, cell, dirty); }
      case Leave =>
        if local { d := OnLocalLeave(ev, dirty); } else { d := OnRemoteLeave(ev, dirty); }
    }

    // ---- queries -----------------------------------------------------------------------

    /** The grid's answer is the brute-force view, each entity once. */
    method VisibleEntities(obs: EntityId, includeSelf: bool) returns (found: bool, out: seq<Entity>)
      requires Valid()
      ensures found <==> obs in ents
      ensures !found ==> out == []
      ensures found ==> forall e :: e in out <==> e in Seen(ents, near, obs) || (includeSelf && e == ents[obs])
      ensures DistinctIds(out)
    {
      out := [];
      found := obs in ents;
      if !found {
        return;
      }
      var ob := ents[obs];
      assert m.Locate(ob.x, ob.y) == Some(ob.cell);
      var window := grid.WatchCells(ob.x, ob.y);
      var seen: set<EntityId> := {};
      for k := 0 to |window|
        invariant forall id :: id in seen <==> id in ents && ents[id].cell in window[..k] && (includeSelf || id != obs)
        invariant forall e :: e in out <==> e.id in seen && e.id in ents && ents[e.id] == e
        invariant DistinctIds(out)
      {
        seen, out := ScanCell(obs, includeSelf, window[k], seen, out);
        assert window[..k + 1] == window[..k] + [window[k]];
      }
      assert window[..|window|] == window;
      forall e
        ensures e in out <==> e in Seen(ents, near, obs) || (includeSelf && e == ents[obs])
      {
        assert e in out ==> e.id in ents && ents[e.id] == e;
      }
    }

    method ScanCell(obs: EntityId, includeSelf: bool, idx: nat, seen0: set<EntityId>, out0: seq<Entity>)
      returns (seen: set<EntityId>, out: seq<Entity>)
      requires Valid()
      requires forall e :: e in out0 <==> e.id in seen0 && e.id in ents && ents[e.id] == e
      requires DistinctIds(out0)
      ensures forall id :: id in seen <==> id in seen0 || (id in ents && ents[id].cell == idx && (includeSelf || id != obs))
      ensures forall e :: e in out <==> e.id in seen && e.id in ents && ents[e.id] == e
      ensures DistinctIds(out)
    {
      seen, out := seen0, out0;
      if idx < |grid.cells| {
        var list := grid.cells[idx].entities;
        for i := 0 to |list|
          invariant forall id :: id in seen <==> id in seen0 || (id in list[..i] && (includeSelf || id != obs))
          invariant forall e :: e in out <==> e.id in seen && e.id in ents && ents[e.id] == e
          invariant DistinctIds(out)
        {
          var id := list[i];
          assert list[..i + 1] == list[..i] + [id];
          assert grid.Holds(idx, id);
          if (includeSelf || id != obs) && id !in seen {
            assert forall e <- out :: e.id != id;
            seen := seen + {id};
            if id in ents && ents[id].cell == idx {
              out := out + [ents[id]];
            }
          }
        }
        assert list[..|list|] == list;
        assert forall id :: id in list <==> grid.Holds(idx, id);
      }
    }

    // ---- owner snapshots ---------------------------------------------------------------

    /** Well-formed incoming records of one foreign owner. */
    ghost predicate IncomingOk(inc: map<EntityId, Entity>, owner: WorkerId)
      reads this
    {
      && Records(inc)
      && forall id <- inc :: inc[id].owner == owner && (id in ents ==> ents[id].owner == owner)
    }

    /** Installs a whole-owner snapshot, or changes nothing. */
    method ApplyOwnerSnapshot(snap: Snapshot, dirty: set<EntityId>) returns (r: ApplyResult, d: set<EntityId>)
      requires Valid()
      modifies this
      ensures Valid() && (grid == old(grid) || fresh(grid))
      ensures r == DecideSnapshot(old(View()), at, snap)
      ensures View() == ApplySnapshot(old(View()), at, snap)
      ensures dirty <= d && (r != Applied ==> d == dirty && grid == old(grid))
      ensures DirtyComplete(old(ents), ents, self, near, d)
    {
      d := dirty;
      if snap.owner == self { return BadSource, d; }
      if snap.owner in water && snap.seqNo <= water[snap.owner] { return Ignored, d; }
      var incoming;
      r, incoming := CheckIncoming(snap);
      if r == Applied {
        d := InstallOwner(snap.owner, snap.seqNo, incoming, dirty);
      }
    }

    method InstallOwner(owner: WorkerId, seqNo: nat, inc: map<EntityId, Entity>, dirty: set<EntityId>)
      returns (d: set<EntityId>)
      requires Valid() && owner != self && IncomingOk(inc, owner)
      modifies this
      ensures Valid() && fresh(grid)
      ensures View() == InstallSnapshot(old(View()), owner, seqNo, inc)
      ensures dirty <= d && DirtyComplete(old(ents), ents, self, near, d)
    {
      var st := Stage(owner, seqNo, inc, dirty);
      d := st.dirty;
      ghost var c := View();
      forall id | Changed(ents, st.ents, id)
        ensures Marked(ents, st.ents, self, near, id, d)
      {
        StagedIsMarked(c, owner, seqNo, inc, near, st.watch, m.CellCount(), d, id);
      }
      MarkedIsComplete(ents, st.ents, self, near, d);
      Swap(owner, seqNo, inc, st);
    }

    method Stage(owner: WorkerId, seqNo: nat, inc: map<EntityId, Entity>, dirty: set<EntityId>) returns (st: Staging)
      requires Valid() && owner != self && IncomingOk(inc, owner)
      ensures fresh(st) && fresh(st.grid) && st.Ok() && st.m == m && st.grid.near == near && st.grid.at == at
      ensures st.ents == InstallSnapshot(View(), owner, seqNo, inc).ents
      ensures forall c: nat, x :: st.watch(c, x) == grid.Watched(c, x)
      ensures dirty <= st.dirty && AllCovered(View(), owner, seqNo, inc, st.watch, st.dirty)
    {
      st := new Staging(grid, ents, dirty);
      DropMissing(owner, seqNo, inc, st);
      PutIncoming(owner, seqNo, inc, st);
    }

    /** The staged copy becomes the live state. */
    method Swap(owner: WorkerId, seqNo: nat, inc: map<EntityId, Entity>, st: Staging)
      requires Valid() && owner != self && IncomingOk(inc, owner)
      requires st.Ok() && st.m == m && st.grid.near == near && st.grid.at == at
      requires st.ents == InstallSnapshot(View(), owner, seqNo, inc).ents
      requires forall c: nat, x :: st.watch(c, x) == grid.Watched(c, x)
      modifies this
      ensures Valid() && grid == st.grid
      ensures View() == InstallSnapshot(old(View()), owner, seqNo, inc)
    {
      ghost var c := View();
      forall x
        ensures x in st.ents ==> (x in inc && st.ents[x] == inc[x]) || (x in ents && st.ents[x] == ents[x])
        ensures LocalIn(st.ents, self, x) <==> LocalIn(ents, self, x)
        ensures LocalIn(ents, self, x) ==> st.ents[x] == ents[x]
      {
        InstallTouchesOneOwner(c, owner, seqNo, inc, x);
      }
      water := water[owner := seqNo];
      ents := st.ents;
      grid := st.grid;
    }

    method CheckIncoming(snap: Snapshot) returns (r: ApplyResult, inc: map<EntityId, Entity>)
      requires Valid()
      ensures r == DecideEntities(View(), at, snap, 0)
      ensures r == Applied ==> inc == Incoming(at, snap.ents, |snap.ents|) && IncomingOk(inc, snap.owner)
    {
      inc := map[];
      for i := 0 to |snap.ents|
        invariant DecideEntities(View(), at, snap, 0) == DecideEntities(View(), at, snap, i)
        invariant inc == Incoming(at, snap.ents, i) && IncomingOk(inc, snap.owner)
      {
        var e := snap.ents[i];
        IncomingKeys(at, snap.ents, i, e.id);
        var verdict, cell := CheckOne(snap, i, e.id in inc);
        if verdict != Applied { return verdict, inc; }
        inc := inc[e.id := e.(cell := cell)];
      }
      r := Applied;
    }

    method CheckOne(snap: Snapshot, i: nat, duplicate: bool) returns (r: ApplyResult, cell: nat)
      requires Valid() && i < |snap.ents|
      requires duplicate <==> exists j | 0 <= j < i :: snap.ents[j].id == snap.ents[i].id
      ensures r == DecideEntity(View(), at, snap, i)
      ensures r == Applied ==>
                && at(snap.ents[i].x, snap.ents[i].y) == Some(cell) && cell < m.CellCount()
                && snap.ents[i].owner == snap.owner && !duplicate
                && (snap.ents[i].id in ents ==> ents[snap.ents[i].id].owner == snap.owner)
    {
      var e := snap.ents[i];
      cell := 0;
      if e.id == NO_ENTITY || !ValidKind(e.kind) || e.owner != snap.owner || e.ownerSeq > snap.seqNo || duplicate {
        return Invalid, cell;
      }
      var target := m.Locate(e.x, e.y);
      if target.None? { return OutOfBounds, cell; }
      cell := target.value;
      if (e.id in ents && ents[e.id].owner != snap.owner) || (e.id in tombs && tombs[e.id].owner != snap.owner) {
        return BadSource, cell;
      }
      if e.id in ents && ents[e.id].ownerSeq <= snap.seqNo && Regresses(ents[e.id], e) { return Invalid, cell; }
      if e.id in tombs && tombs[e.id].ownerSeq <= snap.seqNo && tombs[e.id].generation >= e.generation {
        return Invalid, cell;
      }
      r := Applied;
    }

    /** Removes the owner's records that the snapshot covers and does not list. */
    method DropMissing(owner: WorkerId, seqNo: nat, inc: map<EntityId, Entity>, st: Staging)
      requires st.Ok() && st.ents == ents && st.grid != grid
      modifies st`ents, st`dirty, st.grid
      ensures st.Ok() && st.ents == Kept(View(), owner, seqNo, inc)
      ensures old(st.dirty) <= st.dirty
      ensures forall x <- ents :: Dropped(ents[x], owner, seqNo) && x !in inc ==> Covers(st.watch, ents[x].cell, st.dirty)
    {
      var todo := ents.Keys;
      while todo != {}
        invariant todo <= ents.Keys && st.Ok() && old(st.dirty) <= st.dirty
        invariant forall x :: x in st.ents <==> x in ents && (x in todo || !(Dropped(ents[x], owner, seqNo) && x !in inc))
        invariant forall x <- st.ents :: st.ents[x] == ents[x]
        invariant forall x <- ents :: x !in todo && Dropped(ents[x], owner, seqNo) && x !in inc ==>
                    Covers(st.watch, ents[x].cell, st.dirty)
        decreases todo
      {
        var x :| x in todo;
        todo := todo - {x};
        if Dropped(ents[x], owner, seqNo) && x !in inc {
          st.Remove(x);
        }
      }
    }

    /** Installs the listed records that the replica does not already know newer. */
    method PutIncoming(owner: WorkerId, seqNo: nat, inc: map<EntityId, Entity>, st: Staging)
      requires st.Ok() && st.m == m && st.ents == Kept(View(), owner, seqNo, inc) && st.grid != grid
      requires forall x <- inc :: inc[x].id == x && inc[x].cell < m.CellCount()
      modifies st`ents, st`dirty, st.grid
      ensures st.Ok() && st.ents == InstallSnapshot(View(), owner, seqNo, inc).ents
      ensures old(st.dirty) <= st.dirty
      ensures PutCovered(View(), seqNo, inc, {}, st.watch, st.dirty)
    {
      ghost var c := View();
      ghost var kept := st.ents;
      var todo := inc.Keys;
      while todo != {}
        invariant todo <= inc.Keys && st.Ok() && old(st.dirty) <= st.dirty
        invariant st.ents == Merged(c, seqNo, kept, inc, todo)
        invariant PutCovered(c, seqNo, inc, todo, st.watch, st.dirty)
        decreases todo
      {
        var x :| x in todo;
        MergedStep(c, owner, seqNo, inc, todo, x);
        ghost var before := st.dirty;
        if !((x in st.ents && st.ents[x].ownerSeq > seqNo) || (x in tombs && tombs[x].ownerSeq > seqNo)) {
          st.Put(inc[x]);
        }
        PutCoveredStep(c, seqNo, inc, todo, x, st.watch, before, st.dirty);
        todo := todo - {x};
      }
      MergedAll(c, owner, seqNo, inc);
    }
  }

  /** The cells of the listed records outside todo are covered. */
  ghost predicate PutCovered(c: Core, seqNo: nat, inc: map<EntityId, Entity>, todo: set<EntityId>,
                             watch: (nat, EntityId) -> bool, d: set<EntityId>) {
    forall x <- inc :: x !in todo && !Newer(c, x, seqNo) ==>
      Covers(watch, inc[x].cell, d) && (x in c.ents ==> Covers(watch, c.ents[x].cell, d))
  }

  lemma PutCoveredStep(c: Core, seqNo: nat, inc: map<EntityId, Entity>, todo: set<EntityId>, x: EntityId,
                       watch: (nat, EntityId) -> bool, d: set<EntityId>, d': set<EntityId>)
    requires PutCovered(c, seqNo, inc, todo, watch, d) && d <= d' && x in inc
    requires !Newer(c, x, seqNo) ==> Covers(watch, inc[x].cell, d') && (x in c.ents ==> Covers(watch, c.ents[x].cell, d'))
    ensures PutCovered(c, seqNo, inc, todo - {x}, watch, d')
  {
  }

  lemma MergedAll(c: Core, owner: WorkerId, seqNo: nat, inc: map<EntityId, Entity>)
    ensures Merged(c, seqNo, Kept(c, owner, seqNo, inc), inc, {}) == InstallSnapshot(c, owner, seqNo, inc).ents
  {
  }

  /** The staged table once the listed records outside todo have been handled. */
  ghost function Merged(c: Core, seqNo: nat, kept: map<EntityId, Entity>, inc: map<EntityId, Entity>,
                        todo: set<EntityId>): map<EntityId, Entity> {
    kept + (map x | x in inc && x !in todo && !Newer(c, x, seqNo) :: inc[x])
  }

  lemma MergedStep(c: Core, owner: WorkerId, seqNo: nat, inc: map<EntityId, Entity>, todo: set<EntityId>, x: EntityId)
    requires x in todo && x in inc
    ensures var kept := Kept(c, owner, seqNo, inc);
            && (x in Merged(c, seqNo, kept, inc, todo) <==> x in c.ents)
            && (x in c.ents ==> Merged(c, seqNo, kept, inc, todo)[x] == c.ents[x])
            && Merged(c, seqNo, kept, inc, todo - {x}) ==
               (if Newer(c, x, seqNo) then Merged(c, seqNo, kept, inc, todo)
                else Merged(c, seqNo, kept, inc, todo)[x := inc[x]])
  {
  }
}
