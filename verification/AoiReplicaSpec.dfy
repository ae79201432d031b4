/** What one delivery does to a replica's records: the values of `ents_`, `tombstones_` and
    `ownerSnapshotSeq_` before and after, without the grid. */
module AoiReplicaSpec {
  import opened Common
  import opened AoiTypes

  datatype Core = Core(
    self: WorkerId,
    ents: map<EntityId, Entity>,
    tombs: map<EntityId, Tombstone>,
    water: map<WorkerId, nat>)

  /** Position to cell; None when the map does not hold the position. */
  type Locator = (nat, nat) -> Option<nat>

  /** The record an entry or move event installs. */
  function EntityOf(ev: Event, cell: nat): Entity {
    Entity(ev.id, ev.entityKind, ev.businessId, ev.x, ev.y, ev.dir, cell,
           ev.generation, ev.actorEpoch, ev.version, ev.owner, ev.ownerSeq)
  }

  function TombstoneOf(ev: Event): Tombstone {
    Tombstone(ev.generation, ev.version, ev.ownerSeq, ev.owner)
  }

  /** The outcome of offering one event, checked in the order the replica checks it. */
  function Decide(c: Core, at: Locator, ev: Event, local: bool): ApplyResult {
    if local != (ev.owner == c.self) then BadSource
    else if ev.kind == InvalidMsg || ev.id == NO_ENTITY || !ValidKind(ev.entityKind) then Invalid
    else if !local && ev.owner in c.water && ev.ownerSeq <= c.water[ev.owner] then Ignored
    else if (ev.id in c.ents && c.ents[ev.id].owner != ev.owner) ||
            (ev.id in c.tombs && c.tombs[ev.id].owner != ev.owner) then BadSource
    else if ev.id in c.tombs && c.tombs[ev.id].generation >= ev.generation then Ignored
    else if ev.id in c.ents && Stale(c.ents[ev.id], ev) then Ignored
    else if ev.id in c.ents && ev.generation == c.ents[ev.id].generation &&
            (ev.entityKind != c.ents[ev.id].kind || ev.businessId != c.ents[ev.id].businessId) then Invalid
    else if ev.kind != Leave && at(ev.x, ev.y).None? then OutOfBounds
    else if ev.kind == Move && (ev.id !in c.ents || ev.generation != c.ents[ev.id].generation) then NeedSnapshot
    else Applied
  }

  predicate Stale(was: Entity, ev: Event) {
    ev.generation < was.generation || (ev.generation == was.generation && ev.version <= was.version)
  }

  /** The records after an event that Decide accepts. */
  function Install(c: Core, at: Locator, ev: Event): Core {
    if ev.kind == Leave then
      c.(ents := c.ents - {ev.id}, tombs := c.tombs[ev.id := TombstoneOf(ev)])
    else
      c.(ents := c.ents[ev.id := EntityOf(ev, CellAt(at, ev.x, ev.y))])
  }

  function ApplyEvent(c: Core, at: Locator, ev: Event, local: bool): Core {
    if Decide(c, at, ev, local) == Applied then Install(c, at, ev) else c
  }

  /** Why one entity of a snapshot is refused; Applied when it is not. */
  function DecideEntity(c: Core, at: Locator, snap: Snapshot, i: nat): ApplyResult
    requires i < |snap.ents|
  {
    var e := snap.ents[i];
    if e.id == NO_ENTITY || !ValidKind(e.kind) || e.owner != snap.owner || e.ownerSeq > snap.seqNo ||
       (exists j | 0 <= j < i :: snap.ents[j].id == e.id) then Invalid
    else if at(e.x, e.y).None? then OutOfBounds
    else if (e.id in c.ents && c.ents[e.id].owner != snap.owner) ||
            (e.id in c.tombs && c.tombs[e.id].owner != snap.owner) then BadSource
    else if e.id in c.ents && c.ents[e.id].ownerSeq <= snap.seqNo && Regresses(c.ents[e.id], e) then Invalid
    else if e.id in c.tombs && c.tombs[e.id].ownerSeq <= snap.seqNo &&
            c.tombs[e.id].generation >= e.generation then Invalid
    else Applied
  }

  predicate Regresses(was: Entity, e: Entity) {
    || was.generation > e.generation
    || (was.generation == e.generation &&
        (was.version > e.version || was.kind != e.kind || was.businessId != e.businessId))
  }

  /** The verdict of the first refused entity from position i on. */
  function DecideEntities(c: Core, at: Locator, snap: Snapshot, i: nat): ApplyResult
    requires i <= |snap.ents|
    decreases |snap.ents| - i
  {
    if i == |snap.ents| then Applied
    else if DecideEntity(c, at, snap, i) != Applied then DecideEntity(c, at, snap, i)
    else DecideEntities(c, at, snap, i + 1)
  }

  function DecideSnapshot(c: Core, at: Locator, snap: Snapshot): ApplyResult {
    if snap.owner == c.self then BadSource
    else if snap.owner in c.water && snap.seqNo <= c.water[snap.owner] then Ignored
    else DecideEntities(c, at, snap, 0)
  }

  /** The cell of a position, for positions the map holds. */
  function CellAt(at: Locator, x: nat, y: nat): nat {
    if at(x, y).Some? then at(x, y).value else 0
  }

  function Normalized(at: Locator, e: Entity): Entity {
    e.(cell := CellAt(at, e.x, e.y))
  }

  predicate DistinctIds(ents: seq<Entity>) {
    forall i, j | 0 <= i < j < |ents| :: ents[i].id != ents[j].id
  }

  /** The first n entities of a snapshot by id, with their cells recomputed. */
  function Incoming(at: Locator, ents: seq<Entity>, n: nat): map<EntityId, Entity>
    requires n <= |ents|
  {
    if n == 0 then map[] else Incoming(at, ents, n - 1)[ents[n - 1].id := Normalized(at, ents[n - 1])]
  }

  lemma {:induction false} IncomingLookup(at: Locator, ents: seq<Entity>, n: nat, i: nat)
    requires DistinctIds(ents) && i < n <= |ents|
    ensures ents[i].id in Incoming(at, ents, n)
    ensures Incoming(at, ents, n)[ents[i].id] == Normalized(at, ents[i])
  {
    if i < n - 1 {
      IncomingLookup(at, ents, n - 1, i);
    }
  }

  lemma {:induction false} IncomingKeys(at: Locator, ents: seq<Entity>, n: nat, id: EntityId)
    requires n <= |ents|
    ensures id in Incoming(at, ents, n) <==> exists i | 0 <= i < n :: ents[i].id == id
  {
    if n > 0 {
      IncomingKeys(at, ents, n - 1, id);
      assert (exists i | 0 <= i < n :: ents[i].id == id) <==> (exists i | 0 <= i < n - 1 :: ents[i].id == id) || ents[n - 1].id == id;
    }
  }

  /** The snapshot does not touch this id: the replica already holds something newer. */
  predicate Newer(c: Core, id: EntityId, seqNo: nat) {
    || (id in c.ents && c.ents[id].ownerSeq > seqNo)
    || (id in c.tombs && c.tombs[id].ownerSeq > seqNo)
  }

  /** A record the snapshot speaks about: it goes unless the snapshot lists it. */
  predicate Dropped(e: Entity, owner: WorkerId, seqNo: nat) {
    e.owner == owner && e.ownerSeq <= seqNo
  }

  function InstallSnapshot(c: Core, owner: WorkerId, seqNo: nat, inc: map<EntityId, Entity>): Core {
    var dropped := set id | id in c.ents && Dropped(c.ents[id], owner, seqNo) && id !in inc;
    var put := map id | id in inc && !Newer(c, id, seqNo) :: inc[id];
    c.(ents := (c.ents - dropped) + put, water := c.water[owner := seqNo])
  }

  /** Installing one owner's records leaves every other owner's records as they were. */
  lemma InstallTouchesOneOwner(c: Core, owner: WorkerId, seqNo: nat, inc: map<EntityId, Entity>, id: EntityId)
    requires id in inc ==> inc[id].owner == owner && (id in c.ents ==> c.ents[id].owner == owner)
    ensures var after := InstallSnapshot(c, owner, seqNo, inc).ents;
            && (id in after ==> (id in inc && after[id] == inc[id]) || (id in c.ents && after[id] == c.ents[id]))
            && (id in c.ents && c.ents[id].owner != owner ==> id in after && after[id] == c.ents[id])
            && (id in after && after[id].owner != owner ==> id in c.ents && after[id] == c.ents[id])
  {
  }

  lemma AcceptedSnapshot(c: Core, at: Locator, snap: Snapshot, i: nat)
    requires i <= |snap.ents| && DecideEntities(c, at, snap, i) == Applied
    ensures forall j | i <= j < |snap.ents| :: DecideEntity(c, at, snap, j) == Applied
    decreases |snap.ents| - i
  {
    if i < |snap.ents| {
      AcceptedSnapshot(c, at, snap, i + 1);
    }
  }

  lemma AcceptedSnapshotIsWellFormed(c: Core, at: Locator, snap: Snapshot)
    requires DecideSnapshot(c, at, snap) == Applied
    ensures DistinctIds(snap.ents)
    ensures forall e <- snap.ents :: at(e.x, e.y).Some?
  {
    AcceptedSnapshot(c, at, snap, 0);
    forall e | e in snap.ents
      ensures at(e.x, e.y).Some?
    {
      var i :| 0 <= i < |snap.ents| && snap.ents[i] == e;
      assert DecideEntity(c, at, snap, i) == Applied;
    }
    forall i, j | 0 <= i < j < |snap.ents|
      ensures snap.ents[i].id != snap.ents[j].id
    {
      assert DecideEntity(c, at, snap, j) == Applied;
    }
  }

  function ApplySnapshot(c: Core, at: Locator, snap: Snapshot): Core {
    if DecideSnapshot(c, at, snap) != Applied then c
    else InstallSnapshot(c, snap.owner, snap.seqNo, Incoming(at, snap.ents, |snap.ents|))
  }
}
