/** Replication under loss, duplication and reordering: what a replica knows about every other
    worker's entities is always the owner's own status at some sequence number, and that number
    never goes back. */
module AoiReplication {
  import opened Common
  import opened AoiTypes
  import opened AoiReplicaSpec
  import opened AoiHistory

  function Status(c: Core, id: EntityId): Option<Entity> {
    if id in c.ents then Some(c.ents[id]) else None
  }

  function Water(c: Core, w: WorkerId): nat {
    if w in c.water then c.water[w] else 0
  }

  function Max(a: nat, b: nat): nat { if a < b then b else a }

  /** s(id): the latest owner sequence number the replica has evidence of for this entity. */
  function KnownSeq(c: Core, id: EntityId): nat {
    Max(Water(c, id.worker),
        Max(if id in c.ents then c.ents[id].ownerSeq else 0,
            if id in c.tombs then c.tombs[id].ownerSeq else 0))
  }

  /** e is what event number e.ownerSeq of the stream installed. */
  predicate Recorded(h: History, at: Locator, id: EntityId, e: Entity) {
    && 1 <= e.ownerSeq <= |h|
    && var ev := h[e.ownerSeq - 1];
       ev.id == id && ev.kind != Leave && e == RecordOf(ev, at)
  }

  /** t is what the leave event number t.ownerSeq of the stream left behind. */
  predicate Buried(h: History, id: EntityId, t: Tombstone) {
    && 1 <= t.ownerSeq <= |h|
    && var ev := h[t.ownerSeq - 1];
       ev.id == id && ev.kind == Leave && t == TombstoneOf(ev)
  }

  predicate TracksId(c: Core, at: Locator, h: History, id: EntityId) {
    && (id in c.ents ==> Recorded(h, at, id, c.ents[id]))
    && (id in c.tombs ==> Buried(h, id, c.tombs[id]))
    && (id in c.ents && id in c.tombs ==> c.tombs[id].generation < c.ents[id].generation)
    && KnownSeq(c, id) <= |h|
    && Status(c, id) == StatusAt(h, at, KnownSeq(c, id), id)
  }

  /** The replica's remote part agrees with the owners' streams. */
  ghost predicate Tracks(c: Core, at: Locator, hs: map<WorkerId, History>) {
    && c.self !in hs
    && (forall w <- hs :: ValidHistory(hs[w], at, w))
    && (forall w <- c.water :: w in hs)
    && (forall id <- c.ents :: c.ents[id].owner == id.worker)
    && (forall id <- c.tombs :: c.tombs[id].owner == id.worker)
    && (forall id: EntityId {:trigger TracksId(c, at, hs[id.worker], id)} :: id.worker in hs ==> TracksId(c, at, hs[id.worker], id))
  }

  // ---- one delivered event -------------------------------------------------------------

  /** A published event that the replica accepts is newer than everything it knows of the entity. */
  lemma AcceptedEventIsNewer(c: Core, at: Locator, h: History, k: nat)
    requires k < |h| && ValidHistory(h, at, h[k].owner) && h[k].id.worker == h[k].owner
    requires TracksId(c, at, h, h[k].id)
    requires Decide(c, at, h[k], false) == Applied
    ensures KnownSeq(c, h[k].id) < k + 1 == h[k].ownerSeq
  {
    var id := h[k].id;
    assert LegalNext(h, at, h[k].owner, k);
    if id in c.ents {
      OrderAgainst(h, at, h[k].owner, k, c.ents[id].ownerSeq - 1);
    }
    if id in c.tombs {
      OrderAgainst(h, at, h[k].owner, k, c.tombs[id].ownerSeq - 1);
    }
  }

  lemma InstalledEventTracksId(c: Core, at: Locator, h: History, k: nat)
    requires k < |h| && h[k].ownerSeq == k + 1 && KnownSeq(c, h[k].id) < k + 1
    requires TracksId(c, at, h, h[k].id)
    requires h[k].kind != InvalidMsg
    requires h[k].id in c.tombs && h[k].kind != Leave ==> c.tombs[h[k].id].generation < h[k].generation
    ensures TracksId(Install(c, at, h[k]), at, h, h[k].id)
    ensures KnownSeq(Install(c, at, h[k]), h[k].id) == k + 1
  {
    assert LastSeq(h, k + 1, h[k].id) == k + 1;
  }

  /** Delivering any published event, at any time and any number of times, keeps its entity exact. */
  lemma DeliveredEventTracksId(c: Core, at: Locator, h: History, k: nat)
    requires k < |h| && ValidHistory(h, at, h[k].owner) && h[k].id.worker == h[k].owner
    requires TracksId(c, at, h, h[k].id)
    ensures TracksId(ApplyEvent(c, at, h[k], false), at, h, h[k].id)
    ensures KnownSeq(c, h[k].id) <= KnownSeq(ApplyEvent(c, at, h[k], false), h[k].id)
  {
    if Decide(c, at, h[k], false) == Applied {
      assert LegalNext(h, at, h[k].owner, k);
      AcceptedEventIsNewer(c, at, h, k);
      InstalledEventTracksId(c, at, h, k);
    }
  }

  /** Comparing generation and version of two events of one entity compares their numbers. */
  lemma OrderAgainst(h: History, at: Locator, w: WorkerId, k: nat, i: nat)
    requires ValidHistory(h, at, w) && k < |h| && i < |h| && h[i].id == h[k].id
    ensures i < k <==> h[i].generation < h[k].generation ||
                       (h[i].generation == h[k].generation && h[i].version < h[k].version)
    ensures i < k && h[i].kind == Leave ==> h[i].generation < h[k].generation
    ensures k < i && h[k].kind == Leave ==> h[k].generation < h[i].generation
    ensures h[i].entityKind == h[k].entityKind && h[i].businessId == h[k].businessId
  {
    if i < k {
      EventOrder(h, at, w, i, k);
    } else if k < i {
      EventOrder(h, at, w, k, i);
    }
  }

  /** An id whose record, tombstone and watermark are untouched stays exact. */
  lemma UntouchedTracksId(c: Core, c': Core, at: Locator, h: History, id: EntityId)
    requires TracksId(c, at, h, id)
    requires Status(c', id) == Status(c, id) && Water(c', id.worker) == Water(c, id.worker)
    requires id in c'.tombs <==> id in c.tombs
    requires id in c.tombs ==> c'.tombs[id] == c.tombs[id]
    ensures TracksId(c', at, h, id) && KnownSeq(c', id) == KnownSeq(c, id)
  {
  }

  /** Every id stays exact when one published event is delivered. */
  lemma EventTracksAnyId(c: Core, at: Locator, hs: map<WorkerId, History>, w: WorkerId, k: nat, id: EntityId)
    requires Tracks(c, at, hs) && w in hs && k < |hs[w]|
    ensures var c' := ApplyEvent(c, at, hs[w][k], false);
            && (id.worker in hs ==> TracksId(c', at, hs[id.worker], id))
            && KnownSeq(c, id) <= KnownSeq(c', id)
            && (id in c'.ents ==> c'.ents[id].owner == id.worker)
            && (id in c'.tombs ==> c'.tombs[id].owner == id.worker)
  {
    var h, ev := hs[w], hs[w][k];
    assert LegalNext(h, at, w, k);
    var c' := ApplyEvent(c, at, ev, false);
    if id == ev.id {
      assert TracksId(c, at, h, id);
      DeliveredEventTracksId(c, at, h, k);
    } else if id.worker in hs {
      UntouchedTracksId(c, c', at, hs[id.worker], id);
    }
  }

  lemma EventKeepsTracking(c: Core, at: Locator, hs: map<WorkerId, History>, w: WorkerId, k: nat)
    requires Tracks(c, at, hs) && w in hs && k < |hs[w]|
    ensures Tracks(ApplyEvent(c, at, hs[w][k], false), at, hs)
    ensures forall id: EntityId :: KnownSeq(c, id) <= KnownSeq(ApplyEvent(c, at, hs[w][k], false), id)
  {
    var c' := ApplyEvent(c, at, hs[w][k], false);
    assert c'.self == c.self && c'.water == c.water;
    forall id: EntityId
      ensures id.worker in hs ==> TracksId(c', at, hs[id.worker], id)
      ensures KnownSeq(c, id) <= KnownSeq(c', id)
      ensures id in c'.ents ==> c'.ents[id].owner == id.worker
      ensures id in c'.tombs ==> c'.tombs[id].owner == id.worker
    {
      EventTracksAnyId(c, at, hs, w, k, id);
    }
  }

  /** A published event is applied, ignored as old, or (a move only) asks for a snapshot; it is
      never refused as invalid, out of bounds or foreign. */
  lemma PublishedEventVerdict(c: Core, at: Locator, hs: map<WorkerId, History>, w: WorkerId, k: nat)
    requires Tracks(c, at, hs) && w in hs && k < |hs[w]|
    ensures Decide(c, at, hs[w][k], false) in {Applied, Ignored, NeedSnapshot}
    ensures Decide(c, at, hs[w][k], false) == NeedSnapshot ==> hs[w][k].kind == Move
  {
    var h, ev := hs[w], hs[w][k];
    assert LegalNext(h, at, w, k);
    assert TracksId(c, at, h, ev.id);
    if ev.id in c.ents {
      OrderAgainst(h, at, w, k, c.ents[ev.id].ownerSeq - 1);
    }
  }

  // ---- one delivered snapshot ----------------------------------------------------------

  /** snap lists, in any order, exactly what the owner held after its first k events. */
  ghost predicate SnapshotOf(h: History, at: Locator, w: WorkerId, k: nat, snap: Snapshot) {
    && k <= |h| && snap.seqNo == k && snap.owner == w
    && DistinctIds(snap.ents)
    && (forall e <- snap.ents :: StatusAt(h, at, k, e.id) == Some(e))
    && (forall id: EntityId :: StatusAt(h, at, k, id).Some? ==> StatusAt(h, at, k, id).value in snap.ents)
  }

  lemma StatusIsRecorded(h: History, at: Locator, w: WorkerId, k: nat, id: EntityId)
    requires ValidHistory(h, at, w) && k <= |h| && StatusAt(h, at, k, id).Some?
    ensures var e := StatusAt(h, at, k, id).value;
            && Recorded(h, at, id, e) && e.ownerSeq == LastSeq(h, k, id)
            && e.owner == w && id.worker == w && id != NO_ENTITY && ValidKind(e.kind)
            && at(e.x, e.y) == Some(e.cell)
  {
    assert LegalNext(h, at, w, LastSeq(h, k, id) - 1);
  }

  /** An owner's own snapshot is never refused as invalid, out of bounds or foreign. */
  lemma OwnerSnapshotEntityAccepted(c: Core, at: Locator, hs: map<WorkerId, History>, k: nat, snap: Snapshot, i: nat)
    requires Tracks(c, at, hs) && snap.owner in hs
    requires SnapshotOf(hs[snap.owner], at, snap.owner, k, snap) && i < |snap.ents|
    ensures DecideEntity(c, at, snap, i) == Applied
  {
    var w, e := snap.owner, snap.ents[i];
    var h := hs[w];
    assert e in snap.ents;
    StatusIsRecorded(h, at, w, k, e.id);
    assert TracksId(c, at, h, e.id);
    if e.id in c.ents {
      OrderAgainst(h, at, w, e.ownerSeq - 1, c.ents[e.id].ownerSeq - 1);
    }
    if e.id in c.tombs {
      OrderAgainst(h, at, w, e.ownerSeq - 1, c.tombs[e.id].ownerSeq - 1);
    }
  }

  lemma OwnerSnapshotAcceptedFrom(c: Core, at: Locator, hs: map<WorkerId, History>, k: nat, snap: Snapshot, i: nat)
    requires Tracks(c, at, hs) && snap.owner in hs
    requires SnapshotOf(hs[snap.owner], at, snap.owner, k, snap) && i <= |snap.ents|
    ensures DecideEntities(c, at, snap, i) == Applied
    decreases |snap.ents| - i
  {
    if i < |snap.ents| {
      OwnerSnapshotEntityAccepted(c, at, hs, k, snap, i);
      OwnerSnapshotAcceptedFrom(c, at, hs, k, snap, i + 1);
    }
  }

  lemma OwnerSnapshotAccepted(c: Core, at: Locator, hs: map<WorkerId, History>, k: nat, snap: Snapshot)
    requires Tracks(c, at, hs) && snap.owner in hs
    requires SnapshotOf(hs[snap.owner], at, snap.owner, k, snap)
    ensures DecideSnapshot(c, at, snap) == (if k <= Water(c, snap.owner) && snap.owner in c.water then Ignored else Applied)
  {
    OwnerSnapshotAcceptedFrom(c, at, hs, k, snap, 0);
  }

  lemma IncomingIsStatus(h: History, at: Locator, w: WorkerId, k: nat, snap: Snapshot, id: EntityId)
    requires ValidHistory(h, at, w) && SnapshotOf(h, at, w, k, snap)
    ensures var inc := Incoming(at, snap.ents, |snap.ents|);
            (if id in inc then Some(inc[id]) else None) == StatusAt(h, at, k, id)
  {
    if id in Incoming(at, snap.ents, |snap.ents|) {
      IncomingKeys(at, snap.ents, |snap.ents|, id);
      var i :| 0 <= i < |snap.ents| && snap.ents[i].id == id;
      ListedIsStatus(h, at, w, k, snap, i);
    } else if StatusAt(h, at, k, id).Some? {
      var e := StatusAt(h, at, k, id).value;
      var i :| 0 <= i < |snap.ents| && snap.ents[i] == e;
      IncomingLookup(at, snap.ents, |snap.ents|, i);
      assert false;
    }
  }

  lemma ListedIsStatus(h: History, at: Locator, w: WorkerId, k: nat, snap: Snapshot, i: nat)
    requires ValidHistory(h, at, w) && SnapshotOf(h, at, w, k, snap) && i < |snap.ents|
    ensures snap.ents[i].id in Incoming(at, snap.ents, |snap.ents|)
    ensures StatusAt(h, at, k, snap.ents[i].id) == Some(Incoming(at, snap.ents, |snap.ents|)[snap.ents[i].id])
  {
    assert snap.ents[i] in snap.ents;
    IncomingLookup(at, snap.ents, |snap.ents|, i);
    StatusIsRecorded(h, at, w, k, snap.ents[i].id);
  }

  /** What installing a snapshot does to one id. */
  lemma InstalledStatus(c: Core, w: WorkerId, k: nat, inc: map<EntityId, Entity>, id: EntityId)
    ensures var c' := InstallSnapshot(c, w, k, inc);
            && c'.tombs == c.tombs && Water(c', w) == k
            && Status(c', id) == (if id in inc && !Newer(c, id, k) then Some(inc[id])
                                  else if id in c.ents && c.ents[id].owner == w && c.ents[id].ownerSeq <= k && id !in inc then None
                                  else Status(c, id))
  {
  }

  /** A live record is newer than its entity's tombstone. */
  lemma RecordAfterTombstone(c: Core, at: Locator, h: History, w: WorkerId, id: EntityId)
    requires ValidHistory(h, at, w) && TracksId(c, at, h, id)
    requires id in c.ents && id in c.tombs
    ensures c.tombs[id].ownerSeq < c.ents[id].ownerSeq
  {
    OrderAgainst(h, at, w, c.ents[id].ownerSeq - 1, c.tombs[id].ownerSeq - 1);
  }

  /** Installing an owner's snapshot of any age keeps every entity of that owner exact. */
  lemma SnapshotTracksId(c: Core, at: Locator, h: History, w: WorkerId, k: nat, inc: map<EntityId, Entity>, id: EntityId)
    requires ValidHistory(h, at, w) && id.worker == w && k <= |h|
    requires w in c.water ==> c.water[w] < k
    requires TracksId(c, at, h, id) && (id in c.ents ==> c.ents[id].owner == w)
    requires (if id in inc then Some(inc[id]) else None) == StatusAt(h, at, k, id)
    ensures var c' := InstallSnapshot(c, w, k, inc);
            TracksId(c', at, h, id) && Max(k, KnownSeq(c, id)) == KnownSeq(c', id)
  {
    var c' := InstallSnapshot(c, w, k, inc);
    InstalledStatus(c, w, k, inc, id);
    if id in c.ents && id in c.tombs {
      RecordAfterTombstone(c, at, h, w, id);
    }
    if Newer(c, id, k) {
      assert Status(c', id) == Status(c, id);
      assert KnownSeq(c', id) == KnownSeq(c, id);
    } else {
      assert Status(c', id) == StatusAt(h, at, k, id);
      if id in inc {
        StatusIsRecorded(h, at, w, k, id);
        if id in c.tombs {
          OrderAgainst(h, at, w, inc[id].ownerSeq - 1, c.tombs[id].ownerSeq - 1);
          LastSeqCovers(h, k, id, c.tombs[id].ownerSeq);
        }
      }
      assert KnownSeq(c', id) == k;
    }
  }

  lemma LastSeqCovers(h: History, k: nat, id: EntityId, j: nat)
    requires k <= |h| && 1 <= j <= k && h[j - 1].id == id
    ensures j <= LastSeq(h, k, id)
  {
  }

  lemma SnapshotTracksAnyId(c: Core, at: Locator, hs: map<WorkerId, History>, w: WorkerId, k: nat, inc: map<EntityId, Entity>, id: EntityId)
    requires Tracks(c, at, hs) && w in hs && k <= |hs[w]|
    requires w in c.water ==> c.water[w] < k
    requires (if id in inc then Some(inc[id]) else None) == StatusAt(hs[w], at, k, id)
    ensures var c' := InstallSnapshot(c, w, k, inc);
            && (id.worker in hs ==> TracksId(c', at, hs[id.worker], id))
            && KnownSeq(c, id) <= KnownSeq(c', id)
            && (id in c'.ents ==> c'.ents[id].owner == id.worker)
  {
    var c' := InstallSnapshot(c, w, k, inc);
    InstalledStatus(c, w, k, inc, id);
    if id in inc {
      StatusIsRecorded(hs[w], at, w, k, id);
    }
    if id.worker == w {
      assert TracksId(c, at, hs[w], id);
      SnapshotTracksId(c, at, hs[w], w, k, inc, id);
    } else if id.worker in hs {
      UntouchedTracksId(c, c', at, hs[id.worker], id);
    }
  }

  lemma SnapshotKeepsTracking(c: Core, at: Locator, hs: map<WorkerId, History>, k: nat, snap: Snapshot)
    requires Tracks(c, at, hs) && snap.owner in hs
    requires SnapshotOf(hs[snap.owner], at, snap.owner, k, snap)
    ensures Tracks(ApplySnapshot(c, at, snap), at, hs)
    ensures forall id: EntityId :: KnownSeq(c, id) <= KnownSeq(ApplySnapshot(c, at, snap), id)
  {
    if DecideSnapshot(c, at, snap) == Applied {
      AcceptedSnapshotIsWellFormed(c, at, snap);
      var c' := InstallSnapshot(c, snap.owner, k, Incoming(at, snap.ents, |snap.ents|));
      assert ApplySnapshot(c, at, snap) == c';
      assert c'.self == c.self && c'.tombs == c.tombs && c'.water == c.water[snap.owner := k];
      forall id: EntityId
        ensures id.worker in hs ==> TracksId(c', at, hs[id.worker], id)
        ensures KnownSeq(c, id) <= KnownSeq(c', id)
        ensures id in c'.ents ==> c'.ents[id].owner == id.worker
      {
        IncomingIsStatus(hs[snap.owner], at, snap.owner, k, snap, id);
        SnapshotTracksAnyId(c, at, hs, snap.owner, k, Incoming(at, snap.ents, |snap.ents|), id);
      }
    }
  }

  /** Applying a snapshot taken at the owner's current number makes the replica's part for that
      owner equal to the owner's entities. */
  lemma CurrentSnapshotRepairs(c: Core, at: Locator, hs: map<WorkerId, History>, snap: Snapshot, id: EntityId)
    requires Tracks(c, at, hs) && snap.owner in hs
    requires SnapshotOf(hs[snap.owner], at, snap.owner, |hs[snap.owner]|, snap)
    requires id.worker == snap.owner
    ensures Status(ApplySnapshot(c, at, snap), id) == StatusAt(hs[snap.owner], at, |hs[snap.owner]|, id)
  {
    var w := snap.owner;
    OwnerSnapshotAccepted(c, at, hs, |hs[w]|, snap);
    SnapshotKeepsTracking(c, at, hs, |hs[w]|, snap);
    var c' := ApplySnapshot(c, at, snap);
    assert TracksId(c', at, hs[w], id);
    assert KnownSeq(c', id) == |hs[w]|;
  }

  // ---- growth of the streams and local events ------------------------------------------

  lemma ExtendedStreamTracksId(c: Core, at: Locator, h: History, ev: Event, id: EntityId)
    requires TracksId(c, at, h, id)
    ensures TracksId(c, at, h + [ev], id)
  {
    LastSeqPrefix(h, h + [ev], KnownSeq(c, id), id);
  }

  lemma OwnerAdvanceKeepsTracking(c: Core, at: Locator, hs: map<WorkerId, History>, w: WorkerId, ev: Event)
    requires Tracks(c, at, hs) && w in hs && LegalNext(hs[w] + [ev], at, w, |hs[w]|)
    ensures Tracks(c, at, hs[w := hs[w] + [ev]])
  {
    ValidExtension(hs[w], at, w, ev);
    var gs := hs[w := hs[w] + [ev]];
    forall id: EntityId | id.worker in gs
      ensures TracksId(c, at, gs[id.worker], id)
    {
      assert TracksId(c, at, hs[id.worker], id);
      if id.worker == w {
        ExtendedStreamTracksId(c, at, hs[w], ev, id);
      }
    }
  }

  /** The replica's own local events do not disturb what it knows of the others. */
  lemma LocalEventKeepsTracking(c: Core, at: Locator, hs: map<WorkerId, History>, ev: Event)
    requires Tracks(c, at, hs) && ev.id.worker == c.self
    ensures Tracks(ApplyEvent(c, at, ev, true), at, hs)
    ensures forall id: EntityId :: id.worker in hs ==> KnownSeq(c, id) == KnownSeq(ApplyEvent(c, at, ev, true), id)
  {
    var c' := ApplyEvent(c, at, ev, true);
    assert c'.water == c.water;
    forall id: EntityId | id.worker in hs
      ensures TracksId(c', at, hs[id.worker], id) && KnownSeq(c, id) == KnownSeq(c', id)
    {
      assert TracksId(c, at, hs[id.worker], id);
      UntouchedTracksId(c, c', at, hs[id.worker], id);
    }
  }
}
