/** What a replica does with any event or snapshot at all, sound or not: exactly when it takes it, what it
    then holds, and what it says otherwise. */
module AoiOutcomes {
  import opened Common
  import opened AoiTypes
  import opened AoiReplicaSpec
  import opened AoiRuns

  // ---- events --------------------------------------------------------------------------------------------------

  /** The event speaks of a real entity. */
  predicate Proper(ev: Event) { ev.kind != InvalidMsg && ev.id != NO_ENTITY && ev.entityKind != InvalidKind }

  /** A snapshot of its owner already told what the event tells. */
  predicate Covered(c: Core, ev: Event, local: bool) { !local && ev.owner in c.water && c.water[ev.owner] >= ev.ownerSeq }

  /** The replica knows the entity, dead or alive, as another worker's. */
  predicate OfAnother(c: Core, id: EntityId, owner: WorkerId) {
    (id in c.ents && c.ents[id].owner != owner) || (id in c.tombs && c.tombs[id].owner != owner)
  }

  /** The entity left in that lifetime or a later one, or is known at that version or a later one. */
  predicate Past(c: Core, ev: Event) {
    || (ev.id in c.tombs && ev.generation <= c.tombs[ev.id].generation)
    || (ev.id in c.ents && (ev.generation < c.ents[ev.id].generation
                            || (ev.generation == c.ents[ev.id].generation && ev.version <= c.ents[ev.id].version)))
  }

  predicate SameLife(c: Core, ev: Event) { ev.id in c.ents && c.ents[ev.id].generation == ev.generation }

  /** An entity cannot change what it is within a lifetime. */
  predicate Impostor(c: Core, ev: Event) {
    SameLife(c, ev) && !(c.ents[ev.id].kind == ev.entityKind && c.ents[ev.id].businessId == ev.businessId)
  }

  predicate Placed(at: Locator, ev: Event) { ev.kind == Leave || at(ev.x, ev.y) != None }

  /** Takes an event exactly when it comes from the right side, is proper and not told before, its entity is not
      another worker's, it is news, fits the lifetime it continues, has a place, and a move continues one. */
  lemma EventAppliedIff(c: Core, at: Locator, ev: Event, local: bool)
    ensures Decide(c, at, ev, local) == Applied <==>
              && (local <==> ev.owner == c.self) && Proper(ev) && !Covered(c, ev, local) && !OfAnother(c, ev.id, ev.owner)
              && !Past(c, ev) && !Impostor(c, ev) && Placed(at, ev) && (ev.kind == Move ==> SameLife(c, ev))
  {
  }

  /** Says why it does not. */
  lemma EventRefusedIff(c: Core, at: Locator, ev: Event, local: bool)
    ensures Decide(c, at, ev, local) == BadSource <==>
              (local <==> ev.owner != c.self) || (Proper(ev) && !Covered(c, ev, local) && OfAnother(c, ev.id, ev.owner))
    ensures Decide(c, at, ev, local) == Ignored <==>
              (local <==> ev.owner == c.self) && Proper(ev) && (Covered(c, ev, local) || (!OfAnother(c, ev.id, ev.owner) && Past(c, ev)))
    ensures Decide(c, at, ev, local) == Invalid <==>
              && (local <==> ev.owner == c.self)
              && (!Proper(ev) || (!Covered(c, ev, local) && !OfAnother(c, ev.id, ev.owner) && !Past(c, ev) && Impostor(c, ev)))
    ensures Decide(c, at, ev, local) == NeedSnapshot ==> ev.kind == Move && !SameLife(c, ev)
    ensures Decide(c, at, ev, local) == OutOfBounds ==> !Placed(at, ev)
  {
  }

  /** What the replica knows of one entity. */
  predicate SameAt(c: Core, c': Core, id: EntityId) {
    && (id in c'.ents <==> id in c.ents) && (id in c.ents ==> c'.ents[id] == c.ents[id])
    && (id in c'.tombs <==> id in c.tombs) && (id in c.tombs ==> c'.tombs[id] == c.tombs[id])
  }

  /** An event it takes is installed whole: an entry or a move puts its record, a leave takes the record out and
      leaves a tombstone. Nothing else changes, and nothing at all when it does not take it. */
  lemma EventOutcome(c: Core, at: Locator, ev: Event, local: bool, id: EntityId)
    ensures var c' := ApplyEvent(c, at, ev, local);
            && c'.self == c.self && c'.water == c.water && (id != ev.id || Decide(c, at, ev, local) != Applied ==> SameAt(c, c', id))
            && (Decide(c, at, ev, local) == Applied ==>
                  if ev.kind == Leave then
                    ev.id !in c'.ents && ev.id in c'.tombs && c'.tombs[ev.id] == Tombstone(ev.generation, ev.version, ev.ownerSeq, ev.owner)
                  else
                    && ev.id in c'.ents && at(ev.x, ev.y).Some?
                    && c'.ents[ev.id] == Entity(ev.id, ev.entityKind, ev.businessId, ev.x, ev.y, ev.dir, at(ev.x, ev.y).value,
                                                ev.generation, ev.actorEpoch, ev.version, ev.owner, ev.ownerSeq)
                    && c'.tombs == c.tombs)
  {
  }

  // ---- snapshots -----------------------------------------------------------------------------------------------

  /** A record of the snapshot's owner, up to its number, with a place on the map. */
  predicate Sound(at: Locator, snap: Snapshot, e: Entity) {
    && e.id != NO_ENTITY && e.kind != InvalidKind && e.owner == snap.owner && e.ownerSeq <= snap.seqNo && at(e.x, e.y) != None
  }

  /** The record does not take back anything the replica knows from before the snapshot. */
  predicate Advances(c: Core, snap: Snapshot, e: Entity) {
    && (e.id in c.ents && c.ents[e.id].ownerSeq <= snap.seqNo ==>
          var was := c.ents[e.id];
          || was.generation < e.generation
          || (was.generation == e.generation && was.version <= e.version && was.kind == e.kind && was.businessId == e.businessId))
    && (e.id in c.tombs && c.tombs[e.id].ownerSeq <= snap.seqNo ==> c.tombs[e.id].generation < e.generation)
  }

  predicate Fits(c: Core, at: Locator, snap: Snapshot, e: Entity) {
    Sound(at, snap, e) && !OfAnother(c, e.id, snap.owner) && Advances(c, snap, e)
  }

  lemma {:induction false} AllFit(c: Core, at: Locator, snap: Snapshot, i: nat)
    requires i <= |snap.ents|
    ensures DecideEntities(c, at, snap, i) == Applied <==>
              forall j :: i <= j < |snap.ents| ==> Fits(c, at, snap, snap.ents[j]) && forall k :: 0 <= k < j ==> snap.ents[k].id != snap.ents[j].id
    decreases |snap.ents| - i
  {
    if i < |snap.ents| {
      AllFit(c, at, snap, i + 1);
      FitsIff(c, at, snap, i);
    }
  }

  lemma FitsIff(c: Core, at: Locator, snap: Snapshot, i: nat)
    requires i < |snap.ents|
    ensures DecideEntity(c, at, snap, i) == Applied <==>
              Fits(c, at, snap, snap.ents[i]) && forall k :: 0 <= k < i ==> snap.ents[k].id != snap.ents[i].id
  {
  }

  /** Takes a snapshot exactly when it is another worker's, newer than the last one taken, lists no entity twice, and
      every record in it fits: all of it or nothing. */
  lemma SnapshotAppliedIff(c: Core, at: Locator, snap: Snapshot)
    ensures DecideSnapshot(c, at, snap) == Applied <==>
              && snap.owner != c.self && (snap.owner in c.water ==> snap.seqNo > c.water[snap.owner])
              && (forall e <- snap.ents :: Fits(c, at, snap, e)) && DistinctIds(snap.ents)
    ensures DecideSnapshot(c, at, snap) == BadSource <== snap.owner == c.self
    ensures DecideSnapshot(c, at, snap) == Ignored <==> snap.owner != c.self && snap.owner in c.water && snap.seqNo <= c.water[snap.owner]
    ensures DecideSnapshot(c, at, snap) != Applied ==> ApplySnapshot(c, at, snap) == c
  {
    AllFit(c, at, snap, 0);
    NotIgnored(c, at, snap, 0);
    if forall e <- snap.ents :: Fits(c, at, snap, e) {
      forall j | 0 <= j < |snap.ents| ensures Fits(c, at, snap, snap.ents[j]) {}
    }
  }

  lemma {:induction false} NotIgnored(c: Core, at: Locator, snap: Snapshot, i: nat)
    requires i <= |snap.ents|
    ensures DecideEntities(c, at, snap, i) != Ignored
    decreases |snap.ents| - i
  {
    if i < |snap.ents| { NotIgnored(c, at, snap, i + 1); }
  }

  /** The replica heard of the entity after the snapshot was made. */
  predicate HeardLater(c: Core, id: EntityId, seqNo: nat) {
    (id in c.ents && c.ents[id].ownerSeq > seqNo) || (id in c.tombs && c.tombs[id].ownerSeq > seqNo)
  }

  /** A snapshot it takes: what it heard later stays; otherwise the entity is as listed, on its cell; or, not listed, it
      is gone if it was the owner's, and stays if not. Tombstones stay, and the snapshot's number is noted. */
  lemma SnapshotOutcome(c: Core, at: Locator, snap: Snapshot, id: EntityId)
    requires DecideSnapshot(c, at, snap) == Applied
    ensures var c' := ApplySnapshot(c, at, snap);
            c'.self == c.self && c'.tombs == c.tombs && c'.water == c.water[snap.owner := snap.seqNo]
    ensures var c' := ApplySnapshot(c, at, snap);
            forall i :: 0 <= i < |snap.ents| && snap.ents[i].id == id ==>
              if HeardLater(c, id, snap.seqNo) then SameAt(c, c', id)
              else
                var e := snap.ents[i];
                id in c'.ents && at(e.x, e.y).Some? && c'.ents[id] == e.(cell := at(e.x, e.y).value)
    ensures var c' := ApplySnapshot(c, at, snap);
            (forall e <- snap.ents :: e.id != id) ==>
              if id in c.ents && c.ents[id].owner == snap.owner && c.ents[id].ownerSeq <= snap.seqNo then id !in c'.ents
              else SameAt(c, c', id)
  {
    var n := |snap.ents|;
    AcceptedSnapshotIsWellFormed(c, at, snap);
    IncomingKeys(at, snap.ents, n, id);
    forall i | 0 <= i < n && snap.ents[i].id == id ensures id in Incoming(at, snap.ents, n) && Incoming(at, snap.ents, n)[id] == Normalized(at, snap.ents[i]) {
      IncomingLookup(at, snap.ents, n, i);
    }
  }

  // ---- the worker's inbox ----------------------------------------------------------------------------------------

  /** From another worker, speaking of its own entities. */
  predicate Trusted(self: WorkerId, sender: WorkerId, owner: WorkerId) { sender == owner && owner != self }

  predicate Later(ev: Event, was: Event) { was.generation < ev.generation || (was.generation == ev.generation && was.version < ev.version) }

  /** The move may wait: it is proper, on the map, and no other worker's move of the entity waits. */
  predicate MayWait(b: Inbox, inside: bool, ev: Event) {
    ev.id != NO_ENTITY && ev.entityKind != InvalidKind && inside && (ev.id in b.pending ==> b.pending[ev.id].owner == ev.owner)
  }

  /** A move waits for the tick in place of an earlier one of its entity; it is ignored exactly when a later one, or the
      same, waits already, and rejected when it may not wait. The records stay. */
  lemma MoveOutcome(b: Inbox, at: Locator, inside: bool, sender: WorkerId, ev: Event)
    requires ev.kind == Move
    ensures var (b', r) := OnRemoteEvent(b, at, inside, sender, ev);
            if Trusted(b.core.self, sender, ev.owner) && MayWait(b, inside, ev) then
              if ev.id in b.pending && !Later(ev, b.pending[ev.id]) then b' == b && r == RemoteIgnored
              else b' == b.(pending := b.pending[ev.id := ev]) && r == Queued
            else b' == b && r == Rejected
  {
  }

  /** The event makes a waiting move of its entity pointless. */
  predicate Overtakes(ev: Event, move: Event) {
    move.owner == ev.owner && (ev.kind == Leave ==> move.generation <= ev.generation) && (ev.kind != Leave ==> !Later(move, ev))
  }

  /** Entries and leaves are offered to the replica at once. One that is applied takes with it a waiting move of its
      entity that it overtakes; nothing else leaves the inbox. */
  lemma EntryOutcome(b: Inbox, at: Locator, inside: bool, sender: WorkerId, ev: Event, id: EntityId)
    requires ev.kind != Move
    ensures var (b', r) := OnRemoteEvent(b, at, inside, sender, ev);
            if !Trusted(b.core.self, sender, ev.owner) then b' == b && r == Rejected
            else
              var d := Decide(b.core, at, ev, false);
              && b'.core == ApplyEvent(b.core, at, ev, false)
              && r == (if d == Applied then RemoteApplied else if d == Ignored then RemoteIgnored else Rejected)
              && (id in b'.pending <==> id in b.pending && !(d == Applied && id == ev.id && Overtakes(ev, b.pending[id])))
              && (id in b'.pending ==> b'.pending[id] == b.pending[id])
  {
  }

  /** A trusted snapshot is offered to the replica; one that is applied takes with it exactly the waiting moves of its
      owner that it covers. */
  lemma InboxSnapshotOutcome(b: Inbox, at: Locator, sender: WorkerId, snap: Snapshot, id: EntityId)
    ensures var b' := OnSnapshot(b, at, sender, snap);
            if !Trusted(b.core.self, sender, snap.owner) then b' == b
            else
              && b'.core == ApplySnapshot(b.core, at, snap)
              && (id in b'.pending <==> id in b.pending && !(DecideSnapshot(b.core, at, snap) == Applied && b.pending[id].owner == snap.owner && b.pending[id].ownerSeq <= snap.seqNo))
              && (id in b'.pending ==> b'.pending[id] == b.pending[id])
  {
  }
}
