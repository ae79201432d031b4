/** What a worker does for its own players: when an entry, a move or a departure takes effect, and what it
    publishes and records then. */
module AoiOwnOutcomes {
  import opened Common
  import opened AoiTypes
  import opened AoiReplicaSpec
  import opened AoiService

  /** The entity a player has, or would get. */
  function IdentityOf(k: Worker, pid: nat): LocalIdentity {
    if pid in k.ids then k.ids[pid] else LocalIdentity(EntityId(k.core.self, k.next), 0)
  }

  /** Published as the next event, and recorded; nothing else of the stream, the records or the inbox changes. */
  predicate Publishes(k: Worker, k': Worker, ev: Event, ents: map<EntityId, Entity>, tombs: map<EntityId, Tombstone>) {
    && ev.ownerSeq == |k.history| + 1 && ev.owner == k.core.self
    && k'.history == k.history + [ev] && k'.core == k.core.(ents := ents, tombs := tombs) && k'.pending == k.pending
  }

  /**
   * A player enters exactly when it has an id, its place is on the map, it is not there already (unless it re-enters),
   * and no number is used up. It is then at its place, in a new lifetime of its own entity, at version 1.
   */
  lemma EnterOutcome(k: Worker, at: Locator, p: PlayerState, reenter: bool, inside: bool)
    ensures var k', i := Entered(k, at, p, reenter, inside), IdentityOf(k, p.pid);
            var enters := p.pid != 0 && inside && 0 <= p.x && 0 <= p.y && at(p.x, p.y) != None && |k.history| < MAX_U64
                          && (p.pid !in k.ids ==> k.next != MAX_U32) && (i.id in k.core.ents ==> reenter) && i.generation != MAX_U32;
            if enters then
              && Publishes(k, k', Event(Entry, PlayerKind, i.id, p.pid, p.x, p.y, p.dir, i.generation + 1, p.epoch, 1, k.core.self, |k.history| + 1),
                           k.core.ents[i.id := Entity(i.id, PlayerKind, p.pid, p.x, p.y, p.dir, at(p.x, p.y).value,
                                                      i.generation + 1, p.epoch, 1, k.core.self, |k.history| + 1)],
                           k.core.tombs)
              && k'.ids == k.ids[p.pid := LocalIdentity(i.id, i.generation + 1)] && k'.next == (if p.pid in k.ids then k.next else k.next + 1)
            else k' == k.(ids := k'.ids, next := k'.next) && IdentityOf(k', p.pid) == i
  {
  }

  /** A player's move takes effect exactly when it is there, its new place is on the map and differs from the recorded one,
      and no number is used up. It continues the lifetime one version on. */
  lemma MoveOutcome(k: Worker, at: Locator, p: PlayerState, inside: bool)
    ensures var k', id := MovedTo(k, at, p, inside), IdentityOf(k, p.pid).id;
            if p.pid in k.ids && id in k.core.ents && inside && 0 <= p.x && 0 <= p.y && at(p.x, p.y) != None && |k.history| < MAX_U64
               && (k.core.ents[id].x, k.core.ents[id].y, k.core.ents[id].dir) != (p.x, p.y, p.dir) && k.core.ents[id].version != MAX_U64
            then
              var e := k.core.ents[id];
              e.id == id && e.owner == k.core.self ==>
                && Publishes(k, k', Event(Move, e.kind, id, e.businessId, p.x, p.y, p.dir, e.generation, p.epoch, e.version + 1, e.owner, |k.history| + 1),
                             k.core.ents[id := e.(x := p.x, y := p.y, dir := p.dir, actorEpoch := p.epoch, version := e.version + 1,
                                                  cell := at(p.x, p.y).value, ownerSeq := |k.history| + 1)],
                             k.core.tombs)
                && k'.ids == k.ids && k'.next == k.next
            else k' == k
  {
  }

  /** An entity departs exactly when it is there as the worker's own and no number is used up. Its record goes, and a
      tombstone of its last version stays. */
  lemma DepartOutcome(k: Worker, at: Locator, id: EntityId)
    ensures var k' := LeftBy(k, at, id);
            if id in k.core.ents && k.core.ents[id].owner == k.core.self && k.core.ents[id].version != MAX_U64 && |k.history| < MAX_U64 then
              var e := k.core.ents[id];
              e.id == id ==>
                && Publishes(k, k', Event(Leave, e.kind, id, e.businessId, e.x, e.y, e.dir, e.generation, e.actorEpoch, e.version + 1, e.owner, |k.history| + 1),
                             k.core.ents - {id}, k.core.tombs[id := Tombstone(e.generation, e.version + 1, |k.history| + 1, e.owner)])
                && k'.ids == k.ids && k'.next == k.next
            else k' == k
  {
  }
}
