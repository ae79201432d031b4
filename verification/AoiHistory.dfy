/** An owner's event stream, and the status of each of its entities at every sequence number. */
module AoiHistory {
  import opened Common
  import opened AoiTypes
  import opened AoiReplicaSpec

  type History = seq<Event>

  /** Sequence number of the last of the first k events that concerns id; 0 when there is none. */
  function LastSeq(h: History, k: nat, id: EntityId): (j: nat)
    requires k <= |h|
    ensures j <= k
    ensures j > 0 ==> h[j - 1].id == id
    ensures forall i | j <= i < k :: h[i].id != id
  {
    if k == 0 then 0
    else if h[k - 1].id == id then k
    else LastSeq(h, k - 1, id)
  }

  /** The owner's own record of id after its first k events: exact, or absent. */
  function StatusAt(h: History, at: Locator, k: nat, id: EntityId): Option<Entity>
    requires k <= |h|
  {
    var j := LastSeq(h, k, id);
    if j == 0 || h[j - 1].kind == Leave then None else Some(RecordOf(h[j - 1], at))
  }

  function RecordOf(ev: Event, at: Locator): Entity {
    EntityOf(ev, CellAt(at, ev.x, ev.y))
  }

  /** Event number k + 1 continues the stream the way the owner's service produces it. */
  predicate LegalNext(h: History, at: Locator, w: WorkerId, k: nat)
    requires k < |h|
  {
    var ev := h[k];
    var j := LastSeq(h, k, ev.id);
    && ev.ownerSeq == k + 1 && ev.owner == w && ev.id.worker == w && ev.id != NO_ENTITY && ValidKind(ev.entityKind)
    && (j > 0 ==> ev.entityKind == h[j - 1].entityKind && ev.businessId == h[j - 1].businessId)
    && (ev.kind != Leave ==> at(ev.x, ev.y).Some?)
    && match ev.kind
       case Entry => ev.version == 1 && ev.generation == (if j == 0 then 1 else h[j - 1].generation + 1)
       case InvalidMsg => false
       case _ => j > 0 && h[j - 1].kind != Leave && ev.generation == h[j - 1].generation && ev.version == h[j - 1].version + 1
  }

  predicate ValidHistory(h: History, at: Locator, w: WorkerId) {
    forall k | 0 <= k < |h| :: LegalNext(h, at, w, k)
  }

  /** Extending the stream does not rewrite the past. */
  lemma LastSeqPrefix(h: History, g: History, k: nat, id: EntityId)
    requires k <= |h| <= |g| && h == g[..|h|]
    ensures LastSeq(h, k, id) == LastSeq(g, k, id)
  {
    if k > 0 && h[k - 1].id != id {
      LastSeqPrefix(h, g, k - 1, id);
    }
  }

  lemma ValidExtension(h: History, at: Locator, w: WorkerId, ev: Event)
    requires ValidHistory(h, at, w)
    requires LegalNext(h + [ev], at, w, |h|)
    ensures ValidHistory(h + [ev], at, w)
  {
    var g := h + [ev];
    assert h == g[..|h|];
    forall k | 0 <= k < |g|
      ensures LegalNext(g, at, w, k)
    {
      if k < |h| {
        LastSeqPrefix(h, g, k, h[k].id);
        assert LegalNext(h, at, w, k);
      }
    }
  }

  /** Sequence order, generation and version agree on any two events of one entity; a departed
      generation never has a later event. */
  lemma EventOrder(h: History, at: Locator, w: WorkerId, i: nat, k: nat)
    requires ValidHistory(h, at, w)
    requires i < k < |h| && h[i].id == h[k].id
    ensures h[i].generation < h[k].generation ||
            (h[i].generation == h[k].generation && h[i].version < h[k].version)
    ensures h[i].kind == Leave ==> h[i].generation < h[k].generation
    ensures h[i].entityKind == h[k].entityKind && h[i].businessId == h[k].businessId
  {
    assert LegalNext(h, at, w, k);
    var j := LastSeq(h, k, h[k].id);
    assert i < j;
    if i < j - 1 {
      EventOrder(h, at, w, i, j - 1);
    }
  }
}
