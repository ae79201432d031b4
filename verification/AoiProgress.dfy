/** What a delivery is bound to do: which published events a replica takes, and that a stream delivered
    in order makes the replica the owner's current status. */
module AoiProgress {
  import opened AoiTypes
  import opened AoiReplicaSpec
  import opened AoiHistory
  import opened AoiReplication
  import opened AoiRuns

  /** The event is newer than all the replica knows of its entity, and a move finds the record it moves. */
  predicate Due(c: Core, ev: Event, k: nat) {
    && KnownSeq(c, ev.id) < k + 1
    && (ev.kind == Move ==> ev.id in c.ents && c.ents[ev.id].generation == ev.generation)
  }

  lemma DueIsApplied(c: Core, at: Locator, hs: map<WorkerId, History>, w: WorkerId, k: nat)
    requires Tracks(c, at, hs) && w in hs && k < |hs[w]|
    ensures Decide(c, at, hs[w][k], false) == (if KnownSeq(c, hs[w][k].id) >= k + 1 then Ignored
                                              else if Due(c, hs[w][k], k) then Applied else NeedSnapshot)
  {
    var h, ev := hs[w], hs[w][k];
    assert LegalNext(h, at, w, k);
    assert TracksId(c, at, h, ev.id);
    if ev.id in c.ents { OrderAgainst(h, at, w, k, c.ents[ev.id].ownerSeq - 1); }
    if ev.id in c.tombs { OrderAgainst(h, at, w, k, c.tombs[ev.id].ownerSeq - 1); }
  }

  lemma LeavesOther(c: Core, at: Locator, x: Event, id: EntityId)
    requires x.id != id
    ensures Status(ApplyEvent(c, at, x, false), id) == Status(c, id) && KnownSeq(ApplyEvent(c, at, x, false), id) == KnownSeq(c, id)
  {
  }

  /** Exactly the due events are taken: the replica then has the owner's status right after that event,
      and nothing else changes. Any other published event changes nothing at all. */
  lemma EventIsTakenIff(c: Core, at: Locator, hs: map<WorkerId, History>, w: WorkerId, k: nat, id: EntityId)
    requires Tracks(c, at, hs) && w in hs && k < |hs[w]|
    ensures var ev, c' := hs[w][k], ApplyEvent(c, at, hs[w][k], false);
            && (if !Due(c, ev, k) then c' == c
                else Status(c', ev.id) == StatusAt(hs[w], at, k + 1, ev.id) && KnownSeq(c', ev.id) == k + 1)
            && (id != ev.id ==> Status(c', id) == Status(c, id) && KnownSeq(c', id) == KnownSeq(c, id))
  {
    DueIsApplied(c, at, hs, w, k);
    var ev := hs[w][k];
    assert LegalNext(hs[w], at, w, k);
    assert TracksId(c, at, hs[w], ev.id);
    DeliveredEventTracksId(c, at, hs[w], k);
    if id != ev.id { LeavesOther(c, at, ev, id); }
  }

  // ---- a stream delivered in order ----------------------------------------------------------------

  /** Up to event i of the owner's stream the inbox has missed nothing of this entity: either the replica
      has its status, or the entity's last event is a move that waits for the tick and will be taken. */
  predicate CaughtUp(b: Inbox, at: Locator, h: History, i: nat, id: EntityId)
    requires i <= |h|
  {
    && KnownSeq(b.core, id) <= i
    && (if id in b.pending then
          var j := LastSeq(h, i, id);
          j > 0 && b.pending[id] == h[j - 1] && h[j - 1].kind == Move && Due(b.core, h[j - 1], j - 1)
        else Status(b.core, id) == StatusAt(h, at, i, id))
  }

  /** The owner's events from number i up to n, delivered in order. */
  function InOrder(w: WorkerId, i: nat, n: nat): seq<Step>
    decreases n - i
  {
    if i >= n then [] else [DeliverEvent(w, i, true)] + InOrder(w, i + 1, n)
  }

  ghost predicate AllCaughtUp(s: World, at: Locator, w: WorkerId, i: nat)
    requires w in s.hs && i <= |s.hs[w]|
  {
    forall id: EntityId :: id.worker == w ==> CaughtUp(s.inbox, at, s.hs[w], i, id)
  }

  lemma OtherStaysCaughtUp(b: Inbox, at: Locator, hs: map<WorkerId, History>, w: WorkerId, i: nat, id: EntityId)
    requires Tracks(b.core, at, hs) && w in hs && i < |hs[w]| && hs[w][i].id != id && id.worker == w
    requires CaughtUp(b, at, hs[w], i, id)
    ensures CaughtUp(OnRemoteEvent(b, at, true, w, hs[w][i]).0, at, hs[w], i + 1, id)
  {
    LeavesOther(b.core, at, hs[w][i], id);
  }

  /** The last event before number i of an entity with a waiting move is that move. */
  lemma WaitingIsLast(b: Inbox, at: Locator, hs: map<WorkerId, History>, w: WorkerId, i: nat)
    requires Tracks(b.core, at, hs) && w in hs && i < |hs[w]| && CaughtUp(b, at, hs[w], i, hs[w][i].id)
    ensures b.core.self != w == hs[w][i].owner && hs[w][i].id != NO_ENTITY && ValidKind(hs[w][i].entityKind)
    ensures hs[w][i].id in b.pending ==>
              var was := b.pending[hs[w][i].id];
              was.owner == w && was.generation <= hs[w][i].generation
              && (hs[w][i].kind == Entry ==> was.generation < hs[w][i].generation)
              && (was.generation == hs[w][i].generation ==> was.version < hs[w][i].version)
  {
    var h, id := hs[w], hs[w][i].id;
    assert LegalNext(h, at, w, i);
    if id in b.pending { assert LegalNext(h, at, w, LastSeq(h, i, id) - 1); }
  }

  lemma MoveIsQueued(b: Inbox, at: Locator, hs: map<WorkerId, History>, w: WorkerId, i: nat)
    requires Tracks(b.core, at, hs) && w in hs && i < |hs[w]| && hs[w][i].kind == Move
    requires CaughtUp(b, at, hs[w], i, hs[w][i].id)
    ensures OnRemoteEvent(b, at, true, w, hs[w][i]).0 == b.(pending := b.pending[hs[w][i].id := hs[w][i]])
    ensures Due(b.core, hs[w][i], i)
  {
    WaitingIsLast(b, at, hs, w, i);
    assert LegalNext(hs[w], at, w, i);
  }

  lemma OtherIsTaken(b: Inbox, at: Locator, hs: map<WorkerId, History>, w: WorkerId, i: nat)
    requires Tracks(b.core, at, hs) && w in hs && i < |hs[w]| && hs[w][i].kind != Move
    requires CaughtUp(b, at, hs[w], i, hs[w][i].id)
    ensures var b' := OnRemoteEvent(b, at, true, w, hs[w][i]).0;
            b'.core == ApplyEvent(b.core, at, hs[w][i], false) && b'.pending == b.pending - {hs[w][i].id} && Due(b.core, hs[w][i], i)
  {
    WaitingIsLast(b, at, hs, w, i);
    DueIsApplied(b.core, at, hs, w, i);
    assert LegalNext(hs[w], at, w, i);
  }

  lemma DeliveredIsCaughtUp(b: Inbox, at: Locator, hs: map<WorkerId, History>, w: WorkerId, i: nat)
    requires Tracks(b.core, at, hs) && w in hs && i < |hs[w]|
    requires CaughtUp(b, at, hs[w], i, hs[w][i].id)
    ensures CaughtUp(OnRemoteEvent(b, at, true, w, hs[w][i]).0, at, hs[w], i + 1, hs[w][i].id)
  {
    if hs[w][i].kind == Move {
      MoveIsQueued(b, at, hs, w, i);
    } else {
      OtherIsTaken(b, at, hs, w, i);
      EventIsTakenIff(b.core, at, hs, w, i, hs[w][i].id);
    }
  }

  /** One more event in order, and nothing is missed. */
  lemma DeliveryKeepsUp(s: World, at: Locator, w: WorkerId, i: nat)
    requires Good(s, at) && w in s.hs && i < |s.hs[w]| && AllCaughtUp(s, at, w, i)
    ensures AllCaughtUp(Next(s, at, DeliverEvent(w, i, true)), at, w, i + 1)
  {
    assert LegalNext(s.hs[w], at, w, i);
    forall id: EntityId | id.worker == w
      ensures CaughtUp(OnRemoteEvent(s.inbox, at, true, w, s.hs[w][i]).0, at, s.hs[w], i + 1, id)
    {
      assert CaughtUp(s.inbox, at, s.hs[w], i, id);
      if id == s.hs[w][i].id { DeliveredIsCaughtUp(s.inbox, at, s.hs, w, i); } else { OtherStaysCaughtUp(s.inbox, at, s.hs, w, i, id); }
    }
  }

  lemma {:induction false} InOrderKeepsUp(s: World, at: Locator, w: WorkerId, i: nat)
    requires Good(s, at) && w in s.hs && i <= |s.hs[w]| && AllCaughtUp(s, at, w, i)
    ensures var r := Run(s, at, InOrder(w, i, |s.hs[w]|));
            Good(r, at) && r.hs == s.hs && AllCaughtUp(r, at, w, |s.hs[w]|)
    decreases |s.hs[w]| - i
  {
    if i < |s.hs[w]| {
      var s' := Next(s, at, DeliverEvent(w, i, true));
      DeliveryKeepsUp(s, at, w, i);
      StepKeepsGood(s, at, DeliverEvent(w, i, true));
      assert s'.hs == s.hs;
      InOrderKeepsUp(s', at, w, i + 1);
    }
  }

  // ---- the tick -----------------------------------------------------------------------------------

  /** A replica with the entity's status at the end of the stream keeps it through any more of its moves. */
  lemma {:induction false} FlushKeepsStatus(c: Core, at: Locator, hs: map<WorkerId, History>, moves: seq<Event>, id: EntityId, n: nat)
    requires Tracks(c, at, hs) && (forall m <- moves :: Published(hs, m)) && id.worker in hs && n <= |hs[id.worker]|
    requires Status(c, id) == StatusAt(hs[id.worker], at, n, id) && (forall m <- moves :: m.id == id ==> m.ownerSeq <= KnownSeq(c, id))
    ensures Status(FlushMoves(c, at, moves), id) == StatusAt(hs[id.worker], at, n, id)
    decreases |moves|
  {
    if moves != [] {
      var m := moves[0];
      assert Published(hs, m);
      EventIsTakenIff(c, at, hs, m.owner, m.ownerSeq - 1, id);
      PublishedKeepsTracking(c, at, hs, m);
      FlushKeepsStatus(ApplyEvent(c, at, m, false), at, hs, moves[1..], id, n);
    }
  }

  lemma {:induction false} FlushTakes(c: Core, at: Locator, hs: map<WorkerId, History>, moves: seq<Event>, m: Event)
    requires Tracks(c, at, hs) && (forall x <- moves :: Published(hs, x)) && m in moves && Published(hs, m)
    requires Due(c, m, m.ownerSeq - 1) && (forall x <- moves :: x.id == m.id ==> x == m)
    ensures Status(FlushMoves(c, at, moves), m.id) == StatusAt(hs[m.owner], at, m.ownerSeq, m.id)
    decreases |moves|
  {
    var c' := ApplyEvent(c, at, moves[0], false);
    PublishedKeepsTracking(c, at, hs, moves[0]);
    if moves[0] == m {
      TakesOne(c, at, hs, m);
      FlushKeepsStatus(c', at, hs, moves[1..], m.id, m.ownerSeq);
    } else {
      LeavesOther(c, at, moves[0], m.id);
      FlushTakes(c', at, hs, moves[1..], m);
    }
  }

  lemma TakesOne(c: Core, at: Locator, hs: map<WorkerId, History>, m: Event)
    requires Tracks(c, at, hs) && Published(hs, m) && Due(c, m, m.ownerSeq - 1)
    ensures m.id.worker == m.owner && KnownSeq(ApplyEvent(c, at, m, false), m.id) == m.ownerSeq
    ensures Status(ApplyEvent(c, at, m, false), m.id) == StatusAt(hs[m.owner], at, m.ownerSeq, m.id)
  {
    assert LegalNext(hs[m.owner], at, m.owner, m.ownerSeq - 1);
    EventIsTakenIff(c, at, hs, m.owner, m.ownerSeq - 1, m.id);
  }

  /** The tick's table walk: every waiting move, and nothing else. */
  ghost predicate ListsWaiting(moves: seq<Event>, pending: map<EntityId, Event>) {
    && (forall m <- moves :: m.id in pending && pending[m.id] == m)
    && (forall id <- pending :: pending[id] in moves)
  }

  lemma LastOfLast(h: History, n: nat, id: EntityId)
    requires n <= |h|
    ensures LastSeq(h, LastSeq(h, n, id), id) == LastSeq(h, n, id)
  {
  }

  lemma TickCatchesUp(s: World, at: Locator, w: WorkerId, moves: seq<Event>, id: EntityId)
    requires Good(s, at) && w in s.hs && CaughtUp(s.inbox, at, s.hs[w], |s.hs[w]|, id) && id.worker == w
    requires ListsWaiting(moves, s.inbox.pending)
    ensures Status(FlushMoves(s.inbox.core, at, moves), id) == StatusAt(s.hs[w], at, |s.hs[w]|, id)
  {
    var b, h := s.inbox, s.hs[w];
    forall m | m in moves ensures Published(s.hs, m) { assert Published(s.hs, b.pending[m.id]); }
    LastOfLast(h, |h|, id);
    if id in b.pending {
      assert LegalNext(h, at, w, LastSeq(h, |h|, id) - 1);
      FlushTakes(b.core, at, s.hs, moves, b.pending[id]);
    } else {
      FlushKeepsStatus(b.core, at, s.hs, moves, id, |h|);
    }
  }

  /** Once nothing has been missed up to some event, delivering the rest of the owner's stream in order and
      then ticking makes the replica's part for that owner the owner's own current status. */
  lemma InOrderIsCurrent(s: World, at: Locator, w: WorkerId, i: nat, moves: seq<Event>, id: EntityId)
    requires Good(s, at) && w in s.hs && i <= |s.hs[w]| && AllCaughtUp(s, at, w, i) && id.worker == w
    requires ListsWaiting(moves, Run(s, at, InOrder(w, i, |s.hs[w]|)).inbox.pending)
    ensures Status(Next(Run(s, at, InOrder(w, i, |s.hs[w]|)), at, Tick(moves)).inbox.core, id)
         == StatusAt(s.hs[w], at, |s.hs[w]|, id)
  {
    InOrderKeepsUp(s, at, w, i);
    TickCatchesUp(Run(s, at, InOrder(w, i, |s.hs[w]|)), at, w, moves, id);
  }

  /** A replica that has heard nothing of an owner has missed nothing before its first event. */
  lemma SilenceIsCaughtUp(s: World, at: Locator, w: WorkerId)
    requires w in s.hs && w !in s.inbox.core.water
    requires forall id: EntityId :: id.worker == w ==> id !in s.inbox.core.ents && id !in s.inbox.core.tombs && id !in s.inbox.pending
    ensures AllCaughtUp(s, at, w, 0)
  {
  }

  /** A snapshot at least as new as everything heard of its owner leaves nothing missed up to its number. */
  lemma SnapshotCatchesUp(s: World, at: Locator, w: WorkerId, k: nat, snap: Snapshot)
    requires Good(s, at) && Enabled(s, at, DeliverSnapshot(w, k, snap)) && !(w in s.inbox.core.water && k <= s.inbox.core.water[w])
    requires forall id: EntityId :: id.worker == w ==>
               KnownSeq(s.inbox.core, id) <= k && (id in s.inbox.pending ==> s.inbox.pending[id].ownerSeq <= k)
    ensures AllCaughtUp(Next(s, at, DeliverSnapshot(w, k, snap)), at, w, k)
  {
    var s' := Next(s, at, DeliverSnapshot(w, k, snap));
    OwnerSnapshotAccepted(s.inbox.core, at, s.hs, k, snap);
    StepKeepsGood(s, at, DeliverSnapshot(w, k, snap));
    forall id: EntityId | id.worker == w ensures CaughtUp(s'.inbox, at, s.hs[w], k, id) {
      assert TracksId(s'.inbox.core, at, s.hs[w], id) && KnownSeq(s.inbox.core, id) <= k;
      SnapshotDropsWaiting(s, at, w, k, snap, id);
      SnapshotSetsKnown(s.inbox.core, at, s.hs, k, snap, id);
    }
  }

  lemma SnapshotDropsWaiting(s: World, at: Locator, w: WorkerId, k: nat, snap: Snapshot, id: EntityId)
    requires Good(s, at) && w in s.hs && snap.owner == w && snap.seqNo == k && DecideSnapshot(s.inbox.core, at, snap) == Applied
    requires id.worker == w && (id in s.inbox.pending ==> s.inbox.pending[id].ownerSeq <= k)
    ensures id !in OnSnapshot(s.inbox, at, w, snap).pending
  {
    if id in s.inbox.pending {
      var m := s.inbox.pending[id];
      assert Published(s.hs, m) && LegalNext(s.hs[m.owner], at, m.owner, m.ownerSeq - 1);
    }
  }

  lemma SnapshotSetsKnown(c: Core, at: Locator, hs: map<WorkerId, History>, k: nat, snap: Snapshot, id: EntityId)
    requires Tracks(c, at, hs) && snap.owner in hs && SnapshotOf(hs[snap.owner], at, snap.owner, k, snap) && id.worker == snap.owner
    requires DecideSnapshot(c, at, snap) == Applied && KnownSeq(c, id) <= k
    ensures KnownSeq(ApplySnapshot(c, at, snap), id) == k
  {
    AcceptedSnapshotIsWellFormed(c, at, snap);
    IncomingIsStatus(hs[snap.owner], at, snap.owner, k, snap, id);
    assert TracksId(c, at, hs[snap.owner], id);
    SnapshotTracksId(c, at, hs[snap.owner], snap.owner, k, Incoming(at, snap.ents, |snap.ents|), id);
  }
}
