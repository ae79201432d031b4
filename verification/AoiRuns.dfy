/** Whole runs of the replication protocol: owners extend their streams, the replica's worker
    makes its own moves, and published events and snapshots arrive in any order, any number of
    times, or never. */
module AoiRuns {
  import opened AoiTypes
  import opened AoiReplicaSpec
  import opened AoiHistory
  import opened AoiReplication

  datatype RemoteResult = Queued | RemoteApplied | RemoteIgnored | Rejected

  /** Two events of one entity in the order the service compares pending moves. */
  predicate Supersedes(ev: Event, was: Event) {
    !(ev.generation < was.generation || (ev.generation == was.generation && ev.version <= was.version))
  }

  /** A pending move that an applied entry or leave makes pointless. */
  predicate Obsolete(move: Event, ev: Event, sender: WorkerId) {
    && move.owner == sender
    && (|| move.generation < ev.generation
        || (move.generation == ev.generation && (ev.kind == Leave || move.version <= ev.version)))
  }

  datatype Inbox = Inbox(core: Core, pending: map<EntityId, Event>)

  /** One remote event at the service: moves wait for the tick, the rest is applied at once. */
  function OnRemoteEvent(b: Inbox, at: Locator, inside: bool, sender: WorkerId, ev: Event): (Inbox, RemoteResult) {
    if sender == b.core.self || sender != ev.owner then (b, Rejected)
    else if ev.kind == Move then
      if ev.id == NO_ENTITY || !inside || !ValidKind(ev.entityKind) then (b, Rejected)
      else if ev.id in b.pending && b.pending[ev.id].owner != sender then (b, Rejected)
      else if ev.id in b.pending && !Supersedes(ev, b.pending[ev.id]) then (b, RemoteIgnored)
      else (b.(pending := b.pending[ev.id := ev]), Queued)
    else
      match Decide(b.core, at, ev, false)
      case Applied =>
        var left := if ev.id in b.pending && Obsolete(b.pending[ev.id], ev, sender) then b.pending - {ev.id} else b.pending;
        (Inbox(Install(b.core, at, ev), left), RemoteApplied)
      case Ignored => (b, RemoteIgnored)
      case _ => (b, Rejected)
  }

  /** The tick applies every waiting move, in the order the table yields them. */
  function FlushMoves(c: Core, at: Locator, moves: seq<Event>): Core
    decreases |moves|
  {
    if moves == [] then c else FlushMoves(ApplyEvent(c, at, moves[0], false), at, moves[1..])
  }

  function OnSnapshot(b: Inbox, at: Locator, sender: WorkerId, snap: Snapshot): Inbox {
    if sender == b.core.self || sender != snap.owner || DecideSnapshot(b.core, at, snap) != Applied then b
    else
      Inbox(ApplySnapshot(b.core, at, snap),
            map id | id in b.pending && !(b.pending[id].owner == sender && b.pending[id].ownerSeq <= snap.seqNo) :: b.pending[id])
  }

  datatype World = World(hs: map<WorkerId, History>, inbox: Inbox)

  datatype Step =
    | Publish(w: WorkerId, ev: Event)
    | LocalEvent(ev: Event)
    | DeliverEvent(w: WorkerId, k: nat, inside: bool)
    | Tick(moves: seq<Event>)
    | DeliverSnapshot(w: WorkerId, k: nat, snap: Snapshot)

  /** What the environment may do next. Nothing limits order, repetition or loss of deliveries. */
  ghost predicate Enabled(s: World, at: Locator, step: Step) {
    match step
    case Publish(w, ev) => w in s.hs && LegalNext(s.hs[w] + [ev], at, w, |s.hs[w]|)
    case LocalEvent(ev) => ev.id.worker == s.inbox.core.self
    case DeliverEvent(w, k, _) => w in s.hs && k < |s.hs[w]|
    case Tick(moves) => (forall m <- moves :: m.id in s.inbox.pending && s.inbox.pending[m.id] == m)
    case DeliverSnapshot(w, k, snap) => w in s.hs && SnapshotOf(s.hs[w], at, w, k, snap)
  }

  function Next(s: World, at: Locator, step: Step): World {
    match step
    case Publish(w, ev) => if w in s.hs then s.(hs := s.hs[w := s.hs[w] + [ev]]) else s
    case LocalEvent(ev) => s.(inbox := s.inbox.(core := ApplyEvent(s.inbox.core, at, ev, true)))
    case DeliverEvent(w, k, inside) =>
      if w in s.hs && k < |s.hs[w]| then s.(inbox := OnRemoteEvent(s.inbox, at, inside, w, s.hs[w][k]).0) else s
    case Tick(moves) => s.(inbox := Inbox(FlushMoves(s.inbox.core, at, moves), map[]))
    case DeliverSnapshot(w, k, snap) => s.(inbox := OnSnapshot(s.inbox, at, w, snap))
  }

  ghost predicate LegalRun(s: World, at: Locator, steps: seq<Step>)
    decreases |steps|
  {
    steps == [] || (Enabled(s, at, steps[0]) && LegalRun(Next(s, at, steps[0]), at, steps[1..]))
  }

  function Run(s: World, at: Locator, steps: seq<Step>): World
    decreases |steps|
  {
    if steps == [] then s else Run(Next(s, at, steps[0]), at, steps[1..])
  }

  /** ev is one of its owner's published events. */
  predicate Published(hs: map<WorkerId, History>, ev: Event) {
    && ev.owner in hs && 1 <= ev.ownerSeq <= |hs[ev.owner]|
    && hs[ev.owner][ev.ownerSeq - 1] == ev
  }

  ghost predicate Good(s: World, at: Locator) {
    && Tracks(s.inbox.core, at, s.hs)
    && forall id <- s.inbox.pending :: Published(s.hs, s.inbox.pending[id]) && s.inbox.pending[id].id == id
  }

  ghost predicate NoForgetting(c: Core, c': Core, hs: map<WorkerId, History>) {
    forall id: EntityId {:trigger KnownSeq(c', id)} :: id.worker in hs ==> KnownSeq(c, id) <= KnownSeq(c', id)
  }

  lemma DeliveredEventIsPublished(hs: map<WorkerId, History>, at: Locator, w: WorkerId, k: nat)
    requires w in hs && k < |hs[w]| && ValidHistory(hs[w], at, w)
    ensures Published(hs, hs[w][k]) && hs[w][k].owner == w
  {
    assert LegalNext(hs[w], at, w, k);
  }

  lemma PublishedKeepsTracking(c: Core, at: Locator, hs: map<WorkerId, History>, ev: Event)
    requires Tracks(c, at, hs) && Published(hs, ev)
    ensures Tracks(ApplyEvent(c, at, ev, false), at, hs)
    ensures NoForgetting(c, ApplyEvent(c, at, ev, false), hs)
  {
    EventKeepsTracking(c, at, hs, ev.owner, ev.ownerSeq - 1);
  }

  lemma {:induction false} FlushKeepsTracking(c: Core, at: Locator, hs: map<WorkerId, History>, moves: seq<Event>)
    requires Tracks(c, at, hs) && forall m <- moves :: Published(hs, m)
    ensures Tracks(FlushMoves(c, at, moves), at, hs)
    ensures NoForgetting(c, FlushMoves(c, at, moves), hs)
    decreases |moves|
  {
    if moves != [] {
      PublishedKeepsTracking(c, at, hs, moves[0]);
      FlushKeepsTracking(ApplyEvent(c, at, moves[0], false), at, hs, moves[1..]);
    }
  }

  lemma RemoteEventStep(b: Inbox, at: Locator, hs: map<WorkerId, History>, inside: bool, ev: Event)
    requires Tracks(b.core, at, hs) && Published(hs, ev)
    requires forall id <- b.pending :: Published(hs, b.pending[id]) && b.pending[id].id == id
    ensures var b' := OnRemoteEvent(b, at, inside, ev.owner, ev).0;
            && Tracks(b'.core, at, hs) && NoForgetting(b.core, b'.core, hs)
            && forall id <- b'.pending :: Published(hs, b'.pending[id]) && b'.pending[id].id == id
  {
    PublishedKeepsTracking(b.core, at, hs, ev);
  }

  lemma PublishStep(s: World, at: Locator, w: WorkerId, ev: Event)
    requires Good(s, at) && Enabled(s, at, Publish(w, ev))
    ensures Good(Next(s, at, Publish(w, ev)), at)
  {
    OwnerAdvanceKeepsTracking(s.inbox.core, at, s.hs, w, ev);
  }

  /** Every step keeps the replica exact, and what it knows of an entity never gets older. */
  lemma StepKeepsGood(s: World, at: Locator, step: Step)
    requires Good(s, at) && Enabled(s, at, step)
    ensures Good(Next(s, at, step), at)
    ensures NoForgetting(s.inbox.core, Next(s, at, step).inbox.core, s.hs)
    ensures Next(s, at, step).hs.Keys == s.hs.Keys
  {
    match step
    case Publish(w, ev) => PublishStep(s, at, w, ev);
    case LocalEvent(ev) => LocalEventKeepsTracking(s.inbox.core, at, s.hs, ev);
    case DeliverEvent(w, k, inside) =>
      DeliveredEventIsPublished(s.hs, at, w, k);
      RemoteEventStep(s.inbox, at, s.hs, inside, s.hs[w][k]);
    case Tick(moves) => FlushKeepsTracking(s.inbox.core, at, s.hs, moves);
    case DeliverSnapshot(w, k, snap) => SnapshotKeepsTracking(s.inbox.core, at, s.hs, k, snap);
  }

  /** Replication safety over whole runs. */
  lemma {:induction false} RunKeepsGood(s: World, at: Locator, steps: seq<Step>)
    requires Good(s, at) && LegalRun(s, at, steps)
    ensures Good(Run(s, at, steps), at)
    ensures NoForgetting(s.inbox.core, Run(s, at, steps).inbox.core, s.hs)
    ensures Run(s, at, steps).hs.Keys == s.hs.Keys
    decreases |steps|
  {
    if steps != [] {
      StepKeepsGood(s, at, steps[0]);
      RunKeepsGood(Next(s, at, steps[0]), at, steps[1..]);
    }
  }

  /** The empty replica is a good start. */
  lemma StartIsGood(self: WorkerId, at: Locator, workers: set<WorkerId>)
    requires self !in workers
    ensures Good(World(map w | w in workers :: [], Inbox(Core(self, map[], map[], map[]), map[])), at)
  {
  }

  /** From the empty start, whatever was lost, repeated or reordered, the replica's record of any
      remote entity is the owner's own record at the number s(id). */
  lemma ReplicaIsExact(self: WorkerId, at: Locator, workers: set<WorkerId>, steps: seq<Step>, id: EntityId)
    requires self !in workers && id.worker in workers
    requires LegalRun(World(map w | w in workers :: [], Inbox(Core(self, map[], map[], map[]), map[])), at, steps)
    ensures var s := Run(World(map w | w in workers :: [], Inbox(Core(self, map[], map[], map[]), map[])), at, steps);
            && id.worker in s.hs && KnownSeq(s.inbox.core, id) <= |s.hs[id.worker]|
            && Status(s.inbox.core, id) == StatusAt(s.hs[id.worker], at, KnownSeq(s.inbox.core, id), id)
  {
    StartIsGood(self, at, workers);
    var start := World(map w | w in workers :: [], Inbox(Core(self, map[], map[], map[]), map[]));
    RunKeepsGood(start, at, steps);
    var s := Run(start, at, steps);
    assert TracksId(s.inbox.core, at, s.hs[id.worker], id);
  }

  /** Once the replica has evidence of a departure, that generation never shows again. */
  lemma DepartedStaysDeparted(s: World, at: Locator, steps: seq<Step>, w: WorkerId, k: nat)
    requires Good(s, at) && LegalRun(s, at, steps)
    requires w in s.hs && k < |s.hs[w]| && s.hs[w][k].kind == Leave
    requires KnownSeq(s.inbox.core, s.hs[w][k].id) >= k + 1
    ensures var c := Run(s, at, steps).inbox.core;
            s.hs[w][k].id in c.ents ==> c.ents[s.hs[w][k].id].generation > s.hs[w][k].generation
  {
    RunKeepsGood(s, at, steps);
    var s' := Run(s, at, steps);
    var c, id := s'.inbox.core, s.hs[w][k].id;
    assert LegalNext(s.hs[w], at, w, k);
    RunExtends(s, at, steps, w);
    assert TracksId(c, at, s'.hs[w], id);
    assert KnownSeq(s.inbox.core, id) <= KnownSeq(c, id);
    StatusAfterLeave(s'.hs[w], at, w, KnownSeq(c, id), k);
  }

  lemma StatusAfterLeave(h: History, at: Locator, w: WorkerId, s: nat, k: nat)
    requires ValidHistory(h, at, w) && k < s <= |h| && h[k].kind == Leave
    ensures var now := StatusAt(h, at, s, h[k].id);
            now.Some? ==> now.value.generation > h[k].generation
  {
    LastSeqCovers(h, s, h[k].id, k + 1);
    if StatusAt(h, at, s, h[k].id).Some? {
      EventOrder(h, at, w, k, LastSeq(h, s, h[k].id) - 1);
    }
  }

  lemma {:induction false} RunExtends(s: World, at: Locator, steps: seq<Step>, w: WorkerId)
    requires w in s.hs
    ensures w in Run(s, at, steps).hs && s.hs[w] <= Run(s, at, steps).hs[w]
    decreases |steps|
  {
    if steps != [] {
      RunExtends(Next(s, at, steps[0]), at, steps[1..], w);
    }
  }
}
