/** The worker's service: it produces its own event stream and feeds the replica with the others'. */
module AoiService {
  import opened Common
  import opened AoiTypes
  import opened AoiReplicaSpec
  import opened AoiHistory
  import opened AoiReplication
  import opened AoiRuns
  import opened AoiReplica

  /** What the service reads of a player. */
  datatype PlayerState = PlayerState(pid: nat, x: int, y: int, dir: int, epoch: nat)

  datatype LocalIdentity = LocalIdentity(id: EntityId, generation: nat)

  datatype PublishTask = PublishTask(event: Event, remaining: seq<WorkerId>)

  /** Generation of the last event of id in the stream; 0 before its first entry. */
  function LastGeneration(h: History, id: EntityId): nat {
    if LastSeq(h, |h|, id) == 0 then 0 else h[LastSeq(h, |h|, id) - 1].generation
  }

  /** The worker's own records are what its stream says. */
  ghost predicate OwnRecords(c: Core, at: Locator, h: History) {
    && (forall id: EntityId {:trigger Status(c, id)} :: id.worker == c.self ==> Status(c, id) == StatusAt(h, at, |h|, id))
    && (forall id <- c.ents :: c.ents[id].owner == c.self ==> id.worker == c.self)
  }

  /** A tombstone of one of the worker's own ids: it marks a generation that is over. */
  predicate OwnTomb(c: Core, h: History, id: EntityId) {
    id in c.tombs ==>
      && c.tombs[id].owner == c.self && c.tombs[id].generation <= LastGeneration(h, id)
      && (id in c.ents ==> c.tombs[id].generation < c.ents[id].generation)
  }

  ghost predicate OwnTombs(c: Core, h: History) {
    forall id: EntityId {:trigger OwnTomb(c, h, id)} :: id.worker == c.self ==> OwnTomb(c, h, id)
  }

  /** An event of a registered player, under that player's entity id. */
  predicate NamedEvent(ev: Event, ids: map<nat, LocalIdentity>) {
    ev.businessId in ids && ids[ev.businessId].id == ev.id && ev.entityKind == PlayerKind
  }

  predicate Named(h: History, ids: map<nat, LocalIdentity>) {
    forall k {:trigger NamedEvent(h[k], ids)} | 0 <= k < |h| :: NamedEvent(h[k], ids)
  }

  predicate IdentityOk(self: WorkerId, h: History, identity: LocalIdentity, next: nat) {
    && identity.id.worker == self && 1 <= identity.id.counter < next
    && identity.generation == LastGeneration(h, identity.id)
  }

  predicate Identities(self: WorkerId, h: History, ids: map<nat, LocalIdentity>, next: nat) {
    forall p {:trigger IdentityOk(self, h, ids[p], next)} | p in ids :: IdentityOk(self, h, ids[p], next)
  }

  predicate Injective(ids: map<nat, LocalIdentity>) {
    forall p, q {:trigger ids[p].id, ids[q].id} | p in ids && q in ids && p != q :: ids[p].id != ids[q].id
  }

  /** The stream is legal, and records and registered identities agree with it. */
  ghost predicate OwnStream(c: Core, at: Locator, h: History, ids: map<nat, LocalIdentity>, next: nat) {
    && ValidHistory(h, at, c.self)
    && OwnRecords(c, at, h)
    && OwnTombs(c, h)
    && Named(h, ids)
    && Identities(c.self, h, ids, next)
    && Injective(ids)
  }

  /** Appending an event moves only its own entity's status. */
  lemma AppendedStatus(h: History, at: Locator, ev: Event, id: EntityId)
    ensures StatusAt(h + [ev], at, |h| + 1, id) ==
            (if id != ev.id then StatusAt(h, at, |h|, id) else if ev.kind == Leave then None else Some(RecordOf(ev, at)))
    ensures LastGeneration(h + [ev], id) == (if id == ev.id then ev.generation else LastGeneration(h, id))
  {
    var g := h + [ev];
    assert h == g[..|h|];
    LastSeqPrefix(h, g, |h|, id);
  }

  lemma AppendedRecord(c: Core, at: Locator, h: History, ev: Event, id: EntityId)
    requires Status(c, id) == StatusAt(h, at, |h|, id)
    ensures Status(Install(c, at, ev), id) == StatusAt(h + [ev], at, |h + [ev]|, id)
  {
    AppendedStatus(h, at, ev, id);
  }

  lemma AppendedRecords(c: Core, at: Locator, h: History, ev: Event)
    requires OwnRecords(c, at, h) && ev.id.worker == c.self
    ensures OwnRecords(Install(c, at, ev), at, h + [ev])
  {
    forall id: EntityId | id.worker == c.self
      ensures Status(Install(c, at, ev), id) == StatusAt(h + [ev], at, |h + [ev]|, id)
    {
      AppendedRecord(c, at, h, ev, id);
    }
  }

  /** An entry starts a new generation; anything else continues the one on record. */
  predicate Continues(c: Core, h: History, ev: Event) {
    if ev.kind == Entry then ev.generation > LastGeneration(h, ev.id)
    else ev.generation == LastGeneration(h, ev.id) && ev.id in c.ents && c.ents[ev.id].generation == ev.generation
  }

  lemma AppendedTomb(c: Core, at: Locator, h: History, ev: Event, id: EntityId)
    requires OwnTomb(c, h, id) && Continues(c, h, ev) && ev.owner == c.self
    ensures OwnTomb(Install(c, at, ev), h + [ev], id)
  {
    AppendedStatus(h, at, ev, id);
  }

  lemma AppendedTombs(c: Core, at: Locator, h: History, ev: Event)
    requires OwnTombs(c, h) && Continues(c, h, ev) && ev.owner == c.self
    ensures OwnTombs(Install(c, at, ev), h + [ev])
  {
    forall id: EntityId | id.worker == c.self
      ensures OwnTomb(Install(c, at, ev), h + [ev], id)
    {
      AppendedTomb(c, at, h, ev, id);
    }
  }

  lemma LegalContinues(c: Core, at: Locator, h: History, ev: Event)
    requires OwnRecords(c, at, h) && LegalNext(h + [ev], at, c.self, |h|)
    ensures Continues(c, h, ev) && ev.owner == c.self
  {
    var g := h + [ev];
    assert h == g[..|h|] && g[|h|] == ev;
    LastSeqPrefix(h, g, |h|, ev.id);
    assert Status(c, ev.id) == StatusAt(h, at, |h|, ev.id);
  }

  lemma AppendedIdentities(self: WorkerId, at: Locator, h: History, ids: map<nat, LocalIdentity>, next: nat, ev: Event)
    requires Identities(self, h, ids, next) && Injective(ids) && NamedEvent(ev, ids)
    ensures var ids' := ids[ev.businessId := ids[ev.businessId].(generation := ev.generation)];
            Identities(self, h + [ev], ids', next) && Injective(ids')
  {
    var ids' := ids[ev.businessId := ids[ev.businessId].(generation := ev.generation)];
    forall p | p in ids'
      ensures IdentityOk(self, h + [ev], ids'[p], next)
    {
      assert IdentityOk(self, h, ids[p], next);
      AppendedStatus(h, at, ev, ids[p].id);
    }
  }

  lemma AppendedNames(h: History, ids: map<nat, LocalIdentity>, ev: Event)
    requires Named(h, ids) && NamedEvent(ev, ids)
    ensures Named(h + [ev], ids[ev.businessId := ids[ev.businessId].(generation := ev.generation)])
  {
    var ids' := ids[ev.businessId := ids[ev.businessId].(generation := ev.generation)];
    forall k | 0 <= k < |h + [ev]|
      ensures NamedEvent((h + [ev])[k], ids')
    {
      assert k < |h| ==> NamedEvent(h[k], ids);
    }
  }

  /** A local event that continues the stream legally keeps stream and records in step. */
  lemma LocalEventExtends(c: Core, at: Locator, h: History, ids: map<nat, LocalIdentity>, next: nat, ev: Event)
    requires OwnStream(c, at, h, ids, next) && LegalNext(h + [ev], at, c.self, |h|) && NamedEvent(ev, ids)
    ensures OwnStream(Install(c, at, ev), at, h + [ev],
                      ids[ev.businessId := ids[ev.businessId].(generation := ev.generation)], next)
  {
    ValidExtension(h, at, c.self, ev);
    LegalContinues(c, at, h, ev);
    AppendedTombs(c, at, h, ev);
    AppendedRecords(c, at, h, ev);
    AppendedNames(h, ids, ev);
    AppendedIdentities(c.self, at, h, ids, next, ev);
  }

  lemma FreshIdUnused(self: WorkerId, h: History, ids: map<nat, LocalIdentity>, next: nat)
    requires Named(h, ids) && Identities(self, h, ids, next)
    ensures LastSeq(h, |h|, EntityId(self, next)) == 0
  {
    forall k | 0 <= k < |h|
      ensures h[k].id != EntityId(self, next)
    {
      assert NamedEvent(h[k], ids);
      assert IdentityOk(self, h, ids[h[k].businessId], next);
    }
  }

  lemma NewIdentity(c: Core, at: Locator, h: History, ids: map<nat, LocalIdentity>, next: nat, p: nat)
    requires OwnStream(c, at, h, ids, next) && p !in ids && 1 <= next
    ensures OwnStream(c, at, h, ids[p := LocalIdentity(EntityId(c.self, next), 0)], next + 1)
    ensures EntityId(c.self, next) !in c.ents
  {
    FreshIdUnused(c.self, h, ids, next);
    assert Status(c, EntityId(c.self, next)).None?;
    var ids' := ids[p := LocalIdentity(EntityId(c.self, next), 0)];
    forall q | q in ids'
      ensures IdentityOk(c.self, h, ids'[q], next + 1)
      ensures q != p ==> ids[q].id.counter < next
    {
      assert q != p ==> IdentityOk(c.self, h, ids[q], next);
    }
    forall k | 0 <= k < |h|
      ensures NamedEvent(h[k], ids')
    {
      assert NamedEvent(h[k], ids);
    }
  }

  lemma SameAsPrevious(h: History, ids: map<nat, LocalIdentity>, ev: Event)
    requires Named(h, ids) && Injective(ids) && NamedEvent(ev, ids)
    ensures LastSeq(h + [ev], |h|, ev.id) == LastSeq(h, |h|, ev.id)
    ensures LastSeq(h, |h|, ev.id) > 0 ==>
              var last := h[LastSeq(h, |h|, ev.id) - 1]; last.entityKind == PlayerKind && last.businessId == ev.businessId
  {
    assert h == (h + [ev])[..|h|];
    LastSeqPrefix(h, h + [ev], |h|, ev.id);
    var j := LastSeq(h, |h|, ev.id);
    if j > 0 {
      assert NamedEvent(h[j - 1], ids);
    }
  }

  /** The event with which a registered player enters. */
  predicate EntryOf(self: WorkerId, ids: map<nat, LocalIdentity>, seqNo: nat, ev: Event) {
    && NamedEvent(ev, ids) && ev.kind == Entry
    && ev.generation == ids[ev.businessId].generation + 1 && ev.version == 1
    && ev.owner == self && ev.ownerSeq == seqNo
  }

  /** A first or repeated entry of a registered player is legal. */
  lemma EntryIsLegal(self: WorkerId, at: Locator, h: History, ids: map<nat, LocalIdentity>, next: nat, ev: Event)
    requires Named(h, ids) && Identities(self, h, ids, next) && Injective(ids)
    requires EntryOf(self, ids, |h| + 1, ev) && at(ev.x, ev.y).Some?
    ensures LegalNext(h + [ev], at, self, |h|)
    ensures ev.generation == LastGeneration(h, ev.id) + 1
  {
    SameAsPrevious(h, ids, ev);
    assert IdentityOk(self, h, ids[ev.businessId], next);
    var g := h + [ev];
    var j := LastSeq(g, |h|, ev.id);
    assert g[|h|] == ev && j <= |h| && (j > 0 ==> g[j - 1] == h[j - 1]);
  }

  predicate ChangeOf(e: Entity, ev: Event) {
    && (ev.kind == Move || ev.kind == Leave)
    && ev.id == e.id && ev.entityKind == e.kind && ev.businessId == e.businessId
    && ev.generation == e.generation && ev.version == e.version + 1
  }

  lemma OwnRecordIsLast(c: Core, at: Locator, h: History, id: EntityId)
    requires OwnRecords(c, at, h) && id in c.ents && id.worker == c.self
    ensures var j := LastSeq(h, |h|, id);
            j > 0 && h[j - 1].kind != Leave && c.ents[id] == RecordOf(h[j - 1], at)
  {
    assert Status(c, id) == StatusAt(h, at, |h|, id);
  }

  /** A move or leave made from the worker's own current record is legal. */
  lemma ChangeIsLegal(self: WorkerId, at: Locator, h: History, ids: map<nat, LocalIdentity>, j: nat, ev: Event)
    requires ValidHistory(h, at, self) && Named(h, ids) && Injective(ids)
    requires j == LastSeq(h, |h|, ev.id) && j > 0 && h[j - 1].kind != Leave && ChangeOf(RecordOf(h[j - 1], at), ev)
    requires ev.owner == self && ev.ownerSeq == |h| + 1 && (ev.kind == Move ==> at(ev.x, ev.y).Some?)
    ensures LegalNext(h + [ev], at, self, |h|)
    ensures NamedEvent(ev, ids) && LastGeneration(h, ev.id) == ev.generation
  {
    assert NamedEvent(h[j - 1], ids);
    SameAsPrevious(h, ids, ev);
    assert LegalNext(h, at, self, j - 1);
    assert (h + [ev])[|h|] == ev && (h + [ev])[j - 1] == h[j - 1];
  }

  lemma GenerationCurrent(self: WorkerId, h: History, ids: map<nat, LocalIdentity>, next: nat, ev: Event)
    requires Identities(self, h, ids, next) && NamedEvent(ev, ids) && LastGeneration(h, ev.id) == ev.generation
    ensures ids[ev.businessId := ids[ev.businessId].(generation := ev.generation)] == ids
  {
    assert IdentityOk(self, h, ids[ev.businessId], next);
  }

  lemma OwnRecordOwner(c: Core, at: Locator, h: History, id: EntityId)
    requires ValidHistory(h, at, c.self) && OwnRecords(c, at, h) && id in c.ents && id.worker == c.self
    ensures c.ents[id].owner == c.self && c.ents[id].id == id
  {
    assert Status(c, id) == StatusAt(h, at, |h|, id);
    StatusIsRecorded(h, at, c.self, |h|, id);
  }

  /** ev is the entry of p, one generation above the last in the stream. */
  predicate EntersAfter(h: History, ev: Event, p: PlayerState) {
    && ev.kind == Entry && ev.businessId == p.pid && ev.x == p.x && ev.y == p.y && ev.dir == p.dir
    && ev.generation == LastGeneration(h, ev.id) + 1 && ev.ownerSeq == |h| + 1
  }

  function EntryEvent(self: WorkerId, identity: LocalIdentity, p: PlayerState): Event
    requires 0 <= p.x && 0 <= p.y
  {
    Event(Entry, PlayerKind, identity.id, p.pid, p.x, p.y, p.dir, identity.generation + 1, p.epoch, 1, self, 0)
  }

  /** The registered identities after the player has entered once more. */
  function Renewed(ids: map<nat, LocalIdentity>, pid: nat): map<nat, LocalIdentity>
    requires pid in ids
  {
    ids[pid := ids[pid].(generation := ids[pid].generation + 1)]
  }

  function LeaveEvent(e: Entity): Event {
    Event(Leave, e.kind, e.id, e.businessId, e.x, e.y, e.dir, e.generation, e.actorEpoch, e.version + 1, e.owner, e.ownerSeq)
  }

  function MoveEvent(e: Entity, p: PlayerState): Event
    requires 0 <= p.x && 0 <= p.y
  {
    Event(Move, e.kind, e.id, e.businessId, p.x, p.y, p.dir, e.generation, p.epoch, e.version + 1, e.owner, e.ownerSeq)
  }

  /** The event under its place in the stream. */
  function Numbered(ev: Event, seqNo: nat): Event { ev.(ownerSeq := seqNo) }

  /** One worker: its tables, its waiting moves, its own stream and its registered players. */
  datatype Worker = Worker(core: Core, pending: map<EntityId, Event>, history: History, ids: map<nat, LocalIdentity>, next: nat)

  /** Numbers, applies and publishes an event, or leaves the worker as it was. */
  function Emitted(k: Worker, at: Locator, event: Event, ids: map<nat, LocalIdentity>, ok: bool): Worker {
    var ev := Numbered(event, |k.history| + 1);
    if ok then k.(core := Install(k.core, at, ev), history := k.history + [ev], ids := ids) else k
  }

  /** The stream has a number left, and the map holds the place. */
  predicate Room(k: Worker, at: Locator, x: int, y: int) {
    |k.history| < MAX_U64 && 0 <= x && 0 <= y && at(x, y).Some?
  }

  function Registered(k: Worker, pid: nat): Worker {
    k.(ids := k.ids[pid := LocalIdentity(EntityId(k.core.self, k.next), 0)], next := k.next + 1)
  }

  /** A player enters; inside says whether the map holds its position. */
  function Entered(k: Worker, at: Locator, p: PlayerState, reenter: bool, inside: bool): Worker {
    if p.pid == 0 || !inside || p.x < 0 || p.y < 0 || (p.pid !in k.ids && k.next == MAX_U32) then k
    else
      var k' := if p.pid in k.ids then k else Registered(k, p.pid);
      if (!reenter && k'.ids[p.pid].id in k'.core.ents) || k'.ids[p.pid].generation == MAX_U32 then k'
      else Emitted(k', at, EntryEvent(k.core.self, k'.ids[p.pid], p), Renewed(k'.ids, p.pid), Room(k', at, p.x, p.y))
  }

  function MovedTo(k: Worker, at: Locator, p: PlayerState, inside: bool): Worker {
    if p.pid !in k.ids || k.ids[p.pid].id !in k.core.ents || !inside || p.x < 0 || p.y < 0 then k
    else
      var e := k.core.ents[k.ids[p.pid].id];
      if (e.x == p.x && e.y == p.y && e.dir == p.dir) || e.version == MAX_U64 then k
      else Emitted(k, at, MoveEvent(e, p), k.ids, Room(k, at, p.x, p.y))
  }

  function LeftBy(k: Worker, at: Locator, id: EntityId): Worker {
    if id !in k.core.ents || k.core.ents[id].owner != k.core.self || k.core.ents[id].version == MAX_U64 then k
    else Emitted(k, at, LeaveEvent(k.core.ents[id]), k.ids, |k.history| < MAX_U64)
  }

  /** The waiting moves are kept by entity, and none is the worker's own. */
  predicate WaitingOk(pending: map<EntityId, Event>, self: WorkerId) {
    forall id <- pending :: pending[id].id == id && pending[id].owner != self
  }

  class Service {
    const self: WorkerId
    const m: GridMap
    const targets: seq<WorkerId>
    var replica: Replica
    var identities: map<nat, LocalIdentity>
    var nextCounter: nat
    var ownerSeq: nat
    var dirty: set<EntityId>
    var pendingMoves: map<EntityId, Event>
    var needSnapshot: set<WorkerId>
    var publishes: seq<PublishTask>
    /** Every event this worker has published, in order. */
    ghost var history: History

    ghost predicate Valid()
      reads this, replica, replica.grid
    {
      && replica.Valid() && replica.self == self && replica.m == m && nextCounter >= 1
      && ownerSeq == |history| <= MAX_U64
      && (forall t <- publishes :: t.event in history)
      && WaitingOk(pendingMoves, self)
    }

    /** The service as the theorems about all workers see it. */
    ghost function Whole(): Worker
      reads this, replica
    {
      Worker(replica.View(), pendingMoves, history, identities, nextCounter)
    }

    ghost predicate Inside(p: PlayerState) { 0 <= p.x < m.length && 0 <= p.y < m.width }

    /** The worker's own part: its stream is legal and its records agree with it. */
    ghost predicate InStep()
      reads this, replica
    {
      OwnStream(replica.View(), replica.at, history, identities, nextCounter)
    }

    constructor (self: WorkerId, m: GridMap, targets: seq<WorkerId>)
      requires m.Ok()
      ensures Valid() && InStep() && history == [] && this.self == self
      ensures fresh(replica) && fresh(replica.grid)
    {
      this.self := self;
      this.m := m;
      this.targets := targets;
      this.replica := new Replica(self, m);
      this.identities := map[];
      this.nextCounter := 1;
      this.ownerSeq := 0;
      this.dirty := {};
      this.pendingMoves := map[];
      this.needSnapshot := {};
      this.publishes := [];
      this.history := [];
    }

    /** Numbers, publishes and applies a local event; a refused event leaves no trace. */
    method ApplyLocal(event: Event) returns (r: ApplyResult)
      requires Valid()
      modifies this`ownerSeq, this`dirty, this`publishes, this`history, replica, replica.grid
      ensures Valid() && replica.grid == old(replica.grid)
      ensures r == if old(ownerSeq) == MAX_U64 then Invalid
                   else Decide(old(replica.View()), replica.at, Numbered(event, old(ownerSeq) + 1), true)
      ensures r != Applied ==> replica.View() == old(replica.View()) && history == old(history) && publishes == old(publishes)
      ensures r == Applied ==>
                var ev := Numbered(event, old(ownerSeq) + 1);
                && history == old(history) + [ev] && replica.View() == Install(old(replica.View()), replica.at, ev)
                && publishes == if targets == [] then old(publishes) else old(publishes) + [PublishTask(ev, targets)]
      ensures old(dirty) <= dirty
    {
      if ownerSeq == MAX_U64 { return Invalid; }
      var ev := Numbered(event, ownerSeq + 1);
      r, dirty := replica.Apply(ev, true, dirty);
      if r == Applied {
        ownerSeq := ev.ownerSeq;
        history := history + [ev];
        if targets != [] { publishes := publishes + [PublishTask(ev, targets)]; }
      }
    }

    /** Entering again is a new generation; entering while present is ignored unless forced. */
    method Enter(p: PlayerState, reenter: bool) returns (r: ApplyResult, ghost ev: Event)
      requires Valid() && InStep()
      modifies this`ownerSeq, this`dirty, this`publishes, this`history, this`identities, this`nextCounter
      modifies replica, replica.grid
      ensures Valid() && InStep() && replica.grid == old(replica.grid)
      ensures r != Applied ==> history == old(history) && replica.View() == old(replica.View())
      ensures r == Applied ==> history == old(history) + [ev] && EntersAfter(old(history), ev, p)
      ensures r == Applied <==>
                && p.pid != 0
                && (if p.pid in old(identities) then
                      (reenter || old(identities)[p.pid].id !in old(replica.ents)) && old(identities)[p.pid].generation != 0xFFFF_FFFF
                    else old(nextCounter) != 0xFFFF_FFFF)
                && 0 <= p.x < m.length && 0 <= p.y < m.width && replica.at(p.x, p.y).Some? && old(ownerSeq) < MAX_U64
      ensures Whole() == Entered(old(Whole()), replica.at, p, reenter, Inside(p))
    {
      ev := Event(InvalidMsg, InvalidKind, NO_ENTITY, 0, 0, 0, 0, 0, 0, 0, 0, 0);
      if p.pid == 0 { return Invalid, ev; }
      if !(0 <= p.x < m.length && 0 <= p.y < m.width) { return OutOfBounds, ev; }
      if p.pid in identities {
        r, ev := EnterKnown(p, reenter);
      } else {
        if nextCounter == MAX_U32 { return Invalid, ev; }
        Register(p.pid);
        r, ev := EnterKnown(p, reenter);
      }
    }

    /** The entry of a registered player. */
    method EnterKnown(p: PlayerState, reenter: bool) returns (r: ApplyResult, ghost ev: Event)
      requires Valid() && InStep() && p.pid in identities && 0 <= p.x && 0 <= p.y
      modifies this`ownerSeq, this`dirty, this`publishes, this`history, this`identities, replica, replica.grid
      ensures Valid() && InStep() && replica.grid == old(replica.grid)
      ensures r == Applied ==> ev == Numbered(EntryEvent(self, old(identities)[p.pid], p), |old(history)| + 1) && EntersAfter(old(history), ev, p)
      ensures r == Applied <==>
                && (reenter || old(identities)[p.pid].id !in old(replica.ents)) && old(identities)[p.pid].generation != MAX_U32
                && Room(old(Whole()), replica.at, p.x, p.y)
      ensures Whole() == Emitted(old(Whole()), replica.at, EntryEvent(self, old(identities)[p.pid], p), Renewed(old(identities), p.pid),
                                 r == Applied)
    {
      ev := Event(InvalidMsg, InvalidKind, NO_ENTITY, 0, 0, 0, 0, 0, 0, 0, 0, 0);
      if !reenter && identities[p.pid].id in replica.ents { return Ignored, ev; }
      if identities[p.pid].generation == MAX_U32 { return Invalid, ev; }
      r, ev := EnterAs(p);
    }

    /** Gives a new player the next entity id, under which nothing is recorded yet. */
    method Register(pid: nat)
      requires Valid() && InStep() && pid !in identities
      modifies this`identities, this`nextCounter
      ensures Valid() && InStep() && Whole() == Registered(old(Whole()), pid) && identities[pid].id !in replica.ents
    {
      NewIdentity(replica.View(), replica.at, history, identities, nextCounter, pid);
      identities := identities[pid := LocalIdentity(EntityId(self, nextCounter), 0)];
      nextCounter := nextCounter + 1;
    }

    /** Publishes an event under the identities that go with it. */
    method Commit(event: Event, ids: map<nat, LocalIdentity>) returns (r: ApplyResult)
      requires Valid() && InStep()
      requires Decide(replica.View(), replica.at, Numbered(event, |history| + 1), true) == Applied ==>
                 OwnStream(Install(replica.View(), replica.at, Numbered(event, |history| + 1)), replica.at,
                           history + [Numbered(event, |history| + 1)], ids, nextCounter)
      modifies this`ownerSeq, this`dirty, this`publishes, this`history, this`identities, replica, replica.grid
      ensures Valid() && InStep() && replica.grid == old(replica.grid)
      ensures r == if old(ownerSeq) == MAX_U64 then Invalid
                   else Decide(old(replica.View()), replica.at, Numbered(event, old(ownerSeq) + 1), true)
      ensures Whole() == Emitted(old(Whole()), replica.at, event, ids, r == Applied)
    {
      r := ApplyLocal(event);
      if r == Applied {
        identities := ids;
      }
    }

    method EnterAs(p: PlayerState) returns (r: ApplyResult, ghost ev: Event)
      requires Valid() && InStep() && p.pid in identities && 0 <= p.x && 0 <= p.y
      modifies this`ownerSeq, this`dirty, this`publishes, this`history, this`identities, replica, replica.grid
      ensures Valid() && InStep() && replica.grid == old(replica.grid)
      ensures r == Applied ==> ev == Numbered(EntryEvent(self, old(identities)[p.pid], p), |old(history)| + 1) && EntersAfter(old(history), ev, p)
      ensures r == Applied <==> Room(old(Whole()), replica.at, p.x, p.y)
      ensures Whole() == Emitted(old(Whole()), replica.at, EntryEvent(self, old(identities)[p.pid], p), Renewed(old(identities), p.pid),
                                 r == Applied)
    {
      var event := EntryEvent(self, identities[p.pid], p);
      ev := Numbered(event, ownerSeq + 1);
      EntryOutcome(replica.View(), replica.at, history, identities, nextCounter, p);
      r := Commit(event, Renewed(identities, p.pid));
    }

    /** Publishes a change of one of the worker's own records. */
    method ApplyChange(e: Entity, ev: Event) returns (r: ApplyResult)
      requires Valid() && InStep()
      requires e.id in replica.ents && replica.ents[e.id] == e && e.id.worker == self && ChangeOf(e, ev) && ev.owner == self
      modifies this`ownerSeq, this`dirty, this`publishes, this`history, this`identities, replica, replica.grid
      ensures Valid() && InStep() && replica.grid == old(replica.grid)
      ensures r == Applied <==> old(ownerSeq) < MAX_U64 && (ev.kind == Leave || replica.at(ev.x, ev.y).Some?)
      ensures Whole() == Emitted(old(Whole()), replica.at, ev, old(identities), r == Applied)
    {
      ChangeOutcome(replica.View(), replica.at, history, identities, nextCounter, e, ev);
      r := Commit(ev, identities);
    }

    /** The entity's departure, from the worker's own record of it. */
    method OnEntityLeave(id: EntityId) returns (r: ApplyResult)
      requires Valid() && InStep()
      modifies this`ownerSeq, this`dirty, this`publishes, this`history, this`identities, replica, replica.grid
      ensures Valid() && InStep() && replica.grid == old(replica.grid) && identities == old(identities)
      ensures r != Applied ==> history == old(history) && replica.View() == old(replica.View())
      ensures r == Applied <==>
                && id in old(replica.ents) && old(replica.ents)[id].owner == self
                && old(replica.ents)[id].version != MAX_U64 && old(ownerSeq) < MAX_U64
      ensures r == Applied ==>
                var left := Numbered(LeaveEvent(old(replica.ents)[id]), old(ownerSeq) + 1);
                && history == old(history) + [left]
                && replica.View() == Install(old(replica.View()), replica.at, left)
                && id !in dirty
      ensures Whole() == LeftBy(old(Whole()), replica.at, id)
    {
      if id !in replica.ents { return Ignored; }
      var e := replica.ents[id];
      if e.owner != self { return BadSource; }
      if e.version == MAX_U64 { return Invalid; }
      OwnRecordOwner(replica.View(), replica.at, history, id);
      r := ApplyChange(e, LeaveEvent(e));
      if r == Applied {
        dirty := dirty - {id};
      }
    }

    /** The player's new position, when it differs from the recorded one. */
    method OnLocalEntityMoved(p: PlayerState) returns (r: ApplyResult)
      requires Valid() && InStep()
      modifies this`ownerSeq, this`dirty, this`publishes, this`history, this`identities, replica, replica.grid
      ensures Valid() && InStep() && replica.grid == old(replica.grid) && identities == old(identities)
      ensures r != Applied ==> history == old(history) && replica.View() == old(replica.View())
      ensures p.pid !in identities || identities[p.pid].id !in old(replica.ents) ==> r == NeedSnapshot
      ensures p.pid in identities && identities[p.pid].id in old(replica.ents) ==>
                var e := old(replica.ents)[identities[p.pid].id];
                r == Applied <==>
                  && 0 <= p.x < m.length && 0 <= p.y < m.width && replica.at(p.x, p.y).Some?
                  && (e.x != p.x || e.y != p.y || e.dir != p.dir) && e.version != MAX_U64 && old(ownerSeq) < MAX_U64
      ensures Whole() == MovedTo(old(Whole()), replica.at, p, Inside(p))
    {
      if p.pid !in identities || identities[p.pid].id !in replica.ents { return NeedSnapshot; }
      var e := replica.ents[identities[p.pid].id];
      if !(0 <= p.x < m.length && 0 <= p.y < m.width) { return OutOfBounds; }
      if e.x == p.x && e.y == p.y && e.dir == p.dir { return Ignored; }
      if e.version == MAX_U64 { return Invalid; }
      assert IdentityOk(self, history, identities[p.pid], nextCounter);
      OwnRecordOwner(replica.View(), replica.at, history, identities[p.pid].id);
      r := ApplyChange(e, MoveEvent(e, p));
    }

    // ---- the others' events ------------------------------------------------------------

    /** A trusted sender's event: moves wait for the tick, entries and leaves are applied at once. */
    method OnRemoteEntityEvent(sender: WorkerId, ev: Event) returns (r: RemoteResult)
      requires Valid()
      modifies this`dirty, this`pendingMoves, replica, replica.grid
      ensures Valid() && replica.grid == old(replica.grid)
      ensures (Inbox(replica.View(), pendingMoves), r) ==
              OnRemoteEvent(old(Inbox(replica.View(), pendingMoves)), replica.at, ev.x < m.length && ev.y < m.width, sender, ev)
      ensures old(InStep()) && ev.id.worker == ev.owner ==> InStep()
    {
      if sender == self || sender != ev.owner { return Rejected; }
      if ev.kind == Move {
        if ev.id == NO_ENTITY || ev.x >= m.length || ev.y >= m.width || !ValidKind(ev.entityKind) { return Rejected; }
        if ev.id in pendingMoves {
          if pendingMoves[ev.id].owner != sender { return Rejected; }
          if !Supersedes(ev, pendingMoves[ev.id]) { return RemoteIgnored; }
        }
        pendingMoves := pendingMoves[ev.id := ev];
        return Queued;
      }
      var result := ApplyRemote(ev);
      if result == Applied {
        if ev.id in pendingMoves && Obsolete(pendingMoves[ev.id], ev, sender) {
          pendingMoves := pendingMoves - {ev.id};
        }
        return RemoteApplied;
      }
      return if result == Ignored then RemoteIgnored else Rejected;
    }

    method ApplyRemote(ev: Event) returns (r: ApplyResult)
      requires Valid() && ev.owner != self
      modifies this`dirty, replica, replica.grid
      ensures Valid() && replica.grid == old(replica.grid)
      ensures r == Decide(old(replica.View()), replica.at, ev, false)
      ensures replica.View() == ApplyEvent(old(replica.View()), replica.at, ev, false)
      ensures old(InStep()) && ev.id.worker == ev.owner ==> InStep()
    {
      ghost var c := replica.View();
      r, dirty := replica.Apply(ev, false, dirty);
      if ev.id.worker == ev.owner && OwnStream(c, replica.at, history, identities, nextCounter) {
        RemoteKeepsOwnPart(c, replica.at, history, identities, nextCounter, ev);
      }
    }

    /** The tick applies every waiting move once, in whatever order the table yields them. */
    method FlushRemoteMoves() returns (ghost moves: seq<Event>)
      requires Valid()
      modifies this`dirty, this`pendingMoves, this`needSnapshot, replica, replica.grid
      ensures Valid() && pendingMoves == map[]
      ensures replica.View() == FlushMoves(old(replica.View()), replica.at, moves)
      ensures forall e :: e in moves <==> e.id in old(pendingMoves) && old(pendingMoves)[e.id] == e
      ensures old(needSnapshot) <= needSnapshot
      ensures old(InStep()) && (forall id <- old(pendingMoves) :: id.worker == old(pendingMoves)[id].owner) ==> InStep()
    {
      ghost var c := replica.View();
      var pending := pendingMoves;
      pendingMoves := map[];
      moves := ApplyMoves(pending);
      FlushInStep(c, moves);
    }

    method ApplyMoves(pending: map<EntityId, Event>) returns (ghost moves: seq<Event>)
      requires Valid() && WaitingOk(pending, self)
      modifies this`dirty, this`needSnapshot, replica, replica.grid
      ensures Valid()
      ensures replica.View() == FlushMoves(old(replica.View()), replica.at, moves)
      ensures forall e :: e in moves <==> e.id in pending && pending[e.id] == e
      ensures old(needSnapshot) <= needSnapshot
    {
      moves := [];
      var todo := pending.Keys;
      ghost var c := replica.View();
      while todo != {}
        invariant todo <= pending.Keys && Valid() && replica.grid == old(replica.grid)
        invariant replica.View() == FlushMoves(c, replica.at, moves)
        invariant forall e :: e in moves <==> e.id in pending && e.id !in todo && pending[e.id] == e
        invariant old(needSnapshot) <= needSnapshot
        decreases todo
      {
        var id :| id in todo;
        var result;
        result, dirty := replica.Apply(pending[id], false, dirty);
        if result == NeedSnapshot {
          needSnapshot := needSnapshot + {pending[id].owner};
        }
        FlushAppend(c, replica.at, moves, pending[id]);
        moves := moves + [pending[id]];
        todo := todo - {id};
      }
    }

    lemma FlushInStep(c: Core, moves: seq<Event>)
      requires replica.View() == FlushMoves(c, replica.at, moves) && c.self == replica.self
      ensures OwnStream(c, replica.at, history, identities, nextCounter) && AllForeign(moves, c.self) ==> InStep()
    {
      if OwnStream(c, replica.at, history, identities, nextCounter) && AllForeign(moves, c.self) {
        FlushKeepsOwnPart(c, replica.at, history, identities, nextCounter, moves);
      }
    }

    /** Installs another owner's snapshot and drops the waiting moves it covers. */
    method ApplyOwnerSnapshot(sender: WorkerId, snap: Snapshot) returns (r: ApplyResult)
      requires Valid()
      modifies this`dirty, this`pendingMoves, this`needSnapshot, replica
      ensures Valid()
      ensures Inbox(replica.View(), pendingMoves) ==
              OnSnapshot(old(Inbox(replica.View(), pendingMoves)), replica.at, sender, snap)
      ensures r == (if sender == self || sender != snap.owner then BadSource
                    else DecideSnapshot(old(replica.View()), replica.at, snap))
      ensures needSnapshot == if r == Applied then old(needSnapshot) - {sender} else old(needSnapshot)
      ensures old(InStep()) && OwnedIds(snap) ==> InStep()
    {
      if sender == self || sender != snap.owner { return BadSource; }
      r := InstallOwnerSnapshot(snap);
      if r == Applied {
        pendingMoves := map id | id in pendingMoves && !(pendingMoves[id].owner == sender && pendingMoves[id].ownerSeq <= snap.seqNo) :: pendingMoves[id];
        needSnapshot := needSnapshot - {sender};
      }
    }

    method InstallOwnerSnapshot(snap: Snapshot) returns (r: ApplyResult)
      requires Valid()
      modifies this`dirty, replica
      ensures Valid()
      ensures r == DecideSnapshot(old(replica.View()), replica.at, snap)
      ensures replica.View() == ApplySnapshot(old(replica.View()), replica.at, snap)
      ensures old(InStep()) && OwnedIds(snap) ==> InStep()
    {
      if OwnedIds(snap) && OwnStream(replica.View(), replica.at, history, identities, nextCounter) {
        SnapshotKeepsOwnPart(replica.View(), replica.at, history, identities, nextCounter, snap);
      }
      r, dirty := replica.ApplyOwnerSnapshot(snap, dirty);
    }

    /** The snapshot a worker hands out is its own state at its current number. */
    method BuildOwnerSnapshot() returns (snap: Snapshot)
      requires Valid() && InStep()
      ensures SnapshotOf(history, replica.at, self, |history|, snap)
    {
      var list: seq<Entity> := [];
      var todo := replica.ents.Keys;
      while todo != {}
        invariant todo <= replica.ents.Keys
        invariant forall e :: e in list <==> e.id in replica.ents && e.id !in todo && replica.ents[e.id] == e && e.owner == self
        invariant DistinctIds(list)
        decreases todo
      {
        var id :| id in todo;
        todo := todo - {id};
        if replica.ents[id].owner == self {
          list := list + [replica.ents[id]];
        }
      }
      snap := Snapshot(ownerSeq, self, list);
      ListedOwnRecords(replica.View(), replica.at, history, list);
    }

    /** Offers every waiting event to its remaining targets; what a target takes is done for it. An event
        that cannot be encoded is one that no target takes. */
    method RetryPublishes(accepts: (WorkerId, Event) -> bool) returns (ghost sent: seq<(WorkerId, Event)>)
      requires Valid()
      modifies this`publishes
      ensures Valid()
      ensures forall p <- sent :: p.1 in history && accepts(p.0, p.1)
      ensures forall t <- publishes, w <- t.remaining :: !accepts(w, t.event)
      ensures forall t <- old(publishes), w <- t.remaining :: accepts(w, t.event) ==> (w, t.event) in sent
      ensures forall t <- old(publishes), w <- t.remaining :: !accepts(w, t.event) ==>
                exists u <- publishes :: u.event == t.event && w in u.remaining
    {
      sent := [];
      var kept: seq<PublishTask> := [];
      for i := 0 to |publishes|
        invariant forall u <- kept :: u.event in history && forall w <- u.remaining :: !accepts(w, u.event)
        invariant forall p <- sent :: p.1 in history && accepts(p.0, p.1)
        invariant forall j | 0 <= j < i :: Offered(publishes[j], accepts, kept, sent)
      {
        var t := publishes[i];
        var failed := Refused(t.remaining, t.event, accepts);
        ghost var sent' := sent + Taken(t.remaining, t.event, accepts);
        ghost var kept' := if failed == [] then kept else kept + [PublishTask(t.event, failed)];
        forall j | 0 <= j < i + 1
          ensures Offered(publishes[j], accepts, kept', sent')
        {
          if j < i {
            OfferedGrows(publishes[j], accepts, kept, sent, kept', sent');
          }
        }
        sent := sent';
        if failed != [] {
          kept := kept + [PublishTask(t.event, failed)];
        }
      }
      publishes := kept;
    }
  }

  /** Every target of the task has either taken the event or still waits for it. */
  ghost predicate Offered(t: PublishTask, accepts: (WorkerId, Event) -> bool, kept: seq<PublishTask>, sent: seq<(WorkerId, Event)>) {
    forall w <- t.remaining ::
      if accepts(w, t.event) then (w, t.event) in sent else exists u <- kept :: u.event == t.event && w in u.remaining
  }

  lemma OfferedGrows(t: PublishTask, accepts: (WorkerId, Event) -> bool, kept: seq<PublishTask>, sent: seq<(WorkerId, Event)>,
                     kept': seq<PublishTask>, sent': seq<(WorkerId, Event)>)
    requires Offered(t, accepts, kept, sent) && kept <= kept' && sent <= sent'
    ensures Offered(t, accepts, kept', sent')
  {
    forall w | w in t.remaining && !accepts(w, t.event)
      ensures exists u <- kept' :: u.event == t.event && w in u.remaining
    {
      var u :| u in kept && u.event == t.event && w in u.remaining;
      assert u in kept';
    }
  }

  /** The targets that did not take the event, in order. */
  function Refused(ws: seq<WorkerId>, ev: Event, accepts: (WorkerId, Event) -> bool): (r: seq<WorkerId>)
    ensures forall w :: w in r <==> w in ws && !accepts(w, ev)
  {
    if ws == [] then []
    else if accepts(ws[0], ev) then Refused(ws[1..], ev, accepts)
    else [ws[0]] + Refused(ws[1..], ev, accepts)
  }

  ghost function Taken(ws: seq<WorkerId>, ev: Event, accepts: (WorkerId, Event) -> bool): (r: seq<(WorkerId, Event)>)
    ensures forall p :: p in r <==> p.0 in ws && p.1 == ev && accepts(p.0, ev)
  {
    if ws == [] then []
    else if accepts(ws[0], ev) then [(ws[0], ev)] + Taken(ws[1..], ev, accepts)
    else Taken(ws[1..], ev, accepts)
  }

  lemma {:induction false} FlushAppend(c: Core, at: Locator, moves: seq<Event>, ev: Event)
    ensures FlushMoves(c, at, moves + [ev]) == ApplyEvent(FlushMoves(c, at, moves), at, ev, false)
    decreases |moves|
  {
    if moves == [] {
      assert FlushMoves(ApplyEvent(c, at, ev, false), at, []) == ApplyEvent(c, at, ev, false);
    } else {
      assert (moves + [ev])[1..] == moves[1..] + [ev];
      FlushAppend(ApplyEvent(c, at, moves[0], false), at, moves[1..], ev);
    }
  }

  /** The worker's own part depends on nothing else than its own ids. */
  lemma OwnPartStays(c: Core, c': Core, at: Locator, h: History, ids: map<nat, LocalIdentity>, next: nat)
    requires OwnStream(c, at, h, ids, next) && c'.self == c.self
    requires forall id: EntityId :: id.worker == c.self ==> SameFor(c, c', id)
    requires forall id <- c'.ents :: c'.ents[id].owner == c.self ==> id in c.ents && c.ents[id].owner == c.self
    ensures OwnStream(c', at, h, ids, next)
  {
    forall id: EntityId | id.worker == c.self
      ensures Status(c', id) == StatusAt(h, at, |h|, id) && OwnTomb(c', h, id)
    {
      assert SameFor(c, c', id) && OwnTomb(c, h, id);
      assert Status(c, id) == StatusAt(h, at, |h|, id);
    }
  }

  predicate SameFor(c: Core, c': Core, id: EntityId) {
    && (id in c.ents <==> id in c'.ents) && (id in c.ents ==> c.ents[id] == c'.ents[id])
    && (id in c.tombs <==> id in c'.tombs) && (id in c.tombs ==> c.tombs[id] == c'.tombs[id])
  }

  lemma RemoteKeepsOwnPart(c: Core, at: Locator, h: History, ids: map<nat, LocalIdentity>, next: nat, ev: Event)
    requires OwnStream(c, at, h, ids, next) && ev.owner != c.self && ev.id.worker == ev.owner
    ensures OwnStream(ApplyEvent(c, at, ev, false), at, h, ids, next)
  {
    OwnPartStays(c, ApplyEvent(c, at, ev, false), at, h, ids, next);
  }

  /** Events of other owners, each about one of the owner's own ids. */
  predicate AllForeign(moves: seq<Event>, self: WorkerId) {
    forall e <- moves :: e.id.worker == e.owner != self
  }

  lemma {:induction false} FlushKeepsOwnPart(c: Core, at: Locator, h: History, ids: map<nat, LocalIdentity>, next: nat,
                                             moves: seq<Event>)
    requires OwnStream(c, at, h, ids, next) && AllForeign(moves, c.self)
    ensures OwnStream(FlushMoves(c, at, moves), at, h, ids, next)
    decreases |moves|
  {
    if moves != [] {
      RemoteKeepsOwnPart(c, at, h, ids, next, moves[0]);
      FlushKeepsOwnPart(ApplyEvent(c, at, moves[0], false), at, h, ids, next, moves[1..]);
    }
  }

  /** Every entity of a snapshot carries its owner's number in its id. */
  predicate OwnedIds(snap: Snapshot) {
    forall e <- snap.ents :: e.id.worker == snap.owner
  }

  lemma IncomingOwned(at: Locator, snap: Snapshot, n: nat, id: EntityId)
    requires n <= |snap.ents| && OwnedIds(snap) && id in Incoming(at, snap.ents, n)
    requires forall e <- snap.ents :: e.owner == snap.owner
    ensures id.worker == snap.owner && Incoming(at, snap.ents, n)[id].owner == snap.owner
  {
    if n > 0 && snap.ents[n - 1].id != id {
      IncomingOwned(at, snap, n - 1, id);
    }
  }

  lemma SnapshotKeepsOwnPart(c: Core, at: Locator, h: History, ids: map<nat, LocalIdentity>, next: nat, snap: Snapshot)
    requires OwnStream(c, at, h, ids, next) && OwnedIds(snap)
    ensures OwnStream(ApplySnapshot(c, at, snap), at, h, ids, next)
  {
    if DecideSnapshot(c, at, snap) == Applied {
      AcceptedSnapshot(c, at, snap, 0);
      forall e | e in snap.ents ensures e.owner == snap.owner {
        var i :| 0 <= i < |snap.ents| && snap.ents[i] == e;
        assert DecideEntity(c, at, snap, i) == Applied;
      }
      var inc := Incoming(at, snap.ents, |snap.ents|);
      var c' := InstallSnapshot(c, snap.owner, snap.seqNo, inc);
      forall id | id in inc ensures id.worker == snap.owner && inc[id].owner == snap.owner {
        IncomingOwned(at, snap, |snap.ents|, id);
      }
      forall id: EntityId | id.worker == c.self ensures SameFor(c, c', id) {
        OwnRecordStays(c, at, h, snap, inc, id);
      }
      OwnPartStays(c, c', at, h, ids, next);
    }
  }

  lemma OwnRecordStays(c: Core, at: Locator, h: History, snap: Snapshot, inc: map<EntityId, Entity>, id: EntityId)
    requires ValidHistory(h, at, c.self) && OwnRecords(c, at, h) && id.worker == c.self != snap.owner && id !in inc
    ensures SameFor(c, InstallSnapshot(c, snap.owner, snap.seqNo, inc), id)
  {
    if id in c.ents {
      OwnRecordOwner(c, at, h, id);
    }
  }

  /** An entry or a change made from the worker's own records is always accepted inside the map. */
  lemma LegalIsApplied(c: Core, at: Locator, h: History, ids: map<nat, LocalIdentity>, next: nat, ev: Event)
    requires OwnStream(c, at, h, ids, next) && LegalNext(h + [ev], at, c.self, |h|)
    ensures Decide(c, at, ev, true) == Applied
  {
    var g := h + [ev];
    assert h == g[..|h|] && g[|h|] == ev;
    LastSeqPrefix(h, g, |h|, ev.id);
    LegalContinues(c, at, h, ev);
    assert OwnTomb(c, h, ev.id);
    if ev.id in c.ents {
      OwnRecordOwner(c, at, h, ev.id);
      OwnRecordIsLast(c, at, h, ev.id);
    }
    LegalKind(h, at, c.self, ev);
    ContinuationIsApplied(c, at, h, ev);
  }

  /** An entry is refused only outside the map, and keeps the worker's part in step. */
  lemma EntryOutcome(c: Core, at: Locator, h: History, ids: map<nat, LocalIdentity>, next: nat, p: PlayerState)
    requires OwnStream(c, at, h, ids, next) && p.pid in ids && 0 <= p.x && 0 <= p.y
    ensures var ev := Numbered(EntryEvent(c.self, ids[p.pid], p), |h| + 1);
            && (Decide(c, at, ev, true) == Applied <==> at(p.x, p.y).Some?)
            && (at(p.x, p.y).Some? ==>
                  && OwnStream(Install(c, at, ev), at, h + [ev], Renewed(ids, p.pid), next)
                  && EntersAfter(h, ev, p))
  {
    var ev := Numbered(EntryEvent(c.self, ids[p.pid], p), |h| + 1);
    if at(ev.x, ev.y).Some? {
      EntryIsLegal(c.self, at, h, ids, next, ev);
      LocalEventExtends(c, at, h, ids, next, ev);
      LegalIsApplied(c, at, h, ids, next, ev);
    }
  }

  /** A move or leave is refused only when it would leave the map. */
  lemma ChangeOutcome(c: Core, at: Locator, h: History, ids: map<nat, LocalIdentity>, next: nat, e: Entity, change: Event)
    requires OwnStream(c, at, h, ids, next) && change.owner == c.self
    requires e.id in c.ents && c.ents[e.id] == e && e.id.worker == c.self && ChangeOf(e, change)
    ensures var ev := Numbered(change, |h| + 1);
            && (Decide(c, at, ev, true) == Applied <==> ev.kind == Leave || at(ev.x, ev.y).Some?)
            && (Decide(c, at, ev, true) == Applied ==> OwnStream(Install(c, at, ev), at, h + [ev], ids, next))
  {
    var ev := Numbered(change, |h| + 1);
    if ev.kind == Leave || at(ev.x, ev.y).Some? {
      OwnRecordIsLast(c, at, h, e.id);
      ChangeIsLegal(c.self, at, h, ids, LastSeq(h, |h|, e.id), ev);
      LocalEventExtends(c, at, h, ids, next, ev);
      GenerationCurrent(c.self, h, ids, next, ev);
      LegalIsApplied(c, at, h, ids, next, ev);
    }
  }

  lemma LegalKind(h: History, at: Locator, w: WorkerId, ev: Event)
    requires LegalNext(h + [ev], at, w, |h|)
    ensures ev.kind != InvalidMsg && ev.id != NO_ENTITY && ValidKind(ev.entityKind)
    ensures ev.kind != Leave ==> at(ev.x, ev.y).Some?
    ensures ev.kind == Move || ev.kind == Leave ==>
              var j := LastSeq(h, |h|, ev.id); j > 0 && ev.version == h[j - 1].version + 1
    ensures var j := LastSeq(h, |h|, ev.id);
            j > 0 ==> ev.entityKind == h[j - 1].entityKind && ev.businessId == h[j - 1].businessId
  {
    var g := h + [ev];
    assert h == g[..|h|] && g[|h|] == ev;
    LastSeqPrefix(h, g, |h|, ev.id);
  }

  lemma ContinuationIsApplied(c: Core, at: Locator, h: History, ev: Event)
    requires Continues(c, h, ev) && ev.owner == c.self && OwnTomb(c, h, ev.id)
    requires ev.kind != InvalidMsg && ev.id != NO_ENTITY && ValidKind(ev.entityKind)
    requires ev.kind != Leave ==> at(ev.x, ev.y).Some?
    requires ev.id in c.ents ==>
               && c.ents[ev.id].owner == c.self && c.ents[ev.id].generation == LastGeneration(h, ev.id)
               && c.ents[ev.id].kind == ev.entityKind && c.ents[ev.id].businessId == ev.businessId
               && (ev.kind != Entry ==> ev.version == c.ents[ev.id].version + 1)
    ensures Decide(c, at, ev, true) == Applied
  {
  }

  lemma ListedOwnRecords(c: Core, at: Locator, h: History, list: seq<Entity>)
    requires ValidHistory(h, at, c.self) && OwnRecords(c, at, h) && DistinctIds(list)
    requires forall e :: e in list <==> e.id in c.ents && c.ents[e.id] == e && e.owner == c.self
    ensures SnapshotOf(h, at, c.self, |h|, Snapshot(|h|, c.self, list))
  {
    forall e | e in list
      ensures StatusAt(h, at, |h|, e.id) == Some(e)
    {
      assert Status(c, e.id) == StatusAt(h, at, |h|, e.id);
    }
    forall id: EntityId | StatusAt(h, at, |h|, id).Some?
      ensures StatusAt(h, at, |h|, id).value in list
    {
      StatusIsRecorded(h, at, c.self, |h|, id);
      assert Status(c, id) == StatusAt(h, at, |h|, id);
    }
  }
}
