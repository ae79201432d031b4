/** All workers together: each produces its own stream by entering, moving and leaving, and replicates
    the others' from whatever arrives. Nothing is assumed of the streams; they are what the services make. */
module AoiCluster {
  import opened AoiTypes
  import opened AoiReplicaSpec
  import opened AoiHistory
  import opened AoiReplication
  import opened AoiService
  import R = AoiRuns

  type Cluster = map<WorkerId, Worker>

  function NewWorker(w: WorkerId): Worker { Worker(Core(w, map[], map[], map[]), map[], [], map[], 1) }

  datatype Step =
    | Enter(w: WorkerId, p: PlayerState, reenter: bool, inside: bool)
    | Move(w: WorkerId, p: PlayerState, inside: bool)
    | Depart(w: WorkerId, id: EntityId)
    | DeliverEvent(w: WorkerId, owner: WorkerId, k: nat, inside: bool)
    | Tick(w: WorkerId, moves: seq<Event>)
    | DeliverSnapshot(w: WorkerId, owner: WorkerId, k: nat, snap: Snapshot)

  /** Any published event may arrive at any other worker at any time, any number of times or never, and
      any snapshot the owner could have built at any of its numbers. */
  ghost predicate Enabled(c: Cluster, at: Locator, step: Step) {
    && step.w in c
    && match step
       case DeliverEvent(w, owner, k, _) => owner in c && owner != w && k < |c[owner].history|
       case Tick(w, moves) => forall m <- moves :: m.id in c[w].pending && c[w].pending[m.id] == m
       case DeliverSnapshot(w, owner, k, snap) => owner in c && owner != w && SnapshotOf(c[owner].history, at, owner, k, snap)
       case _ => true
  }

  function WithInbox(k: Worker, b: R.Inbox): Worker { k.(core := b.core, pending := b.pending) }

  function InboxOf(k: Worker): R.Inbox { R.Inbox(k.core, k.pending) }

  function After(c: Cluster, at: Locator, step: Step): Worker
    requires step.w in c
  {
    var k := c[step.w];
    match step
    case Enter(_, p, reenter, inside) => Entered(k, at, p, reenter, inside)
    case Move(_, p, inside) => MovedTo(k, at, p, inside)
    case Depart(_, id) => LeftBy(k, at, id)
    case DeliverEvent(_, owner, i, inside) =>
      if owner in c && i < |c[owner].history|
      then WithInbox(k, R.OnRemoteEvent(InboxOf(k), at, inside, owner, c[owner].history[i]).0) else k
    case Tick(_, moves) => k.(core := R.FlushMoves(k.core, at, moves), pending := map[])
    case DeliverSnapshot(_, owner, i, snap) => WithInbox(k, R.OnSnapshot(InboxOf(k), at, owner, snap))
  }

  function Next(c: Cluster, at: Locator, step: Step): Cluster {
    if step.w in c then c[step.w := After(c, at, step)] else c
  }

  // ---- what always holds -----------------------------------------------------------------

  /** The streams a worker replicates. */
  function Others(c: Cluster, w: WorkerId): map<WorkerId, History> { map v | v in c && v != w :: c[v].history }

  function ViewOf(c: Cluster, w: WorkerId): R.World
    requires w in c
  {
    R.World(Others(c, w), InboxOf(c[w]))
  }

  ghost predicate OwnOk(k: Worker, at: Locator) { k.next >= 1 && OwnStream(k.core, at, k.history, k.ids, k.next) }

  ghost predicate Own(c: Cluster, at: Locator, w: WorkerId)
    requires w in c
  {
    c[w].core.self == w && OwnOk(c[w], at)
  }

  ghost predicate Sees(c: Cluster, at: Locator, w: WorkerId)
    requires w in c
  {
    R.Good(ViewOf(c, w), at)
  }

  /** Every worker's own part is in step with its stream, and its replica with the others' streams. */
  ghost predicate Good(c: Cluster, at: Locator) {
    (forall w <- c :: Own(c, at, w)) && (forall w <- c :: Sees(c, at, w))
  }

  /** A worker's own step: nothing, a registration, or one more event that continues its stream legally. */
  ghost predicate OwnStep(k: Worker, k': Worker, at: Locator) {
    && k'.pending == k.pending && k'.core.self == k.core.self
    && (|| (k'.core == k.core && k'.history == k.history)
        || exists ev :: Extends(k, k', at, ev))
  }

  ghost predicate Extends(k: Worker, k': Worker, at: Locator, ev: Event) {
    && k'.history == k.history + [ev] && LegalNext(k.history + [ev], at, k.core.self, |k.history|)
    && k'.core == ApplyEvent(k.core, at, ev, true) && ev.id.worker == k.core.self
  }

  lemma EmittedStep(k: Worker, at: Locator, event: Event, ids: map<nat, LocalIdentity>, ok: bool)
    requires OwnOk(k, at)
    requires var ev := Numbered(event, |k.history| + 1);
             ok ==>
               && Decide(k.core, at, ev, true) == Applied
               && OwnStream(Install(k.core, at, ev), at, k.history + [ev], ids, k.next)
               && LegalNext(k.history + [ev], at, k.core.self, |k.history|)
    ensures OwnOk(Emitted(k, at, event, ids, ok), at) && OwnStep(k, Emitted(k, at, event, ids, ok), at)
  {
    var ev, k' := Numbered(event, |k.history| + 1), Emitted(k, at, event, ids, ok);
    if ok {
      assert (k.history + [ev])[|k.history|] == ev;
      assert Extends(k, k', at, ev);
    }
  }

  lemma EnteredKeeps(k: Worker, at: Locator, p: PlayerState)
    requires OwnOk(k, at) && p.pid in k.ids && p.x >= 0 && p.y >= 0
    ensures var k' := Emitted(k, at, EntryEvent(k.core.self, k.ids[p.pid], p), Renewed(k.ids, p.pid), Room(k, at, p.x, p.y));
            OwnOk(k', at) && OwnStep(k, k', at)
  {
    var event := EntryEvent(k.core.self, k.ids[p.pid], p);
    EntryOutcome(k.core, at, k.history, k.ids, k.next, p);
    if at(p.x, p.y).Some? {
      EntryIsLegal(k.core.self, at, k.history, k.ids, k.next, Numbered(event, |k.history| + 1));
    }
    EmittedStep(k, at, event, Renewed(k.ids, p.pid), Room(k, at, p.x, p.y));
  }

  lemma EnterStep(k: Worker, at: Locator, p: PlayerState, reenter: bool, inside: bool)
    requires OwnOk(k, at)
    ensures var k' := Entered(k, at, p, reenter, inside); OwnOk(k', at) && OwnStep(k, k', at)
  {
    if !(p.pid == 0 || !inside || p.x < 0 || p.y < 0 || (p.pid !in k.ids && k.next == MAX_U32)) {
      var k1 := if p.pid in k.ids then k else Registered(k, p.pid);
      if p.pid !in k.ids { NewIdentity(k.core, at, k.history, k.ids, k.next, p.pid); }
      EnteredKeeps(k1, at, p);
      RegisteredFirst(k, k1, Entered(k, at, p, reenter, inside), at);
    }
  }

  /** Registering before an own step is part of it. */
  lemma RegisteredFirst(k: Worker, k1: Worker, k2: Worker, at: Locator)
    requires k1.core == k.core && k1.pending == k.pending && k1.history == k.history && OwnStep(k1, k2, at)
    ensures OwnStep(k, k2, at)
  {
    if !(k2.core == k1.core && k2.history == k1.history) {
      var ev :| Extends(k1, k2, at, ev);
      assert Extends(k, k2, at, ev);
    }
  }

  lemma ChangedKeeps(k: Worker, at: Locator, e: Entity, change: Event, ok: bool)
    requires OwnOk(k, at) && change.owner == k.core.self
    requires e.id in k.core.ents && k.core.ents[e.id] == e && e.id.worker == k.core.self && ChangeOf(e, change)
    requires ok ==> change.kind == Leave || at(change.x, change.y).Some?
    ensures var k' := Emitted(k, at, change, k.ids, ok); OwnOk(k', at) && OwnStep(k, k', at)
  {
    var ev := Numbered(change, |k.history| + 1);
    ChangeOutcome(k.core, at, k.history, k.ids, k.next, e, change);
    if ok {
      OwnRecordIsLast(k.core, at, k.history, e.id);
      ChangeIsLegal(k.core.self, at, k.history, k.ids, LastSeq(k.history, |k.history|, e.id), ev);
    }
    EmittedStep(k, at, change, k.ids, ok);
  }

  lemma MoveStep(k: Worker, at: Locator, p: PlayerState, inside: bool)
    requires OwnOk(k, at)
    ensures var k' := MovedTo(k, at, p, inside); OwnOk(k', at) && OwnStep(k, k', at)
  {
    if p.pid in k.ids && k.ids[p.pid].id in k.core.ents && p.x >= 0 && p.y >= 0 {
      var id := k.ids[p.pid].id;
      assert IdentityOk(k.core.self, k.history, k.ids[p.pid], k.next);
      OwnRecordOwner(k.core, at, k.history, id);
      ChangedKeeps(k, at, k.core.ents[id], MoveEvent(k.core.ents[id], p), Room(k, at, p.x, p.y));
    }
  }

  lemma DepartStep(k: Worker, at: Locator, id: EntityId)
    requires OwnOk(k, at)
    ensures var k' := LeftBy(k, at, id); OwnOk(k', at) && OwnStep(k, k', at)
  {
    if id in k.core.ents && k.core.ents[id].owner == k.core.self {
      OwnRecordOwner(k.core, at, k.history, id);
      ChangedKeeps(k, at, k.core.ents[id], LeaveEvent(k.core.ents[id]), |k.history| < MAX_U64);
    }
  }

  // ---- the others see an own step as one more event of a legal stream -----------------------

  lemma PublishSeen(hs: map<WorkerId, History>, b: R.Inbox, at: Locator, w: WorkerId, ev: Event)
    requires R.Good(R.World(hs, b), at) && w in hs && LegalNext(hs[w] + [ev], at, w, |hs[w]|)
    ensures R.Good(R.World(hs[w := hs[w] + [ev]], b), at)
  {
    R.PublishStep(R.World(hs, b), at, w, ev);
  }

  lemma LocalSeen(hs: map<WorkerId, History>, b: R.Inbox, at: Locator, ev: Event)
    requires R.Good(R.World(hs, b), at) && ev.id.worker == b.core.self
    ensures R.Good(R.World(hs, b.(core := ApplyEvent(b.core, at, ev, true))), at)
  {
    R.StepKeepsGood(R.World(hs, b), at, R.LocalEvent(ev));
  }

  lemma OwnStepForItself(c: Cluster, at: Locator, w: WorkerId, k': Worker)
    requires w in c && Sees(c, at, w) && OwnStep(c[w], k', at)
    ensures Sees(c[w := k'], at, w)
  {
    var hs := Others(c, w);
    assert Others(c[w := k'], w) == hs;
    if !(k'.core == c[w].core && k'.history == c[w].history) {
      var ev :| Extends(c[w], k', at, ev);
      LocalSeen(hs, InboxOf(c[w]), at, ev);
      assert InboxOf(k') == InboxOf(c[w]).(core := ApplyEvent(c[w].core, at, ev, true));
    }
  }

  lemma OwnStepForOther(c: Cluster, at: Locator, w: WorkerId, k': Worker, v: WorkerId)
    requires w in c && v in c && v != w && c[w].core.self == w && Sees(c, at, v) && OwnStep(c[w], k', at)
    ensures Sees(c[w := k'], at, v)
  {
    var hs := Others(c, v);
    if k'.history == c[w].history {
      assert Others(c[w := k'], v) == hs;
    } else {
      var ev :| Extends(c[w], k', at, ev);
      assert hs[w] == c[w].history;
      PublishSeen(hs, InboxOf(c[v]), at, w, ev);
      assert Others(c[w := k'], v) == hs[w := hs[w] + [ev]];
    }
  }

  lemma OwnStepKeeps(c: Cluster, at: Locator, w: WorkerId, k': Worker)
    requires Good(c, at) && w in c && OwnStep(c[w], k', at) && OwnOk(k', at)
    ensures Good(c[w := k'], at)
  {
    assert Own(c, at, w);
    OwnParts(c, at, w, k');
    OwnStepSeen(c, at, w, k');
  }

  lemma OwnStepSeen(c: Cluster, at: Locator, w: WorkerId, k': Worker)
    requires (forall v <- c :: Sees(c, at, v)) && w in c && c[w].core.self == w && OwnStep(c[w], k', at)
    ensures var c' := c[w := k']; forall v <- c' :: Sees(c', at, v)
  {
    var c' := c[w := k'];
    forall v | v in c' ensures Sees(c', at, v) {
      if v == w { OwnStepForItself(c, at, w, k'); } else { OwnStepForOther(c, at, w, k', v); }
    }
  }

  // ---- deliveries concern only the worker they reach ---------------------------------------

  lemma InboxForOther(c: Cluster, at: Locator, w: WorkerId, k': Worker, v: WorkerId)
    requires w in c && v in c && v != w && Sees(c, at, v) && k'.history == c[w].history
    ensures Sees(c[w := k'], at, v)
  {
    assert Others(c[w := k'], v) == Others(c, v);
  }

  lemma InboxForItself(c: Cluster, at: Locator, w: WorkerId, k': Worker)
    requires w in c && R.Good(R.World(Others(c, w), InboxOf(k')), at)
    ensures Sees(c[w := k'], at, w)
  {
    assert Others(c[w := k'], w) == Others(c, w);
  }

  lemma OwnParts(c: Cluster, at: Locator, w: WorkerId, k': Worker)
    requires (forall v <- c :: Own(c, at, v)) && w in c && k'.core.self == w && OwnOk(k', at)
    ensures var c' := c[w := k']; forall v <- c' :: Own(c', at, v)
  {
    var c' := c[w := k'];
    forall v | v in c' ensures Own(c', at, v) {
      assert v != w ==> Own(c, at, v);
    }
  }

  lemma InboxKeeps(c: Cluster, at: Locator, w: WorkerId, k': Worker)
    requires Good(c, at) && w in c && k'.history == c[w].history && k'.core.self == w && OwnOk(k', at)
    requires R.Good(R.World(Others(c, w), InboxOf(k')), at)
    ensures Good(c[w := k'], at)
  {
    var c' := c[w := k'];
    OwnParts(c, at, w, k');
    InboxForItself(c, at, w, k');
    forall v | v in c' && v != w ensures Sees(c', at, v) {
      InboxForOther(c, at, w, k', v);
    }
  }

  lemma EventIsForeign(h: History, at: Locator, owner: WorkerId, k: nat)
    requires ValidHistory(h, at, owner) && k < |h|
    ensures h[k].owner == owner && h[k].id.worker == owner
  {
    assert LegalNext(h, at, owner, k);
  }

  lemma EventSeen(hs: map<WorkerId, History>, b: R.Inbox, at: Locator, owner: WorkerId, k: nat, inside: bool)
    requires R.Good(R.World(hs, b), at) && owner in hs && k < |hs[owner]|
    ensures R.Good(R.World(hs, R.OnRemoteEvent(b, at, inside, owner, hs[owner][k]).0), at)
  {
    R.StepKeepsGood(R.World(hs, b), at, R.DeliverEvent(owner, k, inside));
  }

  lemma EventLeavesOwn(me: Worker, at: Locator, owner: WorkerId, ev: Event, inside: bool)
    requires OwnOk(me, at) && owner != me.core.self && ev.owner == owner && ev.id.worker == owner
    ensures var k' := WithInbox(me, R.OnRemoteEvent(InboxOf(me), at, inside, owner, ev).0);
            OwnOk(k', at) && k'.core.self == me.core.self
  {
    RemoteKeepsOwnPart(me.core, at, me.history, me.ids, me.next, ev);
  }

  lemma EventInbox(c: Cluster, at: Locator, w: WorkerId, owner: WorkerId, k: nat, inside: bool)
    requires w in c && owner in c && owner != w && k < |c[owner].history|
    requires Own(c, at, w) && Sees(c, at, w) && ValidHistory(c[owner].history, at, owner)
    ensures var k' := After(c, at, DeliverEvent(w, owner, k, inside));
            OwnOk(k', at) && k'.core.self == w && k'.history == c[w].history && R.Good(R.World(Others(c, w), InboxOf(k')), at)
  {
    var hs := Others(c, w);
    assert hs[owner] == c[owner].history;
    EventSeen(hs, InboxOf(c[w]), at, owner, k, inside);
    EventIsForeign(c[owner].history, at, owner, k);
    EventLeavesOwn(c[w], at, owner, c[owner].history[k], inside);
  }

  lemma EventArrives(c: Cluster, at: Locator, w: WorkerId, owner: WorkerId, k: nat, inside: bool)
    requires Good(c, at) && Enabled(c, at, DeliverEvent(w, owner, k, inside))
    ensures Good(Next(c, at, DeliverEvent(w, owner, k, inside)), at)
  {
    assert Own(c, at, owner);
    EventInbox(c, at, w, owner, k, inside);
    InboxKeeps(c, at, w, After(c, at, DeliverEvent(w, owner, k, inside)));
  }

  lemma WaitingSeen(hs: map<WorkerId, History>, b: R.Inbox, at: Locator, moves: seq<Event>)
    requires R.Good(R.World(hs, b), at) && forall m <- moves :: m.id in b.pending && b.pending[m.id] == m
    ensures R.Good(R.World(hs, R.Inbox(R.FlushMoves(b.core, at, moves), map[])), at)
    ensures AllForeign(moves, b.core.self)
  {
    R.StepKeepsGood(R.World(hs, b), at, R.Tick(moves));
    forall e | e in moves ensures e.id.worker == e.owner != b.core.self {
      assert R.Published(hs, b.pending[e.id]);
      EventIsForeign(hs[e.owner], at, e.owner, e.ownerSeq - 1);
    }
  }

  lemma TickArrives(c: Cluster, at: Locator, w: WorkerId, moves: seq<Event>)
    requires Good(c, at) && Enabled(c, at, Tick(w, moves))
    ensures Good(Next(c, at, Tick(w, moves)), at)
  {
    assert Own(c, at, w) && Sees(c, at, w);
    var me := c[w];
    WaitingSeen(Others(c, w), InboxOf(me), at, moves);
    FlushKeepsOwnPart(me.core, at, me.history, me.ids, me.next, moves);
    FlushKeepsSelf(me.core, at, moves);
    InboxKeeps(c, at, w, After(c, at, Tick(w, moves)));
  }

  lemma {:induction false} FlushKeepsSelf(c: Core, at: Locator, moves: seq<Event>)
    ensures R.FlushMoves(c, at, moves).self == c.self
    decreases |moves|
  {
    if moves != [] { FlushKeepsSelf(ApplyEvent(c, at, moves[0], false), at, moves[1..]); }
  }

  lemma SnapshotIsOwned(h: History, at: Locator, w: WorkerId, k: nat, snap: Snapshot)
    requires ValidHistory(h, at, w) && SnapshotOf(h, at, w, k, snap)
    ensures OwnedIds(snap) && snap.owner == w
  {
    forall e | e in snap.ents ensures e.id.worker == snap.owner { StatusIsRecorded(h, at, w, k, e.id); }
  }

  lemma SnapshotSeen(hs: map<WorkerId, History>, b: R.Inbox, at: Locator, owner: WorkerId, k: nat, snap: Snapshot)
    requires R.Good(R.World(hs, b), at) && owner in hs && SnapshotOf(hs[owner], at, owner, k, snap)
    ensures R.Good(R.World(hs, R.OnSnapshot(b, at, owner, snap)), at)
  {
    R.StepKeepsGood(R.World(hs, b), at, R.DeliverSnapshot(owner, k, snap));
  }

  lemma SnapshotLeavesOwn(me: Worker, at: Locator, owner: WorkerId, snap: Snapshot)
    requires OwnOk(me, at) && OwnedIds(snap)
    ensures var k' := WithInbox(me, R.OnSnapshot(InboxOf(me), at, owner, snap));
            OwnOk(k', at) && k'.core.self == me.core.self
  {
    SnapshotKeepsOwnPart(me.core, at, me.history, me.ids, me.next, snap);
  }

  lemma SnapshotArrives(c: Cluster, at: Locator, w: WorkerId, owner: WorkerId, k: nat, snap: Snapshot)
    requires Good(c, at) && Enabled(c, at, DeliverSnapshot(w, owner, k, snap))
    ensures Good(Next(c, at, DeliverSnapshot(w, owner, k, snap)), at)
  {
    assert Own(c, at, w) && Own(c, at, owner) && Sees(c, at, w);
    var hs := Others(c, w);
    assert hs[owner] == c[owner].history;
    SnapshotSeen(hs, InboxOf(c[w]), at, owner, k, snap);
    SnapshotIsOwned(c[owner].history, at, owner, k, snap);
    SnapshotLeavesOwn(c[w], at, owner, snap);
    InboxKeeps(c, at, w, After(c, at, DeliverSnapshot(w, owner, k, snap)));
  }

  lemma StepKeepsGood(c: Cluster, at: Locator, step: Step)
    requires Good(c, at) && Enabled(c, at, step)
    ensures Good(Next(c, at, step), at)
  {
    assert Own(c, at, step.w);
    var k := c[step.w];
    match step
    case Enter(w, p, reenter, inside) =>
      EnterStep(k, at, p, reenter, inside);
      OwnStepKeeps(c, at, w, Entered(k, at, p, reenter, inside));
    case Move(w, p, inside) =>
      MoveStep(k, at, p, inside);
      OwnStepKeeps(c, at, w, MovedTo(k, at, p, inside));
    case Depart(w, id) =>
      DepartStep(k, at, id);
      OwnStepKeeps(c, at, w, LeftBy(k, at, id));
    case DeliverEvent(w, owner, i, inside) => EventArrives(c, at, w, owner, i, inside);
    case Tick(w, moves) => TickArrives(c, at, w, moves);
    case DeliverSnapshot(w, owner, i, snap) => SnapshotArrives(c, at, w, owner, i, snap);
  }

  // ---- whole runs --------------------------------------------------------------------------

  function Start(workers: set<WorkerId>): Cluster { map w | w in workers :: NewWorker(w) }

  lemma NewWorkerIsOwn(w: WorkerId, at: Locator)
    ensures OwnOk(NewWorker(w), at)
  {
  }

  lemma StartSees(workers: set<WorkerId>, at: Locator, w: WorkerId)
    requires w in workers
    ensures Sees(Start(workers), at, w)
  {
    R.StartIsGood(w, at, workers - {w});
    assert Others(Start(workers), w) == map v | v in workers - {w} :: [];
  }

  lemma StartIsGood(workers: set<WorkerId>, at: Locator)
    ensures Good(Start(workers), at)
  {
    var c := Start(workers);
    forall w | w in c ensures Own(c, at, w) { NewWorkerIsOwn(w, at); }
    forall w | w in c ensures Sees(c, at, w) { StartSees(workers, at, w); }
  }

  ghost predicate LegalRun(c: Cluster, at: Locator, steps: seq<Step>)
    decreases |steps|
  {
    steps == [] || (Enabled(c, at, steps[0]) && LegalRun(Next(c, at, steps[0]), at, steps[1..]))
  }

  function Run(c: Cluster, at: Locator, steps: seq<Step>): Cluster
    decreases |steps|
  {
    if steps == [] then c else Run(Next(c, at, steps[0]), at, steps[1..])
  }

  lemma {:induction false} RunKeepsWorkers(c: Cluster, at: Locator, steps: seq<Step>)
    ensures Run(c, at, steps).Keys == c.Keys
    decreases |steps|
  {
    if steps != [] {
      assert Next(c, at, steps[0]).Keys == c.Keys;
      RunKeepsWorkers(Next(c, at, steps[0]), at, steps[1..]);
    }
  }

  lemma {:induction false} RunKeepsGood(c: Cluster, at: Locator, steps: seq<Step>)
    requires Good(c, at) && LegalRun(c, at, steps)
    ensures Good(Run(c, at, steps), at)
    decreases |steps|
  {
    if steps != [] {
      var c' := Next(c, at, steps[0]);
      StepKeepsGood(c, at, steps[0]);
      RunKeepsGood(c', at, steps[1..]);
      assert Run(c, at, steps) == Run(c', at, steps[1..]);
    }
  }

  /** Whatever the workers do and whatever arrives when: every worker's record of another worker's entity
      is what that worker itself recorded after some number of its own events, and every worker's record
      of its own entity is what it recorded after all of them. */
  lemma EveryReplicaIsExact(workers: set<WorkerId>, at: Locator, steps: seq<Step>, v: WorkerId, id: EntityId)
    requires LegalRun(Start(workers), at, steps) && v in workers && id.worker in workers
    ensures var c := Run(Start(workers), at, steps);
            && v in c && id.worker in c
            && var h := c[id.worker].history;
               && Status(c[id.worker].core, id) == StatusAt(h, at, |h|, id)
               && (v != id.worker ==>
                     KnownSeq(c[v].core, id) <= |h| && Status(c[v].core, id) == StatusAt(h, at, KnownSeq(c[v].core, id), id))
  {
    StartIsGood(workers, at);
    RunKeepsGood(Start(workers), at, steps);
    RunKeepsWorkers(Start(workers), at, steps);
    var c := Run(Start(workers), at, steps);
    assert Own(c, at, id.worker) && Sees(c, at, v);
    if v != id.worker {
      assert Others(c, v)[id.worker] == c[id.worker].history;
      assert TracksId(c[v].core, at, Others(c, v)[id.worker], id);
    }
  }

  /** And repair works end to end: when a snapshot the owner takes now arrives, the replica's records of
      the owner's entities are the owner's own. */
  lemma SnapshotMakesReplicaCurrent(workers: set<WorkerId>, at: Locator, steps: seq<Step>, v: WorkerId, snap: Snapshot, id: EntityId)
    requires LegalRun(Start(workers), at, steps) && v in workers && id.worker == snap.owner
    requires var c := Run(Start(workers), at, steps);
             snap.owner in c && Enabled(c, at, DeliverSnapshot(v, snap.owner, |c[snap.owner].history|, snap))
    ensures var c := Run(Start(workers), at, steps);
            var c' := Next(c, at, DeliverSnapshot(v, snap.owner, |c[snap.owner].history|, snap));
            v in c' && Status(c'[v].core, id) == Status(c[snap.owner].core, id)
  {
    StartIsGood(workers, at);
    RunKeepsGood(Start(workers), at, steps);
    RunKeepsWorkers(Start(workers), at, steps);
    var c := Run(Start(workers), at, steps);
    assert Own(c, at, snap.owner) && Sees(c, at, v);
    assert Others(c, v)[snap.owner] == c[snap.owner].history;
    CurrentSnapshotRepairs(c[v].core, at, Others(c, v), snap, id);
    OwnerSnapshotAccepted(c[v].core, at, Others(c, v), |c[snap.owner].history|, snap);
    assert Status(c[snap.owner].core, id) == StatusAt(c[snap.owner].history, at, |c[snap.owner].history|, id);
  }
}
