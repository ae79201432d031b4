/** Whole runs of the save world: confirmed means durable, and logout loses nothing. */
module SaveRuns {
  import opened Common
  import opened Database
  import opened Transactions
  import opened PlayerSnapshot
  import opened SaveTheorems
  import opened SaveRecords
  import opened SaveWorld
  import opened SaveSafety

  // The database executes a task.

  lemma SaveRows(s: Snapshot, db: Db, weather: Weather, other: nat)
    requires Storable(s) && Honest(weather) && other != s.player
    ensures SameRows(db, Execute(SaveTask(s), db, weather).db, other)
  {
    SaveOutcome(s, db, weather);
  }

  lemma PendingIsUnderWay(w: World, task: nat)
    requires Good(w) && task in w.pending
    ensures var s := w.pending[task];
            && UnderWay(RecordOf(w.books.records, s.player), task, s) && Storable(s) && task !in w.answers
            && (forall t <- w.pending :: w.pending[t].player == s.player ==> t == task)
            && (forall t <- w.answers :: w.answers[t].snapshot.player != s.player)
  {
    var s := w.pending[task];
    assert GoodPlayer(w, s.player);
    assert RecordPart(w.books.records[s.player], s.player, w.owners);
  }

  lemma PendingIsStorable(w: World, task: nat)
    requires Good(w) && task in w.pending
    ensures Storable(w.pending[task])
  {
    PendingIsUnderWay(w, task);
  }

  lemma RunKeepsOwn(w: World, task: nat, weather: Weather, again: bool)
    requires Good(w) && Enabled(w, RunDb(task, weather, again))
    ensures GoodPlayer(RunAt(w, task, weather, again), w.pending[task].player)
  {
    var s := w.pending[task];
    PendingIsUnderWay(w, task);
    assert GoodPlayer(w, s.player);
    SaveOutcome(s, w.db, weather);
  }

  lemma RunLeavesOthers(w: World, task: nat, weather: Weather, again: bool, other: nat)
    requires Good(w) && Enabled(w, RunDb(task, weather, again)) && other != w.pending[task].player
    ensures Alike(w, RunAt(w, task, weather, again), other)
  {
    PendingIsStorable(w, task);
    SaveRows(w.pending[task], w.db, weather, other);
  }

  lemma RunDbKeeps(w: World, task: nat, weather: Weather, again: bool)
    requires Good(w) && Enabled(w, RunDb(task, weather, again))
    ensures Good(RunAt(w, task, weather, again))
  {
    RunKeepsOwn(w, task, weather, again);
    forall other: nat | other != w.pending[task].player ensures GoodPlayer(RunAt(w, task, weather, again), other) {
      assert GoodPlayer(w, other);
      RunLeavesOthers(w, task, weather, again, other);
      LeftAlone(w, RunAt(w, task, weather, again), other);
    }
  }

  // A result reaches the coordinator.

  lemma {:induction false} FoundTask(records: map<nat, Record>, order: seq<nat>, task: nat, player: nat)
    requires player in records && records[player].taskId == task
    requires forall k :: k in records && records[k].taskId == task ==> k == player
    ensures FindTask(records, order, task) == if player in order then Some(player) else None
    decreases |order|
  {
    if order != [] { FoundTask(records, order[1..], task, player); }
  }

  lemma AnswerIsUnderWay(w: World, task: nat)
    requires Good(w) && task in w.answers
    ensures var s := w.answers[task].snapshot;
            && UnderWay(RecordOf(w.books.records, s.player), task, s)
            && (forall k :: k in w.books.records && w.books.records[k].taskId == task ==> k == s.player)
            && (forall t <- w.answers :: w.answers[t].snapshot.player == s.player ==> t == task)
            && (forall t <- w.pending :: w.pending[t].player != s.player)
  {
    var s := w.answers[task].snapshot;
    assert GoodPlayer(w, s.player);
    forall k | k in w.books.records && w.books.records[k].taskId == task ensures k == s.player {
      assert GoodPlayer(w, k);
      assert task != 0;
    }
  }

  lemma DeliverIsPut(w: World, task: nat, order: seq<nat>)
    requires Good(w) && Enabled(w, Deliver(task, order))
    ensures var d := w.answers[task];
            var player := d.snapshot.player;
            && player in w.books.records
            && var c := CompleteOn(w.books.records[player], d.result, LiveOf(w.live, player));
               DeliverAt(w, task, order) == w.(books := Put(w.books, player, c.answer).0, answers := w.answers - {task},
                                               live := if c.live.Some? then w.live[player := c.live.value] else w.live)
  {
    AnswerIsUnderWay(w, task);
    FoundTask(w.books.records, order, task, w.answers[task].snapshot.player);
  }

  /** While a success is on its way, the tables hold exactly the snapshot it speaks of. */
  lemma AnswerMeansDurable(w: World, task: nat)
    requires Good(w) && task in w.answers && Succeeded(w.answers[task].result)
    ensures var s := w.answers[task].snapshot;
            && Stored(w.db, s) && Holds(w.db, BodyOf(s))
            && RecordOf(w.books.records, s.player).Some? && w.books.records[s.player].active == Some(s)
            && Identifies(w.answers[task].result, s, w.books.records[s.player].token)
  {
    var s := w.answers[task].snapshot;
    AnswerIsUnderWay(w, task);
    assert GoodPlayer(w, s.player);
    StoredHolds(w.db, s);
  }

  /** The record after a result, against the live player it may confirm. */
  lemma CompleteLive(p: Live, r: Record, player: nat, owners: map<nat, nat>, db: Db, result: DbResult)
    requires RecordPart(r, player, owners) && LivePart(p, Some(r), player, db) && r.active.Some?
    requires Succeeded(result) ==> Holds(db, BodyOf(r.active.value)) && Identifies(result, r.active.value, r.token)
    ensures var c := CompleteOn(r, result, Some(p));
            && c.live.Some? && !c.answer.Erased?
            && RecordPart(c.answer.record, player, owners) && LivePart(c.live.value, Some(c.answer.record), player, db)
  {
  }

  lemma CompleteGone(r: Record, player: nat, owners: map<nat, nat>, left: map<nat, Snapshot>, db: Db, result: DbResult)
    requires RecordPart(r, player, owners) && GonePart(Some(r), player, left, db) && r.active.Some?
    requires Succeeded(result) ==> Holds(db, BodyOf(r.active.value)) && Identifies(result, r.active.value, r.token)
    ensures var c := CompleteOn(r, result, None);
            && c.live.None?
            && match c.answer {
                 case Erased => GonePart(None, player, left, db)
                 case Kept(r') => RecordPart(r', player, owners) && GonePart(Some(r'), player, left, db)
                 case Refused(r') => RecordPart(r', player, owners) && GonePart(Some(r'), player, left, db)
               }
  {
  }

  lemma DeliveredFlight(w: World, task: nat, books: Books)
    requires Good(w) && task in w.answers
    ensures FlightPart(w.pending, w.answers - {task}, w.answers[task].snapshot.player,
                       RecordOf(books.records, w.answers[task].snapshot.player), w.db)
  {
    AnswerIsUnderWay(w, task);
  }

  /** What a delivered result finds: a sound record with the snapshot active, durable if it succeeded. */
  lemma DeliveredFacts(w: World, task: nat)
    requires Good(w) && task in w.answers
    ensures var d := w.answers[task];
            && d.snapshot.player in w.books.records
            && var r := w.books.records[d.snapshot.player];
               && RecordPart(r, d.snapshot.player, w.owners) && r.active.Some?
               && (Succeeded(d.result) ==> Holds(w.db, BodyOf(r.active.value)) && Identifies(d.result, r.active.value, r.token))
  {
    AnswerIsUnderWay(w, task);
    if Succeeded(w.answers[task].result) { AnswerMeansDurable(w, task); }
    assert GoodPlayer(w, w.answers[task].snapshot.player);
  }

  lemma PutFlight(w: World, task: nat, a: Answer)
    requires Good(w) && task in w.answers
    ensures FlightPart(w.pending, w.answers - {task}, w.answers[task].snapshot.player,
                       RecordOf(Put(w.books, w.answers[task].snapshot.player, a).0.records, w.answers[task].snapshot.player), w.db)
  {
    DeliveredFlight(w, task, Put(w.books, w.answers[task].snapshot.player, a).0);
  }

  lemma DeliverKeepsLive(w: World, task: nat, order: seq<nat>)
    requires Good(w) && Enabled(w, Deliver(task, order)) && w.answers[task].snapshot.player in w.live
    ensures GoodPlayer(DeliverAt(w, task, order), w.answers[task].snapshot.player)
  {
    var d := w.answers[task];
    var player := d.snapshot.player;
    DeliverIsPut(w, task, order);
    DeliveredFacts(w, task);
    assert GoodPlayer(w, player);
    CompleteLive(w.live[player], w.books.records[player], player, w.owners, w.db, d.result);
    PutFlight(w, task, CompleteOn(w.books.records[player], d.result, Some(w.live[player])).answer);
  }

  lemma DeliverKeepsGone(w: World, task: nat, order: seq<nat>)
    requires Good(w) && Enabled(w, Deliver(task, order)) && w.answers[task].snapshot.player !in w.live
    ensures GoodPlayer(DeliverAt(w, task, order), w.answers[task].snapshot.player)
  {
    var d := w.answers[task];
    var player := d.snapshot.player;
    DeliverIsPut(w, task, order);
    DeliveredFacts(w, task);
    assert GoodPlayer(w, player);
    CompleteGone(w.books.records[player], player, w.owners, w.left, w.db, d.result);
    PutFlight(w, task, CompleteOn(w.books.records[player], d.result, None).answer);
  }

  lemma DeliverLeavesOthers(w: World, task: nat, order: seq<nat>, other: nat)
    requires Good(w) && Enabled(w, Deliver(task, order)) && other != w.answers[task].snapshot.player
    ensures Alike(w, DeliverAt(w, task, order), other)
  {
    DeliverIsPut(w, task, order);
  }

  lemma DeliverKeeps(w: World, task: nat, order: seq<nat>)
    requires Good(w) && Enabled(w, Deliver(task, order))
    ensures Good(DeliverAt(w, task, order))
  {
    if w.answers[task].snapshot.player in w.live { DeliverKeepsLive(w, task, order); } else { DeliverKeepsGone(w, task, order); }
    DeliverIsPut(w, task, order);
    forall other: nat | other != w.answers[task].snapshot.player ensures GoodPlayer(DeliverAt(w, task, order), other) {
      assert GoodPlayer(w, other);
      DeliverLeavesOthers(w, task, order, other);
      LeftAlone(w, DeliverAt(w, task, order), other);
    }
  }

  // The player itself changes, comes and goes.

  lemma LiveKeeps(w: World, player: nat, p: Live)
    requires Good(w)
    requires LivePart(p, RecordOf(w.books.records, player), player, w.db)
    ensures Good(w.(live := w.live[player := p]))
  {
    var w' := w.(live := w.live[player := p]);
    forall other: nat ensures GoodPlayer(w', other) {
      assert GoodPlayer(w, other);
      if other != player { LeftAlone(w, w', other); }
    }
  }

  lemma MutateKeeps(w: World, player: nat, body: Snapshot)
    requires Good(w) && Enabled(w, Mutate(player, body))
    ensures Good(Next(w, Mutate(player, body)))
  {
    assert GoodPlayer(w, player);
    LiveKeeps(w, player, Changed(w.live[player], body));
  }

  lemma RebindKeeps(w: World, player: nat, epoch: nat)
    requires Good(w) && player in w.live
    ensures Good(Next(w, Rebind(player, epoch)))
  {
    assert GoodPlayer(w, player);
    LiveKeeps(w, player, w.live[player].(epoch := epoch));
  }

  lemma LoginKeeps(w: World, player: nat, epoch: nat)
    requires Good(w) && Enabled(w, Login(player, epoch))
    ensures Good(Next(w, Login(player, epoch)))
  {
    assert GoodPlayer(w, player);
    LoadedIsSound(w.db, player);
    LiveKeeps(w, player, Entered(w.db, player, epoch));
  }

  /** Every step keeps the invariant. */
  lemma StepKeepsGood(w: World, step: Step)
    requires Good(w) && Enabled(w, step)
    ensures Good(Next(w, step))
  {
    match step
    case Mutate(player, body) => MutateKeeps(w, player, body);
    case Rebind(player, epoch) => RebindKeeps(w, player, epoch);
    case Save(player, offline, spare, accept) => SaveKeeps(w, player, offline, spare, accept);
    case Retry(player, spare, accept) => RetryKeeps(w, player, spare, accept);
    case RunDb(task, weather, again) => RunDbKeeps(w, task, weather, again);
    case Deliver(task, order) => DeliverKeeps(w, task, order);
    case Login(player, epoch) => LoginKeeps(w, player, epoch);
  }

  ghost predicate LegalRun(w: World, steps: seq<Step>)
    decreases |steps|
  {
    steps == [] || (Enabled(w, steps[0]) && LegalRun(Next(w, steps[0]), steps[1..]))
  }

  function Run(w: World, steps: seq<Step>): World
    decreases |steps|
  {
    if steps == [] then w else Run(Next(w, steps[0]), steps[1..])
  }

  lemma {:induction false} RunKeepsGood(w: World, steps: seq<Step>)
    requires Good(w) && LegalRun(w, steps)
    ensures Good(Run(w, steps))
    decreases |steps|
  {
    if steps != [] {
      StepKeepsGood(w, steps[0]);
      RunKeepsGood(Next(w, steps[0]), steps[1..]);
    }
  }

  /** The server's start: a database and nobody online. */
  function Start(db: Db): World {
    World(map[], Books(map[], 0), db, map[], map[], map[], map[])
  }

  /** The coordinator's answer to a result: accepted, and a success. */
  predicate AcceptsSuccess(w: World, task: nat, order: seq<nat>)
    requires task in w.answers
  {
    var d := w.answers[task];
    Succeeded(d.result) && Complete(w.books, order, task, d.result, LiveOf(w.live, d.snapshot.player)).2
  }

  /** On every run, when the coordinator accepts a success the tables hold exactly the frozen snapshot it
      confirms, at its save version; the record and, in the same session, the player move to that version
      and revision, and an offline record with nothing else to save goes. */
  lemma ConfirmedMeansDurable(db: Db, steps: seq<Step>, task: nat, order: seq<nat>)
    requires LegalRun(Start(db), steps) && Enabled(Run(Start(db), steps), Deliver(task, order))
    requires AcceptsSuccess(Run(Start(db), steps), task, order)
    ensures var w := Run(Start(db), steps);
            var w', s := Next(w, Deliver(task, order)), w.answers[task].snapshot;
            && Stored(w'.db, s) && w'.db == w.db
            && s.player in w.books.records
            && var r := w.books.records[s.player];
               && r.active == Some(s)
               && (if r.offline && r.queued.None? then s.player !in w'.books.records
                   else s.player in w'.books.records && w'.books.records[s.player].confirmedVersion == s.version
                        && w'.books.records[s.player].confirmedRevision == s.revision)
               && (s.player in w.live && w.live[s.player].epoch == r.epoch && !r.offline ==>
                     s.player in w'.live && w'.live[s.player] == SaveRecords.ConfirmSave(w.live[s.player], s.version, s.revision))
  {
    RunKeepsGood(Start(db), steps);
    var w := Run(Start(db), steps);
    AcceptedAtDelivery(w, task, order);
  }

  lemma AcceptedAtDelivery(w: World, task: nat, order: seq<nat>)
    requires Good(w) && Enabled(w, Deliver(task, order)) && AcceptsSuccess(w, task, order)
    ensures var w', s := Next(w, Deliver(task, order)), w.answers[task].snapshot;
            && Stored(w'.db, s) && w'.db == w.db
            && s.player in w.books.records
            && var r := w.books.records[s.player];
               && r.active == Some(s)
               && (if r.offline && r.queued.None? then s.player !in w'.books.records
                   else s.player in w'.books.records && w'.books.records[s.player].confirmedVersion == s.version
                        && w'.books.records[s.player].confirmedRevision == s.revision)
               && (s.player in w.live && w.live[s.player].epoch == r.epoch && !r.offline ==>
                     s.player in w'.live && w'.live[s.player] == SaveRecords.ConfirmSave(w.live[s.player], s.version, s.revision))
  {
    AnswerMeansDurable(w, task);
    AnswerIsUnderWay(w, task);
    FoundTask(w.books.records, order, task, w.answers[task].snapshot.player);
    assert GoodPlayer(w, w.answers[task].snapshot.player);
  }

  /** Something of the player's counts as saved after the step that did not before: the record's or the
      player's confirmed version or revision moved, or its offline record went. */
  predicate NewlyConfirmed(w: World, w': World, player: nat) {
    || (player in w.books.records && player in w'.books.records
        && (w.books.records[player].confirmedVersion != w'.books.records[player].confirmedVersion
            || w.books.records[player].confirmedRevision != w'.books.records[player].confirmedRevision))
    || (player in w.live && player in w'.live
        && (w.live[player].persistedVersion != w'.live[player].persistedVersion
            || w.live[player].persistedRevision != w'.live[player].persistedRevision))
    || (player in w.books.records && w.books.records[player].offline && player !in w'.books.records)
  }

  /** Nothing else confirms: on every run, confirmed versions and revisions move and offline records go
      only where the coordinator accepts a success for that player. */
  lemma OnlyAcceptedSuccessConfirms(db: Db, steps: seq<Step>, step: Step, player: nat)
    requires LegalRun(Start(db), steps) && Enabled(Run(Start(db), steps), step)
    requires var w := Run(Start(db), steps); NewlyConfirmed(w, Next(w, step), player)
    ensures var w := Run(Start(db), steps);
            step.Deliver? && w.answers[step.task].snapshot.player == player && AcceptsSuccess(w, step.task, step.order)
  {
    RunKeepsGood(Start(db), steps);
    ConfirmingStep(Run(Start(db), steps), step, player);
  }

  lemma ConfirmingStep(w: World, step: Step, player: nat)
    requires Good(w) && Enabled(w, step) && NewlyConfirmed(w, Next(w, step), player)
    ensures step.Deliver? && w.answers[step.task].snapshot.player == player && AcceptsSuccess(w, step.task, step.order)
  {
    match step
    case Save(p, offline, spare, accept) => SaveConfirmsNothing(w, p, offline, spare, accept, player);
    case Deliver(task, order) => DeliveryConfirms(w, task, order, player);
    case _ =>
  }

  predicate SameConfirmed(r: Record, r': Record) {
    r.confirmedVersion == r'.confirmedVersion && r.confirmedRevision == r'.confirmedRevision
  }

  lemma RequestKeepsConfirmed(r: Record, p: Live, offline: bool, spare: nat, submit: Submit)
    ensures var a := RequestOn(r, p, offline, spare, submit);
            if a.Erased? then !p.dirty else SameConfirmed(r, a.record)
  {
  }

  lemma RequestBooks(b: Books, p: Live, offline: bool, spare: nat, submit: Submit, player: nat)
    requires p.body.player in b.records && b.records[p.body.player].offline ==> p.dirty
    requires player in b.records
    ensures var records := Request(b, p, offline, spare, submit).0.records;
            if player in records then SameConfirmed(b.records[player], records[player]) else !b.records[player].offline
  {
    if p.body.player in b.records {
      RequestKeepsConfirmed(b.records[p.body.player], p, offline, spare, submit);
    }
  }

  lemma SaveConfirmsNothing(w: World, p: nat, offline: bool, spare: nat, accept: bool, player: nat)
    requires Good(w) && Enabled(w, Save(p, offline, spare, accept))
    ensures !NewlyConfirmed(w, Next(w, Save(p, offline, spare, accept)), player)
  {
    var submit: Submit := (_, _) => accept;
    assert GoodPlayer(w, p);
    if player in w.books.records {
      RequestBooks(w.books, w.live[p], offline, spare, submit, player);
    }
    assert Next(w, Save(p, offline, spare, accept)).books == Request(w.books, w.live[p], offline, spare, submit).0;
  }

  lemma DeliveryConfirms(w: World, task: nat, order: seq<nat>, player: nat)
    requires Good(w) && Enabled(w, Deliver(task, order)) && NewlyConfirmed(w, Next(w, Deliver(task, order)), player)
    ensures w.answers[task].snapshot.player == player && AcceptsSuccess(w, task, order)
  {
    DeliverIsPut(w, task, order);
    AnswerIsUnderWay(w, task);
    FoundTask(w.books.records, order, task, w.answers[task].snapshot.player);
  }

  /** On every run, a player without unsaved changes is, state for state, what the database would
      load; and its current revision is the one that was confirmed. */
  lemma CleanMeansSaved(db: Db, steps: seq<Step>, player: nat)
    requires LegalRun(Start(db), steps)
    requires var w := Run(Start(db), steps); player in w.live && !w.live[player].dirty
    ensures var w := Run(Start(db), steps);
            Holds(w.db, w.live[player].body) && w.live[player].persistedRevision == w.live[player].revision
  {
    RunKeepsGood(Start(db), steps);
    assert GoodPlayer(Run(Start(db), steps), player);
  }

  /** On every run, once a logged-out player's record is gone the database holds exactly the state
      it had at logout. */
  lemma LogoutIsDurable(db: Db, steps: seq<Step>, player: nat)
    requires LegalRun(Start(db), steps)
    requires var w := Run(Start(db), steps); player in w.left && player !in w.live && player !in w.books.records
    ensures var w := Run(Start(db), steps); w.left[player].player == player && Holds(w.db, w.left[player])
  {
    RunKeepsGood(Start(db), steps);
    assert GoodPlayer(Run(Start(db), steps), player);
  }

  /** And so the next login starts from exactly that state. */
  lemma LoginResumesLogout(db: Db, steps: seq<Step>, player: nat, epoch: nat)
    requires LegalRun(Start(db), steps)
    requires var w := Run(Start(db), steps); player in w.left && Enabled(w, Login(player, epoch))
    ensures var w := Run(Start(db), steps);
            player in Next(w, Login(player, epoch)).live && Next(w, Login(player, epoch)).live[player].body == w.left[player]
  {
    RunKeepsGood(Start(db), steps);
    var w := Run(Start(db), steps);
    assert GoodPlayer(w, player);
    LogoutIsDurable(db, steps, player);
    LoadedIsSound(w.db, player);
  }
}
