/** What the save world is bound to do: what a save request and a retry hand to the database, and that no
    save is ever stuck unless its record was blocked. */
module SaveProgress {
  import opened Common
  import opened DbValue
  import opened Database
  import opened Transactions
  import opened PlayerSnapshot
  import opened SaveTheorems
  import opened SaveRecords
  import opened SaveWorld
  import opened SaveSafety
  import opened SaveRuns

  // ---- what a request hands over ---------------------------------------------------------------------

  /** Nothing of the player's is under way, and its current state is not already waiting. */
  predicate Quiet(w: World, player: nat)
    requires player in w.live
  {
    player in w.books.records ==>
      var r := w.books.records[player];
      r.state == Idle && (r.queued.Some? ==> r.queued.value.revision != w.live[player].revision)
  }

  /** The snapshot a save of the player takes now. */
  function Due(w: World, player: nat): Snapshot
    requires player in w.live
  {
    var p := w.live[player];
    if player in w.books.records then Frozen(p, w.books.records[player].nextVersion + 1, w.books.records[player].token)
    else Frozen(p, p.persistedVersion + 1, w.books.lastToken + 1)
  }

  /** The coordinator can take a new save of the player. */
  predicate CanTake(w: World, player: nat)
    requires player in w.live
  {
    && Due(w, player).version <= MAX_I64 && Storable(Due(w, player))
    && (if player in w.books.records then !(w.books.records[player].offline && w.books.records[player].epoch != w.live[player].epoch)
        else |w.books.records| < MAX_PLAYERS)
  }

  /** The record a request leaves when it freezes a snapshot of a player with nothing under way. */
  function Freshly(r: Record, p: Live, offline: bool, spare: nat, accept: bool): Record {
    var s := Some(Frozen(p, r.nextVersion + 1, r.token));
    r.(epoch := p.epoch, offline := r.offline || offline, nextVersion := r.nextVersion + 1, taskId := spare,
       state := if accept then AwaitResult else Idle, active := if accept then s else None, queued := if accept then None else s)
  }

  lemma RequestFreezes(r: Record, p: Live, offline: bool, spare: nat, submit: Submit, accept: bool)
    requires (forall id, s :: submit(id, s) == accept) && p.dirty && r.state == Idle && r.active.None? && (r.queued.Some? ==> r.queued.value.revision != p.revision)
    requires !(r.offline && r.epoch != p.epoch) && r.nextVersion < MAX_I64 && Storable(Frozen(p, r.nextVersion + 1, r.token))
    ensures RequestOn(r, p, offline, spare, submit) == Kept(Freshly(r, p, offline, spare, accept))
  {
  }

  lemma FreshBooks(w: World, player: nat, offline: bool, spare: nat, accept: bool)
    requires Good(w) && Enabled(w, Save(player, offline, spare, accept)) && w.live[player].dirty && Quiet(w, player) && CanTake(w, player)
    ensures w.live[player].body.player == player && RecordFor(w, player).active.None?
    ensures SaveAt(w, player, offline, spare, accept)
         == var r := Freshly(RecordFor(w, player), w.live[player], offline, spare, accept);
            Concluded(w, player, Put(Opened(w.books, player), player, Kept(r)).0, true, offline, spare)
  {
    var submit: Submit := (_, _) => accept;
    assert GoodPlayer(w, player);
    RequestFreezes(RecordFor(w, player), w.live[player], offline, spare, submit, accept);
    RequestIsPut(w, player, offline, spare, submit);
  }

  /** A save of a changed player with nothing under way, live or leaving, hands the player's current state
      to the database at the next version; refused by the layer below, it stays queued for the next try. */
  lemma DirtySaveIsHandedOver(w: World, player: nat, offline: bool, spare: nat, accept: bool)
    requires Good(w) && Enabled(w, Save(player, offline, spare, accept)) && w.live[player].dirty && Quiet(w, player) && CanTake(w, player)
    ensures var w', s := Next(w, Save(player, offline, spare, accept)), Due(w, player);
            && BodyOf(s) == w.live[player].body && player in w'.books.records
            && var r := w'.books.records[player];
               && r.taskId == spare && r.nextVersion == s.version && (offline ==> r.offline)
               && (if accept then w'.pending == w.pending[spare := s] && r.state == AwaitResult && r.active == Some(s) && r.queued.None?
                   else w'.pending == w.pending && r.state == Idle && r.queued == Some(s))
    ensures var w' := Next(w, Save(player, offline, spare, accept));
            if offline then player !in w'.live && player in w'.left && w'.left[player] == w.live[player].body else w'.live == w.live
  {
    assert GoodPlayer(w, player);
    FreshBooks(w, player, offline, spare, accept);
  }

  /** A retry hands over exactly what an idle record has queued, under the record's task id; otherwise
      nothing changes, and nothing is lost when the layer below refuses. */
  lemma RetryHandsOver(w: World, player: nat, spare: nat, accept: bool)
    requires Good(w) && Enabled(w, Retry(player, spare, accept))
    ensures var w', r := Next(w, Retry(player, spare, accept)), w.books.records[player];
            && player in w'.books.records
            && var r', id := w'.books.records[player], if r.taskId == 0 then spare else r.taskId;
               if r.state == Idle && r.queued.Some? then
                 if accept then w'.pending == w.pending[id := r.queued.value] && r' == r.(taskId := id, state := AwaitResult, active := r.queued, queued := None)
                 else w'.pending == w.pending && r' == r.(taskId := id)
               else w'.pending == w.pending && r' == r
  {
    assert GoodPlayer(w, player);
  }

  // ---- what the other steps do ---------------------------------------------------------------------------

  /** Everyone else's state, the records and the database stay. */
  ghost predicate OnlyLive(w: World, w': World, player: nat) {
    && w' == w.(live := w'.live) && w'.live.Keys == w.live.Keys + {player}
    && forall q <- w.live :: q != player ==> w'.live[q] == w.live[q]
  }

  /** A change gives the player that state; if it is another than before, it counts as one revision that is unsaved. */
  lemma MutateOutcome(w: World, player: nat, body: Snapshot)
    requires Enabled(w, Mutate(player, body))
    ensures var w', p := Next(w, Mutate(player, body)), w.live[player];
            && OnlyLive(w, w', player) && w'.live[player].body == body
            && (if body == p.body then w'.live[player] == p
                else w'.live[player] == Live(body, p.epoch, p.revision + 1, p.persistedVersion, p.persistedRevision, true))
  {
  }

  /** A player comes in with the state and version the tables hold, and nothing unsaved. */
  lemma LoginOutcome(w: World, player: nat, epoch: nat)
    requires Enabled(w, Login(player, epoch))
    ensures var w' := Next(w, Login(player, epoch));
            && OnlyLive(w, w', player) && player in w.db.players
            && var p := w'.live[player];
               && Holds(w.db, p.body) && p.body.player == player
               && p == Live(p.body, epoch, 0, w.db.players[player].version, 0, false)
  {
    LoadedVersion(w.db, player);
  }

  /** A run of a save leaves the tables as its execution does; it is answered with its result, or stays pending for
      another run if that is retryable and retries are left. */
  lemma RunOutcome(w: World, task: nat, weather: Weather, again: bool)
    requires Enabled(w, RunDb(task, weather, again))
    ensures var w', s, o := Next(w, RunDb(task, weather, again)), w.pending[task], Execute(SaveTask(w.pending[task]), w.db, weather);
            && w'.db == o.db && w'.live == w.live && w'.books == w.books && w'.left == w.left
            && (if again && o.result.class_ == Retryable then w'.pending == w.pending && w'.answers == w.answers
                else w'.pending == w.pending - {task} && w'.answers == w.answers[task := Done(s, o.result)])
  {
  }

  // ---- no save is stuck ---------------------------------------------------------------------------------

  function Get<V>(m: map<nat, V>, t: nat): Option<V> { if t in m then Some(m[t]) else None }

  predicate RowBelow(db: Db, player: nat, version: nat) { player in db.players && 0 <= db.players[player].version <= version }

  /** The versions of a record that is not blocked: the row is no newer than what was confirmed, or than the
      answer on its way, and what is active or queued is newer; an awaited result is pending or answered. */
  predicate TimelyRecord(r: Record, player: nat, db: Db, pending: Option<Snapshot>, answer: Option<Done>) {
    r.state != Blocked ==>
      && r.confirmedVersion <= r.nextVersion
      && (r.active.Some? ==> r.confirmedVersion < r.active.value.version <= r.nextVersion)
      && (r.queued.Some? ==> r.confirmedVersion < r.queued.value.version <= r.nextVersion)
      && (r.active.Some? && r.queued.Some? ==> r.active.value.version < r.queued.value.version)
      && (if r.state == Idle then RowBelow(db, player, r.confirmedVersion)
          else r.active.Some? && (if answer.Some? then answer.value.snapshot == r.active.value && RowBelow(db, player, r.active.value.version)
                                  else pending == r.active && RowBelow(db, player, r.confirmedVersion)))
  }

  predicate Timely(w: World, player: nat) {
    if player in w.books.records then
      var r := w.books.records[player];
      TimelyRecord(r, player, w.db, Get(w.pending, r.taskId), Get(w.answers, r.taskId))
    else player in w.live ==> RowBelow(w.db, player, w.live[player].persistedVersion)
  }

  ghost predicate AllTimely(w: World) { forall player: nat :: Timely(w, player) }

  /** A step that leaves the player's record, row and task alone keeps it timely. */
  predicate SameSave(w: World, w': World, player: nat) {
    && RecordOf(w.books.records, player) == RecordOf(w'.books.records, player)
    && (player in w.db.players ==> player in w'.db.players && w'.db.players[player] == w.db.players[player])
    && (player in w'.live ==> player in w.live && w'.live[player].persistedVersion == w.live[player].persistedVersion)
    && (player in w.books.records ==>
          var t := w.books.records[player].taskId; Get(w.pending, t) == Get(w'.pending, t) && Get(w.answers, t) == Get(w'.answers, t))
  }

  lemma SameSaveStaysTimely(w: World, w': World, player: nat)
    requires Timely(w, player) && SameSave(w, w', player)
    ensures Timely(w', player)
  {
    assert player in w.books.records <==> RecordOf(w.books.records, player).Some?;
    assert player in w'.books.records <==> RecordOf(w'.books.records, player).Some?;
  }

  /** A task that is pending or answered is no other player's. */
  lemma OtherTaskId(w: World, task: nat, other: nat)
    requires Good(w) && (task in w.pending || task in w.answers)
    ensures task != 0
    ensures other in w.books.records && w.books.records[other].taskId == task ==>
              other == if task in w.pending then w.pending[task].player else w.answers[task].snapshot.player
  {
    TaskHasOwner(w, task);
    if other in w.books.records { assert GoodPlayer(w, other); }
  }

  // The database runs a task.

  lemma RunRow(s: Snapshot, db: Db, weather: Weather)
    requires Storable(s) && Honest(weather) && s.player in db.players
    ensures var o := Execute(SaveTask(s), db, weather);
            && s.player in o.db.players
            && (if o.committed then o.db.players[s.player].version == s.version else o.db == db)
            && (o.result.class_ == Retryable ==> o.db == db)
  {
    SaveOutcome(s, db, weather);
  }

  lemma RunDbOthers(w: World, task: nat, weather: Weather, again: bool, other: nat)
    requires Good(w) && Enabled(w, RunDb(task, weather, again)) && other != w.pending[task].player && Timely(w, other)
    ensures Timely(RunAt(w, task, weather, again), other)
  {
    var s := w.pending[task];
    PendingIsAwaited(w, task);
    SaveRows(s, w.db, weather, other);
    OtherTaskId(w, task, other);
    SameSaveStaysTimely(w, RunAt(w, task, weather, again), other);
  }

  lemma RunDbOwn(w: World, task: nat, weather: Weather, again: bool)
    requires Good(w) && Enabled(w, RunDb(task, weather, again)) && Timely(w, w.pending[task].player)
    ensures Timely(RunAt(w, task, weather, again), w.pending[task].player)
  {
    var s := w.pending[task];
    PendingIsAwaited(w, task);
    if w.books.records[s.player].state != Blocked {
      RunRow(s, w.db, weather);
      RunKeepsTimely(w.books.records[s.player], s, w.db, weather, again);
    }
  }

  lemma PendingIsAwaited(w: World, task: nat)
    requires Good(w) && task in w.pending
    ensures var s := w.pending[task];
            && s.player in w.books.records && Storable(s) && task !in w.answers
            && var r := w.books.records[s.player]; r.taskId == task && r.active == Some(s) && r.state != Idle
  {
    PendingIsUnderWay(w, task);
    assert GoodPlayer(w, w.pending[task].player);
  }

  lemma RunKeepsTimely(r: Record, s: Snapshot, db: Db, weather: Weather, again: bool)
    requires TimelyRecord(r, s.player, db, Some(s), None) && r.active == Some(s) && r.state == AwaitResult
    requires Storable(s) && Honest(weather)
    ensures var o := Execute(SaveTask(s), db, weather);
            && TimelyRecord(r, s.player, o.db, None, Some(Done(s, o.result)))
            && (o.result.class_ == Retryable ==> TimelyRecord(r, s.player, o.db, Some(s), None))
  {
    RunRow(s, db, weather);
  }

  // A result reaches the coordinator.

  lemma AnsweredIsNotPending(w: World, task: nat)
    requires Good(w) && task in w.answers
    ensures task !in w.pending
  {
    if task in w.pending { PendingIsUnderWay(w, task); }
  }

  lemma DeliverOthers(w: World, task: nat, order: seq<nat>, other: nat)
    requires Good(w) && Enabled(w, Deliver(task, order)) && other != w.answers[task].snapshot.player && Timely(w, other)
    ensures Timely(DeliverAt(w, task, order), other)
  {
    DeliverIsPut(w, task, order);
    OtherTaskId(w, task, other);
    AnsweredIsNotPending(w, task);
    SameSaveStaysTimely(w, DeliverAt(w, task, order), other);
  }

  lemma DeliverOwn(w: World, task: nat, order: seq<nat>)
    requires Good(w) && Enabled(w, Deliver(task, order)) && Timely(w, w.answers[task].snapshot.player)
    ensures Timely(DeliverAt(w, task, order), w.answers[task].snapshot.player)
  {
    var player := w.answers[task].snapshot.player;
    DeliverIsPut(w, task, order);
    DeliveredFacts(w, task);
    AnswerIsUnderWay(w, task);
    assert GoodPlayer(w, player);
  }

  // Dispatching and requesting.

  /** What a new record of the player's keeps, given the task it had and whether one was just submitted. */
  predicate TimelyAfter(r: Record, r': Record, player: nat, db: Db, pending: Option<Snapshot>, answer: Option<Done>) {
    if Submitted(Some(r), Some(r')) then TimelyRecord(r', player, db, r'.active, None)
    else TimelyRecord(r', player, db, pending, answer) && (r'.state == AwaitResult ==> r'.taskId == r.taskId)
  }

  lemma DispatchTimely(r: Record, player: nat, db: Db, spare: nat, submit: Submit, pending: Option<Snapshot>, answer: Option<Done>)
    requires TimelyRecord(r, player, db, pending, answer)
    ensures TimelyAfter(r, Dispatch(r, spare, submit), player, db, pending, answer)
  {
  }

  lemma RequestTimely(r: Record, p: Live, offline: bool, player: nat, db: Db, spare: nat, submit: Submit, pending: Option<Snapshot>, answer: Option<Done>)
    requires TimelyRecord(r, player, db, pending, answer)
    ensures var a := RequestOn(r, p, offline, spare, submit);
            if a.Erased? then offline else TimelyAfter(r, a.record, player, db, pending, answer)
  {
    var same := r.active.Some? && r.active.value.revision == p.revision && r.queued.None?;
    if r.epoch != p.epoch && r.offline {
    } else if same || (r.queued.Some? && r.queued.value.revision == p.revision) {
    } else if !p.dirty && p.revision == r.confirmedRevision && r.active.None? {
    } else if r.nextVersion >= MAX_I64 {
    } else {
      FrozenTimely(r, p, offline, player, db, spare, submit, pending, answer);
    }
  }

  lemma FrozenTimely(r: Record, p: Live, offline: bool, player: nat, db: Db, spare: nat, submit: Submit, pending: Option<Snapshot>, answer: Option<Done>)
    requires TimelyRecord(r, player, db, pending, answer)
    ensures TimelyRecord(Taken(r, p, offline), player, db, pending, answer)
    ensures TimelyAfter(r, Dispatch(Taken(r, p, offline), spare, submit), player, db, pending, answer)
  {
    DispatchTimely(Taken(r, p, offline), player, db, spare, submit, pending, answer);
  }

  /** The player's part after its record changed. */
  lemma RecordedTimely(w: World, player: nat, r: Record, r': Record, books: Books, spare: nat)
    requires Good(w) && spare != 0 && spare !in w.owners && books.records == w.books.records[player := r']
    requires if player in w.books.records then r == w.books.records[player] else r.taskId == 0 && r.state == Idle
    requires TimelyAfter(r, r', player, w.db, Get(w.pending, r.taskId), Get(w.answers, r.taskId))
    requires Moved(r, r', spare) && RecordPart(r', player, if r'.taskId == spare then w.owners[spare := player] else w.owners)
    ensures Timely(Recorded(w, player, books, spare), player)
  {
    assert GoodPlayer(w, player);
    var t := r'.taskId;
    if Submitted(Some(r), Some(r')) {
      TaskHasOwner(w, t);
      if t != spare { IdleHasNoTask(w, player, t); }
    }
  }

  lemma RecordedOthers(w: World, player: nat, books: Books, spare: nat, other: nat)
    requires Good(w) && spare !in w.owners && other != player && Timely(w, other)
    requires RecordOf(books.records, other) == RecordOf(w.books.records, other)
    requires player in books.records && RecordPart(books.records[player], player, Recorded(w, player, books, spare).owners)
    ensures Timely(Recorded(w, player, books, spare), other)
  {
    assert GoodPlayer(w, other);
    assert other in books.records <==> RecordOf(books.records, other).Some?;
    assert other in w.books.records <==> RecordOf(w.books.records, other).Some?;
    SameSaveStaysTimely(w, Recorded(w, player, books, spare), other);
  }

  lemma RetryTimely(w: World, player: nat, spare: nat, accept: bool, q: nat)
    requires Good(w) && Enabled(w, Retry(player, spare, accept)) && Timely(w, player) && Timely(w, q)
    ensures Timely(RetryAt(w, player, spare, accept), q)
  {
    var submit: Submit := (_, _) => accept;
    var r := w.books.records[player];
    var r' := Dispatch(r, spare, submit);
    assert GoodPlayer(w, player);
    DispatchKeeps(r, player, w.owners, spare, submit);
    DispatchTimely(r, player, w.db, spare, submit, Get(w.pending, r.taskId), Get(w.answers, r.taskId));
    var books := w.books.(records := w.books.records[player := r']);
    assert RetryAt(w, player, spare, accept) == Recorded(w, player, books, spare);
    if q == player { RecordedTimely(w, player, r, r', books, spare); } else { RecordedOthers(w, player, books, spare, q); }
  }

  lemma SaveTimely(w: World, player: nat, offline: bool, spare: nat, accept: bool, q: nat)
    requires Good(w) && Enabled(w, Save(player, offline, spare, accept)) && Timely(w, player) && Timely(w, q)
    ensures Timely(SaveAt(w, player, offline, spare, accept), q)
  {
    var submit: Submit := (_, _) => accept;
    assert GoodPlayer(w, player);
    RequestIsPut(w, player, offline, spare, submit);
    if player !in w.books.records && (|w.books.records| >= MAX_PLAYERS || player == 0) {
      assert SaveAt(w, player, offline, spare, accept) == w;
    } else {
      var r := RecordFor(w, player);
      SaveAnswered(w, player, offline, spare, submit);
      RequestTimely(r, w.live[player], offline, player, w.db, spare, submit, Get(w.pending, r.taskId), Get(w.answers, r.taskId));
      AnswerTimely(w, player, RequestOn(r, w.live[player], offline, spare, submit), offline, spare, q);
    }
  }

  lemma AnswerTimely(w: World, player: nat, a: Answer, offline: bool, spare: nat, q: nat)
    requires Good(w) && player in w.live && spare != 0 && spare !in w.owners && Timely(w, q)
    requires RequestDone(a, RecordFor(w, player), w.live[player], offline, player, w.owners, w.db, spare)
    requires var r := RecordFor(w, player);
             if a.Erased? then offline else TimelyAfter(r, a.record, player, w.db, Get(w.pending, r.taskId), Get(w.answers, r.taskId))
    ensures var (books, ok) := Put(Opened(w.books, player), player, a); Timely(Concluded(w, player, books, ok, offline, spare), q)
  {
    var (books, ok) := Put(Opened(w.books, player), player, a);
    var w' := Concluded(w, player, books, ok, offline, spare);
    if a.Erased? {
      if q != player { SameSaveStaysTimely(w, w', q); }
    } else {
      if q == player { RecordedTimely(w, player, RecordFor(w, player), a.record, books, spare); }
      else { RecordedOthers(w, player, books, spare, q); }
    }
  }

  /** Every step keeps every player's versions in order and every awaited result pending or answered. */
  lemma StepKeepsTimely(w: World, step: Step)
    requires Good(w) && AllTimely(w) && Enabled(w, step)
    ensures AllTimely(Next(w, step))
  {
    forall q: nat ensures Timely(Next(w, step), q) {
      assert Timely(w, q);
      PlayerStaysTimely(w, step, q);
    }
  }

  lemma PlayerStaysTimely(w: World, step: Step, q: nat)
    requires Good(w) && AllTimely(w) && Enabled(w, step)
    ensures Timely(Next(w, step), q)
  {
    assert Timely(w, q);
    match step
    case Mutate(player, body) => SameSaveStaysTimely(w, Next(w, step), q);
    case Rebind(player, epoch) => SameSaveStaysTimely(w, Next(w, step), q);
    case Save(player, offline, spare, accept) =>
      assert Timely(w, player);
      SaveTimely(w, player, offline, spare, accept, q);
    case Retry(player, spare, accept) =>
      assert Timely(w, player);
      RetryTimely(w, player, spare, accept, q);
    case RunDb(task, weather, again) =>
      assert Timely(w, w.pending[task].player);
      if q == w.pending[task].player { RunDbOwn(w, task, weather, again); } else { RunDbOthers(w, task, weather, again, q); }
    case Deliver(task, order) =>
      assert Timely(w, w.answers[task].snapshot.player);
      if q == w.answers[task].snapshot.player { DeliverOwn(w, task, order); } else { DeliverOthers(w, task, order, q); }
    case Login(player, epoch) => LoginTimely(w, player, epoch, q);
  }

  lemma LoginTimely(w: World, player: nat, epoch: nat, q: nat)
    requires Good(w) && Enabled(w, Login(player, epoch)) && Timely(w, q)
    ensures Timely(Next(w, Login(player, epoch)), q)
  {
    assert GoodPlayer(w, player);
    if q == player { LoadedVersion(w.db, player); }
  }

  lemma LoadedVersion(db: Db, player: nat)
    requires 0 < player <= MAX_I64 && LoadOk(player, LoadResult(db, player))
    ensures RowBelow(db, player, Loaded(player, LoadResult(db, player)).version)
  {
  }

  lemma {:induction false} EveryRunIsTimely(w: World, steps: seq<Step>)
    requires Good(w) && AllTimely(w) && LegalRun(w, steps)
    ensures Good(Run(w, steps)) && AllTimely(Run(w, steps))
    decreases |steps|
  {
    if steps != [] {
      StepKeepsGood(w, steps[0]);
      StepKeepsTimely(w, steps[0]);
      EveryRunIsTimely(Next(w, steps[0]), steps[1..]);
    }
  }

  // ---- and so every save can finish -----------------------------------------------------------------------

  lemma {:induction false} FairHasNoFaults(k: nat, n: nat)
    ensures NoFaults(Fair(), k, n)
    decreases n
  {
    if n > 0 { FairHasNoFaults(k + 1, n - 1); }
  }

  /** A save that is not blocked, and whose answer, if it is already on its way, is a success. */
  predicate Hopeful(w: World, player: nat) {
    && player in w.books.records && w.books.records[player].state != Blocked
    && (w.books.records[player].taskId in w.answers ==> Succeeded(w.answers[w.books.records[player].taskId].result))
  }

  predicate Answered(w: World, player: nat) {
    && Hopeful(w, player) && w.books.records[player].state == AwaitResult && w.books.records[player].active.Some?
    && w.books.records[player].taskId in w.answers && w.answers[w.books.records[player].taskId].snapshot == w.books.records[player].active.value
  }

  /** Nothing but the player's own save moved: sessions and logouts are as they were. */
  predicate SameSessions(w: World, w': World, player: nat) {
    w'.left == w.left && (player in w'.live <==> player in w.live)
  }

  lemma RunNext(w: World, player: nat) returns (step: Step)
    requires Good(w) && AllTimely(w) && Hopeful(w, player) && w.books.records[player].state == AwaitResult
    requires w.books.records[player].taskId !in w.answers
    ensures Enabled(w, step) && Answered(Next(w, step), player) && SameSessions(w, Next(w, step), player)
    ensures Next(w, step).books == w.books
  {
    var r := w.books.records[player];
    assert Timely(w, player) && GoodPlayer(w, player);
    var s := r.active.value;
    step := RunDb(r.taskId, Fair(), false);
    FairHasNoFaults(0, 4 + |SortBySlot(s.items)|);
    PendingIsAwaited(w, r.taskId);
    SaveSucceeds(s, w.db, Fair());
  }

  /** The record after its save succeeded: gone if the player left and nothing else waits. */
  predicate Settled(r: Record, s: Snapshot, after: Option<Record>) {
    match after
    case None => r.offline && r.queued.None?
    case Some(r') => r'.state == Idle && r'.active.None? && r'.queued == r.queued && r'.confirmedVersion == s.version && r'.taskId == 0
                     && r'.offline == r.offline && !(r.offline && r.queued.None?)
  }

  lemma DeliverNext(w: World, player: nat) returns (step: Step)
    requires Good(w) && AllTimely(w) && Answered(w, player)
    ensures Enabled(w, step) && SameSessions(w, Next(w, step), player) && Next(w, step).db == w.db
    ensures var r := w.books.records[player];
            Stored(w.db, r.active.value) && Settled(r, r.active.value, RecordOf(Next(w, step).books.records, player))
  {
    var r := w.books.records[player];
    var order := SomeOrder(w.books.records.Keys);
    step := Deliver(r.taskId, order);
    assert GoodPlayer(w, player);
    AnswerMeansDurable(w, r.taskId);
    DeliverIsPut(w, r.taskId, order);
  }

  /** The ids of a table in some order. */
  lemma SomeOrder(ids: set<nat>) returns (order: seq<nat>)
    ensures forall id :: id in order <==> id in ids
    decreases |ids|
  {
    order := [];
    if ids != {} {
      var id :| id in ids;
      var rest := SomeOrder(ids - {id});
      order := [id] + rest;
    }
  }

  lemma OneMore(w: World, step: Step, rest: seq<Step>)
    requires Enabled(w, step) && LegalRun(Next(w, step), rest)
    ensures LegalRun(w, [step] + rest) && Run(w, [step] + rest) == Run(Next(w, step), rest)
  {
    assert ([step] + rest)[0] == step && ([step] + rest)[1..] == rest;
  }

  lemma FinishAwaited(w: World, player: nat) returns (steps: seq<Step>)
    requires Good(w) && AllTimely(w) && Hopeful(w, player) && w.books.records[player].state == AwaitResult
    ensures w.books.records[player].active.Some? && LegalRun(w, steps)
    ensures var r, w' := w.books.records[player], Run(w, steps);
            && Good(w') && AllTimely(w') && SameSessions(w, w', player)
            && Stored(w'.db, r.active.value) && Settled(r, r.active.value, RecordOf(w'.books.records, player))
  {
    assert Timely(w, player);
    if w.books.records[player].taskId in w.answers {
      steps := FinishAnswered(w, player);
    } else {
      var a := RunNext(w, player);
      StepKeepsGood(w, a);
      StepKeepsTimely(w, a);
      var rest := FinishAnswered(Next(w, a), player);
      OneMore(w, a, rest);
      steps := [a] + rest;
    }
  }

  lemma FinishAnswered(w: World, player: nat) returns (steps: seq<Step>)
    requires Good(w) && AllTimely(w) && Answered(w, player)
    ensures LegalRun(w, steps)
    ensures var r, w' := w.books.records[player], Run(w, steps);
            && Good(w') && AllTimely(w') && SameSessions(w, w', player)
            && Stored(w'.db, r.active.value) && Settled(r, r.active.value, RecordOf(w'.books.records, player))
  {
    var a := DeliverNext(w, player);
    StepKeepsGood(w, a);
    StepKeepsTimely(w, a);
    OneMore(w, a, []);
    steps := [a] + [];
  }

  lemma FreshId(ids: set<nat>) returns (id: nat)
    ensures id != 0 && id !in ids
  {
    var order := SomeOrder(ids);
    id := Above(order);
  }

  lemma Above(order: seq<nat>) returns (id: nat)
    ensures id != 0 && forall k :: k in order ==> k < id
    decreases |order|
  {
    id := 1;
    if order != [] {
      var rest := Above(order[1..]);
      id := if order[0] < rest then rest else order[0] + 1;
      assert order == [order[0]] + order[1..];
    }
  }

  lemma RetryNext(w: World, player: nat) returns (step: Step)
    requires Good(w) && AllTimely(w) && Hopeful(w, player) && w.books.records[player].state == Idle && w.books.records[player].queued.Some?
    ensures Enabled(w, step) && Hopeful(Next(w, step), player) && SameSessions(w, Next(w, step), player)
    ensures var r, r' := w.books.records[player], Next(w, step).books.records[player];
            r'.state == AwaitResult && r'.active == r.queued && r'.queued.None? && r'.offline == r.offline
  {
    var spare := FreshId(w.owners.Keys);
    step := Retry(player, spare, true);
    RetryHandsOver(w, player, spare, true);
    assert Timely(w, player) && GoodPlayer(w, player);
    StepKeepsGood(w, step);
    TaskHasOwner(w, spare);
    var t := w.books.records[player].taskId;
    if t in w.answers { AnsweredIsAwaited(w, t, player); }
  }

  lemma AnsweredIsAwaited(w: World, task: nat, player: nat)
    requires Good(w) && task in w.answers && player in w.books.records && w.books.records[player].taskId == task
    ensures w.books.records[player].active.Some? && w.books.records[player].state != Idle
  {
    AnswerIsUnderWay(w, task);
    assert GoodPlayer(w, player);
  }

  lemma FinishQueued(w: World, player: nat) returns (steps: seq<Step>)
    requires Good(w) && AllTimely(w) && Hopeful(w, player) && w.books.records[player].state == Idle && w.books.records[player].queued.Some?
    ensures LegalRun(w, steps)
    ensures var r, w' := w.books.records[player], Run(w, steps);
            && Good(w') && SameSessions(w, w', player) && Stored(w'.db, r.queued.value)
            && Settled(r.(queued := None), r.queued.value, RecordOf(w'.books.records, player))
  {
    var a := RetryNext(w, player);
    StepKeepsGood(w, a);
    StepKeepsTimely(w, a);
    var rest := FinishAwaited(Next(w, a), player);
    OneMore(w, a, rest);
    steps := [a] + rest;
  }

  /** What is left to do after the first of two snapshots was saved. */
  lemma FinishBoth(w: World, player: nat) returns (steps: seq<Step>)
    requires Good(w) && AllTimely(w) && Hopeful(w, player) && w.books.records[player].state == AwaitResult
    requires w.books.records[player].queued.Some?
    ensures LegalRun(w, steps)
    ensures var r, w' := w.books.records[player], Run(w, steps);
            && Good(w') && SameSessions(w, w', player) && Stored(w'.db, r.queued.value)
            && Settled(r.(queued := None), r.queued.value, RecordOf(w'.books.records, player))
  {
    var first := FinishAwaited(w, player);
    var w1 := Run(w, first);
    assert player in w1.books.records <==> RecordOf(w1.books.records, player).Some?;
    var rest := FinishQueued(w1, player);
    RunSplit(w, first, rest);
    steps := first + rest;
  }

  lemma {:induction false} RunSplit(w: World, a: seq<Step>, b: seq<Step>)
    requires LegalRun(w, a) && LegalRun(Run(w, a), b)
    ensures LegalRun(w, a + b) && Run(w, a + b) == Run(Run(w, a), b)
    decreases |a|
  {
    if a == [] {
      assert a + b == b;
    } else {
      assert (a + b)[1..] == a[1..] + b && (a + b)[0] == a[0];
      RunSplit(Next(w, a[0]), a[1..], b);
    }
  }

  lemma CanFinish(w: World, player: nat) returns (steps: seq<Step>)
    requires Good(w) && AllTimely(w) && Hopeful(w, player) && Last(w.books.records[player]).Some?
    ensures LegalRun(w, steps)
    ensures var r, w' := w.books.records[player], Run(w, steps);
            && Good(w') && SameSessions(w, w', player) && Stored(w'.db, Last(r).value)
            && Settled(r.(queued := None), Last(r).value, RecordOf(w'.books.records, player))
  {
    assert GoodPlayer(w, player) && Timely(w, player);
    if w.books.records[player].state == Idle {
      steps := FinishQueued(w, player);
    } else if w.books.records[player].queued.Some? {
      steps := FinishBoth(w, player);
    } else {
      steps := FinishAwaited(w, player);
    }
  }

  lemma StartIsTimely(db: Db)
    ensures Good(Start(db)) && AllTimely(Start(db))
  {
    RunKeepsGood(Start(db), []);
  }

  /** On every run: a record that is not blocked, and whose answer is not already a failure, can be brought
      to its end. Some legal continuation stores the newest snapshot it holds and settles the record. */
  lemma EverySaveCanFinish(db: Db, before: seq<Step>, player: nat) returns (steps: seq<Step>)
    requires LegalRun(Start(db), before)
    requires var w := Run(Start(db), before); Hopeful(w, player) && Last(w.books.records[player]).Some?
    ensures var w := Run(Start(db), before);
            && LegalRun(w, steps)
            && var r, w' := w.books.records[player], Run(w, steps);
               Stored(w'.db, Last(r).value) && Settled(r.(queued := None), Last(r).value, RecordOf(w'.books.records, player))
  {
    StartIsTimely(db);
    EveryRunIsTimely(Start(db), before);
    steps := CanFinish(Run(Start(db), before), player);
  }

  /** And so a player who left can always come back: its record can go, and the tables then hold the state
      it left in. */
  lemma EveryLogoutCanFinish(db: Db, before: seq<Step>, player: nat) returns (steps: seq<Step>)
    requires LegalRun(Start(db), before)
    requires var w := Run(Start(db), before); Hopeful(w, player) && player !in w.live
    ensures var w := Run(Start(db), before);
            && LegalRun(w, steps) && player in w.left
            && var w' := Run(w, steps);
               player !in w'.books.records && player !in w'.live && Holds(w'.db, w.left[player])
  {
    StartIsTimely(db);
    EveryRunIsTimely(Start(db), before);
    var w := Run(Start(db), before);
    assert GoodPlayer(w, player);
    steps := CanFinish(w, player);
    assert GoodPlayer(Run(w, steps), player);
    assert player in Run(w, steps).books.records <==> RecordOf(Run(w, steps).books.records, player).Some?;
  }
}
