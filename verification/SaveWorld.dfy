/** Players, the save coordinator and the database together: what may happen, and what always holds. */
module SaveWorld {
  import opened Common
  import opened DbValue
  import opened Database
  import opened Transactions
  import opened PlayerSnapshot
  import opened SaveTheorems
  import opened SaveRecords

  const LAST_REVISION: nat := 0xFFFF_FFFF_FFFF_FFFF

  /** What a task layer that executes each task at most once returns for it. */
  datatype Done = Done(snapshot: Snapshot, result: DbResult)

  /** live are the players in memory; pending and answers the save tasks submitted and executed;
      owners remembers which player each task id was drawn for, left the state at logout. */
  datatype World = World(
    live: map<nat, Live>, books: Books, db: Db, pending: map<nat, Snapshot>, answers: map<nat, Done>,
    owners: map<nat, nat>, left: map<nat, Snapshot>)

  /** The load query's result in fair weather. */
  function LoadResult(db: Db, player: nat): DbResult {
    Blank(LoadTask(player)).(data := LoadData(db, player))
  }

  /** Loading the player now gives exactly this state. */
  predicate Holds(db: Db, body: Snapshot) {
    LoadOk(body.player, LoadResult(db, body.player)) && Loaded(body.player, LoadResult(db, body.player)).(version := 0) == body
  }

  function BodyOf(s: Snapshot): Snapshot { s.(version := 0, revision := 0, token := 0) }

  predicate SoundBody(body: Snapshot, player: nat) {
    body == BodyOf(body) && body.player == player && Storable(body.(version := 1)) && Typed(body) && Sorted(body.items)
  }

  datatype Step =
    | Mutate(player: nat, body: Snapshot)
    | Rebind(player: nat, epoch: nat)
    | Save(player: nat, offline: bool, spare: nat, accept: bool)
    | Retry(player: nat, spare: nat, accept: bool)
    | RunDb(task: nat, w: Weather, again: bool)
    | Deliver(task: nat, order: seq<nat>)
    | Login(player: nat, epoch: nat)

  function LiveOf(live: map<nat, Live>, player: nat): Option<Live> {
    if player in live then Some(live[player]) else None
  }

  function RecordOf(records: map<nat, Record>, player: nat): Option<Record> {
    if player in records then Some(records[player]) else None
  }

  ghost predicate Enabled(w: World, step: Step) {
    match step
    case Mutate(player, body) => player in w.live && SoundBody(body, player) && w.live[player].revision < LAST_REVISION
    case Rebind(player, _) => player in w.live
    case Save(player, _, spare, _) => player in w.live && spare != 0 && spare !in w.owners
    case Retry(player, spare, _) => player in w.books.records && spare != 0 && spare !in w.owners
    case RunDb(task, weather, _) => task in w.pending && Honest(weather)
    case Deliver(task, order) => task in w.answers && forall k :: k in order <==> k in w.books.records
    case Login(player, _) =>
      && player !in w.live && 0 < player <= MAX_I64 && LoadOk(player, LoadResult(w.db, player))
      && (player in w.books.records ==> !w.books.records[player].offline)
  }

  /** The submission a change of record stands for. */
  predicate Submitted(before: Option<Record>, after: Option<Record>) {
    && after.Some? && after.value.state == AwaitResult && after.value.active.Some?
    && (before.None? || before.value.state != AwaitResult)
  }

  /** The coordinator's new books, with the task id drawn and the submission made on the way. */
  function Recorded(w: World, player: nat, books: Books, spare: nat): World {
    var before, after := RecordOf(w.books.records, player), RecordOf(books.records, player);
    w.(books := books,
       owners := if after.Some? && after.value.taskId == spare then w.owners[spare := player] else w.owners,
       pending := if Submitted(before, after) then w.pending[after.value.taskId := after.value.active.value] else w.pending)
  }

  /** The world after a request: a player whose logout was taken over leaves. */
  function Concluded(w: World, player: nat, books: Books, ok: bool, offline: bool, spare: nat): World
    requires player in w.live
  {
    var w' := Recorded(w, player, books, spare);
    if offline && ok then w'.(live := w.live - {player}, left := w.left[player := w.live[player].body]) else w'
  }

  function SaveAt(w: World, player: nat, offline: bool, spare: nat, accept: bool): World
    requires player in w.live
  {
    var (books, ok) := Request(w.books, w.live[player], offline, spare, (_, _) => accept);
    Concluded(w, player, books, ok, offline, spare)
  }

  function RetryAt(w: World, player: nat, spare: nat, accept: bool): World
    requires player in w.books.records
  {
    Recorded(w, player, w.books.(records := w.books.records[player := Dispatch(w.books.records[player], spare, (_, _) => accept)]), spare)
  }

  function RunAt(w: World, task: nat, weather: Weather, again: bool): World
    requires task in w.pending
  {
    var o := Execute(SaveTask(w.pending[task]), w.db, weather);
    if o.result.class_ == Retryable && again then w.(db := o.db)
    else w.(db := o.db, pending := w.pending - {task}, answers := w.answers[task := Done(w.pending[task], o.result)])
  }

  function DeliverAt(w: World, task: nat, order: seq<nat>): World
    requires task in w.answers
  {
    var d := w.answers[task];
    var player := d.snapshot.player;
    var (books, live, ok) := Complete(w.books, order, task, d.result, LiveOf(w.live, player));
    w.(books := books, answers := w.answers - {task}, live := if live.Some? then w.live[player := live.value] else w.live)
  }

  function Changed(p: Live, body: Snapshot): Live {
    if p.body == body then p else p.(body := body, revision := p.revision + 1, dirty := true)
  }

  function Entered(db: Db, player: nat, epoch: nat): Live
    requires LoadOk(player, LoadResult(db, player))
  {
    var s := Loaded(player, LoadResult(db, player));
    Live(BodyOf(s), epoch, 0, s.version, 0, false)
  }

  function Next(w: World, step: Step): World {
    match step
    case Mutate(player, body) => if player in w.live then w.(live := w.live[player := Changed(w.live[player], body)]) else w
    case Rebind(player, epoch) => if player in w.live then w.(live := w.live[player := w.live[player].(epoch := epoch)]) else w
    case Save(player, offline, spare, accept) => if player in w.live then SaveAt(w, player, offline, spare, accept) else w
    case Retry(player, spare, accept) => if player in w.books.records then RetryAt(w, player, spare, accept) else w
    case RunDb(task, weather, again) => if task in w.pending then RunAt(w, task, weather, again) else w
    case Deliver(task, order) => if task in w.answers then DeliverAt(w, task, order) else w
    case Login(player, epoch) =>
      if LoadOk(player, LoadResult(w.db, player)) then w.(live := w.live[player := Entered(w.db, player, epoch)]) else w
  }

  // What always holds, player by player.

  predicate SoundSnapshot(s: Snapshot, player: nat, token: nat) {
    s.player == player && s.token == token && Storable(s) && Typed(s) && Sorted(s.items)
  }

  /** The shape of a record. */
  predicate RecordPart(r: Record, player: nat, owners: map<nat, nat>) {
    && (r.taskId != 0 ==> r.taskId in owners && owners[r.taskId] == player)
    && (r.state == Idle ==> r.active.None?)
    && (r.active.Some? ==> r.taskId != 0 && SoundSnapshot(r.active.value, player, r.token))
    && (r.queued.Some? ==> SoundSnapshot(r.queued.value, player, r.token))
    && (r.active.Some? && r.queued.Some? ==> r.active.value.revision < r.queued.value.revision)
  }

  predicate UnderWay(r: Option<Record>, task: nat, s: Snapshot) {
    r.Some? && r.value.taskId == task && r.value.active == Some(s)
  }

  /** The player's one task under way is the record's active snapshot; a successful answer means
      the tables hold exactly that snapshot. */
  ghost predicate FlightPart(pending: map<nat, Snapshot>, answers: map<nat, Done>, player: nat, r: Option<Record>, db: Db) {
    && (forall t <- pending :: pending[t].player == player ==> UnderWay(r, t, pending[t]) && t !in answers)
    && (forall t <- answers :: answers[t].snapshot.player == player ==>
          && UnderWay(r, t, answers[t].snapshot) && Carries(answers[t].result, SaveTask(answers[t].snapshot))
          && (Succeeded(answers[t].result) ==> Stored(db, answers[t].snapshot)))
  }

  /** A snapshot under way is at most as new as the player, and equal to it when as new. */
  predicate Tracks(s: Option<Snapshot>, p: Live) {
    s.Some? ==> s.value.revision <= p.revision && (s.value.revision == p.revision ==> BodyOf(s.value) == p.body)
  }

  /** A player without unsaved changes has nothing under way, and the tables hold its state. */
  predicate LivePart(p: Live, r: Option<Record>, player: nat, db: Db) {
    && SoundBody(p.body, player)
    && (!p.dirty ==>
          && p.persistedRevision == p.revision && Holds(db, p.body)
          && (r.Some? ==> r.value.active.None? && r.value.queued.None? && r.value.confirmedRevision == p.revision))
    && (r.Some? ==> Tracks(r.value.active, p) && Tracks(r.value.queued, p) && (r.value.offline ==> r.value.state == Blocked && p.dirty))
  }

  function Last(r: Record): Option<Snapshot> { if r.queued.Some? then r.queued else r.active }

  /** A player who left is either still being saved, in the state it left, or is saved in that state. */
  predicate GonePart(r: Option<Record>, player: nat, left: map<nat, Snapshot>, db: Db) {
    match r
    case None => player in left ==> left[player].player == player && Holds(db, left[player])
    case Some(record) => record.offline && player in left && Last(record).Some? && BodyOf(Last(record).value) == left[player]
  }

  ghost predicate GoodPlayer(w: World, player: nat) {
    var r := RecordOf(w.books.records, player);
    && (r.Some? ==> RecordPart(r.value, player, w.owners))
    && FlightPart(w.pending, w.answers, player, r, w.db)
    && (if player in w.live then LivePart(w.live[player], r, player, w.db) else GonePart(r, player, w.left, w.db))
  }

  ghost predicate Good(w: World) {
    && 0 !in w.owners && 0 !in w.pending && 0 !in w.answers
    && forall player: nat :: GoodPlayer(w, player)
  }

  // Framing.

  /** The two databases agree on a player's rows. */
  predicate SameRows(a: Db, b: Db, player: nat) {
    && (player in a.players <==> player in b.players) && (player in a.players ==> a.players[player] == b.players[player])
    && (player in a.containers <==> player in b.containers) && (player in a.containers ==> a.containers[player] == b.containers[player])
    && ItemsOf(a, player) == ItemsOf(b, player)
  }

  lemma SameRowsHold(a: Db, b: Db, s: Snapshot)
    requires SameRows(a, b, s.player)
    ensures (Holds(a, s) <==> Holds(b, s)) && (Stored(a, s) <==> Stored(b, s))
  {
    assert LoadData(a, s.player) == LoadData(b, s.player);
  }

  ghost predicate SameTasks(w: World, w': World, player: nat) {
    && (forall t <- w'.pending :: w'.pending[t].player == player ==> t in w.pending && w.pending[t] == w'.pending[t])
    && (forall t <- w'.answers :: w'.answers[t].snapshot.player == player ==> t in w.answers && w.answers[t] == w'.answers[t])
    && (forall t <- w'.pending :: w'.pending[t].player == player && t in w'.answers ==> t in w.answers)
  }

  ghost predicate Alike(w: World, w': World, player: nat) {
    && LiveOf(w.live, player) == LiveOf(w'.live, player)
    && RecordOf(w.books.records, player) == RecordOf(w'.books.records, player)
    && (player in w.left <==> player in w'.left) && (player in w.left ==> w.left[player] == w'.left[player])
    && SameRows(w.db, w'.db, player) && SameTasks(w, w', player)
    && (forall t <- w.owners :: t in w'.owners && w'.owners[t] == w.owners[t])
  }

  lemma SameFlight(w: World, w': World, player: nat, r: Option<Record>)
    requires FlightPart(w.pending, w.answers, player, r, w.db) && SameTasks(w, w', player) && SameRows(w.db, w'.db, player)
    ensures FlightPart(w'.pending, w'.answers, player, r, w'.db)
  {
    forall t | t in w'.answers && w'.answers[t].snapshot.player == player
      ensures Succeeded(w'.answers[t].result) ==> Stored(w'.db, w'.answers[t].snapshot)
    {
      SameRowsHold(w.db, w'.db, w'.answers[t].snapshot);
    }
  }

  lemma LeftAlone(w: World, w': World, player: nat)
    requires GoodPlayer(w, player) && Alike(w, w', player)
    ensures GoodPlayer(w', player)
  {
    var r := RecordOf(w.books.records, player);
    SameFlight(w, w', player, r);
    if player in w.live {
      assert w.live[player] == w'.live[player];
      SameRowsHold(w.db, w'.db, w.live[player].body);
    } else {
      assert player !in w'.live;
      if player in w.left && r.None? { SameRowsHold(w.db, w'.db, w.left[player]); }
    }
  }
}
