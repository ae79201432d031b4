/** Every step of the save world keeps its invariant; what that means for players and their data. */
module SaveSafety {
  import opened Common
  import opened Database
  import opened Transactions
  import opened PlayerSnapshot
  import opened SaveTheorems
  import opened SaveRecords
  import opened SaveWorld

  // Facts about bodies and the tables.

  lemma BodyIsStorable(p: Live, player: nat, version: nat, token: nat)
    requires SoundBody(p.body, player) && 0 < version <= MAX_I64
    ensures SoundSnapshot(Frozen(p, version, token), player, token)
    ensures BodyOf(Frozen(p, version, token)) == p.body
  {
  }

  function Fair(): Weather { Weather(Fine, k => Fine, Fine, true, true) }

  /** A stored snapshot is what a load would return. */
  lemma StoredHolds(db: Db, s: Snapshot)
    requires Storable(s) && Typed(s) && Sorted(s.items) && Stored(db, s)
    ensures Holds(db, BodyOf(s))
  {
    SaveThenLoad(s, db, Fair());
    LoadRuns(db, s.player, Fair());
    SortedStays(s.items);
  }

  lemma LoadedIsSound(db: Db, player: nat)
    requires 0 < player <= MAX_I64 && LoadOk(player, LoadResult(db, player))
    ensures var body := BodyOf(Loaded(player, LoadResult(db, player)));
            SoundBody(body, player) && Holds(db, body)
  {
    var s := Loaded(player, LoadResult(db, player));
    LoadedIsConsistent(player, LoadResult(db, player));
    SortBySlotOrders(ItemsOf(db, player));
    ItemValsRows(SortBySlot(ItemsOf(db, player)));
    assert s.items == SortBySlot(ItemsOf(db, player));
  }

  // Dispatching and requesting, on one record.

  predicate Moved(r: Record, r': Record, spare: nat) {
    && (if Submitted(Some(r), Some(r')) then r.active.None?
        else r'.active == r.active && (r.active.Some? ==> r'.taskId == r.taskId))
    && (r'.taskId == spare || r'.taskId == r.taskId || r'.taskId == 0)
  }

  lemma DispatchKeeps(r: Record, player: nat, owners: map<nat, nat>, spare: nat, submit: Submit)
    requires RecordPart(r, player, owners) && spare != 0 && spare !in owners
    ensures var r' := Dispatch(r, spare, submit);
            && RecordPart(r', player, if r'.taskId == spare then owners[spare := player] else owners)
            && Moved(r, r', spare) && Last(r') == Last(r) && r'.offline == r.offline && r'.confirmedRevision == r.confirmedRevision
            && (r' == r || (r.state == Idle && r.queued.Some? && r'.state != Blocked && (r'.queued.None? || r'.queued == r.queued)
                            && (r'.active.None? || r'.active == r.queued)))
  {
  }

  lemma RetryLive(p: Live, r: Record, player: nat, owners: map<nat, nat>, db: Db, spare: nat, submit: Submit)
    requires RecordPart(r, player, owners) && LivePart(p, Some(r), player, db) && spare != 0 && spare !in owners
    ensures LivePart(p, Some(Dispatch(r, spare, submit)), player, db)
  {
    DispatchKeeps(r, player, owners, spare, submit);
  }

  lemma RetryGone(r: Record, player: nat, owners: map<nat, nat>, left: map<nat, Snapshot>, db: Db, spare: nat, submit: Submit)
    requires RecordPart(r, player, owners) && GonePart(Some(r), player, left, db) && spare != 0 && spare !in owners
    ensures GonePart(Some(Dispatch(r, spare, submit)), player, left, db)
  {
    DispatchKeeps(r, player, owners, spare, submit);
  }

  /** The record a request freezes its snapshot into, before dispatching. */
  function Taken(r0: Record, p: Live, offline: bool): Record {
    var r := r0.(epoch := p.epoch, offline := r0.offline || offline);
    r.(nextVersion := r.nextVersion + 1, taskId := if r.state == Idle then 0 else r.taskId,
       queued := Some(Frozen(p, r.nextVersion + 1, r.token)))
  }

  lemma TakenKeeps(r: Record, p: Live, offline: bool, player: nat, owners: map<nat, nat>, db: Db)
    requires RecordPart(r, player, owners) && LivePart(p, Some(r), player, db) && r.nextVersion < MAX_I64
    requires !(r.active.Some? && r.active.value.revision == p.revision && r.queued.None?)
    ensures var t := Taken(r, p, offline);
            && RecordPart(t, player, owners) && BodyOf(t.queued.value) == p.body && Storable(t.queued.value)
            && t.queued.value.revision == p.revision && t.active == r.active && (r.active.Some? ==> t.taskId == r.taskId)
  {
    BodyIsStorable(p, player, r.nextVersion + 1, r.token);
  }

  /** What a save request leaves behind. */
  ghost predicate RequestDone(a: Answer, r: Record, p: Live, offline: bool, player: nat, owners: map<nat, nat>, db: Db, spare: nat) {
    match a
    case Erased => offline && !p.dirty && r.active.None?
    case Kept(r') =>
      && RecordPart(r', player, if r'.taskId == spare then owners[spare := player] else owners) && Moved(r, r', spare)
      && (if offline then r'.offline && Last(r').Some? && BodyOf(Last(r').value) == p.body else LivePart(p, Some(r'), player, db))
    case Refused(r') =>
      && RecordPart(r', player, owners) && Moved(r, r', spare) && r'.taskId != spare && LivePart(p, Some(r'), player, db)
  }

  lemma FreezeKeeps(r: Record, p: Live, offline: bool, player: nat, owners: map<nat, nat>, db: Db, spare: nat, submit: Submit)
    requires RecordPart(r, player, owners) && LivePart(p, Some(r), player, db) && r.nextVersion < MAX_I64
    requires !(r.active.Some? && r.active.value.revision == p.revision && r.queued.None?)
    requires p.dirty && spare != 0 && spare !in owners
    ensures RequestDone(Kept(Dispatch(Taken(r, p, offline), spare, submit)), r, p, offline, player, owners, db, spare)
  {
    TakenKeeps(r, p, offline, player, owners, db);
    DispatchKeeps(Taken(r, p, offline), player, owners, spare, submit);
  }

  lemma RequestOnKeeps(r: Record, p: Live, offline: bool, player: nat, owners: map<nat, nat>, db: Db, spare: nat, submit: Submit)
    requires RecordPart(r, player, owners) && LivePart(p, Some(r), player, db) && spare != 0 && spare !in owners
    ensures RequestDone(RequestOn(r, p, offline, spare, submit), r, p, offline, player, owners, db, spare)
  {
    var same := r.active.Some? && r.active.value.revision == p.revision && r.queued.None?;
    if r.epoch != p.epoch && r.offline {
    } else if same || (r.queued.Some? && r.queued.value.revision == p.revision) {
    } else if !p.dirty && p.revision == r.confirmedRevision && r.active.None? {
    } else if r.nextVersion >= MAX_I64 {
    } else {
      TakenKeeps(r, p, offline, player, owners, db);
      FreezeKeeps(r, p, offline, player, owners, db, spare, submit);
    }
  }

  // The same steps in the world.

  /** A task under way was drawn for the player it saves. */
  lemma TaskHasOwner(w: World, t: nat)
    requires Good(w)
    ensures t in w.pending ==> t in w.owners && w.owners[t] == w.pending[t].player
    ensures t in w.answers ==> t in w.owners && w.owners[t] == w.answers[t].snapshot.player
  {
    if t in w.pending {
      assert GoodPlayer(w, w.pending[t].player);
    }
    if t in w.answers {
      assert GoodPlayer(w, w.answers[t].snapshot.player);
    }
  }

  /** A player without an active snapshot has no task under way. */
  predicate NoFlight(r: Option<Record>) { r.None? || r.value.active.None? }

  lemma IdleHasNoTask(w: World, player: nat, t: nat)
    requires Good(w) && NoFlight(RecordOf(w.books.records, player)) && t in w.owners && w.owners[t] == player
    ensures t !in w.pending && t !in w.answers
  {
    TaskHasOwner(w, t);
    assert GoodPlayer(w, player);
  }

  /** The record changed as a dispatch may change it, or was erased with nothing under way. */
  predicate RecordMoved(before: Option<Record>, after: Option<Record>, spare: nat) {
    match after
    case None => NoFlight(before)
    case Some(r') => if before.Some? then Moved(before.value, r', spare)
                     else r'.active.None? || Submitted(before, after)
  }

  lemma RecordedFlight(w: World, player: nat, books: Books, spare: nat)
    requires Good(w) && spare != 0 && spare !in w.owners
    requires RecordMoved(RecordOf(w.books.records, player), RecordOf(books.records, player), spare)
    requires var after := RecordOf(books.records, player);
             after.Some? ==> RecordPart(after.value, player, Recorded(w, player, books, spare).owners)
    ensures var w' := Recorded(w, player, books, spare);
            FlightPart(w'.pending, w'.answers, player, RecordOf(books.records, player), w'.db) && 0 !in w'.pending && 0 !in w'.owners
  {
    var before, after := RecordOf(w.books.records, player), RecordOf(books.records, player);
    assert GoodPlayer(w, player);
    if Submitted(before, after) {
      var t := after.value.taskId;
      TaskHasOwner(w, t);
      if t != spare { IdleHasNoTask(w, player, t); }
    }
  }

  lemma RecordedLeavesOthers(w: World, player: nat, books: Books, spare: nat, other: nat)
    requires Good(w) && other != player && spare !in w.owners
    requires RecordOf(books.records, other) == RecordOf(w.books.records, other)
    requires var after := RecordOf(books.records, player);
             after.Some? ==> RecordPart(after.value, player, Recorded(w, player, books, spare).owners)
    requires RecordMoved(RecordOf(w.books.records, player), RecordOf(books.records, player), spare)
    ensures Alike(w, Recorded(w, player, books, spare), other)
  {
    var before, after := RecordOf(w.books.records, player), RecordOf(books.records, player);
    if Submitted(before, after) {
      assert after.value.active.value.player == player;
      var t := after.value.taskId;
      TaskHasOwner(w, t);
      if t != spare { IdleHasNoTask(w, player, t); }
    }
  }

  /** New books for one player keep the invariant when that player's parts hold. */
  lemma RecordedKeeps(w: World, player: nat, books: Books, spare: nat)
    requires Good(w) && spare != 0 && spare !in w.owners
    requires RecordMoved(RecordOf(w.books.records, player), RecordOf(books.records, player), spare)
    requires forall other: nat :: other != player ==> RecordOf(books.records, other) == RecordOf(w.books.records, other)
    requires var after := RecordOf(books.records, player);
             after.Some? ==> RecordPart(after.value, player, Recorded(w, player, books, spare).owners)
    ensures forall other: nat :: other != player ==> GoodPlayer(Recorded(w, player, books, spare), other)
  {
    forall other: nat | other != player ensures GoodPlayer(Recorded(w, player, books, spare), other) {
      assert GoodPlayer(w, other);
      RecordedLeavesOthers(w, player, books, spare, other);
      LeftAlone(w, Recorded(w, player, books, spare), other);
    }
  }

  lemma RetryKeepsBooks(w: World, player: nat, r': Record, spare: nat)
    requires Good(w) && player in w.books.records && spare != 0 && spare !in w.owners
    requires RecordPart(r', player, if r'.taskId == spare then w.owners[spare := player] else w.owners)
    requires Moved(w.books.records[player], r', spare)
    requires if player in w.live then LivePart(w.live[player], Some(r'), player, w.db) else GonePart(Some(r'), player, w.left, w.db)
    ensures Good(Recorded(w, player, w.books.(records := w.books.records[player := r']), spare))
  {
    var books := w.books.(records := w.books.records[player := r']);
    RecordedFlight(w, player, books, spare);
    RecordedKeeps(w, player, books, spare);
    assert GoodPlayer(Recorded(w, player, books, spare), player);
  }

  lemma RetryKeeps(w: World, player: nat, spare: nat, accept: bool)
    requires Good(w) && Enabled(w, Retry(player, spare, accept))
    ensures Good(RetryAt(w, player, spare, accept))
  {
    var submit: Submit := (_, _) => accept;
    var r := w.books.records[player];
    assert GoodPlayer(w, player);
    DispatchKeeps(r, player, w.owners, spare, submit);
    if player in w.live {
      RetryLive(w.live[player], r, player, w.owners, w.db, spare, submit);
    } else {
      RetryGone(r, player, w.owners, w.left, w.db, spare, submit);
    }
    RetryKeepsBooks(w, player, Dispatch(r, spare, submit), spare);
  }

  /** A live player's record, or the empty one a request starts from. */
  function RecordFor(w: World, player: nat): Record
    requires player in w.live
  {
    if player in w.books.records then w.books.records[player] else NewRecord(w.live[player], w.books.lastToken + 1)
  }

  lemma RecordForIsGood(w: World, player: nat)
    requires GoodPlayer(w, player) && player in w.live
    ensures RecordPart(RecordFor(w, player), player, w.owners) && LivePart(w.live[player], Some(RecordFor(w, player)), player, w.db)
  {
  }

  function Opened(b: Books, player: nat): Books {
    if player in b.records then b else b.(lastToken := b.lastToken + 1)
  }

  lemma MovedFromNew(w: World, player: nat, r': Record, spare: nat)
    requires player in w.live && Moved(RecordFor(w, player), r', spare)
    ensures RecordMoved(RecordOf(w.books.records, player), Some(r'), spare)
  {
  }

  lemma PutMoves(w: World, player: nat, a: Answer, offline: bool, spare: nat)
    requires Good(w) && player in w.live && spare != 0 && spare !in w.owners
    requires RequestDone(a, RecordFor(w, player), w.live[player], offline, player, w.owners, w.db, spare)
    ensures var books := Put(Opened(w.books, player), player, a).0;
            && RecordMoved(RecordOf(w.books.records, player), RecordOf(books.records, player), spare)
            && (forall other: nat :: other != player ==> RecordOf(books.records, other) == RecordOf(w.books.records, other))
            && (RecordOf(books.records, player).Some? ==>
                  RecordPart(RecordOf(books.records, player).value, player, Recorded(w, player, books, spare).owners))
  {
    match a
    case Erased =>
    case Kept(r') => MovedFromNew(w, player, r', spare);
    case Refused(r') => MovedFromNew(w, player, r', spare);
  }

  lemma ConcludedLeavesOthers(w: World, player: nat, books: Books, ok: bool, offline: bool, spare: nat, other: nat)
    requires player in w.live && other != player && GoodPlayer(Recorded(w, player, books, spare), other)
    ensures GoodPlayer(Concluded(w, player, books, ok, offline, spare), other)
  {
    LeftAlone(Recorded(w, player, books, spare), Concluded(w, player, books, ok, offline, spare), other);
  }

  lemma PutKeeps(w: World, player: nat, a: Answer, offline: bool, spare: nat)
    requires Good(w) && player in w.live && spare != 0 && spare !in w.owners
    requires RequestDone(a, RecordFor(w, player), w.live[player], offline, player, w.owners, w.db, spare)
    ensures var (books, ok) := Put(Opened(w.books, player), player, a);
            Good(Concluded(w, player, books, ok, offline, spare))
  {
    var (books, ok) := Put(Opened(w.books, player), player, a);
    PutMoves(w, player, a, offline, spare);
    RecordedFlight(w, player, books, spare);
    RecordedKeeps(w, player, books, spare);
    assert GoodPlayer(w, player);
    PutKeepsOwn(w, player, a, offline, spare);
    forall other: nat | other != player ensures GoodPlayer(Concluded(w, player, books, ok, offline, spare), other) {
      ConcludedLeavesOthers(w, player, books, ok, offline, spare, other);
    }
  }

  lemma PutKeepsOwn(w: World, player: nat, a: Answer, offline: bool, spare: nat)
    requires GoodPlayer(w, player) && player in w.live
    requires RequestDone(a, RecordFor(w, player), w.live[player], offline, player, w.owners, w.db, spare)
    requires var books := Put(Opened(w.books, player), player, a).0;
             var w' := Recorded(w, player, books, spare);
             FlightPart(w'.pending, w'.answers, player, RecordOf(books.records, player), w'.db)
    requires var books := Put(Opened(w.books, player), player, a).0;
             RecordOf(books.records, player).Some? ==>
               RecordPart(RecordOf(books.records, player).value, player, Recorded(w, player, books, spare).owners)
    ensures var (books, ok) := Put(Opened(w.books, player), player, a);
            GoodPlayer(Concluded(w, player, books, ok, offline, spare), player)
  {
  }

  lemma SaveAnswered(w: World, player: nat, offline: bool, spare: nat, submit: Submit)
    requires GoodPlayer(w, player) && player in w.live && spare != 0 && spare !in w.owners
    ensures RequestDone(RequestOn(RecordFor(w, player), w.live[player], offline, spare, submit), RecordFor(w, player), w.live[player],
                        offline, player, w.owners, w.db, spare)
  {
    RecordForIsGood(w, player);
    RequestOnKeeps(RecordFor(w, player), w.live[player], offline, player, w.owners, w.db, spare, submit);
  }

  /** A request either leaves the books alone or installs its answer for the player. */
  lemma RequestIsPut(w: World, player: nat, offline: bool, spare: nat, submit: Submit)
    requires player in w.live && w.live[player].body.player == player
    ensures Request(w.books, w.live[player], offline, spare, submit)
         == if player !in w.books.records && (|w.books.records| >= MAX_PLAYERS || player == 0) then (w.books, false)
            else Put(Opened(w.books, player), player, RequestOn(RecordFor(w, player), w.live[player], offline, spare, submit))
  {
  }

  lemma SaveKeeps(w: World, player: nat, offline: bool, spare: nat, accept: bool)
    requires Good(w) && Enabled(w, Save(player, offline, spare, accept))
    ensures Good(SaveAt(w, player, offline, spare, accept))
  {
    var submit: Submit := (_, _) => accept;
    assert GoodPlayer(w, player);
    SaveAnswered(w, player, offline, spare, submit);
    RequestIsPut(w, player, offline, spare, submit);
    if player !in w.books.records && (|w.books.records| >= MAX_PLAYERS || player == 0) {
      assert SaveAt(w, player, offline, spare, accept) == w;
    } else {
      PutKeeps(w, player, RequestOn(RecordFor(w, player), w.live[player], offline, spare, submit), offline, spare);
    }
  }
}
