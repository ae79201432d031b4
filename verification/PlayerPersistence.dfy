/** The save coordinator of one worker, updating its records in place. */
module PlayerPersistence {
  import opened Common
  import opened Database
  import opened PlayerSnapshot
  import S = SaveRecords

  lemma PutOverNew(b: S.Books, player: nat, r: S.Record, a: S.Answer)
    requires player !in b.records
    ensures S.Put(b.(records := b.records[player := r]), player, a) == S.Put(b, player, a)
  {
    assert b.records[player := r] - {player} == b.records - {player};
    if !a.Erased? { assert b.records[player := r][player := a.record] == b.records[player := a.record]; }
  }

  class PlayerPersistence {
    var records: map<nat, S.Record>
    var lastToken: nat

    ghost function Model(): S.Books
      reads this
    {
      S.Books(records, lastToken)
    }

    constructor ()
      ensures Model() == S.Books(map[], 0)
    {
      records, lastToken := map[], 0;
    }

    static method Dispatched(r: S.Record, spare: nat, submit: S.Submit) returns (r': S.Record)
      ensures r' == S.Dispatch(r, spare, submit)
    {
      r' := r;
      if r'.state != S.Idle || r'.queued.None? { return; }
      var task := BuildSave(r'.queued.value);
      if task.None? { r' := r'.(state := S.Blocked); return; }
      if r'.taskId == 0 { r' := r'.(taskId := spare); }
      if !submit(r'.taskId, r'.queued.value) { return; }
      r' := r'.(active := r'.queued, queued := None, state := S.AwaitResult);
    }

    method Request(p: S.Live, offline: bool, spare: nat, submit: S.Submit) returns (ok: bool)
      modifies this
      ensures (Model(), ok) == S.Request(old(Model()), p, offline, spare, submit)
    {
      var player := p.body.player;
      if player !in records {
        if |records| >= S.MAX_PLAYERS || player == 0 { return false; }
        lastToken := lastToken + 1;
        records := records[player := S.NewRecord(p, lastToken)];
        PutOverNew(old(Model()).(lastToken := lastToken), player, records[player], S.RequestOn(records[player], p, offline, spare, submit));
      }
      ok := RequestRecord(player, p, offline, spare, submit);
    }

    method RequestRecord(player: nat, p: S.Live, offline: bool, spare: nat, submit: S.Submit) returns (ok: bool)
      requires player in records
      modifies `records
      ensures (Model(), ok) == S.Put(old(Model()), player, S.RequestOn(old(records)[player], p, offline, spare, submit))
    {
      var r := records[player];
      if r.epoch != p.epoch {
        if r.offline {
          assert records == records[player := r];
          return false;
        }
        r := r.(epoch := p.epoch);
      }
      r := r.(offline := r.offline || offline);
      records := records[player := r];
      if r.active.Some? && r.active.value.revision == p.revision && r.queued.None? { return true; }
      if r.queued.Some? && r.queued.value.revision == p.revision { return true; }
      if !p.dirty && p.revision == r.confirmedRevision && r.active.None? {
        if offline {
          records := records - {player};
          assert records == old(records) - {player};
        }
        return true;
      }
      if r.nextVersion >= MAX_I64 {
        records := records[player := r.(state := S.Blocked)];
        assert records == old(records)[player := records[player]];
        return false;
      }
      ok := Retain(player, r, p, spare, submit);
      assert records == old(records)[player := records[player]];
    }

    /** Freezes the player and takes the snapshot over, dispatched or waiting. */
    method Retain(player: nat, r0: S.Record, p: S.Live, spare: nat, submit: S.Submit) returns (ok: bool)
      requires player in records && records[player] == r0
      modifies `records
      ensures var s := S.Frozen(p, r0.nextVersion + 1, r0.token);
              && ok == Storable(s)
              && records == if ok then old(records)[player := S.Dispatch(r0.(nextVersion := r0.nextVersion + 1,
                                                     taskId := if r0.state == S.Idle then 0 else r0.taskId, queued := Some(s)), spare, submit)]
                            else old(records)
    {
      var s := S.Frozen(p, r0.nextVersion + 1, r0.token);
      var task := BuildSave(s);
      if task.None? { return false; }
      var r := r0.(nextVersion := r0.nextVersion + 1);
      if r.state == S.Idle { r := r.(taskId := 0); }
      r := Dispatched(r.(queued := Some(s)), spare, submit);
      records := records[player := r];
      return true;
    }

    method Tick(spare: nat -> nat, submit: S.Submit)
      modifies `records
      ensures Model() == S.Ticked(old(Model()), spare, submit)
    {
      ghost var was := records;
      var left := records.Keys;
      while left != {}
        invariant left <= records.Keys == was.Keys
        invariant forall k <- was :: records[k] == if k in left then was[k] else S.Dispatch(was[k], spare(k), submit)
        decreases left
      {
        var player :| player in left;
        var r := Dispatched(records[player], spare(player), submit);
        records := records[player := r];
        left := left - {player};
      }
    }

    method Complete(order: seq<nat>, taskId: nat, result: DbResult, live: Option<S.Live>) returns (live': Option<S.Live>, ok: bool)
      requires forall k :: k in order <==> k in records
      modifies `records
      ensures (Model(), live', ok) == S.Complete(old(Model()), order, taskId, result, live)
    {
      live' := live;
      var i := 0;
      while i < |order| && records[order[i]].taskId != taskId
        invariant i <= |order|
        invariant S.FindTask(records, order, taskId) == S.FindTask(records, order[i..], taskId)
      {
        i := i + 1;
      }
      if i == |order| { return live', false; }
      live', ok := CompleteRecord(order[i], result, live);
    }

    method CompleteRecord(player: nat, result: DbResult, live: Option<S.Live>) returns (live': Option<S.Live>, ok: bool)
      requires player in records
      modifies `records
      ensures var c := S.CompleteOn(old(records)[player], result, live);
              && live' == c.live && (Model(), ok) == S.Put(old(Model()), player, c.answer)
    {
      live' := live;
      var r := records[player];
      if r.state != S.AwaitResult || r.active.None? {
        assert records == records[player := r];
        return live', false;
      }
      var s := r.active.value;
      if !Succeeded(result) {
        records := records[player := r.(state := S.Blocked)];
        return live', true;
      }
      if !S.Identifies(result, s, r.token) {
        records := records[player := r.(state := S.Blocked)];
        return live', false;
      }
      if live.Some? && live.value.body.player == result.player && live.value.epoch == r.epoch && !r.offline {
        live' := Some(S.ConfirmSave(live.value, s.version, s.revision));
      }
      if r.offline && r.queued.None? {
        records := records - {player};
      } else {
        records := records[player := r.(confirmedVersion := s.version, confirmedRevision := s.revision, active := None, taskId := 0, state := S.Idle)];
      }
      return live', true;
    }

    method BlocksLogin(player: nat) returns (r: bool)
      ensures r <==> player in records && records[player].offline
    {
      return player in records && records[player].offline;
    }
  }
}
