/** The save coordinator's bookkeeping: one record per player with an unsettled save. */
module SaveRecords {
  import opened Common
  import opened Database
  import opened PlayerSnapshot

  const MAX_PLAYERS: nat := 65536

  datatype SaveState = Idle | AwaitResult | Blocked

  datatype Record = Record(
    epoch: nat, token: nat, nextVersion: nat, confirmedVersion: nat, confirmedRevision: nat,
    taskId: nat, state: SaveState, offline: bool, active: Option<Snapshot>, queued: Option<Snapshot>)

  /** What the coordinator sees of a live player; body is the state itself, under version 0. */
  datatype Live = Live(body: Snapshot, epoch: nat, revision: nat, persistedVersion: nat, persistedRevision: nat, dirty: bool)

  function Frozen(p: Live, version: nat, token: nat): Snapshot {
    p.body.(version := version, revision := p.revision, token := token)
  }

  /** The task layer's answer to a submission. */
  type Submit = (nat, Snapshot) -> bool

  /** Hands a waiting snapshot to the task layer when nothing is under way. */
  function Dispatch(r: Record, spare: nat, submit: Submit): Record {
    if r.state != Idle || r.queued.None? then r
    else if !Storable(r.queued.value) then r.(state := Blocked)
    else
      var id := if r.taskId == 0 then spare else r.taskId;
      if submit(id, r.queued.value) then r.(taskId := id, active := r.queued, queued := None, state := AwaitResult)
      else r.(taskId := id)
  }

  function NewRecord(p: Live, token: nat): Record {
    Record(p.epoch, token, p.persistedVersion, p.persistedVersion, p.persistedRevision, 0, Idle, false, None, None)
  }

  datatype Answer = Erased | Kept(record: Record) | Refused(record: Record)

  /** A save request against an existing record. */
  function RequestOn(r0: Record, p: Live, offline: bool, spare: nat, submit: Submit): Answer {
    if r0.epoch != p.epoch && r0.offline then Refused(r0)
    else
      var r := r0.(epoch := p.epoch, offline := r0.offline || offline);
      if r.active.Some? && r.active.value.revision == p.revision && r.queued.None? then Kept(r)
      else if r.queued.Some? && r.queued.value.revision == p.revision then Kept(r)
      else if !p.dirty && p.revision == r.confirmedRevision && r.active.None? then (if offline then Erased else Kept(r))
      else if r.nextVersion >= MAX_I64 then Refused(r.(state := Blocked))
      else
        var s := Frozen(p, r.nextVersion + 1, r.token);
        if !Storable(s) then Refused(r)
        else
          Kept(Dispatch(r.(nextVersion := r.nextVersion + 1, taskId := if r.state == Idle then 0 else r.taskId, queued := Some(s)),
                        spare, submit))
  }

  datatype Books = Books(records: map<nat, Record>, lastToken: nat)

  function Put(b: Books, player: nat, a: Answer): (Books, bool) {
    match a
    case Erased => (b.(records := b.records - {player}), true)
    case Kept(r) => (b.(records := b.records[player := r]), true)
    case Refused(r) => (b.(records := b.records[player := r]), false)
  }

  function Request(b: Books, p: Live, offline: bool, spare: nat, submit: Submit): (Books, bool) {
    var player := p.body.player;
    if player in b.records then Put(b, player, RequestOn(b.records[player], p, offline, spare, submit))
    else if |b.records| >= MAX_PLAYERS || player == 0 then (b, false)
    else
      Put(b.(lastToken := b.lastToken + 1), player, RequestOn(NewRecord(p, b.lastToken + 1), p, offline, spare, submit))
  }

  function ConfirmSave(p: Live, version: nat, revision: nat): Live {
    if revision > p.revision || version < p.persistedVersion then p
    else p.(persistedVersion := version, persistedRevision := revision, dirty := p.dirty && revision != p.revision)
  }

  /** The result names the very snapshot that is under way. */
  predicate Identifies(result: DbResult, s: Snapshot, token: nat) {
    result.player == s.player && result.version == s.version && result.revision == s.revision && result.token == token
  }

  datatype Completion = Completion(answer: Answer, live: Option<Live>)

  /** A result for the record whose task it is. */
  function CompleteOn(r: Record, result: DbResult, live: Option<Live>): Completion {
    if r.state != AwaitResult || r.active.None? then Completion(Refused(r), live)
    else if !Succeeded(result) then Completion(Kept(r.(state := Blocked)), live)
    else if !Identifies(result, r.active.value, r.token) then Completion(Refused(r.(state := Blocked)), live)
    else
      var s := r.active.value;
      var confirmed := live.Some? && live.value.body.player == result.player && live.value.epoch == r.epoch && !r.offline;
      var live' := if confirmed then Some(ConfirmSave(live.value, s.version, s.revision)) else live;
      var r' := r.(confirmedVersion := s.version, confirmedRevision := s.revision, active := None, taskId := 0, state := Idle);
      Completion(if r.offline && r.queued.None? then Erased else Kept(r'), live')
  }

  /** The first record, in table order, under this task id. */
  function FindTask(records: map<nat, Record>, order: seq<nat>, taskId: nat): Option<nat>
    decreases |order|
  {
    if order == [] then None
    else if order[0] in records && records[order[0]].taskId == taskId then Some(order[0])
    else FindTask(records, order[1..], taskId)
  }

  function Complete(b: Books, order: seq<nat>, taskId: nat, result: DbResult, live: Option<Live>): (Books, Option<Live>, bool) {
    match FindTask(b.records, order, taskId)
    case None => (b, live, false)
    case Some(player) =>
      if player !in b.records then (b, live, false)
      else
        var c := CompleteOn(b.records[player], result, live);
        (Put(b, player, c.answer).0, c.live, Put(b, player, c.answer).1)
  }

  function Ticked(b: Books, spare: nat -> nat, submit: Submit): Books {
    b.(records := map player | player in b.records :: Dispatch(b.records[player], spare(player), submit))
  }
}
