/** What the save coordinator does with any request, retry or result at all, and what that does to the player. */
module SaveOutcomes {
  import opened Common
  import opened DbValue
  import opened Database
  import opened PlayerSnapshot
  import opened SaveRecords

  // ---- a request -----------------------------------------------------------------------------------------------

  /** The newest state of the player that the record holds on to. */
  function Newest(r: Record): Option<Snapshot> { if r.queued.Some? then r.queued else r.active }

  /** The record is that of a player who left, and this is another login of his. */
  predicate OfEarlierLogin(r: Record, p: Live) { r.offline && r.epoch != p.epoch }

  /** The record already holds the player's current state. */
  predicate Held(r: Record, p: Live) { Newest(r).Some? && Newest(r).value.revision == p.revision }

  /** There is nothing to save: the current state is the one confirmed last, and nothing is under way. */
  predicate Clean(r: Record, p: Live) { !p.dirty && p.revision == r.confirmedRevision && r.active == None }

  /** The record takes note of the login, and for good of the player's leaving. */
  function Noted(r: Record, p: Live, leaving: bool): Record { r.(epoch := p.epoch, offline := leaving || r.offline) }

  /**
   * A request is refused for a player of an earlier login; it holds on to what it has when that is the current
   * state; with nothing to save it is done, and the record of a player who leaves goes. Otherwise the current state is
   * taken at the next version, exactly when there is one and the state can be stored. It replaces what was waiting.
   */
  lemma RequestOutcome(r: Record, p: Live, leaving: bool, spare: nat, submit: Submit)
    ensures OfEarlierLogin(r, p) ==> RequestOn(r, p, leaving, spare, submit) == Refused(r)
    ensures !OfEarlierLogin(r, p) && Held(r, p) ==> RequestOn(r, p, leaving, spare, submit) == Kept(Noted(r, p, leaving))
    ensures !OfEarlierLogin(r, p) && !Held(r, p) && Clean(r, p) ==>
              RequestOn(r, p, leaving, spare, submit) == if leaving then Erased else Kept(Noted(r, p, leaving))
    ensures !OfEarlierLogin(r, p) && !Held(r, p) && !Clean(r, p) ==>
              var s := p.body.(version := r.nextVersion + 1, revision := p.revision, token := r.token);
              var r1 := Noted(r, p, leaving);
              if r.nextVersion + 1 > MAX_I64 then RequestOn(r, p, leaving, spare, submit) == Refused(r1.(state := Blocked))
              else if !Storable(s) then RequestOn(r, p, leaving, spare, submit) == Refused(r1)
              else RequestOn(r, p, leaving, spare, submit) == Kept(HandOver(r1, s, spare, submit))
  {
  }

  /** A storable snapshot comes in: with nothing under way it goes out under a new task id, or waits if the layer below
      does not take it; otherwise it waits in place of what waited before. */
  function HandOver(r: Record, s: Snapshot, spare: nat, submit: Submit): Record {
    var waiting := r.(nextVersion := s.version, queued := Some(s));
    if r.state != Idle then waiting
    else if submit(spare, s) then waiting.(taskId := spare, queued := None, active := Some(s), state := AwaitResult)
    else waiting.(taskId := spare)
  }

  /** A record is opened for a player exactly when he has an id and there is room; the request then goes on with it. */
  lemma FirstRequest(b: Books, p: Live, leaving: bool, spare: nat, submit: Submit)
    requires p.body.player !in b.records
    ensures var player := p.body.player;
            if player == 0 || |b.records| >= 65536 then Request(b, p, leaving, spare, submit) == (b, false)
            else
              var r := Record(p.epoch, b.lastToken + 1, p.persistedVersion, p.persistedVersion, p.persistedRevision, 0, Idle, false, None, None);
              Request(b, p, leaving, spare, submit) == Put(Books(b.records, b.lastToken + 1), player, RequestOn(r, p, leaving, spare, submit))
  {
  }

  /** Only the player's own record changes; the answer is no exactly when the request was refused. */
  lemma PutOutcome(b: Books, player: nat, a: Answer)
    ensures var (b', ok) := Put(b, player, a);
            && b'.lastToken == b.lastToken && (ok <==> !a.Refused?) && (player in b'.records <==> a != Erased)
            && (forall k :: k != player ==> (k in b'.records <==> k in b.records) && (k in b.records ==> b'.records[k] == b.records[k]))
            && (a.Kept? || a.Refused? ==> b'.records[player] == a.record)
  {
  }

  // ---- a retry -------------------------------------------------------------------------------------------------

  /** Each record is tried on its own: with something waiting and nothing under way it hands that over under its own
      task id, blocks for good if it cannot be stored, and keeps it if the layer below does not take it. */
  lemma RetryOutcome(b: Books, spare: nat -> nat, submit: Submit, player: nat)
    requires player in b.records
    ensures Ticked(b, spare, submit).records.Keys == b.records.Keys && Ticked(b, spare, submit).lastToken == b.lastToken
    ensures var r, r' := b.records[player], Ticked(b, spare, submit).records[player];
            if r.state != Idle || r.queued == None then r' == r
            else
              var s, id := r.queued.value, if r.taskId == 0 then spare(player) else r.taskId;
              if !Storable(s) then r' == r.(state := Blocked)
              else if submit(id, s) then r' == r.(taskId := id, state := AwaitResult, active := Some(s), queued := None)
              else r' == r.(taskId := id)
  {
  }

  // ---- a result ------------------------------------------------------------------------------------------------

  /** The result is a plain success and names the snapshot that is under way. */
  predicate Confirms(r: Record, result: DbResult) {
    && r.state == AwaitResult && r.active.Some? && result.errcode == 0 && result.class_ == Success
    && (var s := r.active.value; (result.player, result.version, result.revision, result.token) == (s.player, s.version, s.revision, r.token))
  }

  /** The player is still there, in the login the save belongs to. */
  predicate StillOn(r: Record, live: Option<Live>, player: nat) {
    live.Some? && live.value.body.player == player && live.value.epoch == r.epoch && !r.offline
  }

  /** The player's marks after a confirmation: only a confirmation of the current state clears the unsaved mark, and
      none takes the version back or speaks of a state that is yet to come. */
  predicate Marked(p: Live, p': Live, version: nat, revision: nat) {
    && p' == p.(persistedVersion := p'.persistedVersion, persistedRevision := p'.persistedRevision, dirty := p'.dirty)
    && (if version >= p.persistedVersion && revision <= p.revision
        then p'.persistedVersion == version && p'.persistedRevision == revision && (p'.dirty <==> p.dirty && p.revision > revision)
        else p' == p)
  }

  /**
   * A result confirms exactly the snapshot under way: the record is free again, gone if its player left and nothing
   * waits, and the player is told exactly if he is still on. A result that is no success, or names something else,
   * blocks the record with all it holds; without anything under way nothing happens.
   */
  lemma ResultOutcome(r: Record, result: DbResult, live: Option<Live>)
    ensures var c := CompleteOn(r, result, live);
            if Confirms(r, result) then
              && (c.answer == Erased <==> r.offline && r.queued == None)
              && (c.answer != Erased ==>
                    c.answer == Kept(r.(confirmedVersion := r.active.value.version, confirmedRevision := r.active.value.revision,
                                        active := None, taskId := 0, state := Idle)))
              && (if StillOn(r, live, result.player) then c.live.Some? && Marked(live.value, c.live.value, result.version, result.revision)
                  else c.live == live)
            else
              && c.live == live
              && (if r.state == AwaitResult && r.active != None
                  then c.answer == if result.errcode == 0 && result.class_ == Success then Refused(r.(state := Blocked)) else Kept(r.(state := Blocked))
                  else c.answer == Refused(r))
  {
  }

  lemma {:induction false} FoundTask(records: map<nat, Record>, order: seq<nat>, taskId: nat)
    ensures var found := FindTask(records, order, taskId);
            if found.Some? then found.value in order && found.value in records && records[found.value].taskId == taskId
            else forall k :: k in order && k in records ==> records[k].taskId != taskId
    decreases |order|
  {
    if order != [] { FoundTask(records, order[1..], taskId); }
  }

  /** A result reaches the record whose task it answers, and no other changes; a result of no record's changes nothing. */
  lemma CompleteOutcome(b: Books, order: seq<nat>, taskId: nat, result: DbResult, live: Option<Live>, player: nat)
    requires forall k :: k in order <==> k in b.records
    requires forall k <- b.records :: b.records[k].taskId == taskId <==> k == player
    ensures var (b', live', ok) := Complete(b, order, taskId, result, live);
            if player !in b.records then b' == b && live' == live && !ok
            else
              var c := CompleteOn(b.records[player], result, live);
              (b', ok) == Put(b, player, c.answer) && live' == c.live
  {
    FoundTask(b.records, order, taskId);
  }
}
