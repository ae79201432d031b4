/** The database side: which requests a channel has admitted, which results it still owes. */
module ResultLedgerSpec {
  import opened Common
  import opened TaskDelivery

  datatype Entry = Entry(request: Msg, result: Msg, ready: bool, delivered: bool, acknowledged: bool, nextSendAt: int)

  type Entries = map<nat, Entry>

  datatype Admission = New | Duplicate | Conflict

  datatype Ledger = Ledger(entries: Entries, legacy: seq<Msg>, capacity: nat) {
    function Load(): nat { |entries| + |legacy| }
  }

  function FirstAcknowledged(entries: Entries, order: seq<nat>): Option<nat>
    decreases |order|
  {
    if order == [] then None
    else if order[0] in entries && entries[order[0]].acknowledged then Some(order[0])
    else FirstAcknowledged(entries, order[1..])
  }

  /** Room for one more request, forgetting one acknowledged entry when the ledger is full. */
  function HasCapacity(l: Ledger, order: seq<nat>): (Ledger, bool) {
    if l.Load() < l.capacity then (l, true)
    else
      match FirstAcknowledged(l.entries, order)
      case None => (l, false)
      case Some(id) => (l.(entries := l.entries - {id}), true)
  }

  function Reopened(e: Entry): Entry {
    e.(delivered := false, nextSendAt := 0, acknowledged := false)
  }

  function Accept(l: Ledger, m: Msg): (Ledger, Admission) {
    var id := m.taskId;
    if id == 0 then (l, New)
    else if id !in l.entries then (l.(entries := l.entries[id := Entry(m, NO_MSG, false, false, false, 0)]), New)
    else if !Same(l.entries[id].request, m) then (l, Conflict)
    else if l.entries[id].ready then (l.(entries := l.entries[id := Reopened(l.entries[id])]), Duplicate)
    else (l, Duplicate)
  }

  function QueueNotice(l: Ledger, notice: Msg): (Ledger, bool) {
    if l.Load() >= l.capacity then (l, false) else (l.(legacy := l.legacy + [notice]), true)
  }

  function Finish(l: Ledger, request: Msg, result: Msg): Ledger
    requires request.taskId == 0 || request.taskId in l.entries
  {
    if request.taskId == 0 then l.(legacy := l.legacy + [result])
    else
      var e := l.entries[request.taskId];
      l.(entries := l.entries[request.taskId := e.(result := result, ready := true, delivered := false)])
  }

  /** The request a control message speaks about. */
  function Requested(m: Msg): Msg {
    m.(kind := if m.kind == RedisControl then RedisTask else MySqlTask, control := 0)
  }

  function HandleControl(l: Ledger, m: Msg): (Ledger, bool) {
    var id := m.taskId;
    if !IsControl(m) || id !in l.entries || !Same(l.entries[id].request, Requested(m)) then (l, false)
    else if m.control == 1 && l.entries[id].ready then
      (l.(entries := l.entries[id := l.entries[id].(acknowledged := true)]), true)
    else if m.control == 2 then (l.(entries := l.entries[id := Reopened(l.entries[id])]), true)
    else (l, false)
  }

  function Status(l: Ledger, id: nat): byte {
    if id !in l.entries then 0 else if l.entries[id].ready then 2 else 1
  }

  predicate Owed(e: Entry, now: int) {
    e.ready && !e.acknowledged && now >= e.nextSendAt
  }

  function Sent(e: Entry, now: int, send: Sender): Entry {
    if Owed(e, now) then
      var ok := send(e.result) == Accepted;
      e.(delivered := ok, nextSendAt := now + if ok then 1000 else 100)
    else e
  }

  function SentEntries(entries: Entries, now: int, send: Sender): Entries {
    map id | id in entries :: Sent(entries[id], now, send)
  }

  /** The entries when a flush has reached only the given ids. */
  ghost function PartSent(entries: Entries, done: seq<nat>, now: int, send: Sender): Entries {
    map id | id in entries :: if id in done then Sent(entries[id], now, send) else entries[id]
  }

  lemma SendOne(entries: Entries, done: seq<nat>, id: nat, now: int, send: Sender)
    requires id in entries && id !in done
    ensures var part := PartSent(entries, done, now, send);
            && id in part && part[id] == entries[id]
            && PartSent(entries, done + [id], now, send) == part[id := Sent(entries[id], now, send)]
  {
  }

  /** The results the worker queues take in a flush, in table order. */
  function Taken(entries: Entries, order: seq<nat>, now: int, send: Sender): seq<Msg>
    decreases |order|
  {
    if order == [] then []
    else if order[0] in entries && Owed(entries[order[0]], now) && send(entries[order[0]].result) == Accepted then
      [entries[order[0]].result] + Taken(entries, order[1..], now, send)
    else Taken(entries, order[1..], now, send)
  }

  /** The messages of a list that the queues take, and those that stay. */
  function Picked(msgs: seq<Msg>, send: Sender, taken: bool): seq<Msg>
    decreases |msgs|
  {
    if msgs == [] then []
    else (if (send(msgs[0]) == Accepted) == taken then [msgs[0]] else []) + Picked(msgs[1..], send, taken)
  }

  function Flushed(l: Ledger, now: int, send: Sender): Ledger {
    l.(entries := SentEntries(l.entries, now, send), legacy := Picked(l.legacy, send, false))
  }

  ghost predicate Lists(order: seq<nat>, entries: Entries) {
    && (forall i, j :: 0 <= i < j < |order| ==> order[i] != order[j])
    && (forall id :: id in order <==> id in entries)
  }

  lemma NextIsNew(order: seq<nat>, entries: Entries, i: nat)
    requires Lists(order, entries) && i < |order|
    ensures order[i] in entries && order[i] !in order[..i] && order[..i + 1] == order[..i] + [order[i]]
  {
    assert order[i] in order;
  }

  lemma AllSent(order: seq<nat>, entries: Entries, now: int, send: Sender)
    requires Lists(order, entries)
    ensures PartSent(entries, order, now, send) == SentEntries(entries, now, send)
  {
  }

  lemma PickedGrows(msgs: seq<Msg>, m: Msg, send: Sender, taken: bool)
    ensures Picked(msgs + [m], send, taken)
         == Picked(msgs, send, taken) + if (send(m) == Accepted) == taken then [m] else []
    decreases |msgs|
  {
    if msgs != [] {
      PickedGrows(msgs[1..], m, send, taken);
      assert (msgs + [m])[1..] == msgs[1..] + [m];
    }
  }

  lemma TakenGrows(entries: Entries, order: seq<nat>, id: nat, now: int, send: Sender)
    requires id in entries
    ensures Taken(entries, order + [id], now, send) == Taken(entries, order, now, send)
         + if Owed(entries[id], now) && send(entries[id].result) == Accepted then [entries[id].result] else []
    decreases |order|
  {
    if order != [] {
      TakenGrows(entries, order[1..], id, now, send);
      assert (order + [id])[1..] == order[1..] + [id];
    }
  }

  lemma {:induction false} FirstAcknowledgedIs(entries: Entries, order: seq<nat>)
    ensures var first := FirstAcknowledged(entries, order);
            if first.Some? then first.value in order && first.value in entries && entries[first.value].acknowledged
            else forall id :: id in order && id in entries ==> !entries[id].acknowledged
    decreases |order|
  {
    if order != [] { FirstAcknowledgedIs(entries, order[1..]); }
  }

  /** Every message a flush hands out is an owed, unacknowledged result or a queued notice. */
  lemma TakenIsOwed(entries: Entries, order: seq<nat>, now: int, send: Sender, m: Msg)
    requires m in Taken(entries, order, now, send)
    ensures exists id :: id in entries && Owed(entries[id], now) && m == entries[id].result
    decreases |order|
  {
    if m in Taken(entries, order[1..], now, send) { TakenIsOwed(entries, order[1..], now, send, m); }
  }

  lemma PickedIsQueued(msgs: seq<Msg>, send: Sender, taken: bool, m: Msg)
    requires m in Picked(msgs, send, taken)
    ensures m in msgs
    decreases |msgs|
  {
    if m in Picked(msgs[1..], send, taken) { PickedIsQueued(msgs[1..], send, taken, m); }
  }
}
