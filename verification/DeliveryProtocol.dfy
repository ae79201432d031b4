/** Workers and database channels exchanging requests, results, acknowledgements and status
    queries. Queues hold multisets from which any message may be taken next, so every FIFO
    schedule, and more, is among the runs. */
module DeliveryProtocol {
  import opened Common
  import opened TaskDelivery
  import L = ResultLedgerSpec

  datatype Channel = MySqlChannel | RedisChannel(shard: nat)

  function ChannelOf(m: Msg): Channel {
    if m.kind == RedisTask || m.kind == RedisControl then RedisChannel(m.shard) else MySqlChannel
  }

  /** The result message of a request, with the fields the reply copies. */
  function Reply(request: Msg, body: bytes): Msg {
    Msg(if request.kind == RedisTask then RedisResult else MySqlResult, request.taskId, 0, request.shard, request.worker, request.call, body)
  }

  datatype Issue = Issue(request: Msg, worker: nat)

  /** issued, entered, executed and applied are histories: the requests taken into a table, the ones that
      entered a database queue, the result produced for each id, the results acted upon. */
  datatype System = System(
    tables: map<nat, Table>, ledgers: map<Channel, L.Ledger>,
    requests: multiset<Msg>, controls: multiset<Msg>, replies: multiset<Msg>, running: multiset<Msg>,
    issued: map<nat, Issue>, entered: multiset<Msg>, executed: map<nat, Msg>, applied: multiset<Msg>)

  datatype Step =
    | SubmitTask(w: nat, message: Msg, spare: nat, now: int, send: Sender, order: seq<nat>)
    | Maintain(w: nat, scan: Scan, now: int, send: Sender)
    | SendLegacy(m: Msg)
    | MakeRoom(ch: Channel, order: seq<nat>)
    | Admit(ch: Channel, m: Msg, notice: bytes)
    | FinishTask(ch: Channel, m: Msg, body: bytes)
    | TakeControl(ch: Channel, m: Msg)
    | FlushResults(ch: Channel, order: seq<nat>, now: int, send: Sender)
    | DeliverResult(w: nat, m: Msg, readable: bool, now: int, later: int, send: Sender)
    | DeliverStatus(w: nat, m: Msg)

  function Numbered(message: Msg, spare: nat): Msg {
    if message.taskId == 0 then message.(taskId := spare) else message
  }

  /** What may happen next. Ids are never reused: a request under a known id is only submitted
      again while the worker still remembers it; a refused submission leaves its id unknown, so that it
      may be tried again under the same id. A request may be admitted whatever the ledger holds:
      after an eviction the database thread goes on even if the ledger is still over its capacity. */
  ghost predicate Enabled(s: System, step: Step) {
    match step
    case SubmitTask(w, message, spare, _, _, order) =>
      && w in s.tables && message.worker == w && Enumerates(order, s.tables[w])
      && var id := Numbered(message, spare).taskId; id != 0 && (id !in s.issued || id in s.tables[w])
    case Maintain(w, _, _, _) => w in s.tables
    case SendLegacy(m) => IsTask(m) && m.taskId == 0
    case MakeRoom(ch, order) => ch in s.ledgers && L.Lists(order, s.ledgers[ch].entries)
    case Admit(ch, m, _) => ch in s.ledgers && m in s.requests && ChannelOf(m) == ch
    case FinishTask(ch, m, _) => ch in s.ledgers && m in s.running && ChannelOf(m) == ch
    case TakeControl(ch, m) => ch in s.ledgers && m in s.controls && ChannelOf(m) == ch
    case FlushResults(ch, order, _, _) => ch in s.ledgers && L.Lists(order, s.ledgers[ch].entries)
    case DeliverResult(w, m, _, _, _, _) => w in s.tables && m in s.replies && m.worker == w && IsResult(m)
    case DeliverStatus(w, m) => w in s.tables && m in s.replies && m.worker == w && m.kind == StatusNotice
  }

  function PutTable(s: System, w: nat, t: Table): System {
    s.(tables := s.tables[w := t])
  }

  function PutLedger(s: System, ch: Channel, l: L.Ledger): System {
    s.(ledgers := s.ledgers[ch := l])
  }

  /** The offers of a scan that the queues take. */
  function Enqueued(scan: Scan, tasks: Table, now: int, send: Sender): multiset<Msg> {
    multiset(set m | m in Offers(scan, tasks, tasks.Keys, now) && send(m) == Accepted)
  }

  function ScanWorker(s: System, w: nat, scan: Scan, now: int, send: Sender): System
    requires w in s.tables
  {
    var taken := Enqueued(scan, s.tables[w], now, send);
    var s' := PutTable(s, w, Scanned(scan, s.tables[w], now, send));
    match scan
    case Dispatches => s'.(requests := s.requests + taken, entered := s.entered + taken)
    case Controls => s'.(controls := s.controls + taken)
  }

  function SubmitAt(s: System, w: nat, message: Msg, spare: nat, now: int, send: Sender, order: seq<nat>): System
    requires w in s.tables
  {
    var request := Numbered(message, spare);
    var r := Submit(s.tables[w], message, spare, now, send, order);
    var s' := PutTable(s, w, r.tasks);
    if !r.ok || r.offered == multiset{} then s'
    else
      var taken := if send(request) == Accepted then multiset{request} else multiset{};
      s'.(issued := s.issued[request.taskId := Issue(request, w)],
          requests := s.requests + taken, entered := s.entered + taken)
  }

  /** The ledger after taking a request from the queue, with the notice an id conflict leaves behind. */
  function Admitted(l: L.Ledger, m: Msg, notice: bytes): L.Ledger {
    var a := L.Accept(l, m);
    if a.1 == L.Conflict then L.QueueNotice(a.0, Reply(m, notice)).0 else a.0
  }

  function AdmitAt(s: System, ch: Channel, m: Msg, notice: bytes): System
    requires ch in s.ledgers
  {
    PutLedger(s, ch, Admitted(s.ledgers[ch], m, notice)).(
      requests := s.requests - multiset{m},
      running := if L.Accept(s.ledgers[ch], m).1 == L.New then s.running + multiset{m} else s.running)
  }

  function FinishAt(s: System, ch: Channel, m: Msg, body: bytes): System
    requires ch in s.ledgers && (m.taskId == 0 || m.taskId in s.ledgers[ch].entries)
  {
    var s' := PutLedger(s, ch, L.Finish(s.ledgers[ch], m, Reply(m, body)));
    s'.(running := s.running - multiset{m},
        executed := if m.taskId == 0 then s.executed else s.executed[m.taskId := Reply(m, body)])
  }

  function StatusNoticeFor(l: L.Ledger, m: Msg, found: bool): Msg {
    m.(kind := StatusNotice, body := [if found then L.Status(l, m.taskId) else 0])
  }

  /** The ledger after a control message, with the status notice a query leaves behind. */
  function AfterControl(l: L.Ledger, m: Msg): L.Ledger {
    var r := L.HandleControl(l, m);
    if m.control == 2 then L.QueueNotice(r.0, StatusNoticeFor(r.0, m, r.1)).0 else r.0
  }

  function ControlAt(s: System, ch: Channel, m: Msg): System
    requires ch in s.ledgers
  {
    PutLedger(s, ch, AfterControl(s.ledgers[ch], m)).(controls := s.controls - multiset{m})
  }

  function FlushAt(s: System, ch: Channel, order: seq<nat>, now: int, send: Sender): System
    requires ch in s.ledgers
  {
    var l := s.ledgers[ch];
    PutLedger(s, ch, L.Flushed(l, now, send)).(
      replies := s.replies + multiset(L.Taken(l.entries, order, now, send)) + multiset(L.Picked(l.legacy, send, true)))
  }

  /** A result at its worker: applied when it completes its task, else acknowledged again. */
  function ResultAt(s: System, w: nat, m: Msg, readable: bool, now: int, later: int, send: Sender): System
    requires w in s.tables
  {
    var s' := s.(replies := s.replies - multiset{m});
    if !readable then s'
    else if m.taskId == 0 then s'.(applied := s.applied + multiset{m})
    else
      var r := Complete(s.tables[w], m, now);
      if r.ok then PutTable(s', w, r.tasks).(applied := s.applied + multiset{m})
      else ScanWorker(PutTable(s', w, AcknowledgeDuplicate(s.tables[w], m).tasks), w, Controls, later, send)
  }

  function Next(s: System, step: Step): System {
    match step
    case SubmitTask(w, message, spare, now, send, order) =>
      if w in s.tables then SubmitAt(s, w, message, spare, now, send, order) else s
    case Maintain(w, scan, now, send) => if w in s.tables then ScanWorker(s, w, scan, now, send) else s
    case SendLegacy(m) => s.(requests := s.requests + multiset{m}, entered := s.entered + multiset{m})
    case MakeRoom(ch, order) => if ch in s.ledgers then PutLedger(s, ch, L.HasCapacity(s.ledgers[ch], order).0) else s
    case Admit(ch, m, notice) => if ch in s.ledgers then AdmitAt(s, ch, m, notice) else s
    case FinishTask(ch, m, body) =>
      if ch in s.ledgers && (m.taskId == 0 || m.taskId in s.ledgers[ch].entries) then FinishAt(s, ch, m, body) else s
    case TakeControl(ch, m) => if ch in s.ledgers then ControlAt(s, ch, m) else s
    case FlushResults(ch, order, now, send) => if ch in s.ledgers then FlushAt(s, ch, order, now, send) else s
    case DeliverResult(w, m, readable, now, later, send) =>
      if w in s.tables then ResultAt(s, w, m, readable, now, later, send) else s
    case DeliverStatus(w, m) =>
      if w in s.tables then PutTable(s, w, ObserveStatus(s.tables[w], m).tasks).(replies := s.replies - multiset{m}) else s
  }

  // What every reachable state satisfies, id by id.

  function ResultOf(executed: map<nat, Msg>, id: nat): Option<Msg> {
    if id in executed then Some(executed[id]) else None
  }

  predicate ActedUpon(applied: multiset<Msg>, res: Option<Msg>) {
    res.Some? && res.value in applied
  }

  /** The result of id has been acted upon. */
  predicate Applied(s: System, id: nat) {
    ActedUpon(s.applied, ResultOf(s.executed, id))
  }

  /** Nothing but m0 travels under the id. */
  ghost predicate Only(ms: multiset<Msg>, id: nat, m0: Msg) {
    forall m :: m in ms && m.taskId == id ==> m == m0
  }

  ghost predicate NoneOf(ms: multiset<Msg>, id: nat) {
    forall m :: m in ms ==> m.taskId != id
  }

  /** The one request that entered is in exactly one place: waiting, running, or turned into its result. */
  ghost predicate SentOnce(requests: multiset<Msg>, running: multiset<Msg>, entered: multiset<Msg>, id: nat, req: Msg, done: bool) {
    && Only(requests, id, req) && Only(running, id, req) && Only(entered, id, req)
    && requests[req] + running[req] + (if done then 1 else 0) == entered[req] <= 1
  }

  predicate TaskAgrees(t: Task, req: Msg, sent: bool, res: Option<Msg>, acted: bool) {
    && t.request == req
    && (t.state == PendingDispatch ==> !sent) && (t.state == AwaitResult ==> sent)
    && (t.state == Completed <==> acted)
    && (t.state == Completed ==> res == Some(t.result))
  }

  /** Only the issuing worker holds the task, in a state that agrees with the histories. */
  ghost predicate Tabled(tables: map<nat, Table>, id: nat, owner: nat, req: Msg, sent: bool, res: Option<Msg>, acted: bool) {
    forall w :: w in tables && id in tables[w] ==> w == owner && TaskAgrees(tables[w][id], req, sent, res, acted)
  }

  predicate EntryAgrees(e: L.Entry, req: Msg, busy: bool, res: Option<Msg>, acted: bool) {
    && e.request == req
    && (if e.ready then res == Some(e.result) else busy)
    && (e.acknowledged ==> e.ready && acted)
  }

  /** Only the request's own channel has an entry; a running request, and one whose result nobody has
      acted upon, always has one. */
  ghost predicate Ledgered(ledgers: map<Channel, L.Ledger>, id: nat, req: Msg, busy: bool, res: Option<Msg>, acted: bool) {
    && (forall ch :: ch in ledgers && id in ledgers[ch].entries ==>
          ch == ChannelOf(req) && EntryAgrees(ledgers[ch].entries[id], req, busy, res, acted))
    && (busy || (res.Some? && !acted) ==> ChannelOf(req) in ledgers && id in ledgers[ChannelOf(req)].entries)
  }

  /** Result messages on their way, and results acted upon, are the one result of the id. */
  ghost predicate Replied(replies: multiset<Msg>, applied: multiset<Msg>, id: nat, req: Msg, res: Option<Msg>) {
    && (res.Some? ==> res.value == Reply(req, res.value.body) && applied[res.value] <= 1)
    && (forall m :: m in replies && m.taskId == id && IsResult(m) ==> res == Some(m))
    && (forall m :: m in applied && m.taskId == id ==> res == Some(m))
  }

  /** Control messages speak about the request, and only an applied result is acknowledged. */
  ghost predicate Controlled(controls: multiset<Msg>, id: nat, req: Msg, acted: bool) {
    forall m :: m in controls && m.taskId == id ==> m == Control(req, m.control) && (m.control == 1 ==> acted)
  }

  /** An id nobody has issued appears nowhere. */
  ghost predicate Untouched(s: System, id: nat) {
    && NoneOf(s.requests, id) && NoneOf(s.running, id) && NoneOf(s.entered, id) && NoneOf(s.controls, id) && NoneOf(s.applied, id)
    && (forall m :: m in s.replies && m.taskId == id ==> !IsResult(m))
    && (forall w :: w in s.tables ==> id !in s.tables[w])
    && (forall ch :: ch in s.ledgers ==> id !in s.ledgers[ch].entries)
    && id !in s.executed
  }

  ghost predicate Issued(s: System, id: nat, issue: Issue) {
    var req := issue.request;
    var res := ResultOf(s.executed, id);
    var acted := ActedUpon(s.applied, res);
    && req.taskId == id && IsTask(req) && req.worker == issue.worker
    && SentOnce(s.requests, s.running, s.entered, id, req, res.Some?)
    && Tabled(s.tables, id, issue.worker, req, req in s.entered, res, acted)
    && Ledgered(s.ledgers, id, req, req in s.running, res, acted)
    && Replied(s.replies, s.applied, id, req, res)
    && Controlled(s.controls, id, req, acted)
  }

  ghost predicate GoodId(s: System, id: nat) {
    if id in s.issued then Issued(s, id, s.issued[id]) else Untouched(s, id)
  }

  predicate Quiet(m: Msg) { m.taskId == 0 || m.kind == StatusNotice }

  predicate TidyTable(t: Table) { Keyed(t) && 0 !in t }

  ghost predicate TidyLedger(l: L.Ledger) {
    0 !in l.entries && forall m :: m in l.legacy ==> Quiet(m)
  }

  ghost predicate TidyTables(tables: map<nat, Table>) {
    forall w :: w in tables ==> TidyTable(tables[w])
  }

  ghost predicate TidyLedgers(ledgers: map<Channel, L.Ledger>) {
    forall ch :: ch in ledgers ==> TidyLedger(ledgers[ch])
  }

  ghost predicate Good(s: System) {
    && TidyTables(s.tables) && TidyLedgers(s.ledgers)
    && forall id: nat :: id != 0 ==> GoodId(s, id)
  }

  // Framing: a step that leaves one id alone keeps what holds of it.

  ghost predicate SameCount(a: multiset<Msg>, b: multiset<Msg>, id: nat) {
    forall m: Msg :: m.taskId == id ==> a[m] == b[m]
  }

  ghost predicate SameTables(tables: map<nat, Table>, tables': map<nat, Table>, id: nat) {
    && tables.Keys == tables'.Keys
    && forall w :: w in tables ==>
         (id in tables[w] <==> id in tables'[w]) && (id in tables[w] ==> tables[w][id] == tables'[w][id])
  }

  ghost predicate SameLedgers(ledgers: map<Channel, L.Ledger>, ledgers': map<Channel, L.Ledger>, id: nat) {
    && ledgers.Keys == ledgers'.Keys
    && forall ch :: ch in ledgers ==>
         && (id in ledgers[ch].entries <==> id in ledgers'[ch].entries)
         && (id in ledgers[ch].entries ==> ledgers[ch].entries[id] == ledgers'[ch].entries[id])
  }

  ghost predicate FewerResults(replies: multiset<Msg>, replies': multiset<Msg>, id: nat) {
    forall m :: m in replies' && m.taskId == id && IsResult(m) ==> m in replies
  }

  /** Everything in the two states says the same about id. */
  ghost predicate Alike(s: System, s': System, id: nat) {
    && (id in s.issued <==> id in s'.issued) && (id in s.issued ==> s.issued[id] == s'.issued[id])
    && ResultOf(s.executed, id) == ResultOf(s'.executed, id)
    && SameCount(s.requests, s'.requests, id) && SameCount(s.running, s'.running, id)
    && SameCount(s.entered, s'.entered, id) && SameCount(s.applied, s'.applied, id)
    && SameCount(s.controls, s'.controls, id)
    && SameTables(s.tables, s'.tables, id) && SameLedgers(s.ledgers, s'.ledgers, id)
    && FewerResults(s.replies, s'.replies, id)
  }

  lemma LeftAlone(s: System, s': System, id: nat)
    requires GoodId(s, id) && Alike(s, s', id)
    ensures GoodId(s', id)
  {
    var res := ResultOf(s.executed, id);
    if id in s.issued && res.Some? {
      assert res.value.taskId == id;
    }
  }
}
