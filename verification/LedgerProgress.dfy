/** The database side's ledger told by its history: what a flush sends follows from what was asked, finished
    and acknowledged before, and a request is forgotten only once it is acknowledged and room is short. */
module LedgerProgress {
  import opened Common
  import opened TaskDelivery
  import opened ResultLedgerSpec

  // ---- one request -----------------------------------------------------------------------------------------

  /** The last thing that happened about a request: it was asked (again), its result was offered, or acknowledged. */
  datatype Event = Asked | Offered(at: int, answer: DispatchResult) | Acked

  /** What is known of a request: its result once it is finished, and the last event. */
  datatype Past = Past(request: Msg, result: Option<Msg>, last: Event)

  /** What a flush is bound to send about it, told by its past alone. */
  function Bound(p: Past, now: int): Option<Msg> {
    if p.result.None? then None
    else
      match p.last
      case Asked => if now >= 0 then p.result else None
      case Offered(at, answer) => if now >= at + (if answer == Accepted then 1000 else 100) then p.result else None
      case Acked => None
  }

  /** The entry's fields say what its past implies. */
  predicate Reflects(e: Entry, p: Past) {
    && e.request == p.request && (e.ready <==> p.result.Some?) && (e.ready ==> e.result == p.result.value)
    && (e.acknowledged <==> p.last == Acked) && (!e.ready ==> p.last == Asked) && (p.last == Asked ==> !e.delivered)
    && (match p.last
        case Asked => e.nextSendAt == 0
        case Offered(at, answer) => e.nextSendAt == at + (if answer == Accepted then 1000 else 100)
        case Acked => true)
  }

  /** The message is about this very request: it agrees with it in all but id and control code. */
  predicate IsAbout(m: Msg, request: Msg) { m == request.(taskId := m.taskId, control := m.control) }

  /** A control message repeats the request it is about under the control kind of its database. */
  predicate Controls(m: Msg, request: Msg) {
    && (m.kind == MySqlControl || m.kind == RedisControl)
    && IsAbout(m.(kind := if m.kind == MySqlControl then MySqlTask else RedisTask), request)
  }

  // ---- the calls -------------------------------------------------------------------------------------------

  datatype Call =
    | MakeRoom(order: seq<nat>)
    | Ask(request: Msg)
    | Notify(notice: Msg)
    | Done(request: Msg, result: Msg)
    | Control(message: Msg)
    | Flush(now: int, send: Sender)

  ghost predicate Callable(l: Ledger, c: Call) {
    match c
    case MakeRoom(order) => Lists(order, l.entries)
    case Done(request, _) => request.taskId == 0 || request.taskId in l.entries
    case _ => true
  }

  function Effect(l: Ledger, c: Call): Ledger
    requires c.Done? ==> c.request.taskId == 0 || c.request.taskId in l.entries
  {
    match c
    case MakeRoom(order) => HasCapacity(l, order).0
    case Ask(request) => Accept(l, request).0
    case Notify(notice) => QueueNotice(l, notice).0
    case Done(request, result) => Finish(l, request, result)
    case Control(message) => HandleControl(l, message).0
    case Flush(now, send) => Flushed(l, now, send)
  }

  /** What a call adds to the past of one known request: told by the call and its answers alone. */
  function Next(p: Past, id: nat, c: Call): Past {
    match c
    case MakeRoom(_) => p
    case Ask(request) => if request.taskId == id && IsAbout(request, p.request) && p.result.Some? then p.(last := Asked) else p
    case Notify(_) => p
    case Done(request, result) => if request.taskId == id then p.(result := Some(result)) else p
    case Control(m) =>
      if m.taskId != id || !Controls(m, p.request) then p
      else if m.control == 1 && p.result.Some? then p.(last := Acked)
      else if m.control == 2 then p.(last := Asked)
      else p
    case Flush(now, send) => if Bound(p, now).Some? then p.(last := Offered(now, send(p.result.value))) else p
  }

  type Pasts = map<nat, Past>

  function NextPasts(l: Ledger, pasts: Pasts, c: Call): Pasts
    requires c.Done? ==> c.request.taskId == 0 || c.request.taskId in l.entries
  {
    map id | id in Effect(l, c).entries ::
      if id in l.entries && id in pasts then Next(pasts[id], id, c) else Past(if c.Ask? then c.request else NO_MSG, None, Asked)
  }

  ghost predicate Told(l: Ledger, pasts: Pasts) {
    && pasts.Keys == l.entries.Keys && 0 !in l.entries
    && forall id <- l.entries :: Reflects(l.entries[id], pasts[id]) && l.entries[id].request.taskId == id
  }

  /** A full ledger forgets one acknowledged request, if it has one; otherwise nothing is forgotten. There is room
      exactly when it is not full or one is acknowledged. */
  lemma RoomOutcome(l: Ledger, pasts: Pasts, order: seq<nat>) returns (gone: set<nat>)
    requires Told(l, pasts) && Lists(order, l.entries)
    ensures var (l', ok) := HasCapacity(l, order);
            && l' == l.(entries := l.entries - gone) && gone <= l.entries.Keys
            && (ok <==> |l.entries| + |l.legacy| < l.capacity || exists id :: id in l.entries && pasts[id].last == Acked)
            && (forall id :: id in gone ==> pasts[id].last == Acked && |l.entries| + |l.legacy| >= l.capacity && gone == {id})
            && (gone == {} ==> ok ==> |l.entries| + |l.legacy| < l.capacity)
  {
    FirstAcknowledgedIs(l.entries, order);
    gone := {};
    var first := FirstAcknowledged(l.entries, order);
    if l.Load() >= l.capacity && first.Some? {
      gone := {first.value};
      assert pasts[first.value].last == Acked;
    }
    assert l.entries - {} == l.entries;
  }

  lemma OthersReflect(l: Ledger, pasts: Pasts, c: Call, id: nat)
    requires Told(l, pasts) && (c.Ask? || c.Control? || c.Done?) && Callable(l, c) && id in l.entries
    ensures id in Effect(l, c).entries && Reflects(Effect(l, c).entries[id], Next(pasts[id], id, c))
    ensures Effect(l, c).entries[id].request == l.entries[id].request
  {
  }

  lemma FlushReflects(l: Ledger, pasts: Pasts, now: int, send: Sender, id: nat)
    requires Told(l, pasts) && id in l.entries
    ensures Owed(l.entries[id], now) <==> Bound(pasts[id], now).Some?
    ensures Bound(pasts[id], now).Some? ==> Bound(pasts[id], now).value == l.entries[id].result
    ensures Reflects(Flushed(l, now, send).entries[id], Next(pasts[id], id, Flush(now, send)))
    ensures Flushed(l, now, send).entries[id].request == l.entries[id].request
  {
  }

  lemma RoomTells(l: Ledger, pasts: Pasts, c: Call)
    requires Told(l, pasts) && c.MakeRoom? && Callable(l, c)
    ensures Told(Effect(l, c), NextPasts(l, pasts, c))
  {
    var gone := RoomOutcome(l, pasts, c.order);
  }

  lemma FlushTells(l: Ledger, pasts: Pasts, c: Call)
    requires Told(l, pasts) && c.Flush?
    ensures Told(Effect(l, c), NextPasts(l, pasts, c))
  {
    forall id | id in l.entries ensures Reflects(Effect(l, c).entries[id], NextPasts(l, pasts, c)[id]) && Effect(l, c).entries[id].request.taskId == id {
      FlushReflects(l, pasts, c.now, c.send, id);
    }
  }

  lemma AnswerTells(l: Ledger, pasts: Pasts, c: Call)
    requires Told(l, pasts) && (c.Ask? || c.Control? || c.Done?) && Callable(l, c)
    ensures Told(Effect(l, c), NextPasts(l, pasts, c))
  {
    forall id | id in l.entries ensures id in Effect(l, c).entries && Reflects(Effect(l, c).entries[id], NextPasts(l, pasts, c)[id])
                                        && Effect(l, c).entries[id].request.taskId == id {
      OthersReflect(l, pasts, c, id);
    }
  }

  lemma StepTells(l: Ledger, pasts: Pasts, c: Call)
    requires Told(l, pasts) && Callable(l, c)
    ensures Told(Effect(l, c), NextPasts(l, pasts, c))
  {
    match c
    case MakeRoom(_) => RoomTells(l, pasts, c);
    case Notify(_) =>
    case Flush(_, _) => FlushTells(l, pasts, c);
    case _ => AnswerTells(l, pasts, c);
  }

  // ---- whole runs ------------------------------------------------------------------------------------------

  ghost predicate CallableRun(l: Ledger, calls: seq<Call>)
    decreases |calls|
  {
    calls == [] || (Callable(l, calls[0]) && CallableRun(Effect(l, calls[0]), calls[1..]))
  }

  ghost function AfterRun(l: Ledger, pasts: Pasts, calls: seq<Call>): (Ledger, Pasts)
    requires CallableRun(l, calls)
    decreases |calls|
  {
    if calls == [] then (l, pasts) else AfterRun(Effect(l, calls[0]), NextPasts(l, pasts, calls[0]), calls[1..])
  }

  lemma {:induction false} RunTells(l: Ledger, pasts: Pasts, calls: seq<Call>)
    requires Told(l, pasts) && CallableRun(l, calls)
    ensures var (l', pasts') := AfterRun(l, pasts, calls); Told(l', pasts')
    decreases |calls|
  {
    if calls != [] {
      StepTells(l, pasts, calls[0]);
      RunTells(Effect(l, calls[0]), NextPasts(l, pasts, calls[0]), calls[1..]);
    }
  }

  /**
   * After any calls from the empty ledger, what a flush sends about a request is bound by its past: its result, once
   * it is finished, at once and again every second (every tenth of one while the queue does not take it), until it is
   * acknowledged, and again when it is asked for again. Its status is 1 until it is finished, then 2.
   */
  lemma FlushesFollowHistory(capacity: nat, calls: seq<Call>, id: nat, now: int)
    requires CallableRun(Ledger(map[], [], capacity), calls)
    ensures var (l, pasts) := AfterRun(Ledger(map[], [], capacity), map[], calls);
            && pasts.Keys == l.entries.Keys
            && (id in l.entries ==>
                  && (Owed(l.entries[id], now) <==> Bound(pasts[id], now).Some?)
                  && (Owed(l.entries[id], now) ==> Some(l.entries[id].result) == pasts[id].result))
            && Status(l, id) == if id !in pasts then 0 else if pasts[id].result.None? then 1 else 2
  {
    RunTells(Ledger(map[], [], capacity), map[], calls);
    var (l, pasts) := AfterRun(Ledger(map[], [], capacity), map[], calls);
    if id in l.entries { FlushReflects(l, pasts, now, m => Accepted, id); }
  }

  /** A request is new exactly when it carries no id or one the ledger does not know; a known id is a duplicate of the
      request it belongs to, and a conflict with any other. */
  lemma AdmissionIs(l: Ledger, pasts: Pasts, m: Msg)
    requires Told(l, pasts)
    ensures Accept(l, m).1 == if m.taskId !in pasts then New else if IsAbout(m, pasts[m.taskId].request) then Duplicate else Conflict
    ensures Accept(l, m).0.entries.Keys == if m.taskId == 0 then l.entries.Keys else l.entries.Keys + {m.taskId}
  {
  }

  /** A control message is heeded exactly when it is about a known request, to acknowledge its result once it is
      finished or to ask for it again. */
  lemma ControlIs(l: Ledger, pasts: Pasts, m: Msg)
    requires Told(l, pasts)
    ensures HandleControl(l, m).1 <==>
              && m.taskId in pasts && Controls(m, pasts[m.taskId].request)
              && ((m.control == 1 && pasts[m.taskId].result.Some?) || m.control == 2)
  {
  }

  // ---- notices ---------------------------------------------------------------------------------------------

  function Times(m: Msg, msgs: seq<Msg>): nat { if msgs == [] then 0 else (if msgs[0] == m then 1 else 0) + Times(m, msgs[1..]) }

  lemma {:induction false} TimesMore(m: Msg, msgs: seq<Msg>, x: Msg)
    ensures Times(m, msgs + [x]) == Times(m, msgs) + if x == m then 1 else 0
    decreases |msgs|
  {
    if msgs != [] {
      TimesMore(m, msgs[1..], x);
      assert (msgs + [x])[1..] == msgs[1..] + [x];
    }
  }

  lemma {:induction false} PickedTimes(m: Msg, msgs: seq<Msg>, send: Sender, taken: bool)
    ensures Times(m, Picked(msgs, send, taken)) == if (send(m) == Accepted) == taken then Times(m, msgs) else 0
    decreases |msgs|
  {
    if msgs != [] {
      var rest := Picked(msgs[1..], send, taken);
      PickedTimes(m, msgs[1..], send, taken);
      assert ([msgs[0]] + rest)[1..] == rest && [] + rest == rest;
    }
  }

  lemma NoticeIs(l: Ledger, m: Msg)
    ensures QueueNotice(l, m).1 <==> |l.entries| + |l.legacy| < l.capacity
    ensures Times(m, QueueNotice(l, m).0.legacy) == Times(m, l.legacy) + if QueueNotice(l, m).1 then 1 else 0
  {
    TimesMore(m, l.legacy, m);
  }

  /** How often a call queues the message: a notice there is room for, or the result of a request without an id. */
  function Came(m: Msg, l: Ledger, c: Call): nat {
    if c.Notify? && c.notice == m && |l.entries| + |l.legacy| < l.capacity then 1
    else if c.Done? && c.request.taskId == 0 && c.result == m then 1
    else 0
  }

  /** How often a call hands it out. */
  function Went(m: Msg, l: Ledger, c: Call): nat { if c.Flush? then Times(m, Picked(l.legacy, c.send, true)) else 0 }

  ghost function AllCame(m: Msg, l: Ledger, calls: seq<Call>): nat
    requires CallableRun(l, calls)
    decreases |calls|
  {
    if calls == [] then 0 else Came(m, l, calls[0]) + AllCame(m, Effect(l, calls[0]), calls[1..])
  }

  ghost function AllWent(m: Msg, l: Ledger, calls: seq<Call>): nat
    requires CallableRun(l, calls)
    decreases |calls|
  {
    if calls == [] then 0 else Went(m, l, calls[0]) + AllWent(m, Effect(l, calls[0]), calls[1..])
  }

  lemma StepBalances(m: Msg, l: Ledger, c: Call)
    requires Callable(l, c)
    ensures Times(m, l.legacy) + Came(m, l, c) == Times(m, Effect(l, c).legacy) + Went(m, l, c)
  {
    match c
    case Notify(notice) => TimesMore(m, l.legacy, notice);
    case Done(_, result) => TimesMore(m, l.legacy, result);
    case Flush(_, send) =>
      PickedTimes(m, l.legacy, send, true);
      PickedTimes(m, l.legacy, send, false);
    case _ =>
  }

  /** Over any calls: a notice, or a result that answers no id, is handed out as often as it was queued, less those still waiting. */
  lemma {:induction false} NoticesAreConserved(m: Msg, l: Ledger, pasts: Pasts, calls: seq<Call>)
    requires CallableRun(l, calls)
    ensures Times(m, l.legacy) + AllCame(m, l, calls) == Times(m, AfterRun(l, pasts, calls).0.legacy) + AllWent(m, l, calls)
    decreases |calls|
  {
    if calls != [] {
      StepBalances(m, l, calls[0]);
      NoticesAreConserved(m, Effect(l, calls[0]), NextPasts(l, pasts, calls[0]), calls[1..]);
    }
  }
}
