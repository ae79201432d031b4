/** Every step of the delivery protocol keeps the per-id invariant, so whole runs do. */
module DeliverySafety {
  import opened Common
  import opened TaskDelivery
  import opened DeliveryProtocol
  import L = ResultLedgerSpec

  /** Two ledgers have the same entry, or none, for id. */
  predicate SameEntry(l: L.Ledger, l': L.Ledger, id: nat) {
    (id in l.entries <==> id in l'.entries) && (id in l.entries ==> l.entries[id] == l'.entries[id])
  }

  lemma LedgerChange(s: System, ch: Channel, l: L.Ledger, id: nat)
    requires ch in s.ledgers && SameEntry(s.ledgers[ch], l, id)
    ensures SameLedgers(s.ledgers, PutLedger(s, ch, l).ledgers, id)
  {
  }

  /** Rewriting the entry of id keeps the invariant when the new entry still agrees with the histories. */
  lemma LedgerKeepsId(s: System, ch: Channel, l: L.Ledger, id: nat)
    requires GoodId(s, id) && ch in s.ledgers && (id in l.entries <==> id in s.ledgers[ch].entries)
    requires id in s.issued && id in l.entries ==>
               EntryAgrees(l.entries[id], s.issued[id].request, s.issued[id].request in s.running, ResultOf(s.executed, id), Applied(s, id))
    ensures GoodId(PutLedger(s, ch, l), id)
  {
  }

  lemma FewerControlsKeepId(s: System, m: Msg, id: nat)
    requires GoodId(s, id)
    ensures GoodId(s.(controls := s.controls - multiset{m}), id)
  {
  }

  lemma MoreRepliesKeepId(s: System, more: multiset<Msg>, id: nat)
    requires GoodId(s, id)
    requires forall m :: m in more && m.taskId == id && IsResult(m) ==> id in s.issued && ResultOf(s.executed, id) == Some(m)
    ensures GoodId(s.(replies := s.replies + more), id)
  {
  }

  // Admission: a request that leaves its queue is always new to the ledger.

  lemma AdmissionIsNew(s: System, ch: Channel, m: Msg)
    requires m.taskId != 0 && GoodId(s, m.taskId) && m in s.requests && ch in s.ledgers
    ensures m.taskId in s.issued && m == s.issued[m.taskId].request
    ensures m.taskId !in s.ledgers[ch].entries
    ensures m !in s.running && m.taskId !in s.executed && m.taskId !in s.ledgers[ch].entries
  {
  }

  lemma AdmitTouches(l: L.Ledger, m: Msg, notice: bytes, id: nat)
    requires id != m.taskId
    ensures SameEntry(l, Admitted(l, m, notice), id)
  {
  }

  lemma AdmitLeavesOthers(s: System, ch: Channel, m: Msg, notice: bytes, id: nat)
    requires ch in s.ledgers && id != m.taskId
    ensures Alike(s, AdmitAt(s, ch, m, notice), id)
  {
    var l := Admitted(s.ledgers[ch], m, notice);
    AdmitTouches(s.ledgers[ch], m, notice, id);
    LedgerChange(s, ch, l, id);
  }

  lemma AdmitKeepsOwn(s: System, ch: Channel, m: Msg, notice: bytes)
    requires m.taskId != 0 && GoodId(s, m.taskId) && Enabled(s, Admit(ch, m, notice))
    ensures GoodId(AdmitAt(s, ch, m, notice), m.taskId)
  {
    AdmissionIsNew(s, ch, m);
  }

  // Finishing: the running request gets its one result.

  lemma RunningHasEntry(s: System, ch: Channel, m: Msg)
    requires m.taskId != 0 && GoodId(s, m.taskId) && m in s.running && ch in s.ledgers && ChannelOf(m) == ch
    ensures m.taskId in s.issued && m == s.issued[m.taskId].request
    ensures m.taskId in s.ledgers[ch].entries && m.taskId !in s.executed && s.running[m] == 1
  {
  }

  lemma FinishLeavesOthers(s: System, ch: Channel, m: Msg, body: bytes, id: nat)
    requires ch in s.ledgers && (m.taskId == 0 || m.taskId in s.ledgers[ch].entries) && id != m.taskId
    ensures Alike(s, FinishAt(s, ch, m, body), id)
  {
  }

  lemma FinishKeepsOwn(s: System, ch: Channel, m: Msg, body: bytes)
    requires m.taskId != 0 && GoodId(s, m.taskId) && Enabled(s, FinishTask(ch, m, body)) && m.taskId in s.ledgers[ch].entries
    ensures GoodId(FinishAt(s, ch, m, body), m.taskId)
  {
    RunningHasEntry(s, ch, m);
  }

  // Control messages.

  lemma ControlTouches(l: L.Ledger, m: Msg, id: nat)
    ensures id in AfterControl(l, m).entries <==> id in l.entries
    ensures id in l.entries ==>
              || AfterControl(l, m).entries[id] == l.entries[id]
              || (id == m.taskId && m.control == 1 && l.entries[id].ready && AfterControl(l, m).entries[id] == l.entries[id].(acknowledged := true))
              || AfterControl(l, m).entries[id] == L.Reopened(l.entries[id])
  {
  }

  lemma ControlKeepsId(s: System, ch: Channel, m: Msg, id: nat)
    requires GoodId(s, id) && Enabled(s, TakeControl(ch, m))
    ensures GoodId(ControlAt(s, ch, m), id)
  {
    var l := AfterControl(s.ledgers[ch], m);
    ControlTouches(s.ledgers[ch], m, id);
    LedgerKeepsId(s, ch, l, id);
    FewerControlsKeepId(PutLedger(s, ch, l), m, id);
  }

  // Forgetting an acknowledged entry.

  lemma MakeRoomKeepsId(s: System, ch: Channel, order: seq<nat>, id: nat)
    requires GoodId(s, id) && Enabled(s, MakeRoom(ch, order))
    ensures GoodId(Next(s, MakeRoom(ch, order)), id)
  {
    L.FirstAcknowledgedIs(s.ledgers[ch].entries, order);
  }

  // Scans of a worker's table.

  /** A scan enqueues for an id exactly the offer of its own task. */
  lemma EnqueuedOf(scan: Scan, tasks: Table, now: int, send: Sender, id: nat, m: Msg)
    requires Keyed(tasks) && m.taskId == id
    ensures Enqueued(scan, tasks, now, send)[m]
         == if id in tasks && Offer(scan, tasks[id], now) == Some(m) && send(m) == Accepted then 1 else 0
  {
    if m in Offers(scan, tasks, tasks.Keys, now) {
      var k :| k in tasks && Offer(scan, tasks[k], now) == Some(m);
      assert k == id;
    }
  }

  ghost predicate EnqueuesOwn(scan: Scan, tasks: Table, now: int, send: Sender, id: nat) {
    forall m: Msg :: m.taskId == id ==>
      Enqueued(scan, tasks, now, send)[m]
        == if id in tasks && Offer(scan, tasks[id], now) == Some(m) && send(m) == Accepted then 1 else 0
  }

  lemma ScanEnqueuesOwn(scan: Scan, tasks: Table, now: int, send: Sender, id: nat)
    requires Keyed(tasks)
    ensures EnqueuesOwn(scan, tasks, now, send, id)
  {
    forall m: Msg | m.taskId == id
      ensures Enqueued(scan, tasks, now, send)[m]
           == if id in tasks && Offer(scan, tasks[id], now) == Some(m) && send(m) == Accepted then 1 else 0
    {
      EnqueuedOf(scan, tasks, now, send, id, m);
    }
  }

  lemma ScanLeavesOthers(s: System, w: nat, scan: Scan, now: int, send: Sender, id: nat)
    requires w in s.tables && id !in s.tables[w] && EnqueuesOwn(scan, s.tables[w], now, send, id)
    ensures Alike(s, ScanWorker(s, w, scan, now, send), id)
  {
  }

  lemma DispatchKeepsOwn(s: System, w: nat, now: int, send: Sender, id: nat)
    requires GoodId(s, id) && w in s.tables && id in s.tables[w] && EnqueuesOwn(Dispatches, s.tables[w], now, send, id)
    ensures GoodId(ScanWorker(s, w, Dispatches, now, send), id)
  {
  }

  lemma ControlScanKeepsOwn(s: System, w: nat, now: int, send: Sender, id: nat)
    requires GoodId(s, id) && w in s.tables && id in s.tables[w] && EnqueuesOwn(Controls, s.tables[w], now, send, id)
    ensures GoodId(ScanWorker(s, w, Controls, now, send), id)
  {
  }

  lemma ScanKeepsId(s: System, w: nat, scan: Scan, now: int, send: Sender, id: nat)
    requires TidyTables(s.tables) && GoodId(s, id) && w in s.tables
    ensures GoodId(ScanWorker(s, w, scan, now, send), id)
  {
    ScanEnqueuesOwn(scan, s.tables[w], now, send, id);
    if id !in s.tables[w] {
      ScanLeavesOthers(s, w, scan, now, send, id);
      LeftAlone(s, ScanWorker(s, w, scan, now, send), id);
    } else if scan == Dispatches {
      DispatchKeepsOwn(s, w, now, send, id);
    } else {
      ControlScanKeepsOwn(s, w, now, send, id);
    }
  }

  // Submitting.

  /** Submitting touches no other task, except that it may forget an evictable one. */
  lemma SubmitTouches(tasks: Table, message: Msg, spare: nat, now: int, send: Sender, order: seq<nat>, id: nat)
    requires id != Numbered(message, spare).taskId
    ensures var r := Submit(tasks, message, spare, now, send, order);
            id in r.tasks ==> id in tasks && r.tasks[id] == tasks[id]
  {
  }

  lemma SubmitLeavesOthers(s: System, w: nat, message: Msg, spare: nat, now: int, send: Sender, order: seq<nat>, id: nat)
    requires w in s.tables && id != Numbered(message, spare).taskId
    ensures var s' := SubmitAt(s, w, message, spare, now, send, order);
            Alike(s.(tables := s'.tables), s', id)
  {
  }

  lemma ForgottenTaskKeepsId(s: System, w: nat, t: Table, id: nat)
    requires GoodId(s, id) && w in s.tables && (id in t ==> id in s.tables[w] && t[id] == s.tables[w][id])
    ensures GoodId(PutTable(s, w, t), id)
  {
  }

  lemma RegisterKeepsOwn(s: System, w: nat, t: Table, request: Msg, now: int, send: Sender)
    requires GoodId(s, request.taskId) && request.taskId !in s.issued && IsTask(request) && w in s.tables && request.worker == w
    requires Register(t, request, now, send).ok
    ensures var taken := if send(request) == Accepted then multiset{request} else multiset{};
            GoodId(PutTable(s, w, Register(t, request, now, send).tasks).(
                     issued := s.issued[request.taskId := Issue(request, w)],
                     requests := s.requests + taken, entered := s.entered + taken), request.taskId)
  {
  }

  /** Only a request the worker does not remember is offered to the database; a refused one leaves nothing behind. */
  lemma SubmitOffers(tasks: Table, message: Msg, spare: nat, now: int, send: Sender, order: seq<nat>)
    ensures var r, request := Submit(tasks, message, spare, now, send, order), Numbered(message, spare);
            if !r.ok || r.offered == multiset{} then (forall id :: id in r.tasks ==> id in tasks && r.tasks[id] == tasks[id])
            else request.taskId !in tasks && IsTask(request) && exists t :: r == Register(t, request, now, send)
  {
    assert forall request: Msg :: request in multiset{request};
  }

  lemma SubmitKeepsOwn(s: System, w: nat, message: Msg, spare: nat, now: int, send: Sender, order: seq<nat>)
    requires Enabled(s, SubmitTask(w, message, spare, now, send, order)) && GoodId(s, Numbered(message, spare).taskId)
    ensures GoodId(SubmitAt(s, w, message, spare, now, send, order), Numbered(message, spare).taskId)
  {
    var request := Numbered(message, spare);
    var r := Submit(s.tables[w], message, spare, now, send, order);
    SubmitOffers(s.tables[w], message, spare, now, send, order);
    if !r.ok || r.offered == multiset{} {
      ForgottenTaskKeepsId(s, w, r.tasks, request.taskId);
    } else {
      var t :| r == Register(t, request, now, send);
      RegisterKeepsOwn(s, w, t, request, now, send);
    }
  }

  lemma SubmitKeepsId(s: System, w: nat, message: Msg, spare: nat, now: int, send: Sender, order: seq<nat>, id: nat)
    requires Enabled(s, SubmitTask(w, message, spare, now, send, order)) && GoodId(s, id)
    ensures GoodId(SubmitAt(s, w, message, spare, now, send, order), id)
  {
    if id == Numbered(message, spare).taskId {
      SubmitKeepsOwn(s, w, message, spare, now, send, order);
    } else {
      var t := Submit(s.tables[w], message, spare, now, send, order).tasks;
      SubmitTouches(s.tables[w], message, spare, now, send, order, id);
      ForgottenTaskKeepsId(s, w, t, id);
      SubmitLeavesOthers(s, w, message, spare, now, send, order, id);
      LeftAlone(PutTable(s, w, t), SubmitAt(s, w, message, spare, now, send, order), id);
    }
  }

  // Flushing results to the workers.

  /** What a flush hands out under an id is the id's own result. */
  lemma FlushedReply(s: System, ch: Channel, order: seq<nat>, now: int, send: Sender, m: Msg)
    requires Good(s) && ch in s.ledgers && m.taskId != 0 && IsResult(m)
    requires m in L.Taken(s.ledgers[ch].entries, order, now, send) || m in L.Picked(s.ledgers[ch].legacy, send, true)
    ensures m.taskId in s.issued && ResultOf(s.executed, m.taskId) == Some(m)
  {
    if m in L.Picked(s.ledgers[ch].legacy, send, true) {
      L.PickedIsQueued(s.ledgers[ch].legacy, send, true, m);
      assert false;
    } else {
      L.TakenIsOwed(s.ledgers[ch].entries, order, now, send, m);
      var k :| k in s.ledgers[ch].entries && L.Owed(s.ledgers[ch].entries[k], now) && m == s.ledgers[ch].entries[k].result;
      assert GoodId(s, k);
      assert Issued(s, k, s.issued[k]);
    }
  }

  lemma FlushKeepsId(s: System, ch: Channel, order: seq<nat>, now: int, send: Sender, id: nat)
    requires Good(s) && ch in s.ledgers && id != 0
    ensures GoodId(FlushAt(s, ch, order, now, send), id)
  {
    var l := s.ledgers[ch];
    var more := multiset(L.Taken(l.entries, order, now, send)) + multiset(L.Picked(l.legacy, send, true));
    forall m | m in more && m.taskId == id && IsResult(m)
      ensures id in s.issued && ResultOf(s.executed, id) == Some(m)
    {
      FlushedReply(s, ch, order, now, send, m);
    }
    assert GoodId(s, id);
    LedgerKeepsId(s, ch, L.Flushed(l, now, send), id);
    MoreRepliesKeepId(PutLedger(s, ch, L.Flushed(l, now, send)), more, id);
    assert FlushAt(s, ch, order, now, send).replies == s.replies + more;
  }

  // Results at the worker.

  lemma CompleteKeepsOwn(s: System, w: nat, m: Msg, now: int)
    requires GoodId(s, m.taskId) && w in s.tables && m in s.replies && IsResult(m) && Complete(s.tables[w], m, now).ok
    ensures GoodId(PutTable(s, w, Complete(s.tables[w], m, now).tasks).(applied := s.applied + multiset{m}), m.taskId)
  {
  }

  lemma AcknowledgeKeepsId(s: System, w: nat, m: Msg, id: nat)
    requires GoodId(s, id) && w in s.tables
    ensures GoodId(PutTable(s, w, AcknowledgeDuplicate(s.tables[w], m).tasks), id)
  {
  }

  lemma ObserveKeepsId(s: System, w: nat, m: Msg, id: nat)
    requires GoodId(s, id) && w in s.tables
    ensures GoodId(PutTable(s, w, ObserveStatus(s.tables[w], m).tasks), id)
  {
  }

  lemma CompleteLeavesOthers(s: System, w: nat, m: Msg, now: int, id: nat)
    requires w in s.tables && id != m.taskId
    ensures Alike(s, PutTable(s, w, Complete(s.tables[w], m, now).tasks).(applied := s.applied + multiset{m}), id)
  {
  }

  lemma FewerRepliesKeepId(s: System, m: Msg, id: nat)
    requires GoodId(s, id)
    ensures GoodId(s.(replies := s.replies - multiset{m}), id)
  {
    LeftAlone(s, s.(replies := s.replies - multiset{m}), id);
  }

  lemma DuplicateKeepsId(s: System, w: nat, m: Msg, later: int, send: Sender, id: nat)
    requires TidyTables(s.tables) && GoodId(s, id) && w in s.tables
    ensures GoodId(ScanWorker(PutTable(s, w, AcknowledgeDuplicate(s.tables[w], m).tasks), w, Controls, later, send), id)
  {
    var t := AcknowledgeDuplicate(s.tables[w], m).tasks;
    AcknowledgeKeepsId(s, w, m, id);
    AnsweredIsTidy(s.tables[w], m, 0);
    TableChangeIsTidy(s.tables, w, t);
    ScanKeepsId(PutTable(s, w, t), w, Controls, later, send, id);
  }

  lemma ResultKeepsId(s: System, w: nat, m: Msg, readable: bool, now: int, later: int, send: Sender, id: nat)
    requires TidyTables(s.tables) && GoodId(s, id) && id != 0
    requires Enabled(s, DeliverResult(w, m, readable, now, later, send))
    ensures GoodId(ResultAt(s, w, m, readable, now, later, send), id)
  {
    var s' := s.(replies := s.replies - multiset{m});
    FewerRepliesKeepId(s, m, id);
    if readable && m.taskId == 0 {
      LeftAlone(s', s'.(applied := s'.applied + multiset{m}), id);
    } else if readable && Complete(s.tables[w], m, now).ok {
      CompleteKeepsId(s, w, m, now, id);
    } else if readable {
      DuplicateKeepsId(s', w, m, later, send, id);
    }
  }

  lemma CompleteKeepsId(s: System, w: nat, m: Msg, now: int, id: nat)
    requires GoodId(s, id) && w in s.tables && m in s.replies && IsResult(m) && Complete(s.tables[w], m, now).ok
    ensures GoodId(PutTable(s, w, Complete(s.tables[w], m, now).tasks).(
                     applied := s.applied + multiset{m}, replies := s.replies - multiset{m}), id)
  {
    var s1 := PutTable(s, w, Complete(s.tables[w], m, now).tasks).(applied := s.applied + multiset{m});
    if id == m.taskId {
      CompleteKeepsOwn(s, w, m, now);
    } else {
      CompleteLeavesOthers(s, w, m, now, id);
      LeftAlone(s, s1, id);
    }
    FewerRepliesKeepId(s1, m, id);
  }

  // Keys and notices.

  predicate AtChannel(step: Step) {
    step.MakeRoom? || step.Admit? || step.FinishTask? || step.TakeControl? || step.FlushResults?
  }

  lemma ScannedIsTidy(t: Table, scan: Scan, now: int, send: Sender)
    requires TidyTable(t)
    ensures TidyTable(Scanned(scan, t, now, send))
  {
  }

  lemma SubmittedIsTidy(t: Table, message: Msg, spare: nat, now: int, send: Sender, order: seq<nat>)
    requires TidyTable(t) && Numbered(message, spare).taskId != 0
    ensures TidyTable(Submit(t, message, spare, now, send, order).tasks)
  {
  }

  lemma AnsweredIsTidy(t: Table, m: Msg, now: int)
    requires TidyTable(t)
    ensures TidyTable(Complete(t, m, now).tasks) && TidyTable(AcknowledgeDuplicate(t, m).tasks) && TidyTable(ObserveStatus(t, m).tasks)
  {
  }

  lemma TableChangeIsTidy(tables: map<nat, Table>, w: nat, t: Table)
    requires TidyTables(tables) && TidyTable(t)
    ensures TidyTables(tables[w := t])
  {
  }

  lemma SubmitAtIsTidy(s: System, w: nat, message: Msg, spare: nat, now: int, send: Sender, order: seq<nat>)
    requires TidyTables(s.tables) && w in s.tables && Numbered(message, spare).taskId != 0
    ensures TidyTables(SubmitAt(s, w, message, spare, now, send, order).tables)
    ensures SubmitAt(s, w, message, spare, now, send, order).ledgers == s.ledgers
  {
    SubmittedIsTidy(s.tables[w], message, spare, now, send, order);
    TableChangeIsTidy(s.tables, w, Submit(s.tables[w], message, spare, now, send, order).tasks);
  }

  lemma ScanWorkerIsTidy(s: System, w: nat, scan: Scan, now: int, send: Sender)
    requires TidyTables(s.tables) && w in s.tables
    ensures TidyTables(ScanWorker(s, w, scan, now, send).tables)
    ensures ScanWorker(s, w, scan, now, send).ledgers == s.ledgers
  {
    ScannedIsTidy(s.tables[w], scan, now, send);
    TableChangeIsTidy(s.tables, w, Scanned(scan, s.tables[w], now, send));
  }

  lemma ResultAtIsTidy(s: System, w: nat, m: Msg, readable: bool, now: int, later: int, send: Sender)
    requires TidyTables(s.tables) && w in s.tables
    ensures TidyTables(ResultAt(s, w, m, readable, now, later, send).tables)
    ensures ResultAt(s, w, m, readable, now, later, send).ledgers == s.ledgers
  {
    AnsweredIsTidy(s.tables[w], m, now);
    TableChangeIsTidy(s.tables, w, Complete(s.tables[w], m, now).tasks);
    var t := AcknowledgeDuplicate(s.tables[w], m).tasks;
    TableChangeIsTidy(s.tables, w, t);
    ScanWorkerIsTidy(PutTable(s.(replies := s.replies - multiset{m}), w, t), w, Controls, later, send);
  }

  lemma WorkerStepIsTidy(s: System, step: Step)
    requires TidyTables(s.tables) && Enabled(s, step) && !AtChannel(step)
    ensures TidyTables(Next(s, step).tables) && Next(s, step).ledgers == s.ledgers
  {
    match step
    case SubmitTask(w, message, spare, now, send, order) => SubmitAtIsTidy(s, w, message, spare, now, send, order);
    case Maintain(w, scan, now, send) => ScanWorkerIsTidy(s, w, scan, now, send);
    case SendLegacy(m) =>
    case DeliverResult(w, m, readable, now, later, send) => ResultAtIsTidy(s, w, m, readable, now, later, send);
    case DeliverStatus(w, m) =>
      AnsweredIsTidy(s.tables[w], m, 0);
      TableChangeIsTidy(s.tables, w, ObserveStatus(s.tables[w], m).tasks);
  }

  lemma PickedIsQuiet(msgs: seq<Msg>, send: Sender)
    requires forall m :: m in msgs ==> Quiet(m)
    ensures forall m :: m in L.Picked(msgs, send, false) ==> Quiet(m)
  {
    forall m | m in L.Picked(msgs, send, false) ensures Quiet(m) {
      L.PickedIsQueued(msgs, send, false, m);
    }
  }

  lemma LedgerStaysTidy(l: L.Ledger, m: Msg, body: bytes)
    requires TidyLedger(l)
    ensures m.taskId == 0 || m.taskId !in l.entries ==> TidyLedger(Admitted(l, m, body))
    ensures m.taskId == 0 || m.taskId in l.entries ==> TidyLedger(L.Finish(l, m, Reply(m, body)))
    ensures TidyLedger(AfterControl(l, m))
  {
  }

  lemma FlushedIsTidy(l: L.Ledger, now: int, send: Sender, order: seq<nat>)
    requires TidyLedger(l)
    ensures TidyLedger(L.Flushed(l, now, send)) && TidyLedger(L.HasCapacity(l, order).0)
  {
    PickedIsQuiet(l.legacy, send);
  }

  lemma LedgerChangeIsTidy(ledgers: map<Channel, L.Ledger>, ch: Channel, l: L.Ledger)
    requires TidyLedgers(ledgers) && TidyLedger(l)
    ensures TidyLedgers(ledgers[ch := l])
  {
  }

  lemma ChannelStepIsTidy(s: System, step: Step)
    requires TidyLedgers(s.ledgers) && Enabled(s, step) && AtChannel(step)
    requires step.Admit? && step.m.taskId != 0 ==> step.m.taskId !in s.ledgers[step.ch].entries
    ensures TidyLedgers(Next(s, step).ledgers) && Next(s, step).tables == s.tables
  {
    var l := s.ledgers[step.ch];
    match step
    case MakeRoom(ch, order) =>
      FlushedIsTidy(l, 0, m => Backpressure, order);
      LedgerChangeIsTidy(s.ledgers, ch, L.HasCapacity(l, order).0);
    case Admit(ch, m, notice) =>
      LedgerStaysTidy(l, m, notice);
      LedgerChangeIsTidy(s.ledgers, ch, Admitted(l, m, notice));
    case FinishTask(ch, m, body) =>
      LedgerStaysTidy(l, m, body);
      if m.taskId == 0 || m.taskId in l.entries { LedgerChangeIsTidy(s.ledgers, ch, L.Finish(l, m, Reply(m, body))); }
    case TakeControl(ch, m) =>
      LedgerStaysTidy(l, m, []);
      LedgerChangeIsTidy(s.ledgers, ch, AfterControl(l, m));
    case FlushResults(ch, order, now, send) =>
      FlushedIsTidy(l, now, send, order);
      LedgerChangeIsTidy(s.ledgers, ch, L.Flushed(l, now, send));
  }

  lemma WorkerStepKeepsId(s: System, step: Step, id: nat)
    requires Good(s) && GoodId(s, id) && Enabled(s, step) && id != 0 && !AtChannel(step)
    ensures GoodId(Next(s, step), id)
  {
    match step
    case SubmitTask(w, message, spare, now, send, order) => SubmitKeepsId(s, w, message, spare, now, send, order, id);
    case Maintain(w, scan, now, send) => ScanKeepsId(s, w, scan, now, send, id);
    case SendLegacy(m) => LeftAlone(s, Next(s, step), id);
    case DeliverResult(w, m, readable, now, later, send) => ResultKeepsId(s, w, m, readable, now, later, send, id);
    case DeliverStatus(w, m) =>
      ObserveKeepsId(s, w, m, id);
      FewerRepliesKeepId(PutTable(s, w, ObserveStatus(s.tables[w], m).tasks), m, id);
  }

  lemma ChannelStepKeepsId(s: System, step: Step, id: nat)
    requires Good(s) && GoodId(s, id) && Enabled(s, step) && id != 0 && AtChannel(step)
    ensures GoodId(Next(s, step), id)
  {
    match step
    case MakeRoom(ch, order) => MakeRoomKeepsId(s, ch, order, id);
    case Admit(ch, m, notice) => AdmitKeepsId(s, ch, m, notice, id);
    case FinishTask(ch, m, body) => FinishKeepsId(s, ch, m, body, id);
    case TakeControl(ch, m) => ControlKeepsId(s, ch, m, id);
    case FlushResults(ch, order, now, send) => FlushKeepsId(s, ch, order, now, send, id);
  }

  lemma AdmitKeepsId(s: System, ch: Channel, m: Msg, notice: bytes, id: nat)
    requires GoodId(s, id) && Enabled(s, Admit(ch, m, notice)) && id != 0
    ensures GoodId(AdmitAt(s, ch, m, notice), id)
  {
    if id == m.taskId {
      AdmitKeepsOwn(s, ch, m, notice);
    } else {
      AdmitLeavesOthers(s, ch, m, notice, id);
      LeftAlone(s, AdmitAt(s, ch, m, notice), id);
    }
  }

  lemma FinishKeepsId(s: System, ch: Channel, m: Msg, body: bytes, id: nat)
    requires Good(s) && Enabled(s, FinishTask(ch, m, body)) && id != 0
    ensures GoodId(Next(s, FinishTask(ch, m, body)), id)
  {
    if m.taskId != 0 { RunningHasEntry(s, ch, m); }
    if id == m.taskId {
      FinishKeepsOwn(s, ch, m, body);
    } else {
      assert GoodId(s, id);
      FinishLeavesOthers(s, ch, m, body, id);
      LeftAlone(s, FinishAt(s, ch, m, body), id);
    }
  }

  /** Every step keeps the protocol invariant. */
  lemma StepKeepsGood(s: System, step: Step)
    requires Good(s) && Enabled(s, step)
    ensures Good(Next(s, step))
  {
    if AtChannel(step) {
      if step.Admit? && step.m.taskId != 0 { AdmissionIsNew(s, step.ch, step.m); }
      ChannelStepIsTidy(s, step);
    } else {
      WorkerStepIsTidy(s, step);
    }
    forall id: nat | id != 0 ensures GoodId(Next(s, step), id) {
      assert GoodId(s, id);
      if AtChannel(step) { ChannelStepKeepsId(s, step, id); } else { WorkerStepKeepsId(s, step, id); }
    }
  }

  ghost predicate LegalRun(s: System, steps: seq<Step>)
    decreases |steps|
  {
    steps == [] || (Enabled(s, steps[0]) && LegalRun(Next(s, steps[0]), steps[1..]))
  }

  function Run(s: System, steps: seq<Step>): System
    decreases |steps|
  {
    if steps == [] then s else Run(Next(s, steps[0]), steps[1..])
  }

  lemma {:induction false} RunKeepsGood(s: System, steps: seq<Step>)
    requires Good(s) && LegalRun(s, steps)
    ensures Good(Run(s, steps))
    decreases |steps|
  {
    if steps != [] {
      StepKeepsGood(s, steps[0]);
      RunKeepsGood(Next(s, steps[0]), steps[1..]);
    }
  }

  /** Workers and channels before the first task. */
  predicate Fresh(s: System) {
    && (forall w <- s.tables :: s.tables[w] == map[])
    && (forall ch <- s.ledgers :: s.ledgers[ch].entries == map[] && s.ledgers[ch].legacy == [])
    && s.requests == s.controls == s.replies == s.running == s.entered == s.applied == multiset{}
    && s.issued == map[] && s.executed == map[]
  }

  lemma FreshIsGood(s: System)
    requires Fresh(s)
    ensures Good(s)
  {
  }

  /** Delivery safety over every interleaving. Under each task id at most one message ever enters a
      database queue and it is the request that was registered; at most one result is acted upon, once,
      and it is the result that was produced for that very request. */
  lemma AtMostOnceFromTheExactRequest(s: System, steps: seq<Step>, id: nat)
    requires Fresh(s) && LegalRun(s, steps) && id != 0
    ensures var e := Run(s, steps);
            && (forall m :: m in e.entered && m.taskId == id ==>
                  id in e.issued && m == e.issued[id].request && e.entered[m] == 1)
            && (forall m :: m in e.applied && m.taskId == id ==>
                  && id in e.issued && id in e.executed && e.applied[m] == 1
                  && m == e.executed[id] == Reply(e.issued[id].request, m.body))
  {
    FreshIsGood(s);
    RunKeepsGood(s, steps);
    assert GoodId(Run(s, steps), id);
  }

  /** A result is produced at most once per id, and the finished request's entry is always still there. */
  lemma FinishIsFirst(s: System, steps: seq<Step>, ch: Channel, m: Msg, body: bytes)
    requires Fresh(s) && LegalRun(s, steps) && m.taskId != 0
    requires Enabled(Run(s, steps), FinishTask(ch, m, body))
    ensures var e := Run(s, steps);
            && m.taskId in e.ledgers[ch].entries && m.taskId !in e.executed
            && m.taskId in e.issued && m == e.issued[m.taskId].request
  {
    FreshIsGood(s);
    RunKeepsGood(s, steps);
    RunningHasEntry(Run(s, steps), ch, m);
  }

  /** A full ledger only forgets an entry whose result the worker has already acted upon. */
  lemma ForgottenOnlyWhenApplied(s: System, steps: seq<Step>, ch: Channel, order: seq<nat>, id: nat)
    requires Fresh(s) && LegalRun(s, steps) && Enabled(Run(s, steps), MakeRoom(ch, order))
    requires var e := Run(s, steps); id in e.ledgers[ch].entries && id !in Next(e, MakeRoom(ch, order)).ledgers[ch].entries
    ensures Applied(Run(s, steps), id)
  {
    FreshIsGood(s);
    RunKeepsGood(s, steps);
    var e := Run(s, steps);
    L.FirstAcknowledgedIs(e.ledgers[ch].entries, order);
    assert GoodId(e, id);
  }
}
