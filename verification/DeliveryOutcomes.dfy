/** What a step of the delivery protocol says to the other side: conflicts, states and results. */
module DeliveryOutcomes {
  import opened Common
  import opened TaskDelivery
  import opened DeliveryProtocol
  import P = LedgerProgress
  import L = ResultLedgerSpec

  function Room(l: L.Ledger): bool { |l.entries| + |l.legacy| < l.capacity }

  /** Everything but the queues named and one ledger stays. */
  ghost predicate OnlyLedger(s: System, s': System, ch: Channel) {
    && s'.tables == s.tables && s'.ledgers.Keys == s.ledgers.Keys && s'.issued == s.issued && s'.entered == s.entered && s'.applied == s.applied
    && forall c <- s.ledgers :: c != ch ==> s'.ledgers[c] == s.ledgers[c]
  }

  /** The ledger has an entry under the message's id for another request. */
  predicate Clashes(l: L.Ledger, m: Msg) { m.taskId != 0 && m.taskId in l.entries && !P.IsAbout(m, l.entries[m.taskId].request) }

  lemma AdmittedIs(l: L.Ledger, m: Msg, notice: bytes)
    requires forall id <- l.entries :: l.entries[id].request.taskId == id
    ensures Admitted(l, m, notice).legacy == l.legacy + if Clashes(l, m) && Room(l) then [Reply(m, notice)] else []
    ensures L.Accept(l, m).1 == L.New <==> m.taskId == 0 || m.taskId !in l.entries
  {
    assert l.legacy + [] == l.legacy;
  }

  /** A request taken from its queue runs exactly when its id is new to the ledger or it has none; a clash of ids is
      answered with a notice under that id if there is room for one, and nothing else is. */
  lemma AdmitOutcome(s: System, ch: Channel, m: Msg, notice: bytes)
    requires Enabled(s, Admit(ch, m, notice)) && forall id <- s.ledgers[ch].entries :: s.ledgers[ch].entries[id].request.taskId == id
    ensures var s', l := Next(s, Admit(ch, m, notice)), s.ledgers[ch];
            && OnlyLedger(s, s', ch) && s'.requests == s.requests - multiset{m} && s'.controls == s.controls && s'.replies == s.replies
            && s'.executed == s.executed
            && s'.running == s.running + (if m.taskId == 0 || m.taskId !in l.entries then multiset{m} else multiset{})
            && s'.ledgers[ch].legacy == l.legacy + if Clashes(l, m) && Room(l) then [Reply(m, notice)] else []
  {
    AdmittedIs(s.ledgers[ch], m, notice);
  }

  /** The state of a request as the ledger knows it: 0 unknown, 1 not finished, 2 finished. */
  function StateOf(l: L.Ledger, m: Msg): byte {
    if m.taskId in l.entries && P.Controls(m, l.entries[m.taskId].request) then (if l.entries[m.taskId].ready then 2 else 1) else 0
  }

  lemma HandledKeys(l: L.Ledger, m: Msg)
    ensures L.HandleControl(l, m).0.entries.Keys == l.entries.Keys && |L.HandleControl(l, m).0.entries| == |l.entries|
    ensures L.HandleControl(l, m).0.legacy == l.legacy && L.HandleControl(l, m).0.capacity == l.capacity
  {
    assert L.HandleControl(l, m).0.entries.Keys == l.entries.Keys;
    assert |l.entries.Keys| == |l.entries| && |L.HandleControl(l, m).0.entries.Keys| == |L.HandleControl(l, m).0.entries|;
  }

  lemma AfterControlIs(l: L.Ledger, m: Msg)
    requires IsControl(m) && forall id <- l.entries :: l.entries[id].request.taskId == id
    ensures AfterControl(l, m).entries.Keys == l.entries.Keys
    ensures AfterControl(l, m).legacy == l.legacy + if m.control == 2 && Room(l) then [m.(kind := StatusNotice, body := [StateOf(l, m)])] else []
  {
    HandledKeys(l, m);
    assert l.legacy + [] == l.legacy;
  }

  /** A status query is answered, if there is room, with a notice that repeats it and gives the state of the request; an
      acknowledgement is answered by nothing. Both are used up. */
  lemma ControlOutcome(s: System, ch: Channel, m: Msg)
    requires Enabled(s, TakeControl(ch, m)) && IsControl(m)
    requires forall id <- s.ledgers[ch].entries :: s.ledgers[ch].entries[id].request.taskId == id
    ensures var s', l := Next(s, TakeControl(ch, m)), s.ledgers[ch];
            && OnlyLedger(s, s', ch) && s'.controls == s.controls - multiset{m} && s'.requests == s.requests && s'.running == s.running
            && s'.replies == s.replies && s'.executed == s.executed && s'.ledgers[ch].entries.Keys == l.entries.Keys
            && s'.ledgers[ch].legacy == l.legacy + if m.control == 2 && Room(l) then [m.(kind := StatusNotice, body := [StateOf(l, m)])] else []
  {
    AfterControlIs(s.ledgers[ch], m);
  }

  /** An execution that ends leaves its reply with the ledger: under its id, or among the notices if it has none. */
  lemma FinishOutcome(s: System, ch: Channel, m: Msg, body: bytes)
    requires Enabled(s, FinishTask(ch, m, body)) && (m.taskId != 0 ==> m.taskId in s.ledgers[ch].entries)
    ensures var s', l := Next(s, FinishTask(ch, m, body)), s.ledgers[ch];
            && OnlyLedger(s, s', ch) && s'.running == s.running - multiset{m} && s'.requests == s.requests && s'.controls == s.controls
            && (if m.taskId == 0 then s'.ledgers[ch] == l.(legacy := l.legacy + [Reply(m, body)]) && s'.executed == s.executed
                else
                  && s'.ledgers[ch].entries[m.taskId].ready && s'.ledgers[ch].entries[m.taskId].result == Reply(m, body)
                  && s'.executed == s.executed[m.taskId := Reply(m, body)] && s'.ledgers[ch].legacy == l.legacy)
  {
  }

  /** The worker acts upon the message: it has no id, or it is the result an awaiting task of the worker's waits for. */
  predicate ActsUpon(s: System, w: nat, m: Msg)
    requires w in s.tables
  {
    m.taskId == 0 || (m.taskId in s.tables[w] && s.tables[w][m.taskId].state == AwaitResult && Answers(m, s.tables[w][m.taskId].request))
  }

  /** A result with an id that the worker awaits, and can read, is acted upon, once: it is used up and completes its task. */
  lemma AwaitedOutcome(s: System, w: nat, m: Msg, now: int, later: int, send: Sender)
    requires w in s.tables && m.taskId != 0 && ActsUpon(s, w, m)
    ensures var t := s.tables[w][m.taskId].(state := Completed, completedAt := now, result := m, ackPending := true, nextTryAt := 0);
            var after: Table := s.tables[w][m.taskId := t];
            ResultAt(s, w, m, true, now, later, send)
            == s.(replies := s.replies - multiset{m}, applied := s.applied + multiset{m}, tables := s.tables[w := after])
  {
    assert Complete(s.tables[w], m, now).ok;
  }

  /** One it does not await is used up, and not acted upon: it is looked up as a repeated one, and the worker's
      acknowledgements go out again. */
  lemma UnawaitedOutcome(s: System, w: nat, m: Msg, now: int, later: int, send: Sender)
    requires w in s.tables && m.taskId != 0 && !ActsUpon(s, w, m)
    ensures var known := AcknowledgeDuplicate(s.tables[w], m).tasks;
            ResultAt(s, w, m, true, now, later, send)
            == s.(replies := s.replies - multiset{m}, tables := s.tables[w := Scanned(Controls, known, later, send)],
                  controls := s.controls + Enqueued(Controls, known, later, send))
  {
    assert !Complete(s.tables[w], m, now).ok;
    var known := AcknowledgeDuplicate(s.tables[w], m).tasks;
    assert s.tables[w := known][w := Scanned(Controls, known, later, send)] == s.tables[w := Scanned(Controls, known, later, send)];
  }

  /** One that cannot be read is used up; one without an id is acted upon. */
  lemma OtherResultOutcome(s: System, w: nat, m: Msg, now: int, later: int, send: Sender)
    requires w in s.tables
    ensures ResultAt(s, w, m, false, now, later, send) == s.(replies := s.replies - multiset{m})
    ensures m.taskId == 0 ==>
              ResultAt(s, w, m, true, now, later, send) == s.(replies := s.replies - multiset{m}, applied := s.applied + multiset{m})
  {
  }
}
