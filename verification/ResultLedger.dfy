/** The mutable result ledger of one database channel. */
module ResultLedger {
  import opened TaskDelivery
  import opened ResultLedgerSpec

  class DbResultLedger {
    var entries: Entries
    var legacy: seq<Msg>
    const capacity: nat

    ghost function Model(): Ledger
      reads this
    {
      Ledger(entries, legacy, capacity)
    }

    constructor (limit: nat)
      ensures Model() == Ledger(map[], [], limit)
    {
      entries, legacy, capacity := map[], [], limit;
    }

    method HasCapacity(order: seq<nat>) returns (ok: bool)
      requires Lists(order, entries)
      modifies `entries
      ensures (Model(), ok) == ResultLedgerSpec.HasCapacity(old(Model()), order)
    {
      if |entries| + |legacy| < capacity { return true; }
      var i := 0;
      while i < |order|
        invariant i <= |order|
        invariant FirstAcknowledged(entries, order) == FirstAcknowledged(entries, order[i..])
      {
        if entries[order[i]].acknowledged {
          entries := entries - {order[i]};
          return true;
        }
        i := i + 1;
      }
      return false;
    }

    method Accept(m: Msg) returns (a: Admission)
      modifies `entries
      ensures (Model(), a) == ResultLedgerSpec.Accept(old(Model()), m)
    {
      if m.taskId == 0 { return New; }
      if m.taskId !in entries {
        entries := entries[m.taskId := Entry(m, NO_MSG, false, false, false, 0)];
        return New;
      }
      if !Same(entries[m.taskId].request, m) { return Conflict; }
      if entries[m.taskId].ready { entries := entries[m.taskId := Reopened(entries[m.taskId])]; }
      return Duplicate;
    }

    method QueueNotice(notice: Msg) returns (ok: bool)
      modifies `legacy
      ensures (Model(), ok) == ResultLedgerSpec.QueueNotice(old(Model()), notice)
    {
      if |entries| + |legacy| >= capacity { return false; }
      legacy := legacy + [notice];
      return true;
    }

    method Finish(request: Msg, result: Msg)
      requires request.taskId == 0 || request.taskId in entries
      modifies `entries, `legacy
      ensures Model() == ResultLedgerSpec.Finish(old(Model()), request, result)
    {
      if request.taskId == 0 {
        legacy := legacy + [result];
        return;
      }
      entries := entries[request.taskId := entries[request.taskId].(result := result, ready := true, delivered := false)];
    }

    method HandleControl(m: Msg) returns (found: bool)
      modifies `entries
      ensures (Model(), found) == ResultLedgerSpec.HandleControl(old(Model()), m)
    {
      if !IsControl(m) || m.taskId !in entries { return false; }
      if !Same(entries[m.taskId].request, Requested(m)) { return false; }
      if m.control == 1 && entries[m.taskId].ready {
        entries := entries[m.taskId := entries[m.taskId].(acknowledged := true)];
        return true;
      }
      if m.control == 2 {
        entries := entries[m.taskId := Reopened(entries[m.taskId])];
        return true;
      }
      return false;
    }

    /** Offers every owed result and every notice to the worker queues. */
    method Flush(order: seq<nat>, now: int, send: Sender) returns (sent: seq<Msg>)
      requires Lists(order, entries)
      modifies `entries, `legacy
      ensures Model() == Flushed(old(Model()), now, send)
      ensures sent == Taken(old(entries), order, now, send) + Picked(old(legacy), send, true)
    {
      var results := FlushEntries(order, now, send);
      var notices := FlushLegacy(send);
      return results + notices;
    }

    method FlushLegacy(send: Sender) returns (sent: seq<Msg>)
      modifies `legacy
      ensures legacy == Picked(old(legacy), send, false)
      ensures sent == Picked(old(legacy), send, true)
    {
      var all, left, i := legacy, [], 0;
      sent := [];
      while i < |all|
        invariant i <= |all|
        invariant left == Picked(all[..i], send, false)
        invariant sent == Picked(all[..i], send, true)
      {
        assert all[..i + 1] == all[..i] + [all[i]];
        PickedGrows(all[..i], all[i], send, false);
        PickedGrows(all[..i], all[i], send, true);
        if send(all[i]) == Accepted { sent := sent + [all[i]]; } else { left := left + [all[i]]; }
        i := i + 1;
      }
      assert all[..i] == all;
      legacy := left;
    }

    method FlushEntries(order: seq<nat>, now: int, send: Sender) returns (sent: seq<Msg>)
      requires Lists(order, entries)
      modifies `entries
      ensures entries == SentEntries(old(entries), now, send)
      ensures sent == Taken(old(entries), order, now, send)
    {
      ghost var was := entries;
      sent := [];
      var i := 0;
      while i < |order|
        invariant i <= |order|
        invariant entries == PartSent(was, order[..i], now, send)
        invariant sent == Taken(was, order[..i], now, send)
      {
        NextIsNew(order, was, i);
        TakenGrows(was, order[..i], order[i], now, send);
        SendOne(was, order[..i], order[i], now, send);
        var e := entries[order[i]];
        if Owed(e, now) && send(e.result) == Accepted { sent := sent + [e.result]; }
        entries := entries[order[i] := Sent(e, now, send)];
        i := i + 1;
      }
      assert order[..i] == order;
      AllSent(order, was, now, send);
    }
  }
}
