/** The bounded retry queue of a database channel. */
module TransactionRetries {
  import opened DbValue
  import opened Database
  import opened Transactions
  import opened SaveTheorems

  const CAPACITY: nat := 1024
  const MAX_ATTEMPTS: nat := 3
  const BUDGET: nat := 16

  datatype Entry = Entry(id: nat, task: DbTask, attempts: nat, nextAt: int)

  /** The queue, the tables its tasks run against, and the history of runs, commits and completions by request id. */
  datatype Lane = Lane(entries: seq<Entry>, db: Db, runs: multiset<nat>, commits: multiset<nat>, completed: seq<(nat, DbResult)>)

  function Pow2(n: nat): nat { if n == 0 then 1 else 2 * Pow2(n - 1) }

  predicate MayRetry(entries: seq<Entry>, task: DbTask, r: DbResult, attempts: nat) {
    && (task.kind == 4 || task.kind == 5) && r.class_ == Retryable
    && 0 < attempts < MAX_ATTEMPTS && |entries| < CAPACITY
  }

  function Scheduled(id: nat, task: DbTask, attempts: nat, now: int): Entry
    requires attempts > 0
  {
    Entry(id, task, attempts, now + 100 * Pow2(attempts - 1))
  }

  /** One run of a task: executed, then either queued again or completed. */
  function RunOnce(l: Lane, id: nat, task: DbTask, attempts: nat, now: int, w: Weather): Lane {
    var o := Execute(task, l.db, w);
    var l' := l.(db := o.db, runs := l.runs + multiset{id}, commits := if o.committed then l.commits + multiset{id} else l.commits);
    if MayRetry(l.entries, task, o.result, attempts) then l'.(entries := l.entries + [Scheduled(id, task, attempts, now)])
    else l'.(completed := l.completed + [(id, o.result)])
  }

  function Rerun(l: Lane, i: nat, now: int, w: Weather): Lane
    requires i < |l.entries|
  {
    var e := l.entries[i];
    RunOnce(l.(entries := l.entries[..i] + l.entries[i + 1..]), e.id, e.task, e.attempts + 1, now, w)
  }

  /** The scan: due entries are taken out and run, and after each the scan starts over. */
  function Ticked(l: Lane, i: nat, budget: nat, now: int, ws: nat -> Weather): Lane
    decreases budget, |l.entries| - i
  {
    if i >= |l.entries| || budget == 0 then l
    else if now < l.entries[i].nextAt then Ticked(l, i + 1, budget, now, ws)
    else Ticked(Rerun(l, i, now, ws(budget)), 0, budget - 1, now, ws)
  }

  class RetryQueue {
    var entries: seq<Entry>
    var db: Db
    var completed: seq<(nat, DbResult)>
    ghost var runs: multiset<nat>
    ghost var commits: multiset<nat>

    ghost function Model(): Lane
      reads this
    {
      Lane(entries, db, runs, commits, completed)
    }

    constructor (tables: Db)
      ensures Model() == Lane([], tables, multiset{}, multiset{}, [])
    {
      entries, db, completed, runs, commits := [], tables, [], multiset{}, multiset{};
    }

    method Schedule(id: nat, task: DbTask, r: DbResult, attempts: nat, now: int) returns (ok: bool)
      modifies `entries
      ensures ok <==> (task.kind == 4 || task.kind == 5) && r.class_ == Retryable && 1 <= attempts <= 2 && |old(entries)| < 1024
      ensures ok == MayRetry(old(entries), task, r, attempts)
      ensures entries == if ok then old(entries) + [Scheduled(id, task, attempts, now)] else old(entries)
    {
      if (task.kind != 4 && task.kind != 5) || r.class_ != Retryable || attempts == 0 || attempts >= MAX_ATTEMPTS
         || |entries| >= CAPACITY { return false; }
      entries := entries + [Scheduled(id, task, attempts, now)];
      return true;
    }

    /** Runs a task on a connection; a final result is handed on, a retryable one waits. */
    method RunTask(id: nat, task: DbTask, attempts: nat, now: int, w: Weather)
      modifies this
      ensures Model() == RunOnce(old(Model()), id, task, attempts, now, w)
    {
      var connection := new Backend(db, w);
      var r := connection.Run(task);
      ghost var o := Execute(task, db, w);
      db := connection.db;
      runs := runs + multiset{id};
      commits := if o.committed then commits + multiset{id} else commits;
      var queued := Schedule(id, task, r, attempts, now);
      if !queued { completed := completed + [(id, r)]; }
    }

    method Tick(now: int, ws: nat -> Weather)
      modifies this
      ensures Model() == Ticked(old(Model()), 0, BUDGET, now, ws)
    {
      var budget, i := BUDGET, 0;
      while i < |entries| && budget > 0
        invariant Ticked(old(Model()), 0, BUDGET, now, ws) == Ticked(Model(), i, budget, now, ws)
        decreases budget, |entries| - i
      {
        if now < entries[i].nextAt {
          i := i + 1;
        } else {
          RunEntry(i, now, ws(budget));
          budget, i := budget - 1, 0;
        }
      }
    }

    /** Takes an entry out of the queue and runs its task once more. */
    method RunEntry(i: nat, now: int, w: Weather)
      requires i < |entries|
      modifies this
      ensures Model() == Rerun(old(Model()), i, now, w)
    {
      var e := entries[i];
      entries := entries[..i] + entries[i + 1..];
      RunTask(e.id, e.task, e.attempts + 1, now, w);
    }
  }

  // What the queue guarantees.

  function Waiting(entries: seq<Entry>): multiset<nat> {
    multiset(seq(|entries|, i requires 0 <= i < |entries| => entries[i].id))
  }

  function Finished(completed: seq<(nat, DbResult)>): multiset<nat> {
    multiset(seq(|completed|, i requires 0 <= i < |completed| => completed[i].0))
  }

  /** Under each id: at most three runs and one commit; once started, the request is in exactly one
      place, waiting or completed; and a waiting request has committed nothing. */
  predicate GoodId(l: Lane, id: nat) {
    && l.runs[id] <= MAX_ATTEMPTS && l.commits[id] <= 1
    && Waiting(l.entries)[id] + Finished(l.completed)[id] == (if l.runs[id] > 0 then 1 else 0)
    && (Waiting(l.entries)[id] > 0 ==> l.commits[id] == 0)
    && l.commits[id] <= l.runs[id]
  }

  predicate EntryOk(e: Entry, runs: multiset<nat>) {
    e.attempts == runs[e.id] && 1 <= e.attempts < MAX_ATTEMPTS
  }

  ghost predicate Good(l: Lane) {
    && (forall i :: 0 <= i < |l.entries| ==> EntryOk(l.entries[i], l.runs))
    && forall id: nat :: GoodId(l, id)
  }

  lemma WaitingGrows(entries: seq<Entry>, e: Entry)
    ensures Waiting(entries + [e]) == Waiting(entries) + multiset{e.id}
  {
    var f := (s: seq<Entry>) => seq(|s|, i requires 0 <= i < |s| => s[i].id);
    assert f(entries + [e]) == f(entries) + [e.id];
  }

  lemma WaitingShrinks(entries: seq<Entry>, i: nat)
    requires i < |entries|
    ensures Waiting(entries) == Waiting(entries[..i] + entries[i + 1..]) + multiset{entries[i].id}
  {
    var f := (s: seq<Entry>) => seq(|s|, i requires 0 <= i < |s| => s[i].id);
    assert f(entries) == f(entries[..i]) + [entries[i].id] + f(entries[i + 1..]);
    assert f(entries[..i] + entries[i + 1..]) == f(entries[..i]) + f(entries[i + 1..]);
  }

  lemma FinishedGrows(completed: seq<(nat, DbResult)>, id: nat, r: DbResult)
    ensures Finished(completed + [(id, r)]) == Finished(completed) + multiset{id}
  {
    var f := (s: seq<(nat, DbResult)>) => seq(|s|, i requires 0 <= i < |s| => s[i].0);
    assert f(completed + [(id, r)]) == f(completed) + [id];
  }

  lemma WaitingHas(entries: seq<Entry>, i: nat)
    requires i < |entries|
    ensures Waiting(entries)[entries[i].id] > 0
  {
    WaitingShrinks(entries, i);
  }

  /** Running a request that is not waiting and has committed nothing keeps the books straight. */
  lemma RunOnceKeeps(l: Lane, id: nat, task: DbTask, attempts: nat, now: int, w: Weather)
    requires Honest(w) && attempts == l.runs[id] + 1 <= MAX_ATTEMPTS
    requires l.commits[id] == 0 && Waiting(l.entries)[id] + Finished(l.completed)[id] == 0
    requires forall i :: 0 <= i < |l.entries| ==> EntryOk(l.entries[i], l.runs)
    requires forall k: nat :: k != id ==> GoodId(l, k)
    ensures Good(RunOnce(l, id, task, attempts, now, w))
  {
    AllOrNothing(task, l.db, w);
    var o := Execute(task, l.db, w);
    FinishedGrows(l.completed, id, o.result);
    WaitingGrows(l.entries, Scheduled(id, task, attempts, now));
    forall i | 0 <= i < |l.entries| ensures l.entries[i].id != id { WaitingHas(l.entries, i); }
    forall k: nat ensures GoodId(RunOnce(l, id, task, attempts, now, w), k) {
      if k != id { assert GoodId(l, k); }
    }
  }

  /** A first run, of an id never seen. */
  lemma StartKeeps(l: Lane, id: nat, task: DbTask, now: int, w: Weather)
    requires Good(l) && Honest(w) && l.runs[id] == 0
    ensures Good(RunOnce(l, id, task, 1, now, w))
  {
    assert GoodId(l, id);
    RunOnceKeeps(l, id, task, 1, now, w);
  }

  lemma RerunKeeps(l: Lane, i: nat, now: int, w: Weather)
    requires Good(l) && Honest(w) && i < |l.entries|
    ensures Good(Rerun(l, i, now, w))
  {
    var e := l.entries[i];
    var l' := l.(entries := l.entries[..i] + l.entries[i + 1..]);
    WaitingShrinks(l.entries, i);
    assert GoodId(l, e.id);
    forall k: nat | k != e.id ensures GoodId(l', k) { assert GoodId(l, k); }
    RunOnceKeeps(l', e.id, e.task, e.attempts + 1, now, w);
  }

  lemma {:induction false} TickKeeps(l: Lane, i: nat, budget: nat, now: int, ws: nat -> Weather)
    requires Good(l) && forall k: nat :: Honest(ws(k))
    ensures Good(Ticked(l, i, budget, now, ws))
    decreases budget, |l.entries| - i
  {
    if i >= |l.entries| || budget == 0 {
    } else if now < l.entries[i].nextAt {
      TickKeeps(l, i + 1, budget, now, ws);
    } else {
      RerunKeeps(l, i, now, ws(budget));
      TickKeeps(Rerun(l, i, now, ws(budget)), 0, budget - 1, now, ws);
    }
  }

  datatype Op = Start(id: nat, task: DbTask, now: int, w: Weather) | TickAt(now: int, ws: nat -> Weather)

  function Step(l: Lane, op: Op): Lane {
    match op
    case Start(id, task, now, w) => RunOnce(l, id, task, 1, now, w)
    case TickAt(now, ws) => Ticked(l, 0, BUDGET, now, ws)
  }

  ghost predicate Legal(l: Lane, ops: seq<Op>)
    decreases |ops|
  {
    ops == [] ||
    ((match ops[0] case Start(id, _, _, w) => Honest(w) && l.runs[id] == 0 case TickAt(_, ws) => forall k: nat :: Honest(ws(k)))
     && Legal(Step(l, ops[0]), ops[1..]))
  }

  function RunAll(l: Lane, ops: seq<Op>): Lane
    decreases |ops|
  {
    if ops == [] then l else RunAll(Step(l, ops[0]), ops[1..])
  }

  lemma {:induction false} RunKeepsGood(l: Lane, ops: seq<Op>)
    requires Good(l) && Legal(l, ops)
    ensures Good(RunAll(l, ops))
    decreases |ops|
  {
    if ops != [] {
      match ops[0] {
        case Start(id, task, now, w) => StartKeeps(l, id, task, now, w);
        case TickAt(now, ws) => TickKeeps(l, 0, BUDGET, now, ws);
      }
      RunKeepsGood(Step(l, ops[0]), ops[1..]);
    }
  }

  function Empty(db: Db): Lane { Lane([], db, multiset{}, multiset{}, []) }

  lemma EmptyIsGood(db: Db)
    ensures Good(Empty(db))
  {
  }

  /** Over every schedule of new tasks and ticks, from the empty queue on: a request runs at most three
      times and commits at most once, never while it still waits; and it is never lost or completed
      twice: it is in exactly one place, waiting or completed, exactly when it has run. */
  lemma RetriesAreBounded(db: Db, ops: seq<Op>, id: nat)
    requires Legal(Empty(db), ops)
    ensures var l := RunAll(Empty(db), ops);
            && l.runs[id] <= MAX_ATTEMPTS && l.commits[id] <= 1
            && Waiting(l.entries)[id] + Finished(l.completed)[id] == (if l.runs[id] > 0 then 1 else 0)
            && (Waiting(l.entries)[id] > 0 ==> l.commits[id] == 0)
  {
    EmptyIsGood(db);
    RunKeepsGood(Empty(db), ops);
    assert GoodId(RunAll(Empty(db), ops), id);
  }
}
