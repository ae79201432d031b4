/** What the retry queue is bound to do: it runs what is due, a request at a time, reports what the runs
    said, and given ticks empties itself. */
module TransactionProgress {
  import opened Common
  import opened DbValue
  import opened Database
  import opened Transactions
  import opened TransactionRetries

  // ---- one run ---------------------------------------------------------------------------------------------

  /** A further attempt is worth it: the task is a transaction, nothing was committed for sure, and attempts are left. */
  predicate WorthRetrying(task: DbTask, r: DbResult, attempts: nat) {
    (task.kind == 4 || task.kind == 5) && r.class_ == Retryable && 1 <= attempts <= 2
  }

  /** The pause after an attempt: 100 ms after the first, 200 ms after the second. */
  function Pause(attempts: nat): int { if attempts == 1 then 100 else 200 }

  lemma PauseIs(id: nat, task: DbTask, attempts: nat, now: int)
    requires 1 <= attempts <= 2
    ensures Scheduled(id, task, attempts, now) == Entry(id, task, attempts, now + Pause(attempts))
  {
    assert Pow2(0) == 1 && Pow2(1) == 2;
  }

  lemma RunOutcome(l: Lane, id: nat, task: DbTask, attempts: nat, now: int, w: Weather)
    ensures var o, l' := Execute(task, l.db, w), RunOnce(l, id, task, attempts, now, w);
            && l'.db == o.db && l'.runs == l.runs + multiset{id} && l'.commits == l.commits + (if o.committed then multiset{id} else multiset{})
            && (if WorthRetrying(task, o.result, attempts) && |l.entries| < CAPACITY
                then l'.entries == l.entries + [Entry(id, task, attempts, now + Pause(attempts))] && l'.completed == l.completed
                else l'.entries == l.entries && l'.completed == l.completed + [(id, o.result)])
  {
    if 1 <= attempts <= 2 { PauseIs(id, task, attempts, now); }
  }

  // ---- the history of runs -----------------------------------------------------------------------------------

  /** One execution: of which request, from which tables, with which outcome. */
  datatype Exec = Exec(id: nat, task: DbTask, db: Db, outcome: Outcome)

  ghost predicate Genuine(x: Exec) { exists w: Weather :: Honest(w) && x.outcome == Execute(x.task, x.db, w) }

  function TablesAfter(db: Db, log: seq<Exec>): Db { if log == [] then db else log[|log| - 1].outcome.db }

  /** Executions one after the other, each from the tables the one before it left. */
  ghost predicate Serial(db: Db, log: seq<Exec>) {
    forall i {:trigger Genuine(log[i])} :: 0 <= i < |log| ==> Genuine(log[i]) && log[i].db == TablesAfter(db, log[..i])
  }

  function RunsIn(log: seq<Exec>, id: nat): nat
    decreases |log|
  {
    if log == [] then 0 else RunsIn(log[..|log| - 1], id) + if log[|log| - 1].id == id then 1 else 0
  }

  function CommitsIn(log: seq<Exec>, id: nat): nat
    decreases |log|
  {
    if log == [] then 0
    else CommitsIn(log[..|log| - 1], id) + if log[|log| - 1].id == id && log[|log| - 1].outcome.committed then 1 else 0
  }

  /** The last execution under an id. */
  function Last(log: seq<Exec>, id: nat): Option<Exec>
    decreases |log|
  {
    if log == [] then None
    else if log[|log| - 1].id == id then Some(log[|log| - 1])
    else Last(log[..|log| - 1], id)
  }

  lemma OneMoreExec(log: seq<Exec>, x: Exec, id: nat)
    ensures RunsIn(log + [x], id) == RunsIn(log, id) + (if x.id == id then 1 else 0)
    ensures CommitsIn(log + [x], id) == CommitsIn(log, id) + (if x.id == id && x.outcome.committed then 1 else 0)
    ensures Last(log + [x], id) == if x.id == id then Some(x) else Last(log, id)
  {
    assert (log + [x])[..|log|] == log;
  }

  lemma SerialGrows(db: Db, log: seq<Exec>, x: Exec)
    requires Serial(db, log) && Genuine(x) && x.db == TablesAfter(db, log)
    ensures Serial(db, log + [x])
  {
    var more := log + [x];
    forall i | 0 <= i < |more| ensures Genuine(more[i]) && more[i].db == TablesAfter(db, more[..i]) {
      assert more[..i] == log[..i];
      if i < |log| { assert Genuine(log[i]) && more[i] == log[i]; } else { assert log[..i] == log; }
    }
  }

  /** A waiting entry stands for a request whose last run was retryable. */
  ghost predicate WaitsFor(log: seq<Exec>, e: Entry) {
    var last := Last(log, e.id); last.Some? && last.value.task == e.task && last.value.outcome.result.class_ == Retryable
  }

  /** An answer is the result of the last run. */
  predicate Answers(log: seq<Exec>, c: (nat, DbResult)) {
    var last := Last(log, c.0); last.Some? && last.value.outcome.result == c.1
  }

  predicate CountsOf(log: seq<Exec>, l: Lane, id: nat) { l.runs[id] == RunsIn(log, id) && l.commits[id] == CommitsIn(log, id) }

  ghost predicate Tells(db: Db, log: seq<Exec>, l: Lane) {
    && Serial(db, log) && l.db == TablesAfter(db, log)
    && (forall id: nat :: CountsOf(log, l, id))
    && (forall i :: 0 <= i < |l.entries| ==> WaitsFor(log, l.entries[i]))
    && (forall i :: 0 <= i < |l.completed| ==> Answers(log, l.completed[i]))
  }

  lemma FinishedHas(completed: seq<(nat, DbResult)>, i: nat)
    requires i < |completed|
    ensures Finished(completed)[completed[i].0] > 0
  {
    var ids := seq(|completed|, j requires 0 <= j < |completed| => completed[j].0);
    assert ids[i] in multiset(ids);
  }

  lemma RunTells(db: Db, log: seq<Exec>, l: Lane, id: nat, task: DbTask, attempts: nat, now: int, w: Weather) returns (log': seq<Exec>)
    requires Tells(db, log, l) && Honest(w)
    requires forall i :: 0 <= i < |l.entries| ==> l.entries[i].id != id
    requires forall i :: 0 <= i < |l.completed| ==> l.completed[i].0 != id
    ensures Tells(db, log', RunOnce(l, id, task, attempts, now, w))
  {
    var x := Exec(id, task, l.db, Execute(task, l.db, w));
    RunOutcome(l, id, task, attempts, now, w);
    log' := log + [x];
    SerialGrows(db, log, x);
    TellsMore(db, log, x, l, RunOnce(l, id, task, attempts, now, w));
  }

  lemma TellsMore(db: Db, log: seq<Exec>, x: Exec, l: Lane, l': Lane)
    requires Tells(db, log, l) && Serial(db, log + [x]) && l'.db == x.outcome.db
    requires l'.runs == l.runs + multiset{x.id} && l'.commits == l.commits + (if x.outcome.committed then multiset{x.id} else multiset{})
    requires forall i :: 0 <= i < |l.entries| ==> l.entries[i].id != x.id
    requires forall i :: 0 <= i < |l.completed| ==> l.completed[i].0 != x.id
    requires l'.entries == l.entries
             || (x.outcome.result.class_ == Retryable && exists e: Entry :: e.id == x.id && e.task == x.task && l'.entries == l.entries + [e])
    requires l'.completed == l.completed || l'.completed == l.completed + [(x.id, x.outcome.result)]
    ensures Tells(db, log + [x], l')
  {
    forall k: nat ensures CountsOf(log + [x], l', k) {
      assert CountsOf(log, l, k);
      OneMoreExec(log, x, k);
    }
    forall i | 0 <= i < |l'.entries| ensures WaitsFor(log + [x], l'.entries[i]) { OneMoreExec(log, x, l'.entries[i].id); }
    forall i | 0 <= i < |l'.completed| ensures Answers(log + [x], l'.completed[i]) { OneMoreExec(log, x, l'.completed[i].0); }
  }

  lemma NotElsewhere(l: Lane, id: nat)
    requires Waiting(l.entries)[id] + Finished(l.completed)[id] == 0
    ensures forall i :: 0 <= i < |l.entries| ==> l.entries[i].id != id
    ensures forall i :: 0 <= i < |l.completed| ==> l.completed[i].0 != id
  {
    forall i | 0 <= i < |l.entries| ensures l.entries[i].id != id { WaitingHas(l.entries, i); }
    forall i | 0 <= i < |l.completed| ensures l.completed[i].0 != id { FinishedHas(l.completed, i); }
  }

  lemma TakenIsNowhere(db: Db, log: seq<Exec>, l: Lane, i: nat) returns (l1: Lane)
    requires Good(l) && Tells(db, log, l) && i < |l.entries|
    ensures l1 == l.(entries := l.entries[..i] + l.entries[i + 1..]) && Tells(db, log, l1)
    ensures forall j :: 0 <= j < |l1.entries| ==> l1.entries[j].id != l.entries[i].id
    ensures forall j :: 0 <= j < |l1.completed| ==> l1.completed[j].0 != l.entries[i].id
  {
    l1 := l.(entries := l.entries[..i] + l.entries[i + 1..]);
    WaitingShrinks(l.entries, i);
    assert GoodId(l, l.entries[i].id);
    NotElsewhere(l1, l.entries[i].id);
    forall id: nat ensures CountsOf(log, l1, id) { assert CountsOf(log, l, id); }
  }

  lemma RerunTells(db: Db, log: seq<Exec>, l: Lane, i: nat, now: int, w: Weather) returns (log': seq<Exec>)
    requires Good(l) && Tells(db, log, l) && i < |l.entries| && Honest(w)
    ensures Tells(db, log', Rerun(l, i, now, w))
  {
    var e := l.entries[i];
    var l1 := TakenIsNowhere(db, log, l, i);
    log' := RunTells(db, log, l1, e.id, e.task, e.attempts + 1, now, w);
  }

  lemma TickTellsOne(db: Db, log: seq<Exec>, l: Lane, i: nat, budget: nat, now: int, ws: nat -> Weather) returns (l1: Lane, log1: seq<Exec>)
    requires Good(l) && Tells(db, log, l) && i < |l.entries| && Honest(ws(budget)) && budget > 0 && now >= l.entries[i].nextAt
    ensures Good(l1) && Tells(db, log1, l1)
    ensures Ticked(l, i, budget, now, ws) == Ticked(l1, 0, budget - 1, now, ws)
  {
    var w := ws(budget);
    RerunKeeps(l, i, now, w);
    l1 := Rerun(l, i, now, w);
    log1 := RerunTells(db, log, l, i, now, w);
  }

  /** The scan goes on to the first due entry, or ends. */
  lemma {:induction false} ScanSkips(l: Lane, i: nat, budget: nat, now: int, ws: nat -> Weather) returns (k: nat)
    requires i <= |l.entries| && NoneDue(l.entries, now, i)
    ensures k <= |l.entries| && NoneDue(l.entries, now, k) && Ticked(l, i, budget, now, ws) == Ticked(l, k, budget, now, ws)
    ensures k == |l.entries| || budget == 0 || now >= l.entries[k].nextAt
    ensures k == |l.entries| || budget == 0 ==> Ticked(l, i, budget, now, ws) == l
    decreases |l.entries| - i
  {
    k := i;
    if i < |l.entries| && budget > 0 && now < l.entries[i].nextAt { k := ScanSkips(l, i + 1, budget, now, ws); }
  }

  lemma {:induction false} TickTells(db: Db, log: seq<Exec>, l: Lane, budget: nat, now: int, ws: nat -> Weather, end: Lane) returns (log': seq<Exec>)
    requires Good(l) && Tells(db, log, l) && (forall k: nat :: Honest(ws(k))) && end == Ticked(l, 0, budget, now, ws)
    ensures Tells(db, log', end)
    decreases budget
  {
    var k := ScanSkips(l, 0, budget, now, ws);
    if k == |l.entries| || budget == 0 {
      log' := log;
    } else {
      var l1, log1 := TickTellsOne(db, log, l, k, budget, now, ws);
      log' := TickTells(db, log1, l1, budget - 1, now, ws, end);
    }
  }

  lemma {:induction false} RunTellsAll(db: Db, log: seq<Exec>, l: Lane, ops: seq<Op>) returns (log': seq<Exec>)
    requires Good(l) && Legal(l, ops) && Tells(db, log, l)
    ensures Tells(db, log', RunAll(l, ops))
    decreases |ops|
  {
    log' := log;
    if ops != [] {
      match ops[0] {
        case Start(id, task, now, w) =>
          assert GoodId(l, id);
          NotElsewhere(l, id);
          log' := RunTells(db, log, l, id, task, 1, now, w);
          StartKeeps(l, id, task, now, w);
        case TickAt(now, ws) =>
          TickKeeps(l, 0, BUDGET, now, ws);
          log' := TickTells(db, log, l, BUDGET, now, ws, Step(l, ops[0]));
      }
      log' := RunTellsAll(db, log', Step(l, ops[0]), ops[1..]);
    }
  }

  /** Over every schedule of new tasks and ticks, the queue is a serial history of executions: the tables are
      what the executions left one after the other, runs and commits are counted as they happened, each request
      was answered with its last result, and what waits is worth another attempt. */
  lemma RetriesAreSerial(db: Db, ops: seq<Op>) returns (log: seq<Exec>)
    requires Legal(Empty(db), ops)
    ensures Tells(db, log, RunAll(Empty(db), ops))
  {
    EmptyIsGood(db);
    log := RunTellsAll(db, [], Empty(db), ops);
  }

  // ---- what a tick runs --------------------------------------------------------------------------------------

  function DueBefore(entries: seq<Entry>, now: int, j: nat): nat
    requires j <= |entries|
  {
    if j == 0 then 0 else DueBefore(entries, now, j - 1) + if now >= entries[j - 1].nextAt then 1 else 0
  }

  /** The entry will be run by this tick: it is due and among the first that are. */
  predicate Chosen(entries: seq<Entry>, now: int, budget: nat, j: nat)
    requires j < |entries|
  {
    now >= entries[j].nextAt && DueBefore(entries, now, j) < budget
  }

  predicate NoneDue(entries: seq<Entry>, now: int, i: nat) {
    forall k :: 0 <= k < i && k < |entries| ==> now < entries[k].nextAt
  }

  lemma {:induction false} NoneDueCount(entries: seq<Entry>, now: int, i: nat)
    requires i <= |entries| && NoneDue(entries, now, i)
    ensures DueBefore(entries, now, i) == 0
    decreases i
  {
    if i > 0 { NoneDueCount(entries, now, i - 1); }
  }

  /** Taking out the due entry at i, and appending, lowers the rank of those behind it by one. */
  lemma {:induction false} RankFalls(entries: seq<Entry>, rest: seq<Entry>, now: int, i: nat, j: nat)
    requires i < j <= |entries| && j - 1 <= |rest| && now >= entries[i].nextAt
    requires (forall k :: 0 <= k < i ==> rest[k] == entries[k]) && (forall k {:trigger entries[k]} :: i < k < j ==> rest[k - 1] == entries[k])
    ensures DueBefore(rest, now, j - 1) == DueBefore(entries, now, j) - 1
    decreases j
  {
    if j == i + 1 {
      SameRank(entries, rest, now, i);
    } else {
      RankFalls(entries, rest, now, i, j - 1);
    }
  }

  lemma {:induction false} SameRank(a: seq<Entry>, b: seq<Entry>, now: int, j: nat)
    requires j <= |a| && j <= |b| && forall k :: 0 <= k < j ==> a[k] == b[k]
    ensures DueBefore(a, now, j) == DueBefore(b, now, j)
    decreases j
  {
    if j > 0 { SameRank(a, b, now, j - 1); }
  }

  lemma UniqueIds(l: Lane, i: nat, j: nat)
    requires Good(l) && i < |l.entries| && j < |l.entries| && l.entries[i].id == l.entries[j].id
    ensures i == j
  {
    assert GoodId(l, l.entries[i].id);
    if i != j {
      var rest := l.entries[..i] + l.entries[i + 1..];
      WaitingShrinks(l.entries, i);
      WaitingHas(rest, if j < i then j else j - 1);
    }
  }

  /** The queue after the entry at i was taken out and run. */
  lemma RerunShape(l: Lane, i: nat, now: int, w: Weather)
    requires Good(l) && i < |l.entries| <= CAPACITY
    ensures var e, l' := l.entries[i], Rerun(l, i, now, w);
            var rest, o := l.entries[..i] + l.entries[i + 1..], Execute(l.entries[i].task, l.db, w);
            && l'.runs == l.runs + multiset{e.id} && l'.db == o.db
            && (if WorthRetrying(e.task, o.result, e.attempts + 1)
                then l'.entries == rest + [Entry(e.id, e.task, 2, now + 200)] && l'.completed == l.completed && e.attempts == 1
                else l'.entries == rest && l'.completed == l.completed + [(e.id, o.result)])
  {
    var e := l.entries[i];
    assert EntryOk(e, l.runs);
    RunOutcome(l.(entries := l.entries[..i] + l.entries[i + 1..]), e.id, e.task, e.attempts + 1, now, w);
  }

  // A tick as a chain of runs.

  /** One run within a tick: the lane before, the place of the entry taken out, the execution, the lane after. */
  datatype Hop = Hop(before: Lane, at: nat, x: Exec, after: Lane)

  ghost predicate RunsEntry(h: Hop, now: int) {
    var l, l' := h.before, h.after;
    && Good(l) && Good(l') && h.at < |l.entries| <= CAPACITY && |l'.entries| <= CAPACITY
    && NoneDue(l.entries, now, h.at) && now >= l.entries[h.at].nextAt
    && var e, rest := l.entries[h.at], l.entries[..h.at] + l.entries[h.at + 1..];
       && h.x.id == e.id && h.x.task == e.task && h.x.db == l.db && l'.runs == l.runs + multiset{e.id}
       && (if WorthRetrying(e.task, h.x.outcome.result, e.attempts + 1)
           then l'.entries == rest + [Entry(e.id, e.task, 2, now + 200)] && l'.completed == l.completed && e.attempts == 1
           else l'.entries == rest && l'.completed == l.completed + [(e.id, h.x.outcome.result)])
  }

  ghost predicate Chain(l: Lane, hops: seq<Hop>, end: Lane, now: int)
    decreases |hops|
  {
    if hops == [] then l == end
    else hops[0].before == l && RunsEntry(hops[0], now) && Chain(hops[0].after, hops[1..], end, now)
  }

  /** The runs of a tick: at most as many as its budget, and fewer only when nothing else is due. */
  ghost predicate IsTick(l: Lane, hops: seq<Hop>, end: Lane, budget: nat, now: int) {
    && Chain(l, hops, end, now) && |hops| <= budget && (|hops| == budget || NoneDue(end.entries, now, |end.entries|))
    && forall i {:trigger Genuine(hops[i].x)} :: 0 <= i < |hops| ==> Genuine(hops[i].x)
  }

  lemma RunIsHop(l: Lane, k: nat, now: int, w: Weather) returns (h: Hop)
    requires Good(l) && Honest(w) && k < |l.entries| <= CAPACITY && NoneDue(l.entries, now, k) && now >= l.entries[k].nextAt
    ensures h.before == l && RunsEntry(h, now) && Genuine(h.x) && h.after == Rerun(l, k, now, w)
  {
    RerunKeeps(l, k, now, w);
    RerunShape(l, k, now, w);
    h := Hop(l, k, Exec(l.entries[k].id, l.entries[k].task, l.db, Execute(l.entries[k].task, l.db, w)), Rerun(l, k, now, w));
  }

  /** The first run of a tick, if it has one. */
  lemma FirstHop(l: Lane, budget: nat, now: int, ws: nat -> Weather, end: Lane) returns (first: Option<Hop>)
    requires Good(l) && Honest(ws(budget)) && |l.entries| <= CAPACITY && end == Ticked(l, 0, budget, now, ws)
    ensures first.None? ==> IsTick(l, [], end, budget, now)
    ensures first.Some? ==> budget > 0 && first.value.before == l && RunsEntry(first.value, now) && Genuine(first.value.x)
                            && end == Ticked(first.value.after, 0, budget - 1, now, ws)
  {
    var k := ScanSkips(l, 0, budget, now, ws);
    first := None;
    if k < |l.entries| && budget > 0 {
      var h := RunIsHop(l, k, now, ws(budget));
      first := Some(h);
    }
  }

  lemma {:induction false} TickIsChain(l: Lane, budget: nat, now: int, ws: nat -> Weather, end: Lane) returns (hops: seq<Hop>)
    requires Good(l) && (forall k: nat :: Honest(ws(k))) && |l.entries| <= CAPACITY && end == Ticked(l, 0, budget, now, ws)
    ensures IsTick(l, hops, end, budget, now)
    decreases budget
  {
    var first := FirstHop(l, budget, now, ws, end);
    hops := [];
    if first.Some? {
      var more := TickIsChain(first.value.after, budget - 1, now, ws, end);
      hops := OneHopMore(l, first.value, more, end, budget, now);
    }
  }

  lemma OneHopMore(l: Lane, h: Hop, more: seq<Hop>, end: Lane, budget: nat, now: int) returns (hops: seq<Hop>)
    requires h.before == l && RunsEntry(h, now) && Genuine(h.x) && budget > 0 && IsTick(h.after, more, end, budget - 1, now)
    ensures IsTick(l, hops, end, budget, now)
  {
    hops := [h] + more;
    assert hops[1..] == more;
    forall i | 0 <= i < |hops| ensures Genuine(hops[i].x) {
      if i > 0 { assert Genuine(more[i - 1].x); }
    }
  }

  // What the chain does to one request.

  /** What concerns one request is as it was. */
  ghost predicate SameOf(l: Lane, l': Lane, id: nat) {
    && l'.runs[id] == l.runs[id]
    && (forall e: Entry :: e.id == id ==> (e in l.entries <==> e in l'.entries))
    && (forall r :: (id, r) in l.completed <==> (id, r) in l'.completed)
  }

  lemma SameTwice(a: Lane, b: Lane, c: Lane, id: nat)
    requires SameOf(a, b, id) && SameOf(b, c, id)
    ensures SameOf(a, c, id)
  {
  }

  ghost predicate NotChosen(entries: seq<Entry>, now: int, budget: nat, id: nat) {
    forall j :: 0 <= j < |entries| && entries[j].id == id ==> !Chosen(entries, now, budget, j)
  }

  /** The entry at i was taken out, and perhaps queued again at the end for later. */
  ghost predicate TakenOut(a: seq<Entry>, b: seq<Entry>, i: nat, now: int) {
    && i < |a| && |a| - 1 <= |b| <= |a| && b[..|a| - 1] == a[..i] + a[i + 1..]
    && (|b| == |a| ==> b[|a| - 1].id == a[i].id && b[|a| - 1].nextAt > now)
  }

  lemma HopTakesOut(h: Hop, now: int)
    requires RunsEntry(h, now)
    ensures TakenOut(h.before.entries, h.after.entries, h.at, now) && h.before.entries[h.at].id == h.x.id
  {
  }

  lemma BehindTaken(a: seq<Entry>, b: seq<Entry>, i: nat, now: int, j: nat)
    requires TakenOut(a, b, i, now) && i < j < |a| && now >= a[i].nextAt
    ensures b[j - 1] == a[j] && DueBefore(b, now, j - 1) == DueBefore(a, now, j) - 1
  {
    assert b[j - 1] == b[..|a| - 1][j - 1];
    forall k | 0 <= k < i ensures b[k] == a[k] { assert b[k] == b[..|a| - 1][k]; }
    forall k {:trigger a[k]} | i < k < j ensures b[k - 1] == a[k] { assert b[k - 1] == b[..|a| - 1][k - 1]; }
    RankFalls(a, b, now, i, j);
  }

  lemma LeftAlone(a: seq<Entry>, b: seq<Entry>, i: nat, now: int, budget: nat, id: nat, j: nat)
    requires TakenOut(a, b, i, now) && NoneDue(a, now, i) && now >= a[i].nextAt && a[i].id != id && budget > 0
    requires NotChosen(a, now, budget, id) && j < |b| && b[j].id == id
    ensures !Chosen(b, now, budget - 1, j)
  {
    if j < i {
      assert b[j] == b[..|a| - 1][j] == a[j];
    } else if j + 1 < |a| {
      BehindTaken(a, b, i, now, j + 1);
    }
  }

  lemma StaysUnchosen(h: Hop, now: int, budget: nat, id: nat)
    requires RunsEntry(h, now) && budget > 0 && NotChosen(h.before.entries, now, budget, id)
    ensures h.x.id != id && NotChosen(h.after.entries, now, budget - 1, id)
  {
    var a, b := h.before.entries, h.after.entries;
    NoneDueCount(a, now, h.at);
    HopTakesOut(h, now);
    forall j | 0 <= j < |b| && b[j].id == id ensures !Chosen(b, now, budget - 1, j) { LeftAlone(a, b, h.at, now, budget, id, j); }
  }

  lemma OthersAsBefore(h: Hop, now: int, id: nat)
    requires RunsEntry(h, now) && h.x.id != id
    ensures SameOf(h.before, h.after, id)
  {
    var a := h.before.entries;
    assert a == a[..h.at] + [a[h.at]] + a[h.at + 1..];
  }

  /** A request that is not chosen is left alone. */
  lemma {:induction false} ChainLeaves(l: Lane, hops: seq<Hop>, end: Lane, now: int, budget: nat, id: nat)
    requires Chain(l, hops, end, now) && |hops| <= budget && NotChosen(l.entries, now, budget, id)
    ensures SameOf(l, end, id)
    decreases |hops|
  {
    if hops != [] {
      var h := hops[0];
      StaysUnchosen(h, now, budget, id);
      OthersAsBefore(h, now, id);
      ChainLeaves(h.after, hops[1..], end, now, budget - 1, id);
      SameTwice(l, h.after, end, id);
    }
  }

  /** A request just run is not run again in the same tick. */
  lemma RequeuedWaits(h: Hop, now: int, budget: nat)
    requires RunsEntry(h, now)
    ensures NotChosen(h.after.entries, now, budget, h.x.id)
  {
    var a, b := h.before.entries, h.after.entries;
    var rest := a[..h.at] + a[h.at + 1..];
    WaitingShrinks(a, h.at);
    assert GoodId(h.before, h.x.id);
    forall j | 0 <= j < |rest| ensures rest[j].id != h.x.id { WaitingHas(rest, j); }
  }

  /** An entry further back moves up one place and one rank, and stays as it is. */
  lemma MovesUp(h: Hop, now: int, budget: nat, j: nat)
    requires RunsEntry(h, now) && j < |h.before.entries| && j != h.at && Chosen(h.before.entries, now, budget, j)
    ensures var a, b := h.before.entries, h.after.entries;
            budget > 0 && 0 <= j - 1 < |b| && b[j - 1] == a[j] && Chosen(b, now, budget - 1, j - 1)
    ensures h.after.runs[h.before.entries[j].id] == h.before.runs[h.before.entries[j].id]
  {
    HopTakesOut(h, now);
    BehindTaken(h.before.entries, h.after.entries, h.at, now, j);
    if h.before.entries[j].id == h.x.id { UniqueIds(h.before, h.at, j); }
  }

  /** The request is where one further run under these conditions puts it. */
  ghost predicate RanOnce(l': Lane, e: Entry, runs: nat, now: int, x: Exec) {
    && x.id == e.id && x.task == e.task && l'.runs[e.id] == runs + 1
    && (if WorthRetrying(e.task, x.outcome.result, e.attempts + 1) then Entry(e.id, e.task, 2, now + 200) in l'.entries
        else (e.id, x.outcome.result) in l'.completed)
  }

  lemma RunsNow(h: Hop, hops: seq<Hop>, end: Lane, now: int)
    requires RunsEntry(h, now) && Chain(h.after, hops, end, now)
    ensures RanOnce(end, h.before.entries[h.at], h.before.runs[h.x.id], now, h.x)
  {
    RequeuedWaits(h, now, |hops|);
    ChainLeaves(h.after, hops, end, now, |hops|, h.x.id);
    assert RanOnce(h.after, h.before.entries[h.at], h.before.runs[h.x.id], now, h.x);
  }

  lemma {:induction false} ChainRuns(l: Lane, hops: seq<Hop>, end: Lane, now: int, budget: nat, j: nat) returns (i: nat)
    requires Chain(l, hops, end, now) && (|hops| == budget || NoneDue(end.entries, now, |end.entries|))
    requires j < |l.entries| && Chosen(l.entries, now, budget, j)
    ensures i < |hops| && RanOnce(end, l.entries[j], l.runs[l.entries[j].id], now, hops[i].x)
    decreases |hops|
  {
    var h := hops[0];
    if h.at == j {
      i := 0;
      RunsNow(h, hops[1..], end, now);
    } else {
      MovesUp(h, now, budget, j);
      i := ChainRuns(h.after, hops[1..], end, now, budget - 1, j - 1);
      assert hops[1..][i] == hops[i + 1];
      i := i + 1;
    }
  }

  /** A due request among the first sixteen is run by the tick, once: it then waits 200 ms for its third
      attempt, or is answered. Every other request is left alone. */
  lemma TickRunsExactly(l: Lane, now: int, ws: nat -> Weather, j: nat) returns (x: Exec)
    requires Good(l) && (forall k: nat :: Honest(ws(k))) && |l.entries| <= CAPACITY && j < |l.entries|
    ensures var e, end := l.entries[j], Ticked(l, 0, BUDGET, now, ws);
            if now >= e.nextAt && DueBefore(l.entries, now, j) < 16 then Genuine(x) && RanOnce(end, e, l.runs[e.id], now, x)
            else SameOf(l, end, e.id)
  {
    var end := Ticked(l, 0, BUDGET, now, ws);
    var hops := TickIsChain(l, BUDGET, now, ws, end);
    if Chosen(l.entries, now, BUDGET, j) {
      var i := ChainRuns(l, hops, end, now, BUDGET, j);
      x := hops[i].x;
    } else {
      forall k | 0 <= k < |l.entries| && l.entries[k].id == l.entries[j].id ensures k == j { UniqueIds(l, k, j); }
      ChainLeaves(l, hops, end, now, BUDGET, l.entries[j].id);
      x := Exec(0, l.entries[j].task, l.db, Execute(l.entries[j].task, l.db, ws(0)));
    }
  }

  // ---- the queue empties itself --------------------------------------------------------------------------------

  /** How many attempts the waiting requests have left between them. */
  function AttemptsLeft(entries: seq<Entry>): int
    decreases |entries|
  {
    if entries == [] then 0 else AttemptsLeft(entries[..|entries| - 1]) + MAX_ATTEMPTS - entries[|entries| - 1].attempts
  }

  lemma {:induction false} LeftWithout(entries: seq<Entry>, i: nat)
    requires i < |entries|
    ensures AttemptsLeft(entries) == AttemptsLeft(entries[..i] + entries[i + 1..]) + MAX_ATTEMPTS - entries[i].attempts
    decreases |entries|
  {
    var n := |entries| - 1;
    var rest := entries[..i] + entries[i + 1..];
    if i == n {
      assert rest == entries[..n];
    } else {
      LeftWithout(entries[..n], i);
      assert rest[..n - 1] == entries[..n][..i] + entries[..n][i + 1..];
      assert rest[n - 1] == entries[n];
    }
  }

  lemma LeftWith(entries: seq<Entry>, e: Entry)
    ensures AttemptsLeft(entries + [e]) == AttemptsLeft(entries) + MAX_ATTEMPTS - e.attempts
  {
    assert (entries + [e])[..|entries|] == entries;
  }

  ghost predicate DueBy(entries: seq<Entry>, at: int) { forall e :: e in entries ==> e.nextAt <= at }

  lemma HopShrinks(h: Hop, now: int, at: int)
    requires RunsEntry(h, now) && DueBy(h.before.entries, at) && now + 200 <= at
    ensures DueBy(h.after.entries, at) && AttemptsLeft(h.after.entries) < AttemptsLeft(h.before.entries)
  {
    var rest := h.before.entries[..h.at] + h.before.entries[h.at + 1..];
    LeftWithout(h.before.entries, h.at);
    assert EntryOk(h.before.entries[h.at], h.before.runs);
    if h.after.entries != rest { LeftWith(rest, h.after.entries[|rest|]); }
  }

  lemma {:induction false} ChainShrinks(l: Lane, hops: seq<Hop>, end: Lane, now: int, at: int)
    requires Chain(l, hops, end, now) && DueBy(l.entries, at) && now + 200 <= at
    ensures DueBy(end.entries, at) && AttemptsLeft(end.entries) + |hops| <= AttemptsLeft(l.entries)
    decreases |hops|
  {
    if hops != [] {
      HopShrinks(hops[0], now, at);
      ChainShrinks(hops[0].after, hops[1..], end, now, at);
    }
  }

  /** A tick lowers the attempts left if the first entry is due, and makes nothing wait longer than 200 ms from then. */
  lemma TickShrinks(l: Lane, now: int, ws: nat -> Weather, end: Lane)
    requires Good(l) && (forall k: nat :: Honest(ws(k))) && |l.entries| <= CAPACITY && end == Ticked(l, 0, BUDGET, now, ws)
    requires DueBy(l.entries, now)
    ensures Good(end) && |end.entries| <= CAPACITY && DueBy(end.entries, now + 200)
    ensures l.entries == end.entries == [] || AttemptsLeft(end.entries) < AttemptsLeft(l.entries)
  {
    TickKeeps(l, 0, BUDGET, now, ws);
    TickStaysWithin(l, 0, BUDGET, now, ws);
    var hops := TickIsChain(l, BUDGET, now, ws, end);
    ChainShrinks(l, hops, end, now, now + 200);
  }

  lemma {:induction false} TickStaysWithin(l: Lane, i: nat, budget: nat, now: int, ws: nat -> Weather)
    requires |l.entries| <= CAPACITY
    ensures |Ticked(l, i, budget, now, ws).entries| <= CAPACITY
    decreases budget, |l.entries| - i
  {
    if i < |l.entries| && budget > 0 {
      if now < l.entries[i].nextAt {
        TickStaysWithin(l, i + 1, budget, now, ws);
      } else {
        var l1 := RerunStaysWithin(l, i, now, ws(budget));
        TickStaysWithin(l1, 0, budget - 1, now, ws);
      }
    }
  }

  lemma RerunStaysWithin(l: Lane, i: nat, now: int, w: Weather) returns (l1: Lane)
    requires i < |l.entries| <= CAPACITY
    ensures l1 == Rerun(l, i, now, w) && |l1.entries| <= CAPACITY
  {
    l1 := Rerun(l, i, now, w);
  }

  /** The queue never holds more than its capacity. */
  lemma {:induction false} RunStaysWithin(l: Lane, ops: seq<Op>)
    requires |l.entries| <= CAPACITY
    ensures |RunAll(l, ops).entries| <= CAPACITY
    decreases |ops|
  {
    if ops != [] {
      if ops[0].TickAt? { TickStaysWithin(l, 0, BUDGET, ops[0].now, ops[0].ws); }
      RunStaysWithin(Step(l, ops[0]), ops[1..]);
    }
  }

  datatype Beat = Beat(now: int, ws: nat -> Weather)

  function Beats(l: Lane, beats: seq<Beat>): Lane
    decreases |beats|
  {
    if beats == [] then l else Beats(Ticked(l, 0, BUDGET, beats[0].now, beats[0].ws), beats[1..])
  }

  /** Ticks at least 200 ms apart, on an honest backend. */
  ghost predicate Spaced(beats: seq<Beat>) {
    && (forall i :: 0 <= i < |beats| ==> forall k: nat :: Honest(beats[i].ws(k)))
    && (forall i :: 0 <= i < |beats| - 1 ==> beats[i].now + 200 <= beats[i + 1].now)
  }

  lemma {:induction false} LeftIsPositive(l: Lane, n: nat)
    requires Good(l) && n <= |l.entries|
    ensures AttemptsLeft(l.entries[..n]) >= n
    decreases n
  {
    if n > 0 {
      LeftIsPositive(l, n - 1);
      assert EntryOk(l.entries[n - 1], l.runs);
      assert l.entries[..n][..n - 1] == l.entries[..n - 1];
    }
  }

  /** From any state within its capacity, as many ticks as attempts are left, spaced, the first one not before
      what waits is due, leave nothing waiting: every request that was started is then answered. */
  lemma {:induction false} EverythingIsAnswered(l: Lane, beats: seq<Beat>, id: nat)
    requires Good(l) && |l.entries| <= CAPACITY && Spaced(beats) && |beats| >= AttemptsLeft(l.entries)
    requires beats != [] ==> DueBy(l.entries, beats[0].now)
    ensures var end := Beats(l, beats);
            && Good(end) && end.entries == []
            && (end.runs[id] > 0 ==> Finished(end.completed)[id] == 1)
    decreases |beats|
  {
    assert l.entries[..|l.entries|] == l.entries;
    LeftIsPositive(l, |l.entries|);
    if beats == [] {
      assert GoodId(l, id);
    } else {
      var b := beats[0];
      var next := Ticked(l, 0, BUDGET, b.now, b.ws);
      TickShrinks(l, b.now, b.ws, next);
      if |beats| > 1 { assert beats[1..][0] == beats[1]; }
      assert next.entries[..|next.entries|] == next.entries;
      LeftIsPositive(next, |next.entries|);
      EverythingIsAnswered(next, beats[1..], id);
    }
  }

  /** After any schedule of new tasks and ticks, such ticks answer every request that was started, once. */
  lemma EveryRequestIsAnswered(db: Db, ops: seq<Op>, beats: seq<Beat>, id: nat)
    requires Legal(Empty(db), ops) && Spaced(beats)
    requires var waiting := RunAll(Empty(db), ops).entries; |beats| >= AttemptsLeft(waiting) && (beats != [] ==> DueBy(waiting, beats[0].now))
    ensures var end := Beats(RunAll(Empty(db), ops), beats);
            end.entries == [] && (end.runs[id] > 0 ==> Finished(end.completed)[id] == 1)
  {
    EmptyIsGood(db);
    RunKeepsGood(Empty(db), ops);
    RunStaysWithin(Empty(db), ops);
    EverythingIsAnswered(RunAll(Empty(db), ops), beats, id);
  }
}
