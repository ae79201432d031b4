/** Running a whole task as one database transaction. */
module Transactions {
  import opened Common
  import opened DbValue
  import opened Database

  datatype Fault = Fine | Fault(errcode: int, class_: ResultClass, native: nat)

  /** What goes wrong during one transaction: at its start, at its k-th statement, at its commit
      (which may take effect all the same), at its rollback. */
  datatype Weather = Weather(begin: Fault, execute: nat -> Fault, commit: Fault, landed: bool, rollback: bool)

  predicate Real(f: Fault) { f.Fault? ==> f.errcode != 0 }

  /** The backend's promise: errors have codes, and a failed commit is of unknown outcome. */
  ghost predicate Honest(w: Weather) {
    && Real(w.begin) && (forall k: nat :: Real(w.execute(k))) && Real(w.commit)
    && (w.commit.Fault? ==> w.commit.class_ == OutcomeUnknown)
  }

  const MAX_STEPS: nat := 65540

  function Blank(task: DbTask): DbResult {
    DbResult(0, Success, 0, Nil, task.player, task.version, task.revision, task.token)
  }

  function Rejected(task: DbTask, c: ResultClass): DbResult {
    Blank(task).(errcode := 1010, class_ := c)
  }

  function Copied(task: DbTask, f: Fault): DbResult
    requires f.Fault?
  {
    Blank(task).(errcode := f.errcode, class_ := if f.class_ == Success then Failure else f.class_, native := f.native)
  }

  /** Giving up: an unconfirmed rollback makes the outcome unknown. */
  function Aborted(r: DbResult, w: Weather): DbResult {
    if w.rollback then r else r.(errcode := 1011, class_ := OutcomeUnknown)
  }

  predicate IsCheck(s: SqlStep) { ValidStep(s) && s.kind == 1 && s.checkData }

  /** The checks made before the backend is touched. */
  predicate WellFormed(task: DbTask) {
    && (task.kind == 4 || task.kind == 5) && task.steps != [] && |task.steps| <= MAX_STEPS
    && !task.hasArgs && (task.kind == 4 ==> task.verification == [])
    && (forall i :: 0 <= i < |task.steps| ==> ValidStep(task.steps[i]))
    && (forall i :: 0 <= i < |task.verification| ==> IsCheck(task.verification[i]))
    && (task.kind == 5 ==>
          0 < task.player <= MAX_I64 && 0 < task.version <= MAX_I64 && |task.verification| == 3)
  }

  predicate MeetsAffected(s: SqlStep, v: Val) {
    s.expectedAffected >= 0 ==> v.Arr? && v.a != [] && v.a[0].Int? && v.a[0].i == s.expectedAffected
  }

  predicate MeetsData(s: SqlStep, v: Val) {
    s.checkData ==> EqualValue(v, s.expectedData)
  }

  datatype Progress = Through(db: Db, results: seq<Val>) | Stopped(result: DbResult)

  /** The write path, statement by statement from call k on. */
  function RunSteps(task: DbTask, db: Db, steps: seq<SqlStep>, k: nat, w: Weather): Progress
    decreases |steps|
  {
    if steps == [] then Through(db, [])
    else if w.execute(k).Fault? then Stopped(Copied(task, w.execute(k)))
    else
      var (db', v) := Effect(steps[0].stmt, db);
      if !MeetsAffected(steps[0], v) || !MeetsData(steps[0], v) then Stopped(Rejected(task, BusinessRejected))
      else
        match RunSteps(task, db', steps[1..], k + 1, w)
        case Through(db'', results) => Through(db'', [v] + results)
        case Stopped(r) => Stopped(r)
  }

  /** The replay path: every verification query must still give the expected rows. */
  function RunChecks(task: DbTask, db: Db, checks: seq<SqlStep>, k: nat, w: Weather): DbResult
    decreases |checks|
  {
    if checks == [] then Blank(task)
    else if w.execute(k).Fault? then Copied(task, w.execute(k))
    else if !EqualValue(Effect(checks[0].stmt, db).1, checks[0].expectedData) then Rejected(task, VersionConflict)
    else RunChecks(task, db, checks[1..], k + 1, w)
  }

  datatype Outcome = Outcome(result: DbResult, db: Db, committed: bool)

  function Write(task: DbTask, db: Db, k: nat, w: Weather): Outcome {
    match RunSteps(task, db, task.steps, k, w)
    case Stopped(r) => Outcome(Aborted(r, w), db, false)
    case Through(db', results) =>
      if w.commit.Fine? then Outcome(Blank(task).(data := Arr(results)), db', true)
      else Outcome(Aborted(Copied(task, w.commit), w), if w.landed then db' else db, w.landed)
  }

  /** The stored version the locking query reports, if it reports one. */
  function LockedVersion(v: Val): Option<int> {
    if v.Arr? && |v.a| == 1 && v.a[0].Arr? && |v.a[0].a| == 1 && v.a[0].a[0].Int? && v.a[0].a[0].i >= 0
    then Some(v.a[0].a[0].i) else None
  }

  function Execute(task: DbTask, db: Db, w: Weather): Outcome {
    if !WellFormed(task) then Outcome(Rejected(task, Failure), db, false)
    else if w.begin.Fault? then Outcome(Copied(task, w.begin), db, false)
    else if task.kind == 4 then Write(task, db, 0, w)
    else if w.execute(0).Fault? then Outcome(Aborted(Copied(task, w.execute(0)), w), db, false)
    else
      match LockedVersion(Effect(SelectVersion(task.player), db).1)
      case None => Outcome(Aborted(Rejected(task, VersionConflict), w), db, false)
      case Some(v) =>
        if v > task.version then Outcome(Aborted(Blank(task).(class_ := Superseded), w), db, false)
        else if v == task.version then Outcome(Aborted(RunChecks(task, db, task.verification, 1, w), w), db, false)
        else Write(task, db, 1, w)
  }

  /** A connection: the committed tables, the transaction's own copy, and the faults to come. */
  class Backend {
    var db: Db
    var work: Option<Db>
    var calls: nat
    const weather: Weather

    constructor (tables: Db, w: Weather)
      ensures db == tables && work == None && weather == w
    {
      db, work, calls, weather := tables, None, 0, w;
    }

    method Begin() returns (f: Fault)
      requires work.None?
      modifies `work, `calls
      ensures f == weather.begin && calls == 0
      ensures work == if f.Fine? then Some(db) else None
    {
      f, calls := weather.begin, 0;
      if f.Fine? { work := Some(db); }
    }

    method ExecuteStep(s: Stmt) returns (f: Fault, v: Val)
      requires work.Some?
      modifies `work, `calls
      ensures f == weather.execute(old(calls)) && calls == old(calls) + 1
      ensures f.Fine? ==> (work, v) == (Some(Effect(s, old(work).value).0), Effect(s, old(work).value).1)
      ensures f.Fault? ==> work == old(work)
    {
      f, v := weather.execute(calls), Nil;
      calls := calls + 1;
      if f.Fine? {
        var (db', data) := Effect(s, work.value);
        work, v := Some(db'), data;
      }
    }

    method Commit() returns (f: Fault)
      requires work.Some?
      modifies `db, `work
      ensures f == weather.commit
      ensures db == if f.Fine? || weather.landed then old(work).value else old(db)
      ensures f.Fine? ==> work == None
    {
      f := weather.commit;
      if f.Fine? || weather.landed { db := work.value; }
      if f.Fine? { work := None; }
    }

    method Rollback() returns (ok: bool)
      modifies `work
      ensures ok == weather.rollback && work == None
    {
      work := None;
      return weather.rollback;
    }

    /** Ends a transaction that will not commit. */
    method Abort(r: DbResult) returns (out: DbResult)
      modifies `work
      ensures out == Aborted(r, weather) && work == None
    {
      var ok := Rollback();
      if ok { return r; }
      return r.(errcode := 1011, class_ := OutcomeUnknown);
    }

    method Run(task: DbTask) returns (out: DbResult)
      requires work.None?
      modifies this
      ensures work.None?
      ensures (out, db) == (Execute(task, old(db), weather).result, Execute(task, old(db), weather).db)
    {
      if !WellFormed(task) { return Rejected(task, Failure); }
      var f := Begin();
      if f.Fault? { return Copied(task, f); }
      if task.kind == 5 {
        var g, v := ExecuteStep(SelectVersion(task.player));
        if g.Fault? { out := Abort(Copied(task, g)); return; }
        var stored := LockedVersion(v);
        if stored.None? { out := Abort(Rejected(task, VersionConflict)); return; }
        if stored.value > task.version { out := Abort(Blank(task).(class_ := Superseded)); return; }
        if stored.value == task.version {
          var checked := Verify(task);
          out := Abort(checked);
          return;
        }
      }
      out := WriteAll(task);
    }

    method Verify(task: DbTask) returns (r: DbResult)
      requires work == Some(db) && forall i :: 0 <= i < |task.verification| ==> IsCheck(task.verification[i])
      modifies `work, `calls
      ensures r == RunChecks(task, db, task.verification, old(calls), weather) && work.Some?
    {
      var i, first := 0, calls;
      while i < |task.verification|
        invariant i <= |task.verification| && calls == first + i && work == Some(db)
        invariant RunChecks(task, db, task.verification, first, weather) == RunChecks(task, db, task.verification[i..], calls, weather)
      {
        var s := task.verification[i];
        SelectsReadOnly(s.stmt, db);
        var f, v := ExecuteStep(s.stmt);
        if f.Fault? { return Copied(task, f); }
        if !EqualValue(v, s.expectedData) { return Rejected(task, VersionConflict); }
        i := i + 1;
      }
      return Blank(task);
    }

    method WriteAll(task: DbTask) returns (out: DbResult)
      requires work == Some(db)
      modifies this
      ensures work.None?
      ensures (out, db) == (Write(task, old(db), old(calls), weather).result, Write(task, old(db), old(calls), weather).db)
    {
      var results, i, first := [], 0, calls;
      ghost var start := db;
      while i < |task.steps|
        invariant i <= |task.steps| && calls == first + i && work.Some? && db == start
        invariant RunSteps(task, start, task.steps, first, weather)
               == Prefixed(results, RunSteps(task, work.value, task.steps[i..], calls, weather))
      {
        var s := task.steps[i];
        var f, v := ExecuteStep(s.stmt);
        if f.Fault? { out := Abort(Copied(task, f)); return; }
        if !MeetsAffected(s, v) || !MeetsData(s, v) { out := Abort(Rejected(task, BusinessRejected)); return; }
        results, i := results + [v], i + 1;
      }
      assert results + [] == results;
      var f := Commit();
      if f.Fault? { out := Abort(Copied(task, f)); return; }
      out := Blank(task).(data := Arr(results));
    }
  }

  ghost function Prefixed(results: seq<Val>, p: Progress): Progress {
    match p
    case Through(db, rest) => Through(db, results + rest)
    case Stopped(r) => p
  }
}
