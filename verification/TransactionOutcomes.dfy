/** Exactly when a transaction takes effect, what it then leaves and reports, and what it says otherwise. */
module TransactionOutcomes {
  import opened Common
  import opened DbValue
  import opened Database
  import opened Transactions
  import opened SaveTheorems

  // ---- what a caller can check beforehand ------------------------------------------------------------------

  /** A step that only reads, one that writes rows; nothing else is let through. */
  predicate Reads(s: SqlStep) { s.kind == 1 && VerbOf(s.stmt) == Select && s.expectedAffected == -1 }

  predicate Writes(s: SqlStep) {
    s.kind == 2 && (VerbOf(s.stmt) == Insert || VerbOf(s.stmt) == Update || VerbOf(s.stmt) == Delete) && s.expectedAffected >= -1
  }

  /** A fixed list of reads and writes; a save also names its player and version and has three queries to verify itself by. */
  ghost predicate Acceptable(task: DbTask) {
    && 1 <= |task.steps| <= 65540 && !task.hasArgs
    && (forall s :: s in task.steps ==> Reads(s) || Writes(s))
    && (if task.kind == 5 then
          && 1 <= task.player <= MAX_I64 && 1 <= task.version <= MAX_I64
          && |task.verification| == 3 && forall s :: s in task.verification ==> Reads(s) && s.checkData
        else task.kind == 4 && task.verification == [])
  }

  /** The report is as the step expects it. */
  predicate Meets(s: SqlStep, v: Val) {
    && (s.expectedAffected != -1 ==> v.Arr? && |v.a| > 0 && v.a[0] == Int(s.expectedAffected))
    && (s.checkData ==> v == s.expectedData)
  }

  /** The tables after the steps, and what each step reports. */
  function After(db: Db, steps: seq<SqlStep>): Db
    decreases |steps|
  {
    if steps == [] then db else After(Effect(steps[0].stmt, db).0, steps[1..])
  }

  function Reports(db: Db, steps: seq<SqlStep>): seq<Val>
    decreases |steps|
  {
    if steps == [] then [] else [Effect(steps[0].stmt, db).1] + Reports(Effect(steps[0].stmt, db).0, steps[1..])
  }

  predicate MeetsAt(db: Db, steps: seq<SqlStep>, j: nat)
    requires j < |steps|
  {
    Meets(steps[j], Effect(steps[j].stmt, After(db, steps[..j])).1)
  }

  ghost predicate AllMeet(db: Db, steps: seq<SqlStep>) {
    forall j: nat :: j < |steps| ==> MeetsAt(db, steps, j)
  }

  /** The first backend calls, from number k on, do not fail. */
  ghost predicate Calm(w: Weather, k: nat, n: nat) {
    forall j :: k <= j < k + n ==> w.execute(j).Fine?
  }

  // ---- how far the steps get -------------------------------------------------------------------------------

  lemma AfterOneMore(db: Db, steps: seq<SqlStep>, j: nat)
    requires 0 < j <= |steps|
    ensures After(db, steps[..j]) == After(Effect(steps[0].stmt, db).0, steps[1..][..j - 1])
  {
    assert steps[..j][1..] == steps[1..][..j - 1];
  }

  lemma MeetsShifts(db: Db, steps: seq<SqlStep>, j: nat)
    requires 0 < j < |steps|
    ensures MeetsAt(db, steps, j) <==> MeetsAt(Effect(steps[0].stmt, db).0, steps[1..], j - 1)
  {
    AfterOneMore(db, steps, j);
  }

  lemma MeetsBoth(s: SqlStep, v: Val)
    requires s.expectedAffected >= -1
    ensures Meets(s, v) <==> MeetsAffected(s, v) && MeetsData(s, v)
  {
    EqualValueIsEquality(v, s.expectedData);
  }

  /** The steps run up to the first one whose call fails or whose report is not as expected, and no further. */
  lemma {:induction false} StepsGetTo(task: DbTask, db: Db, steps: seq<SqlStep>, k: nat, w: Weather) returns (j: nat)
    requires forall i :: 0 <= i < |steps| ==> steps[i].expectedAffected >= -1
    ensures j <= |steps| && Calm(w, k, j) && forall i: nat :: i < j ==> MeetsAt(db, steps, i)
    ensures var p := RunSteps(task, db, steps, k, w);
            if j == |steps| then p == Through(After(db, steps), Reports(db, steps))
            else p == Stopped(if w.execute(k + j).Fault? then Copied(task, w.execute(k + j)) else Rejected(task, BusinessRejected))
                 && (w.execute(k + j).Fine? ==> !MeetsAt(db, steps, j))
    decreases |steps|
  {
    if steps == [] {
      j := 0;
    } else {
      var (db', v) := Effect(steps[0].stmt, db);
      MeetsBoth(steps[0], v);
      assert steps[..0] == [];
      if w.execute(k).Fault? || !Meets(steps[0], v) {
        j := 0;
      } else {
        var i := StepsGetTo(task, db', steps[1..], k + 1, w);
        j := i + 1;
        forall h: nat | h < j ensures MeetsAt(db, steps, h) { if h > 0 { MeetsShifts(db, steps, h); } }
        if j < |steps| { MeetsShifts(db, steps, j); }
        assert k + 1 + i == k + j;
      }
    }
  }

  lemma RunsThroughIff(task: DbTask, db: Db, k: nat, w: Weather)
    requires forall i :: 0 <= i < |task.steps| ==> task.steps[i].expectedAffected >= -1
    ensures var p := RunSteps(task, db, task.steps, k, w);
            && (p.Through? <==> Calm(w, k, |task.steps|) && AllMeet(db, task.steps))
            && (p.Through? ==> p == Through(After(db, task.steps), Reports(db, task.steps)))
  {
    var j := StepsGetTo(task, db, task.steps, k, w);
    if j < |task.steps| { assert k <= k + j < k + |task.steps|; }
  }

  lemma AcceptableIff(task: DbTask)
    ensures WellFormed(task) <==> Acceptable(task)
  {
    forall s ensures ValidStep(s) <==> Reads(s) || Writes(s) {}
    if WellFormed(task) {
      forall s | s in task.steps ensures Reads(s) || Writes(s) { var i :| 0 <= i < |task.steps| && task.steps[i] == s; }
      forall s | s in task.verification ensures Reads(s) && s.checkData {
        var i :| 0 <= i < |task.verification| && task.verification[i] == s;
        assert IsCheck(task.verification[i]);
      }
    }
    if Acceptable(task) {
      forall i | 0 <= i < |task.steps| ensures ValidStep(task.steps[i]) { assert task.steps[i] in task.steps; }
      forall i | 0 <= i < |task.verification| ensures IsCheck(task.verification[i]) { assert task.verification[i] in task.verification; }
    }
  }

  /** A transaction may write: at once, or for a save when the stored version is the lower one. Its first step is call k. */
  ghost predicate MayWrite(task: DbTask, db: Db, w: Weather, k: nat) {
    && Acceptable(task) && w.begin.Fine?
    && (if task.kind == 4 then k == 0
        else k == 1 && w.execute(0).Fine? && task.player in db.players && 0 <= db.players[task.player].version < task.version)
  }

  lemma LockedIs(db: Db, player: nat)
    ensures LockedVersion(Effect(SelectVersion(player), db).1)
            == if player in db.players && db.players[player].version >= 0 then Some(db.players[player].version) else None
  {
    if player in db.players {
      var v := Arr([Arr([Int(db.players[player].version)])]);
      assert v.a[0].a[0] == Int(db.players[player].version);
    }
  }

  lemma WritesExactlyWhen(task: DbTask, db: Db, w: Weather, k: nat)
    requires MayWrite(task, db, w, k)
    ensures Execute(task, db, w) == Write(task, db, k, w) && forall i :: 0 <= i < |task.steps| ==> task.steps[i].expectedAffected >= -1
  {
    AcceptableIff(task);
    LockedIs(db, task.player);
    forall i | 0 <= i < |task.steps| ensures task.steps[i].expectedAffected >= -1 { assert task.steps[i] in task.steps; }
  }

  lemma NoWriteNoCommit(task: DbTask, db: Db, w: Weather)
    requires !MayWrite(task, db, w, 0) && !MayWrite(task, db, w, 1)
    ensures var o := Execute(task, db, w); !o.committed && o.db == db
  {
    AcceptableIff(task);
    LockedIs(db, task.player);
  }

  /**
   * A transaction takes effect exactly when it may write, every step's call succeeds and reports what it
   * should, and the commit lands; its effect is that of all its steps in order. It then succeeds exactly when
   * the commit is confirmed too, and reports what every step reported.
   */
  lemma CommitsExactlyWhen(task: DbTask, db: Db, w: Weather, k: nat)
    requires Honest(w) && k == (if task.kind == 4 then 0 else 1)
    ensures var o, n := Execute(task, db, w), |task.steps|;
            && (o.committed <==> MayWrite(task, db, w, k) && Calm(w, k, n) && AllMeet(db, task.steps) && (w.commit.Fine? || w.landed))
            && (o.db == if o.committed then After(db, task.steps) else db)
            && (o.committed ==> if w.commit.Fine? then Succeeded(o.result) && o.result.data == Arr(Reports(db, task.steps))
                                else o.result.class_ == OutcomeUnknown)
  {
    if MayWrite(task, db, w, k) {
      WritesExactlyWhen(task, db, w, k);
      RunsThroughIff(task, db, k, w);
    } else {
      NoWriteNoCommit(task, db, w);
    }
  }

  // ---- what is said when it does not -----------------------------------------------------------------------

  /** The fault is passed on; it never reads as a success. */
  predicate Reported(r: DbResult, f: Fault) {
    f.Fault? && r.errcode == f.errcode && r.native == f.native && r.class_ == (if f.class_ == Success then Failure else f.class_)
  }

  predicate Refused(r: DbResult, c: ResultClass) { r.class_ == c && (if c == Superseded then r.errcode == 0 else r.errcode == 1010) }

  /** The answer to a transaction that was begun stands if it could be rolled back. */
  predicate Unclear(r: DbResult) { r.errcode == 1011 && r.class_ == OutcomeUnknown }

  /** Not begun: the task is refused, or the fault is passed on. */
  lemma NotBegun(task: DbTask, db: Db, w: Weather)
    ensures !Acceptable(task) ==> Refused(Execute(task, db, w).result, Failure)
    ensures Acceptable(task) && w.begin.Fault? ==> Reported(Execute(task, db, w).result, w.begin)
  {
    AcceptableIff(task);
  }

  /** A save that may not write, from the stored row: no sane row, a newer one, or its own version, which it verifies. */
  lemma SaveRefused(task: DbTask, db: Db, w: Weather)
    requires Honest(w) && Acceptable(task) && task.kind == 5 && w.begin.Fine?
    ensures var r := Execute(task, db, w).result;
            !w.rollback && !MayWrite(task, db, w, 1) ==> Unclear(r)
    ensures var r := Execute(task, db, w).result;
            w.rollback ==>
              && (w.execute(0).Fault? ==> Reported(r, w.execute(0)))
              && (w.execute(0).Fine? && !(task.player in db.players && db.players[task.player].version >= 0) ==> Refused(r, VersionConflict))
              && (w.execute(0).Fine? && task.player in db.players && db.players[task.player].version > task.version ==> Refused(r, Superseded))
    ensures var r := Execute(task, db, w).result;
            w.rollback && w.execute(0).Fine? && task.player in db.players && db.players[task.player].version == task.version && Calm(w, 1, 3) ==>
              if Matches(db, task.verification) then Succeeded(r) else Refused(r, VersionConflict)
  {
    AcceptableIff(task);
    LockedIs(db, task.player);
    CalmChecks(task, db, task.verification, 1, w);
  }

  lemma {:induction false} CalmChecks(task: DbTask, db: Db, checks: seq<SqlStep>, k: nat, w: Weather)
    ensures Calm(w, k, |checks|) ==> RunChecks(task, db, checks, k, w) == if Matches(db, checks) then Blank(task) else Rejected(task, VersionConflict)
    decreases |checks|
  {
    if checks != [] {
      CalmChecks(task, db, checks[1..], k + 1, w);
      EqualValueIsEquality(Effect(checks[0].stmt, db).1, checks[0].expectedData);
    }
  }

  /** A transaction that may write and does not commit says why: the first call that failed, the first report
      that was not as expected, or the commit. */
  lemma WriteRefused(task: DbTask, db: Db, w: Weather, k: nat) returns (j: nat)
    requires Honest(w) && MayWrite(task, db, w, k)
    ensures j <= |task.steps| && Calm(w, k, j) && forall i: nat :: i < j ==> MeetsAt(db, task.steps, i)
    ensures var r := Execute(task, db, w).result;
            if j == |task.steps| then w.commit.Fault? && w.rollback ==> Reported(r, w.commit)
            else if !w.rollback then Unclear(r)
            else if w.execute(k + j).Fault? then Reported(r, w.execute(k + j))
            else !MeetsAt(db, task.steps, j) && Refused(r, BusinessRejected)
  {
    WritesExactlyWhen(task, db, w, k);
    j := StepsGetTo(task, db, task.steps, k, w);
  }
}
