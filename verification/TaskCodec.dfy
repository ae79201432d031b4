/** The wire form of database tasks: argument lists, statement lists and the two task layouts. */
module TaskCodec {
  import opened Common
  import opened Endian
  import opened DbValue
  import opened ValueCodec

  const MaxSteps: nat := 65540
  const MaxArgs: nat := 65536
  const MaxArg: nat := 1024 * 1024
  const MaxTask: nat := 32 * 1024 * 1024

  datatype WireStep = WireStep(kind: byte, expectedAffected: i64, checkData: bool, args: seq<bytes>, expectedData: Val)

  datatype WireTask = WireTask(
    kind: byte, args: seq<bytes>, steps: seq<WireStep>, verification: seq<WireStep>,
    playerId: u64, saveVersion: u64, capturedRevision: u64, lifecycleToken: u64)

  // ---- argument lists ----

  function EncodeArgs(args: seq<bytes>): (r: bytes)
    ensures |r| >= 4 * |args|
  {
    if args == [] then [] else Little(|args[0]|, 4) + (args[0] + EncodeArgs(args[1..]))
  }

  function DecodeArg(s: bytes, cap: nat): (r: Option<Parsed<bytes>>)
    ensures r.Some? ==> |r.value.rest| < |s|
  {
    var n := TakeUint(s, 4);
    if n.None? || n.value.value > cap then None else TakeBytes(n.value.rest, n.value.value)
  }

  function DecodeArgs(s: bytes, n: nat, cap: nat): (r: Option<Parsed<seq<bytes>>>)
    ensures r.Some? ==> |r.value.value| == n && |r.value.rest| <= |s|
    decreases n
  {
    if n == 0 then Some(Parsed([], s))
    else
      var a := DecodeArg(s, cap);
      if a.None? then None
      else
        var more := DecodeArgs(a.value.rest, n - 1, cap);
        if more.None? then None else Some(Parsed([a.value.value] + more.value.value, more.value.rest))
  }

  predicate Within(args: seq<bytes>, cap: nat) { forall k :: 0 <= k < |args| ==> |args[k]| <= cap }

  lemma ArgRoundTrip(a: bytes, cap: nat, t: bytes)
    requires |a| <= cap < 0x1_0000_0000
    ensures DecodeArg(Little(|a|, 4) + (a + t), cap) == Some(Parsed(a, t))
  {
    Widths();
    TakeLittle(|a|, 4, a + t);
    TakeExactly(a, t);
  }

  lemma {:induction false} ArgsRoundTrip(args: seq<bytes>, cap: nat, t: bytes)
    requires Within(args, cap) && cap < 0x1_0000_0000
    ensures DecodeArgs(EncodeArgs(args) + t, |args|, cap) == Some(Parsed(args, t))
  {
    if args == [] {
      assert [] + t == t;
    } else {
      var rest := EncodeArgs(args[1..]) + t;
      ArgRoundTrip(args[0], cap, rest);
      ArgsRoundTrip(args[1..], cap, t);
      InThreeParts(Little(|args[0]|, 4), args[0], EncodeArgs(args[1..]), t);
      assert args == [args[0]] + args[1..];
    }
  }

  lemma InThreeParts(a: bytes, b: bytes, c: bytes, t: bytes)
    ensures a + (b + c) + t == a + (b + (c + t))
  {
  }

  lemma ArgIsCanonical(s: bytes, cap: nat)
    requires DecodeArg(s, cap).Some?
    ensures var a := DecodeArg(s, cap).value; |a.value| <= cap && s == Little(|a.value|, 4) + (a.value + a.rest)
  {
    TakenIsLittle(s, 4);
    var n := TakeUint(s, 4).value;
    assert n.rest == n.rest[..n.value] + n.rest[n.value..];
  }

  predicate ArgsAre(s: bytes, cap: nat, p: Parsed<seq<bytes>>) {
    Within(p.value, cap) && s == EncodeArgs(p.value) + p.rest
  }

  lemma {:induction false} ArgsAreCanonical(s: bytes, n: nat, cap: nat)
    requires DecodeArgs(s, n, cap).Some?
    ensures ArgsAre(s, cap, DecodeArgs(s, n, cap).value)
    decreases n
  {
    if n > 0 {
      ArgIsCanonical(s, cap);
      var a := DecodeArg(s, cap).value;
      ArgsAreCanonical(a.rest, n - 1, cap);
      MoreArgs(s, cap, a, DecodeArgs(a.rest, n - 1, cap).value);
    }
  }

  lemma MoreArgs(s: bytes, cap: nat, a: Parsed<bytes>, p: Parsed<seq<bytes>>)
    requires |a.value| <= cap && s == Little(|a.value|, 4) + (a.value + a.rest) && ArgsAre(a.rest, cap, p)
    ensures ArgsAre(s, cap, Parsed([a.value] + p.value, p.rest))
  {
    var all := [a.value] + p.value;
    assert all[1..] == p.value;
    InThreeParts(Little(|a.value|, 4), a.value, EncodeArgs(p.value), p.rest);
  }

  // ---- statements ----

  function Head(st: WireStep): (r: bytes)
    ensures |r| == 14
  {
    [st.kind] + Little(Unsigned64(st.expectedAffected), 8) + [if st.checkData then 1 else 0] + Little(|st.args|, 4)
  }

  function EncodeStep(st: WireStep): (r: bytes)
    ensures |r| >= 15
  {
    Head(st) + (EncodeArgs(st.args) + EncodeVal(st.expectedData, 0))
  }

  /** What the encoder insists on. */
  predicate StepEncodable(st: WireStep) { 1 <= |st.args| <= MaxArgs && Within(st.args, MaxArg) }

  /** What the decoder insists on. */
  predicate StepOk(st: WireStep) {
    StepEncodable(st) && (st.kind == 1 || st.kind == 2) && st.expectedAffected >= -1 && Fits(st.expectedData, 0)
  }

  function AffectedOf(s: bytes): i64
    requires |s| >= 9
  {
    Widths();
    LittleInverse(s[1..9]);
    Signed64(FromLittle(s[1..9]))
  }

  function DecodeStep(s: bytes): (r: Option<Parsed<WireStep>>)
    ensures r.Some? ==> |r.value.rest| < |s|
  {
    if |s| < 14 then None
    else
      var argc, u := FromLittle(s[10..14]), s[14..];
      if (s[0] != 1 && s[0] != 2) || s[9] > 1 || AffectedOf(s) < -1 then None
      else if argc == 0 || argc > MaxArgs || |u| < argc * 4 then None
      else
        var args := DecodeArgs(u, argc, MaxArg);
        if args.None? then None
        else
          var v := DecodeVal(args.value.rest, 0);
          if v.None? then None
          else Some(Parsed(WireStep(s[0], AffectedOf(s), s[9] == 1, args.value.value, v.value.value), v.value.rest))
  }

  lemma HeadFields(st: WireStep, t: bytes)
    requires |st.args| <= MaxArgs
    ensures var s := Head(st) + t;
            && s[0] == st.kind && AffectedOf(s) == st.expectedAffected
            && s[9] == (if st.checkData then 1 else 0) && FromLittle(s[10..14]) == |st.args| && s[14..] == t
  {
    var s := Head(st) + t;
    Widths();
    LittleRoundTrip(Unsigned64(st.expectedAffected), 8);
    LittleRoundTrip(|st.args|, 4);
    assert s[1..9] == Little(Unsigned64(st.expectedAffected), 8);
    assert s[10..14] == Little(|st.args|, 4);
  }

  lemma StepRoundTrip(st: WireStep, t: bytes)
    requires StepOk(st)
    ensures DecodeStep(EncodeStep(st) + t) == Some(Parsed(st, t))
  {
    var e, v := EncodeArgs(st.args), EncodeVal(st.expectedData, 0);
    var s := Head(st) + (e + (v + t));
    InThreeParts(Head(st), e, v, t);
    HeadFields(st, e + (v + t));
    ArgsRoundTrip(st.args, MaxArg, v + t);
    ValueRoundTrip(st.expectedData, 0, t);
  }

  lemma HeadIs(s: bytes, st: WireStep)
    requires |s| >= 14 && s[0] == st.kind && s[9] == (if st.checkData then 1 else 0)
    requires AffectedOf(s) == st.expectedAffected && FromLittle(s[10..14]) == |st.args|
    ensures s == Head(st) + s[14..]
  {
    Widths();
    LittleInverse(s[1..9]);
    LittleInverse(s[10..14]);
    assert s[1..9] == Little(Unsigned64(st.expectedAffected), 8);
    HeadParts(s);
  }

  lemma HeadParts(s: bytes)
    requires |s| >= 14
    ensures s == [s[0]] + s[1..9] + [s[9]] + s[10..14] + s[14..]
  {
    assert s[..9] == [s[0]] + s[1..9];
    assert s[..10] == s[..9] + [s[9]];
    assert s[..14] == s[..10] + s[10..14];
    assert s == s[..14] + s[14..];
  }

  lemma StepIsCanonical(s: bytes)
    requires DecodeStep(s).Some?
    ensures var p := DecodeStep(s).value; StepOk(p.value) && s == EncodeStep(p.value) + p.rest
  {
    var p := DecodeStep(s).value;
    var u, argc := s[14..], FromLittle(s[10..14]);
    var args := DecodeArgs(u, argc, MaxArg).value;
    ArgsAreCanonical(u, argc, MaxArg);
    DecodedIsCanonical(args.rest, 0);
    HeadIs(s, p.value);
    InThreeParts(Head(p.value), EncodeArgs(args.value), EncodeVal(p.value.expectedData, 0), p.rest);
  }

  // ---- statement lists ----

  function EncodeSteps(l: seq<WireStep>): (r: bytes)
    ensures |r| >= 15 * |l|
  {
    if l == [] then [] else EncodeStep(l[0]) + EncodeSteps(l[1..])
  }

  function DecodeSteps(s: bytes, n: nat): (r: Option<Parsed<seq<WireStep>>>)
    ensures r.Some? ==> |r.value.value| == n && |r.value.rest| <= |s|
    decreases n
  {
    if n == 0 then Some(Parsed([], s))
    else
      var st := DecodeStep(s);
      if st.None? then None
      else
        var more := DecodeSteps(st.value.rest, n - 1);
        if more.None? then None else Some(Parsed([st.value.value] + more.value.value, more.value.rest))
  }

  predicate AllOk(l: seq<WireStep>) { forall k :: 0 <= k < |l| ==> StepOk(l[k]) }

  predicate AllEncodable(l: seq<WireStep>) { forall k :: 0 <= k < |l| ==> StepEncodable(l[k]) }

  lemma {:induction false} StepsRoundTrip(l: seq<WireStep>, t: bytes)
    requires AllOk(l)
    ensures DecodeSteps(EncodeSteps(l) + t, |l|) == Some(Parsed(l, t))
  {
    if l == [] {
      assert [] + t == t;
    } else {
      var rest := EncodeSteps(l[1..]) + t;
      StepRoundTrip(l[0], rest);
      StepsRoundTrip(l[1..], t);
      Reassociate(EncodeStep(l[0]), EncodeSteps(l[1..]), t);
      DecodeMoreSteps(EncodeStep(l[0]) + rest, l[0], rest, l[1..], t);
      assert l == [l[0]] + l[1..];
    }
  }

  lemma DecodeMoreSteps(s: bytes, st: WireStep, rest: bytes, l: seq<WireStep>, t: bytes)
    requires DecodeStep(s) == Some(Parsed(st, rest)) && DecodeSteps(rest, |l|) == Some(Parsed(l, t))
    ensures DecodeSteps(s, |l| + 1) == Some(Parsed([st] + l, t))
  {
  }

  predicate StepsAre(s: bytes, p: Parsed<seq<WireStep>>) { AllOk(p.value) && s == EncodeSteps(p.value) + p.rest }

  lemma {:induction false} StepsAreCanonical(s: bytes, n: nat)
    requires DecodeSteps(s, n).Some?
    ensures StepsAre(s, DecodeSteps(s, n).value)
    decreases n
  {
    if n > 0 {
      StepIsCanonical(s);
      var st := DecodeStep(s).value;
      StepsAreCanonical(st.rest, n - 1);
      MoreSteps(s, st, DecodeSteps(st.rest, n - 1).value);
    }
  }

  lemma MoreSteps(s: bytes, st: Parsed<WireStep>, p: Parsed<seq<WireStep>>)
    requires StepOk(st.value) && s == EncodeStep(st.value) + st.rest && StepsAre(st.rest, p)
    ensures StepsAre(s, Parsed([st.value] + p.value, p.rest))
  {
    var all := [st.value] + p.value;
    assert all[1..] == p.value;
    Reassociate(EncodeStep(st.value), EncodeSteps(p.value), p.rest);
  }

  function EncodeList(l: seq<WireStep>): bytes { Little(|l|, 4) + EncodeSteps(l) }

  function DecodeList(s: bytes): Option<Parsed<seq<WireStep>>> {
    var n := TakeUint(s, 4);
    if n.None? || n.value.value > MaxSteps || |n.value.rest| < n.value.value * 15 then None
    else DecodeSteps(n.value.rest, n.value.value)
  }

  lemma ListRoundTrip(l: seq<WireStep>, t: bytes)
    requires AllOk(l) && |l| <= MaxSteps
    ensures DecodeList(EncodeList(l) + t) == Some(Parsed(l, t))
  {
    Widths();
    Reassociate(Little(|l|, 4), EncodeSteps(l), t);
    TakeLittle(|l|, 4, EncodeSteps(l) + t);
    StepsRoundTrip(l, t);
  }

  lemma ListIsCanonical(s: bytes)
    requires DecodeList(s).Some?
    ensures var p := DecodeList(s).value; AllOk(p.value) && |p.value| <= MaxSteps && s == EncodeList(p.value) + p.rest
  {
    TakenIsLittle(s, 4);
    var n := TakeUint(s, 4).value;
    StepsAreCanonical(n.rest, n.value);
    var p := DecodeSteps(n.rest, n.value).value;
    Reassociate(Little(n.value, 4), EncodeSteps(p.value), p.rest);
  }

  // ---- tasks ----

  /** The magic 0xDB01, low byte first. */
  const Magic: bytes := [0x01, 0xDB]

  lemma MagicIsLittle()
    ensures Magic == Little(0xDB01, 2)
  {
    assert Little(0xDB, 1) == [0xDB] + Little(0, 0) == [0xDB];
  }

  function FieldAt(u: bytes, at: nat, n: nat): (v: nat)
    requires at + n <= |u|
    ensures v < Pow256(n)
  {
    LittleInverse(u[at..at + n]);
    FromLittle(u[at..at + n])
  }

  predicate Transaction(t: WireTask) { t.kind == 4 || t.kind == 5 }

  function TaskHead(t: WireTask): (r: bytes)
    ensures |r| == 36
  {
    Magic + [2, t.kind] + Little(t.playerId, 8) + Little(t.saveVersion, 8) + Little(t.capturedRevision, 8)
    + Little(t.lifecycleToken, 8)
  }

  function TransactionText(t: WireTask): bytes { TaskHead(t) + (EncodeList(t.steps) + EncodeList(t.verification)) }

  /** What the encoder insists on in a transaction; otherwise it throws. */
  predicate Encodable(t: WireTask) {
    && 1 <= |t.steps| <= MaxSteps && |t.verification| <= MaxSteps
    && AllEncodable(t.steps) && AllEncodable(t.verification)
    && |TransactionText(t)| <= MaxTask
  }

  /** None stands for the exception. */
  function EncodeTask(t: WireTask): Option<bytes> {
    if Transaction(t) then if Encodable(t) then Some(TransactionText(t)) else None
    else Some(Magic + [1, t.kind] + Little(|t.args|, 4) + EncodeArgs(t.args))
  }

  function DecodeTransaction(body: bytes): Option<WireTask>
    requires |body| >= 3
  {
    if |body| > MaxTask || |body| < 36 || (body[3] != 4 && body[3] != 5) then None
    else
      var steps := DecodeList(body[36..]);
      if steps.None? || steps.value.value == [] then None
      else
        var checks := DecodeList(steps.value.rest);
        if checks.None? || checks.value.rest != [] then None
        else
          Widths();
          Some(WireTask(body[3], [], steps.value.value, checks.value.value, FieldAt(body, 4, 8), FieldAt(body, 12, 8),
                        FieldAt(body, 20, 8), FieldAt(body, 28, 8)))
  }

  /** A command of the older layout. */
  function DecodeCommand(body: bytes): Option<WireTask>
    requires |body| >= 8
  {
    var n, u := FieldAt(body, 4, 4), body[8..];
    if n > MaxItems || |u| < n * 4 then None
    else
      var args := DecodeArgs(u, n, 0xFFFF_FFFF);
      if args.None? || args.value.rest != [] then None else Some(WireTask(body[3], args.value.value, [], [], 0, 0, 0, 0))
  }

  function DecodeTask(body: bytes): Option<WireTask> {
    if |body| < 8 || FieldAt(body, 0, 2) != 0xDB01 then None
    else if body[2] == 2 then DecodeTransaction(body)
    else if body[2] != 1 then None
    else DecodeCommand(body)
  }

  lemma FieldOfLittle(u: bytes, at: nat, n: nat, v: nat)
    requires at + n <= |u| && u[at..at + n] == Little(v, n) && v < Pow256(n)
    ensures FieldAt(u, at, n) == v
  {
    LittleRoundTrip(v, n);
  }

  lemma LittleOfField(u: bytes, at: nat, n: nat)
    requires at + n <= |u|
    ensures Little(FieldAt(u, at, n), n) == u[at..at + n]
  {
    LittleInverse(u[at..at + n]);
  }

  lemma MagicField(u: bytes)
    requires |u| >= 2
    ensures FieldAt(u, 0, 2) == 0xDB01 <==> u[0..2] == Magic
  {
    Widths();
    MagicIsLittle();
    LittleOfField(u, 0, 2);
    if u[0..2] == Magic {
      FieldOfLittle(u, 0, 2, 0xDB01);
    }
  }

  lemma TaskHeadFields(t: WireTask, x: bytes)
    ensures var u := TaskHead(t) + x;
            && u[0..2] == Magic && u[2] == 2 && u[3] == t.kind && u[36..] == x
            && FieldAt(u, 4, 8) == t.playerId && FieldAt(u, 12, 8) == t.saveVersion
            && FieldAt(u, 20, 8) == t.capturedRevision && FieldAt(u, 28, 8) == t.lifecycleToken
  {
    var u := TaskHead(t) + x;
    Widths();
    assert u[4..12] == Little(t.playerId, 8);
    assert u[12..20] == Little(t.saveVersion, 8);
    assert u[20..28] == Little(t.capturedRevision, 8);
    assert u[28..36] == Little(t.lifecycleToken, 8);
    FieldOfLittle(u, 4, 8, t.playerId);
    FieldOfLittle(u, 12, 8, t.saveVersion);
    FieldOfLittle(u, 20, 8, t.capturedRevision);
    FieldOfLittle(u, 28, 8, t.lifecycleToken);
  }

  /** Decoding a transaction gives back its statements and its identity, though never the unused arguments. */
  lemma TransactionRoundTrip(t: WireTask)
    requires Transaction(t) && Encodable(t) && AllOk(t.steps) && AllOk(t.verification)
    ensures DecodeTask(TransactionText(t)) == Some(t.(args := []))
  {
    var body := TransactionText(t);
    TaskHeadFields(t, EncodeList(t.steps) + EncodeList(t.verification));
    MagicField(body);
    ListRoundTrip(t.steps, EncodeList(t.verification));
    ListRoundTrip(t.verification, []);
    assert EncodeList(t.verification) + [] == EncodeList(t.verification);
  }

  lemma TaskHeadIs(u: bytes, t: WireTask)
    requires |u| >= 36 && u[0..2] == Magic && u[2] == 2 && u[3] == t.kind
    requires FieldAt(u, 4, 8) == t.playerId && FieldAt(u, 12, 8) == t.saveVersion
    requires FieldAt(u, 20, 8) == t.capturedRevision && FieldAt(u, 28, 8) == t.lifecycleToken
    ensures u == TaskHead(t) + u[36..]
  {
    LittleOfField(u, 4, 8);
    LittleOfField(u, 12, 8);
    LittleOfField(u, 20, 8);
    LittleOfField(u, 28, 8);
    assert u[2..4] == [2, t.kind];
    SixParts(u);
  }

  lemma SixParts(u: bytes)
    requires |u| >= 36
    ensures u == u[0..2] + u[2..4] + u[4..12] + u[12..20] + u[20..28] + u[28..36] + u[36..]
  {
    assert u[0..4] == u[0..2] + u[2..4];
    assert u[0..12] == u[0..4] + u[4..12];
    assert u[0..20] == u[0..12] + u[12..20];
    assert u[0..28] == u[0..20] + u[20..28];
    assert u[0..36] == u[0..28] + u[28..36];
    assert u == u[0..36] + u[36..];
  }

  lemma TransactionIsCanonical(body: bytes)
    requires |body| >= 8 && body[2] == 2 && DecodeTask(body).Some?
    ensures var t := DecodeTask(body).value;
            && Transaction(t) && t.args == [] && AllOk(t.steps) && AllOk(t.verification)
            && EncodeTask(t) == Some(body)
  {
    var t := DecodeTask(body).value;
    MagicField(body);
    TaskHeadIs(body, t);
    var u := body[36..];
    ListIsCanonical(u);
    var rest := DecodeList(u).value.rest;
    ListIsCanonical(rest);
    assert EncodeList(t.verification) + [] == EncodeList(t.verification);
  }

  /** A transaction that can be sent is received as sent exactly when it carries no arguments of its own (the
      encoder drops them) and every statement is a query or a command, expects at least -1 rows and carries an
      expected value the wire can hold. */
  lemma TransactionSurvivesIff(t: WireTask)
    requires Transaction(t) && Encodable(t)
    ensures DecodeTask(EncodeTask(t).value) == Some(t) <==> t.args == [] && AllOk(t.steps) && AllOk(t.verification)
  {
    if AllOk(t.steps) && AllOk(t.verification) {
      TransactionRoundTrip(t);
    }
    var body := EncodeTask(t).value;
    TaskHeadFields(t, EncodeList(t.steps) + EncodeList(t.verification));
    if DecodeTask(body) == Some(t) {
      TransactionIsCanonical(body);
    }
  }

  /** The layout of commands loses everything but kind and arguments. */
  predicate PlainCommand(t: WireTask) {
    && t.steps == [] && t.verification == []
    && t.playerId == 0 && t.saveVersion == 0 && t.capturedRevision == 0 && t.lifecycleToken == 0
    && |t.args| <= MaxItems && Within(t.args, 0xFFFF_FFFF)
  }

  lemma CommandLayout(t: WireTask)
    requires !Transaction(t)
    ensures var u := EncodeTask(t).value;
            |u| >= 8 && u[0..2] == Magic && u[2] == 1 && u[3] == t.kind
            && u[4..8] == Little(|t.args|, 4) && u[8..] == EncodeArgs(t.args)
  {
  }

  lemma CommandSurvivesIff(t: WireTask)
    requires !Transaction(t)
    ensures DecodeTask(EncodeTask(t).value) == Some(t) <==> PlainCommand(t)
  {
    var body := EncodeTask(t).value;
    CommandLayout(t);
    MagicField(body);
    Widths();
    if PlainCommand(t) {
      FieldOfLittle(body, 4, 4, |t.args|);
      ArgsRoundTrip(t.args, 0xFFFF_FFFF, []);
      assert EncodeArgs(t.args) + [] == EncodeArgs(t.args);
    }
    if DecodeTask(body) == Some(t) {
      ArgsAreCanonical(body[8..], FieldAt(body, 4, 4), 0xFFFF_FFFF);
    }
  }
}
