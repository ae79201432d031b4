/** The decoder against the reference: what each call keeps, and why chunking cannot matter. */
module FrameTheorems {
  import opened Common
  import opened FrameSpec

  // ---- more bytes never change a judgement already made ----

  lemma ExamineStable(f: Format, u: bytes, t: bytes)
    requires |u| >= HeaderSize && Examine(f, u) != Wait
    ensures Examine(f, u + t) == Examine(f, u)
  {
    var s := u + t;
    assert s[2..4] == u[2..4] && s[16..20] == u[16..20] && s[26..30] == u[26..30] && s[20..32] == u[20..32];
  }

  lemma {:induction false} SkipOne(f: Format, s: bytes, t: bytes)
    requires |s| >= 2 && !Starts(f, s)
    ensures Frames(f, s + t) == Frames(f, s[1..] + t)
  {
    assert (s + t)[1..] == s[1..] + t;
  }

  /** Bytes in front of the first magic carry no frame. */
  lemma {:induction false} SkipToMagic(f: Format, s: bytes, p: nat, t: bytes)
    requires p + 2 <= |s| && NoneBefore(f, s, p)
    ensures Frames(f, s + t) == Frames(f, s[p..] + t)
    decreases p
  {
    if p == 0 {
      assert s[0..] == s;
    } else {
      assert s[0..] == s;
      SkipOne(f, s, t);
      assert forall k :: 0 <= k < p - 1 ==> s[1..][k..] == s[k + 1..];
      SkipToMagic(f, s[1..], p - 1, t);
      assert s[1..][p - 1..] == s[p..];
    }
  }

  /** Without a magic only the last byte can begin one. */
  lemma {:induction false} SkipAll(f: Format, s: bytes, t: bytes)
    requires |s| >= 1 && NoneBefore(f, s, |s|)
    ensures Frames(f, s + t) == Frames(f, s[|s| - 1..] + t)
    decreases |s|
  {
    if |s| == 1 {
      assert s[0..] == s;
    } else {
      assert s[0..] == s;
      SkipOne(f, s, t);
      assert forall k :: 0 <= k < |s| - 1 ==> s[1..][k..] == s[k + 1..];
      SkipAll(f, s[1..], t);
      assert s[1..][|s| - 2..] == s[|s| - 1..];
    }
  }

  lemma SkipCandidate(f: Format, u: bytes, t: bytes)
    requires |u| >= HeaderSize && Starts(f, u) && (Examine(f, u) == Reject || Examine(f, u) == Broken)
    ensures Frames(f, u + t) == Frames(f, u[2..] + t)
  {
    ExamineStable(f, u, t);
    assert (u + t)[2..] == u[2..] + t;
  }

  lemma TakeWhole(f: Format, u: bytes, t: bytes)
    requires |u| >= HeaderSize && Starts(f, u) && Examine(f, u).Whole?
    ensures var n := Examine(f, u).len; Frames(f, u + t) == [u[..n]] + Frames(f, u[n..] + t)
  {
    var n := Examine(f, u).len;
    ExamineStable(f, u, t);
    assert (u + t)[..n] == u[..n];
    assert (u + t)[n..] == u[n..] + t;
  }

  /** The frame a decoder call yields, if any. */
  function Yield(o: Outcome): seq<bytes> { if o.Ok? then [o.frame] else [] }

  /** Whatever follows, the frames of s are the one a call yields and those of what it leaves. */
  predicate Keeps(f: Format, s: bytes, d: Decoded, t: bytes) {
    Frames(f, s + t) == Yield(d.outcome) + Frames(f, d.rest + t)
  }

  lemma StuckKeeps(f: Format, s: bytes, d: Decoded, t: bytes)
    requires Frames(f, s + t) == Frames(f, d.rest + t) && !d.outcome.Ok?
    ensures Keeps(f, s, d, t)
  {
  }

  /** Where the search leads, whether it ends the call or not. */
  function Reached(k: Sought): bytes { if k.Stuck? then k.result.rest else k.u }

  lemma SeekReaches(f: Format, s: bytes, resync: nat, t: bytes)
    ensures Frames(f, s + t) == Frames(f, Reached(Seek(f, s, resync)) + t)
  {
    if |s| >= HeaderSize {
      FirstMagicIsFirst(f, s);
      var p := FirstMagic(f, s);
      if p.None? {
        SkipAll(f, s, t);
      } else {
        SkipToMagic(f, s, p.value, t);
        assert Reached(Seek(f, s, resync)) == s[p.value..];
      }
    }
  }

  lemma SeekKeepsFrames(f: Format, s: bytes, resync: nat, t: bytes)
    ensures var k := Seek(f, s, resync);
            if k.Stuck? then Keeps(f, s, k.result, t) else Frames(f, s + t) == Frames(f, k.u + t)
  {
    SeekReaches(f, s, resync, t);
    var k := Seek(f, s, resync);
    if k.Stuck? { StuckKeeps(f, s, k.result, t); }
  }

  /** Whatever follows, the frames of the stream are the one this call yields and those of what it leaves. */
  lemma {:induction false} DecodeKeepsFrames(f: Format, s: bytes, resync: nat, t: bytes)
    ensures Keeps(f, s, Decode(f, s, resync), t)
    decreases |s|
  {
    SeekKeepsFrames(f, s, resync, t);
    var k := Seek(f, s, resync);
    if k.Ready? {
      JudgeKeepsFrames(f, k.u, k.resync, t);
    }
  }

  lemma {:induction false} JudgeKeepsFrames(f: Format, u: bytes, resync: nat, t: bytes)
    requires |u| >= HeaderSize && Starts(f, u)
    ensures Keeps(f, u, Judge(f, u, resync), t)
    decreases |u|, 0
  {
    if Examine(f, u) == Reject && resync + 1 <= MaxResync {
      DecodeKeepsFrames(f, u[2..], resync + 1, t);
      SkipsKeep(f, u, Decode(f, u[2..], resync + 1), t);
    } else {
      SettledKeeps(f, u, resync, t);
    }
  }

  lemma SkipsKeep(f: Format, u: bytes, d: Decoded, t: bytes)
    requires |u| >= HeaderSize && Starts(f, u) && Examine(f, u) == Reject && Keeps(f, u[2..], d, t)
    ensures Keeps(f, u, d, t)
  {
    SkipCandidate(f, u, t);
  }

  /** The verdicts that end a call at once. */
  lemma SettledKeeps(f: Format, u: bytes, resync: nat, t: bytes)
    requires |u| >= HeaderSize && Starts(f, u)
    requires Examine(f, u) == Reject ==> resync + 1 > MaxResync
    ensures Keeps(f, u, Judge(f, u, resync), t)
  {
    var d := Judge(f, u, resync);
    if d.rest != u {
      var v := Examine(f, u);
      if v.Whole? { TakeWhole(f, u, t); } else { SkipCandidate(f, u, t); }
    }
  }

  /** When the decoder asks for more, nothing it kept can be decoded yet. */
  lemma {:induction false} NeedMoreMeansNone(f: Format, s: bytes, resync: nat)
    requires Decode(f, s, resync).outcome == NeedMore
    ensures Frames(f, Decode(f, s, resync).rest) == []
    decreases |s|
  {
    var k := Seek(f, s, resync);
    if k.Ready? {
      JudgeNeedMore(f, k.u, k.resync);
    }
  }

  lemma {:induction false} JudgeNeedMore(f: Format, u: bytes, resync: nat)
    requires |u| >= HeaderSize && Starts(f, u)
    requires Judge(f, u, resync).outcome == NeedMore
    ensures Frames(f, Judge(f, u, resync).rest) == []
    decreases |u|, 0
  {
    if Examine(f, u) == Reject {
      NeedMoreMeansNone(f, u[2..], resync + 1);
    }
  }

  /** Asking for more leaves the stream as it was exactly when nothing had to be skipped. */
  lemma NeedMoreUnchangedIff(f: Format, s: bytes)
    requires Decode(f, s, 0).outcome == NeedMore
    ensures Decode(f, s, 0).rest == s <==> |s| < HeaderSize || (Starts(f, s) && Examine(f, s) == Wait)
  {
    if |s| >= HeaderSize {
      match FirstMagic(f, s)
      case None =>
        assert |s[|s| - 1..]| == 1;
        assert s[0..] == s;
      case Some(p) =>
        if p == 0 {
          assert s[0..] == s;
        } else {
          assert |Decode(f, s, 0).rest| <= |s[p..]| < |s|;
          assert s[0..] == s;
        }
    }
  }

  // ---- a connection fed in chunks ----

  /** What a reader has handed on, what it still holds, and its count of decoding errors. */
  datatype Conn = Conn(pending: bytes, frames: seq<bytes>, errors: nat, closed: bool)

  const Opened := Conn([], [], 0, false)

  /** What one decoder answer makes of the connection, and whether decoding goes on. */
  function Turn(limit: nat, c: Conn, d: Decoded): (Conn, bool) {
    match d.outcome
    case NeedMore => (c.(pending := d.rest), false)
    case Error =>
      var closed := c.errors + 1 >= limit;
      (c.(pending := d.rest, errors := c.errors + 1, closed := closed), !closed)
    case Ok(frame) => (c.(pending := d.rest, frames := c.frames + [frame]), true)
  }

  /** Decodes until more bytes are needed or too many errors close the connection. */
  function Pump(f: Format, limit: nat, c: Conn): (r: Conn)
    decreases |c.pending|
  {
    var (next, again) := Turn(limit, c, Decode(f, c.pending, 0));
    if again then Pump(f, limit, next) else next
  }

  function Receive(f: Format, limit: nat, c: Conn, chunk: bytes): Conn {
    if c.closed then c else Pump(f, limit, c.(pending := c.pending + chunk))
  }

  function Run(f: Format, limit: nat, chunks: seq<bytes>): Conn {
    if chunks == [] then Opened
    else Receive(f, limit, Run(f, limit, chunks[..|chunks| - 1]), chunks[|chunks| - 1])
  }

  function Joined(chunks: seq<bytes>): bytes {
    if chunks == [] then [] else Joined(chunks[..|chunks| - 1]) + chunks[|chunks| - 1]
  }

  /** Delivered frames, then those still to come if t follows. */
  function Total(f: Format, c: Conn, t: bytes): seq<bytes> { c.frames + Frames(f, c.pending + t) }

  lemma TotalStays(f: Format, c: Conn, d: Decoded, r: Conn, t: bytes)
    requires Keeps(f, c.pending, d, t) && r.pending == d.rest && r.frames == c.frames + Yield(d.outcome)
    ensures Total(f, r, t) == Total(f, c, t)
  {
  }

  lemma {:induction false} PumpKeepsFrames(f: Format, limit: nat, c: Conn, t: bytes)
    ensures Total(f, Pump(f, limit, c), t) == Total(f, c, t)
    decreases |c.pending|
  {
    var d := Decode(f, c.pending, 0);
    DecodeKeepsFrames(f, c.pending, 0, t);
    var (next, again) := Turn(limit, c, d);
    TotalStays(f, c, d, next, t);
    if again {
      PumpKeepsFrames(f, limit, next, t);
    }
  }

  lemma {:induction false} PumpLeavesNone(f: Format, limit: nat, c: Conn)
    requires !c.closed && !Pump(f, limit, c).closed
    ensures Frames(f, Pump(f, limit, c).pending) == []
    decreases |c.pending|
  {
    var d := Decode(f, c.pending, 0);
    var (next, again) := Turn(limit, c, d);
    if again {
      PumpLeavesNone(f, limit, next);
    } else {
      NeedMoreMeansNone(f, c.pending, 0);
    }
  }

  /** At every moment: delivered frames, then those still to be cut from the held bytes, are the whole stream's. */
  lemma {:induction false} RunKeepsFrames(f: Format, limit: nat, chunks: seq<bytes>, t: bytes)
    ensures var c := Run(f, limit, chunks);
            !c.closed ==> Frames(f, Joined(chunks) + t) == Total(f, c, t)
    ensures var c := Run(f, limit, chunks); !c.closed ==> Frames(f, c.pending) == []
    ensures Run(f, limit, chunks).frames <= Frames(f, Joined(chunks) + t)
  {
    if chunks == [] {
      assert [] + t == t;
    } else {
      var before, last := chunks[..|chunks| - 1], chunks[|chunks| - 1];
      var c := Run(f, limit, before);
      RunKeepsFrames(f, limit, before, last + t);
      assert Joined(before) + (last + t) == Joined(chunks) + t;
      if !c.closed {
        assert c.pending + (last + t) == c.pending + last + t;
        var fed := c.(pending := c.pending + last);
        PumpKeepsFrames(f, limit, fed, t);
        if !Pump(f, limit, fed).closed {
          PumpLeavesNone(f, limit, fed);
        }
      }
    }
  }

  /** Any bytes in any chunks: an open connection has delivered exactly the stream's frames,
      a closed one the first of them. */
  lemma ChunkingIsIrrelevant(f: Format, limit: nat, chunks: seq<bytes>)
    ensures var c := Run(f, limit, chunks);
            c.frames <= Frames(f, Joined(chunks)) && (!c.closed ==> c.frames == Frames(f, Joined(chunks)))
  {
    RunKeepsFrames(f, limit, chunks, []);
    assert Joined(chunks) + [] == Joined(chunks);
    var c := Run(f, limit, chunks);
    assert c.pending + [] == c.pending;
  }

  // ---- streams of well-formed frames ----

  predicate WellFramed(f: Format, m: bytes) {
    |m| >= HeaderSize && Starts(f, m) && Examine(f, m) == Whole(|m|)
  }

  predicate AllWellFramed(f: Format, ms: seq<bytes>) { forall i :: 0 <= i < |ms| ==> WellFramed(f, ms[i]) }

  function Stream(ms: seq<bytes>): bytes {
    if ms == [] then [] else ms[0] + Stream(ms[1..])
  }

  lemma {:induction false} FramesOfStream(f: Format, ms: seq<bytes>)
    requires AllWellFramed(f, ms)
    ensures Frames(f, Stream(ms)) == ms
  {
    if ms != [] {
      FramesOfStream(f, ms[1..]);
      TakeWhole(f, ms[0], Stream(ms[1..]));
      assert ms[0][..|ms[0]|] == ms[0];
      assert ms[0][|ms[0]|..] + Stream(ms[1..]) == Stream(ms[1..]);
      assert ms == [ms[0]] + ms[1..];
    }
  }

  /** A proper prefix of a frame is left alone. */
  lemma PrefixWaits(f: Format, m: bytes, k: nat)
    requires WellFramed(f, m) && k < |m|
    ensures Decode(f, m[..k], 0) == Decoded(NeedMore, m[..k])
  {
    var u := m[..k];
    if k >= HeaderSize {
      PrefixExamined(f, m, k);
      assert Starts(f, u) && u[0..] == u;
      assert FirstMagic(f, u) == Some(0);
    }
  }

  lemma PrefixExamined(f: Format, m: bytes, k: nat)
    requires WellFramed(f, m) && HeaderSize <= k < |m|
    ensures Examine(f, m[..k]) == Wait
  {
    var u := m[..k];
    assert u[2..4] == m[2..4] && u[16..20] == m[16..20] && u[26..30] == m[26..30];
  }

  /** A junk byte before an incomplete frame is consumed although the decoder only asks for more. */
  lemma JunkIsDropped(f: Format, junk: byte, m: bytes, k: nat)
    requires WellFramed(f, m) && HeaderSize <= k < |m|
    ensures Decode(f, [junk] + m[..k], 0) == Decoded(NeedMore, m[..k])
  {
    var s, u := [junk] + m[..k], m[..k];
    PrefixExamined(f, m, k);
    assert s[1..] == u && Starts(f, u) && !Starts(f, s) && u[0..] == u;
    assert FirstMagic(f, u) == Some(0);
    assert FirstMagic(f, s) == Some(1);
    assert Seek(f, s, 0) == Ready(u, 1);
  }

  lemma WholeIsTaken(f: Format, m: bytes, t: bytes)
    requires WellFramed(f, m)
    ensures Decode(f, m + t, 0) == Decoded(Ok(m), t)
  {
    var u := m + t;
    ExamineStable(f, m, t);
    assert Starts(f, u) && u[0..] == u;
    assert FirstMagic(f, u) == Some(0);
    assert u[..|m|] == m && u[|m|..] == t;
  }

  lemma FirstIsTaken(f: Format, pending: bytes, ms: seq<bytes>, future: bytes)
    requires ms != [] && WellFramed(f, ms[0]) && pending + future == Stream(ms) && |pending| >= |ms[0]|
    ensures var rest := pending[|ms[0]|..];
            Decode(f, pending, 0) == Decoded(Ok(ms[0]), rest) && rest + future == Stream(ms[1..])
  {
    var m := ms[0];
    var rest := pending[|m|..];
    assert m == Stream(ms)[..|m|] == pending[..|m|];
    assert pending == m + rest;
    WholeIsTaken(f, m, rest);
    assert rest + future == Stream(ms)[|m|..] == Stream(ms[1..]);
  }

  lemma FirstIsAwaited(f: Format, pending: bytes, ms: seq<bytes>, future: bytes)
    requires ms != [] && WellFramed(f, ms[0]) && pending + future == Stream(ms) && |pending| < |ms[0]|
    ensures Decode(f, pending, 0) == Decoded(NeedMore, pending)
  {
    assert pending == Stream(ms)[..|pending|] == ms[0][..|pending|];
    PrefixWaits(f, ms[0], |pending|);
  }

  /** What is left of the stream are the last of its frames, whole. */
  ghost predicate Remains(ms: seq<bytes>, s: bytes) { exists k :: 0 <= k <= |ms| && s == Stream(ms[k..]) }

  lemma AllRemains(ms: seq<bytes>)
    ensures Remains(ms, Stream(ms))
  {
    assert ms[0..] == ms;
  }

  lemma RemainsOfRest(ms: seq<bytes>, k: nat, s: bytes)
    requires k <= |ms| && Remains(ms[k..], s)
    ensures Remains(ms, s)
  {
    var j :| 0 <= j <= |ms[k..]| && s == Stream(ms[k..][j..]);
    assert ms[k..][j..] == ms[k + j..];
  }

  lemma PumpTakes(f: Format, limit: nat, c: Conn, m: bytes, rest: bytes)
    requires Decode(f, c.pending, 0) == Decoded(Ok(m), rest)
    ensures |rest| < |c.pending| && Pump(f, limit, c) == Pump(f, limit, c.(pending := rest, frames := c.frames + [m]))
  {
  }

  lemma PumpWaits(f: Format, limit: nat, c: Conn)
    requires Decode(f, c.pending, 0) == Decoded(NeedMore, c.pending)
    ensures Pump(f, limit, c) == c
  {
  }

  /** On such a stream no call reports an error and nothing is dropped. */
  lemma {:induction false} PumpIsClean(f: Format, limit: nat, c: Conn, ms: seq<bytes>, future: bytes)
    requires AllWellFramed(f, ms) && c.pending + future == Stream(ms)
    ensures PumpsClean(f, limit, c, ms, future)
    decreases |ms|
  {
    if ms == [] {
      assert c.pending == [];
      WaitingIsClean(f, limit, c, ms, future);
    } else if |c.pending| < |ms[0]| {
      FirstIsAwaited(f, c.pending, ms, future);
      WaitingIsClean(f, limit, c, ms, future);
    } else {
      FirstIsTaken(f, c.pending, ms, future);
      PumpIsClean(f, limit, c.(pending := c.pending[|ms[0]|..], frames := c.frames + [ms[0]]), ms[1..], future);
      TakingIsClean(f, limit, c, ms, future);
    }
  }

  ghost predicate PumpsClean(f: Format, limit: nat, c: Conn, ms: seq<bytes>, future: bytes) {
    var r := Pump(f, limit, c);
    r.errors == c.errors && r.closed == c.closed && Remains(ms, r.pending + future)
  }

  lemma WaitingIsClean(f: Format, limit: nat, c: Conn, ms: seq<bytes>, future: bytes)
    requires Decode(f, c.pending, 0) == Decoded(NeedMore, c.pending) && c.pending + future == Stream(ms)
    ensures PumpsClean(f, limit, c, ms, future)
  {
    PumpWaits(f, limit, c);
    AllRemains(ms);
  }

  lemma TakingIsClean(f: Format, limit: nat, c: Conn, ms: seq<bytes>, future: bytes)
    requires ms != [] && |c.pending| >= |ms[0]|
    requires var rest := c.pending[|ms[0]|..];
             && Decode(f, c.pending, 0) == Decoded(Ok(ms[0]), rest)
             && PumpsClean(f, limit, c.(pending := rest, frames := c.frames + [ms[0]]), ms[1..], future)
    ensures PumpsClean(f, limit, c, ms, future)
  {
    PumpTakes(f, limit, c, ms[0], c.pending[|ms[0]|..]);
    RemainsOfRest(ms, 1, Pump(f, limit, c).pending + future);
  }

  lemma {:induction false} RunIsClean(f: Format, limit: nat, chunks: seq<bytes>, ms: seq<bytes>, future: bytes)
    requires AllWellFramed(f, ms) && Joined(chunks) + future == Stream(ms)
    ensures var c := Run(f, limit, chunks);
            c.errors == 0 && !c.closed && Remains(ms, c.pending + future)
  {
    if chunks == [] {
      AllRemains(ms);
    } else {
      var before, last := chunks[..|chunks| - 1], chunks[|chunks| - 1];
      assert Joined(before) + (last + future) == Stream(ms);
      RunIsClean(f, limit, before, ms, last + future);
      var c := Run(f, limit, before);
      assert c.pending + last + future == c.pending + (last + future);
      ReceiveIsClean(f, limit, c.(pending := c.pending + last), ms, future);
    }
  }

  lemma ReceiveIsClean(f: Format, limit: nat, c: Conn, ms: seq<bytes>, future: bytes)
    requires AllWellFramed(f, ms) && Remains(ms, c.pending + future)
    ensures PumpsClean(f, limit, c, ms, future)
  {
    var k :| 0 <= k <= |ms| && c.pending + future == Stream(ms[k..]);
    PumpIsClean(f, limit, c, ms[k..], future);
    RemainsOfRest(ms, k, Pump(f, limit, c).pending + future);
  }

  /** Frames sent back to back and split anywhere arrive exactly as sent, with no error, even at a limit of one. */
  lemma FramesArriveAsSent(f: Format, limit: nat, chunks: seq<bytes>, ms: seq<bytes>)
    requires AllWellFramed(f, ms) && Joined(chunks) == Stream(ms)
    ensures Run(f, limit, chunks) == Conn([], ms, 0, false)
  {
    assert Joined(chunks) + [] == Stream(ms);
    RunIsClean(f, limit, chunks, ms, []);
    ChunkingIsIrrelevant(f, limit, chunks);
    FramesOfStream(f, ms);
    var c := Run(f, limit, chunks);
    var k :| 0 <= k <= |ms| && c.pending + [] == Stream(ms[k..]);
    assert c.pending + [] == c.pending;
    RunKeepsFrames(f, limit, chunks, []);
    FramesOfStream(f, ms[k..]);
  }
}
