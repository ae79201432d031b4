/** When the decoder yields a frame, waits or gives up, and when a connection is closed for it. */
module FrameOutcomes {
  import opened Common
  import opened FrameSpec
  import opened FrameTheorems

  datatype Ending = More | Found | Bad

  /** The first thing a stream holds, looked for without any limit, and how often the search had to start afresh:
      once for garbage before a magic, once for each candidate that is no header. */
  function Search(f: Format, s: bytes): (r: (nat, Ending))
    decreases |s|
  {
    if |s| < HeaderSize || FirstMagic(f, s).None? then (0, More)
    else
      var p := FirstMagic(f, s).value;
      var u, skipped := s[p..], if p > 0 then 1 else 0;
      if |u| < HeaderSize then (skipped, More)
      else
        match Examine(f, u)
        case Wait => (skipped, More)
        case Broken => (skipped, Bad)
        case Whole(_) => (skipped, Found)
        case Reject => var (n, end) := Search(f, u[2..]); (skipped + 1 + n, end)
  }

  predicate Decides(outcome: Outcome, restarts: nat, end: Ending) {
    && (outcome == Error <==> restarts > 16 || end == Bad)
    && (outcome.Ok? <==> restarts <= 16 && end == Found)
    && (outcome == NeedMore <==> restarts <= 16 && end == More)
  }

  /** A header stands ready at p. */
  predicate Candidate(f: Format, s: bytes, p: nat) {
    |s| >= HeaderSize && FirstMagic(f, s) == Some(p) && p + HeaderSize <= |s|
  }

  function CandidateIn(f: Format, s: bytes): (p: Option<nat>)
    ensures p.Some? ==> Candidate(f, s, p.value)
  {
    var p := if |s| < HeaderSize then None else FirstMagic(f, s);
    if p.Some? && p.value + HeaderSize <= |s| then p else None
  }

  lemma NoCandidate(f: Format, s: bytes, resync: nat)
    requires resync <= 16 && CandidateIn(f, s).None?
    ensures Decides(Decode(f, s, resync).outcome, resync + Search(f, s).0, Search(f, s).1)
  {
  }

  lemma SoughtIs(f: Format, s: bytes, resync: nat, p: nat)
    requires Candidate(f, s, p)
    ensures var n := resync + if p > 0 then 1 else 0;
            if p > 0 && n > 16 then Decode(f, s, resync).outcome == Error
            else Starts(f, s[p..]) && Decode(f, s, resync) == Judge(f, s[p..], n)
  {
  }

  lemma SearchIs(f: Format, s: bytes, p: nat)
    requires Candidate(f, s, p)
    ensures var skipped, u := if p > 0 then 1 else 0, s[p..];
            Search(f, s) == match Examine(f, u)
                            case Wait => (skipped, More)
                            case Broken => (skipped, Bad)
                            case Whole(_) => (skipped, Found)
                            case Reject => (skipped + 1 + Search(f, u[2..]).0, Search(f, u[2..]).1)
  {
  }

  lemma JudgeIs(f: Format, u: bytes, n: nat)
    requires |u| >= HeaderSize && Starts(f, u)
    ensures match Examine(f, u)
            case Wait => Judge(f, u, n).outcome == NeedMore
            case Broken => Judge(f, u, n).outcome == Error
            case Whole(_) => Judge(f, u, n).outcome.Ok?
            case Reject => if n + 1 > 16 then Judge(f, u, n).outcome == Error else Judge(f, u, n) == Decode(f, u[2..], n + 1)
  {
  }

  /** What is left to find behind a rejected candidate, and how many starts that makes. */
  datatype Further = Here | Behind(rest: bytes, resync: nat)

  /** A rejected candidate within the budget: both go on behind it. */
  lemma GoesOn(f: Format, s: bytes, resync: nat, p: nat, n: nat)
    requires Candidate(f, s, p) && Examine(f, s[p..]) == Reject && n == resync + (if p > 0 then 2 else 1) <= 16
    ensures Decode(f, s, resync).outcome == Decode(f, s[p..][2..], n).outcome
    ensures resync + Search(f, s).0 == n + Search(f, s[p..][2..]).0 && Search(f, s).1 == Search(f, s[p..][2..]).1
  {
    SoughtIs(f, s, resync, p);
    SearchIs(f, s, p);
    JudgeIs(f, s[p..], n - 1);
  }

  /** Any other: both end here. */
  lemma EndsHere(f: Format, s: bytes, resync: nat, p: nat)
    requires resync <= 16 && Candidate(f, s, p)
    requires Examine(f, s[p..]) == Reject ==> resync + (if p > 0 then 2 else 1) > 16
    ensures Decides(Decode(f, s, resync).outcome, resync + Search(f, s).0, Search(f, s).1)
  {
    var n := resync + if p > 0 then 1 else 0;
    SoughtIs(f, s, resync, p);
    SearchIs(f, s, p);
    if n <= 16 { JudgeIs(f, s[p..], n); }
  }

  lemma AtCandidate(f: Format, s: bytes, resync: nat, p: nat) returns (next: Further)
    requires resync <= 16 && Candidate(f, s, p)
    ensures next.Here? ==> Decides(Decode(f, s, resync).outcome, resync + Search(f, s).0, Search(f, s).1)
    ensures next.Behind? ==>
              && |next.rest| < |s| && next.resync <= 16 && Decode(f, s, resync).outcome == Decode(f, next.rest, next.resync).outcome
              && resync + Search(f, s).0 == next.resync + Search(f, next.rest).0 && Search(f, s).1 == Search(f, next.rest).1
  {
    var n := resync + if p > 0 then 2 else 1;
    if Examine(f, s[p..]) == Reject && n <= 16 {
      GoesOn(f, s, resync, p, n);
      next := Behind(s[p..][2..], n);
    } else {
      EndsHere(f, s, resync, p);
      next := Here;
    }
  }

  /** The decoder gives up exactly when it has to start afresh more than 16 times, or meets a complete frame whose name is
      malformed; otherwise it yields the frame it finds, or waits. */
  lemma {:induction false} SearchDecides(f: Format, s: bytes, resync: nat)
    requires resync <= 16
    ensures Decides(Decode(f, s, resync).outcome, resync + Search(f, s).0, Search(f, s).1)
    decreases |s|
  {
    var at := CandidateIn(f, s);
    if at.None? {
      NoCandidate(f, s, resync);
    } else {
      var next := AtCandidate(f, s, resync, at.value);
      if next.Behind? { SearchDecides(f, next.rest, next.resync); }
    }
  }

  /** How often the decoder gives up on a stream, going on behind each time. */
  function GivesUp(f: Format, s: bytes): nat
    decreases |s|
  {
    var d := Decode(f, s, 0);
    match d.outcome
    case NeedMore => 0
    case Error => 1 + GivesUp(f, d.rest)
    case Ok(_) => GivesUp(f, d.rest)
  }

  /** A connection is closed exactly when the decoder has given up on it as often as is allowed. */
  lemma {:induction false} ClosedExactlyWhen(f: Format, limit: nat, c: Conn)
    requires c.errors < limit && !c.closed
    ensures var r, e := Pump(f, limit, c), c.errors + GivesUp(f, c.pending);
            (r.closed <==> e >= limit) && r.errors == if e >= limit then limit else e
    decreases |c.pending|
  {
    var (next, again) := Turn(limit, c, Decode(f, c.pending, 0));
    if again { ClosedExactlyWhen(f, limit, next); }
  }
}
