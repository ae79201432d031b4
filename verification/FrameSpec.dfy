/** Stream framing, shared by the link between services and the link to clients: what counts as a frame,
    the resynchronising decoder, and a reference that cuts a whole stream at once. */
module FrameSpec {
  import opened Common
  import opened Endian
  import opened Utf8

  /** A service link keeps frames addressed to `service` (0 keeps all); a client link knows no addresses. */
  datatype Format = Gate(service: byte) | Client

  const HeaderSize: nat := 32
  const MaxResync: nat := 16

  function MagicLow(f: Format): byte { if f.Gate? then 0xEA else 0xEB }

  function MaxSize(f: Format): nat { if f.Gate? then 10 * 1024 * 1024 else 64 * 1024 }

  predicate Starts(f: Format, s: bytes) { |s| >= 2 && s[0] == 0xC1 && s[1] == MagicLow(f) }

  function TotalLen(f: Format, u: bytes): nat
    requires |u| >= HeaderSize
  {
    FromBig(if f.Gate? then u[26..30] else u[16..20])
  }

  predicate VersionOk(f: Format, u: bytes)
    requires |u| >= HeaderSize
  {
    if f.Gate? then FromBig(u[2..4]) == 1 else u[2] == 2
  }

  predicate Addressed(f: Format, u: bytes)
    requires |u| >= HeaderSize
  {
    f.Gate? && f.service != 0 ==> u[31] == f.service
  }

  /** How many bytes come before the first zero. */
  function NameLength(field: bytes): (n: nat)
    ensures n <= |field|
    ensures forall k :: 0 <= k < n ==> field[k] != 0
    ensures n < |field| ==> field[n] == 0
  {
    if field == [] || field[0] == 0 then 0 else 1 + NameLength(field[1..])
  }

  predicate Zeros(s: bytes) { forall k :: 0 <= k < |s| ==> s[k] == 0 }

  /** A padded name field holding an acceptable name. */
  predicate NameFieldOk(field: bytes) {
    var n := NameLength(field);
    Zeros(field[n..]) && RoleName(field[..n])
  }

  datatype Verdict = Reject | Wait | Broken | Whole(len: nat)

  /** Judges a stream that starts with the magic, as far as it has arrived. */
  function Examine(f: Format, u: bytes): (v: Verdict)
    requires |u| >= HeaderSize
    ensures v.Whole? ==> HeaderSize <= v.len <= |u|
  {
    var len := TotalLen(f, u);
    if !VersionOk(f, u) || len < HeaderSize || len > MaxSize(f) || !Addressed(f, u) then Reject
    else if len > |u| then Wait
    else if f.Client? && !NameFieldOk(u[20..32]) then Broken
    else Whole(len)
  }

  /** The frames of a stream, byte by byte: no buffer, no search, no resynchronisation budget. */
  function Frames(f: Format, s: bytes): seq<bytes>
    decreases |s|
  {
    if |s| < HeaderSize then []
    else if !Starts(f, s) then Frames(f, s[1..])
    else
      match Examine(f, s)
      case Wait => []
      case Whole(n) => [s[..n]] + Frames(f, s[n..])
      case _ => Frames(f, s[2..])
  }

  function FirstMagic(f: Format, s: bytes): (p: Option<nat>)
    ensures p.Some? ==> p.value + 2 <= |s| && Starts(f, s[p.value..])
  {
    if |s| < 2 then None
    else if Starts(f, s) then
      assert s[0..] == s;
      Some(0)
    else
      var q := FirstMagic(f, s[1..]);
      assert q.Some? ==> s[1..][q.value..] == s[q.value + 1..];
      if q.Some? then Some(q.value + 1) else None
  }

  ghost predicate NoneBefore(f: Format, s: bytes, n: nat)
    requires n <= |s|
  {
    forall k :: 0 <= k < n ==> !Starts(f, s[k..])
  }

  lemma {:induction false} FirstMagicIsFirst(f: Format, s: bytes)
    ensures var p := FirstMagic(f, s); NoneBefore(f, s, if p.Some? then p.value else |s|)
  {
    assert s[0..] == s;
    if |s| >= 2 && !Starts(f, s) {
      FirstMagicIsFirst(f, s[1..]);
      assert forall k :: 1 <= k <= |s| ==> s[1..][k - 1..] == s[k..];
    }
  }

  datatype Outcome = NeedMore | Error | Ok(frame: bytes)

  datatype Decoded = Decoded(outcome: Outcome, rest: bytes)

  /** The search for a candidate: the call ends, or a header stands ready behind its magic. */
  datatype Sought = Stuck(result: Decoded) | Ready(u: bytes, resync: nat)

  /** Brings the first magic to the front; a stream shorter than a header is left alone,
      one without magic keeps its last byte. */
  function Seek(f: Format, s: bytes, resync: nat): (k: Sought)
    ensures k.Stuck? ==> |k.result.rest| <= |s| && !k.result.outcome.Ok?
    ensures k.Stuck? && k.result.outcome == Error ==> |k.result.rest| < |s|
    ensures k.Ready? ==> HeaderSize <= |k.u| <= |s| && Starts(f, k.u)
  {
    if |s| < HeaderSize then Stuck(Decoded(NeedMore, s))
    else
      match FirstMagic(f, s)
      case None => Stuck(Decoded(NeedMore, s[|s| - 1..]))
      case Some(p) =>
        var u, n := s[p..], if p > 0 then resync + 1 else resync;
        if p > 0 && n > MaxResync then Stuck(Decoded(Error, u))
        else if |u| < HeaderSize then Stuck(Decoded(NeedMore, u))
        else Ready(u, n)
  }

  /** One call of the decoder, `resync` candidates into its budget. */
  function Decode(f: Format, s: bytes, resync: nat): (d: Decoded)
    ensures |d.rest| <= |s|
    ensures d.outcome != NeedMore ==> |d.rest| < |s|
    ensures d.outcome.Ok? ==> |d.outcome.frame| >= HeaderSize
    decreases |s|
  {
    match Seek(f, s, resync)
    case Stuck(d) => d
    case Ready(u, n) => Judge(f, u, n)
  }

  /** The same call once the magic is in front. */
  function Judge(f: Format, u: bytes, resync: nat): (d: Decoded)
    requires |u| >= HeaderSize && Starts(f, u)
    ensures |d.rest| <= |u|
    ensures d.outcome != NeedMore ==> |d.rest| < |u|
    ensures d.outcome.Ok? ==> |d.outcome.frame| >= HeaderSize
    decreases |u|, 0
  {
    match Examine(f, u)
    case Wait => Decoded(NeedMore, u)
    case Broken => Decoded(Error, u[2..])
    case Whole(n) => Decoded(Ok(u[..n]), u[n..])
    case Reject => if resync + 1 > MaxResync then Decoded(Error, u[2..]) else Decode(f, u[2..], resync + 1)
  }
}
