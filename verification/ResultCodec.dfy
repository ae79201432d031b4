/** The wire form of database results. */
module ResultCodec {
  import opened Common
  import opened Endian
  import opened DbValue
  import opened ValueCodec
  import opened TaskCodec

  const MaxErrMsg: nat := 64 * 1024

  datatype WireResult = WireResult(
    errcode: i32, errmsg: bytes, data: Val, class_: ResultClass, nativeError: u32,
    playerId: u64, saveVersion: u64, capturedRevision: u64, lifecycleToken: u64)

  function ClassByte(c: ResultClass): (b: byte)
    ensures b <= 7
  {
    match c
    case Success => 0
    case Failure => 1
    case Retryable => 2
    case OutcomeUnknown => 3
    case IdentityConflict => 4
    case Superseded => 5
    case BusinessRejected => 6
    case VersionConflict => 7
  }

  function ClassOf(b: byte): (c: ResultClass)
    requires b <= 7
    ensures ClassByte(c) == b
  {
    match b
    case 0 => Success
    case 1 => Failure
    case 2 => Retryable
    case 3 => OutcomeUnknown
    case 4 => IdentityConflict
    case 5 => Superseded
    case 6 => BusinessRejected
    case _ => VersionConflict
  }

  /** A result that names an error is never recorded as a success. */
  function Recorded(r: WireResult): WireResult {
    if r.errcode != 0 && r.class_ == Success then r.(class_ := Failure) else r
  }

  function Trailer(r: WireResult): (x: bytes)
    ensures |x| == 37
  {
    [ClassByte(Recorded(r).class_)] + Little(r.nativeError, 4) + Little(r.playerId, 8) + Little(r.saveVersion, 8)
    + Little(r.capturedRevision, 8) + Little(r.lifecycleToken, 8)
  }

  function ResultHead(r: WireResult): (x: bytes)
    ensures |x| == 11
  {
    Magic + [3] + Little(Unsigned32(r.errcode), 4) + Little(|r.errmsg|, 4)
  }

  function EncodeResult(r: WireResult): bytes {
    ResultHead(r) + (r.errmsg + (EncodeVal(r.data, 0) + Trailer(r)))
  }

  /** The part every version shares, with the class that the error code implies. */
  function DecodeFront(body: bytes): (r: Option<Parsed<WireResult>>)
    requires |body| >= 11
    ensures r.Some? ==> |r.value.rest| < |body|
  {
    Widths();
    var n := FieldAt(body, 7, 4);
    if n > MaxErrMsg then None
    else
      var msg := TakeBytes(body[11..], n);
      if msg.None? then None
      else
        var v := DecodeVal(msg.value.rest, 0);
        if v.None? then None
        else
          var errcode := Signed32(FieldAt(body, 3, 4));
          var class_ := if errcode == 0 then Success else Failure;
          Some(Parsed(WireResult(errcode, msg.value.value, v.value.value, class_, 0, 0, 0, 0, 0), v.value.rest))
  }

  function DecodeResult(body: bytes): Option<WireResult> {
    if |body| < 11 || FieldAt(body, 0, 2) != 0xDB01 || body[2] < 1 || body[2] > 3 then None
    else
      var front := DecodeFront(body);
      if front.None? then None
      else
        var r, u := front.value.value, front.value.rest;
        if body[2] == 1 then if u == [] then Some(r) else None
        else if u == [] || u[0] > 7 then None
        else if body[2] == 2 then if |u| == 1 then Some(r.(class_ := ClassOf(u[0]))) else None
        else if |u| != 37 then None
        else
          Widths();
          Some(r.(class_ := ClassOf(u[0]), nativeError := FieldAt(u, 1, 4), playerId := FieldAt(u, 5, 8),
                  saveVersion := FieldAt(u, 13, 8), capturedRevision := FieldAt(u, 21, 8), lifecycleToken := FieldAt(u, 29, 8)))
  }

  lemma TrailerFields(r: WireResult)
    ensures var u := Trailer(r);
            && u[0] == ClassByte(Recorded(r).class_) && FieldAt(u, 1, 4) == r.nativeError && FieldAt(u, 5, 8) == r.playerId
            && FieldAt(u, 13, 8) == r.saveVersion && FieldAt(u, 21, 8) == r.capturedRevision
            && FieldAt(u, 29, 8) == r.lifecycleToken
  {
    Widths();
    var a := [ClassByte(Recorded(r).class_)];
    var b := a + Little(r.nativeError, 4);
    var c := b + Little(r.playerId, 8);
    var d := c + Little(r.saveVersion, 8);
    var e := d + Little(r.capturedRevision, 8);
    var u := e + Little(r.lifecycleToken, 8);
    FieldBehind(a, r.nativeError, 4);
    FieldBehind(b, r.playerId, 8);
    FieldBehind(c, r.saveVersion, 8);
    FieldBehind(d, r.capturedRevision, 8);
    FieldBehind(e, r.lifecycleToken, 8);
    FieldStays(b, u, 1, 4);
    FieldStays(c, u, 5, 8);
    FieldStays(d, u, 13, 8);
    FieldStays(e, u, 21, 8);
  }

  lemma FieldBehind(a: bytes, v: nat, n: nat)
    requires v < Pow256(n)
    ensures FieldAt(a + Little(v, n), |a|, n) == v
  {
    var u := a + Little(v, n);
    assert u[|a|..|a| + n] == Little(v, n);
    FieldOfLittle(u, |a|, n, v);
  }

  lemma FieldStays(a: bytes, u: bytes, at: nat, n: nat)
    requires a <= u && at + n <= |a|
    ensures FieldAt(u, at, n) == FieldAt(a, at, n)
  {
    assert u[at..at + n] == a[at..at + n];
  }

  lemma HeadFields(r: WireResult, x: bytes)
    ensures var u := ResultHead(r) + x;
            && u[0..2] == Magic && u[2] == 3 && u[11..] == x
            && FieldAt(u, 3, 4) == Unsigned32(r.errcode) && u[7..11] == Little(|r.errmsg|, 4)
  {
    var u := ResultHead(r) + x;
    Widths();
    assert u[3..7] == Little(Unsigned32(r.errcode), 4);
    FieldOfLittle(u, 3, 4, Unsigned32(r.errcode));
  }

  lemma FrontRoundTrip(r: WireResult)
    requires |r.errmsg| <= MaxErrMsg && Fits(r.data, 0)
    ensures var front := DecodeFront(EncodeResult(r));
            && front.Some? && front.value.rest == Trailer(r)
            && front.value.value == WireResult(r.errcode, r.errmsg, r.data, if r.errcode == 0 then Success else Failure, 0, 0, 0, 0, 0)
  {
    var body, x := EncodeResult(r), EncodeVal(r.data, 0) + Trailer(r);
    HeadFields(r, r.errmsg + x);
    Widths();
    FieldOfLittle(body, 7, 4, |r.errmsg|);
    TakeExactly(r.errmsg, x);
    ValueRoundTrip(r.data, 0, Trailer(r));
  }

  lemma ClassRoundTrip(c: ResultClass)
    ensures ClassOf(ClassByte(c)) == c
  {
  }

  /** A result is received as recorded exactly when its message is at most 64 KiB and its data fit the wire. */
  lemma ResultSurvivesIff(r: WireResult)
    ensures DecodeResult(EncodeResult(r)) == Some(Recorded(r)) <==> |r.errmsg| <= MaxErrMsg && Fits(r.data, 0)
  {
    var body := EncodeResult(r);
    HeadFields(r, r.errmsg + (EncodeVal(r.data, 0) + Trailer(r)));
    MagicField(body);
    if |r.errmsg| <= MaxErrMsg && Fits(r.data, 0) {
      FrontRoundTrip(r);
      TrailerFields(r);
      ClassRoundTrip(Recorded(r).class_);
    }
    if DecodeResult(body) == Some(Recorded(r)) {
      FrontFits(body);
    }
  }

  lemma FrontFits(body: bytes)
    requires |body| >= 11 && DecodeFront(body).Some?
    ensures var r := DecodeFront(body).value.value; |r.errmsg| <= MaxErrMsg && Fits(r.data, 0)
  {
    var msg := TakeBytes(body[11..], FieldAt(body, 7, 4)).value;
    DecodedIsCanonical(msg.rest, 0);
  }
}
