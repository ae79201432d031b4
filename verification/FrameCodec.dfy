/** Encoding into and decoding out of the sliding buffer. */
module FrameCodec {
  import opened Common
  import opened Endian
  import opened Utf8
  import opened ByteBuffer
  import opened FrameSpec
  import opened FrameTheorems
  import opened FrameHeaders

  datatype Reply<+M> = More | Bad | Got(message: M)

  /** The decoder's answer on a service link, in the terms of the specification. */
  ghost function GateReply(o: Outcome): (r: Reply<GateMessage>) {
    if o.Ok? && |o.frame| >= HeaderSize then Got(ReadGate(o.frame)) else if o == NeedMore then More else Bad
  }

  ghost function ClientReply(o: Outcome): (r: Reply<ClientMessage>) {
    if o.Ok? && |o.frame| >= HeaderSize then Got(ReadClient(o.frame)) else if o == NeedMore then More else Bad
  }

  method EncodeFrame(out: Buffer, m: GateMessage)
    requires out.Valid()
    modifies out, out.data
    ensures out.Valid() && (out.data == old(out.data) || fresh(out.data))
    ensures out.Contents() == old(out.Contents()) + EncodeGate(m)
  {
    out.Append(GateHead(m.head, |m.body|));
    if m.body != [] {
      out.Append(m.body);
    }
  }

  method EncodeClientFrame(out: Buffer, m: ClientMessage) returns (ok: bool)
    requires out.Valid()
    modifies out, out.data
    ensures out.Valid() && (out.data == old(out.data) || fresh(out.data))
    ensures ok == EncodeClient(m).Some?
    ensures out.Contents() == if ok then old(out.Contents()) + EncodeClient(m).value else old(out.Contents())
  {
    ok := ValidRoleName(m.head.roleName);
    if ok {
      out.Append(ClientHead(m.head, |m.body|));
      if m.body != [] {
        out.Append(m.body);
      }
    }
  }

  /** Searches for the two magic bytes. */
  method FindMagic(f: Format, s: bytes) returns (p: Option<nat>)
    ensures p == FirstMagic(f, s)
  {
    FirstMagicIsFirst(f, s);
    var i := 0;
    while i + 2 <= |s|
      invariant 0 <= i
      invariant forall k :: 0 <= k < i && k < |s| ==> !Starts(f, s[k..])
    {
      if s[i] == 0xC1 && s[i + 1] == MagicLow(f) {
        assert Starts(f, s[i..]);
        return Some(i);
      }
      i := i + 1;
    }
    return None;
  }

  /** Brings the first magic to the front, or reports that the call ends here. */
  method Locate(f: Format, buf: Buffer, resync: nat) returns (stop: Option<Outcome>, next: nat)
    requires buf.Valid()
    modifies buf
    ensures buf.Valid() && buf.data == old(buf.data)
    ensures Seek(f, old(buf.Contents()), resync)
            == if stop.Some? then Stuck(Decoded(stop.value, buf.Contents())) else Ready(buf.Contents(), next)
  {
    next := resync;
    if buf.ReadableBytes() < HeaderSize {
      return Some(NeedMore), next;
    }
    var p := FindMagic(f, buf.data[buf.readIndex..buf.writeIndex]);
    if p.None? {
      buf.Retrieve(buf.ReadableBytes() - 1);
      return Some(NeedMore), next;
    }
    if p.value > 0 {
      buf.Retrieve(p.value);
      next := resync + 1;
      if next > MaxResync {
        return Some(Error), next;
      }
      if buf.ReadableBytes() < HeaderSize {
        return Some(NeedMore), next;
      }
    }
    stop := None;
  }

  /** Pops the n-byte field at position `at` of the stream s, of which the buffer has consumed that much. */
  method PopField(buf: Buffer, ghost s: bytes, ghost at: nat, n: nat) returns (v: nat)
    requires buf.Valid() && at + n <= |s| && buf.Contents() == s[at..]
    modifies buf
    ensures buf.Valid() && buf.data == old(buf.data)
    ensures v == FieldOf(s, at, n)
    ensures buf.Contents() == s[at + n..]
  {
    assert buf.Contents()[..n] == s[at..at + n];
    v := buf.ReadUint(n);
  }

  method PopByte(buf: Buffer, ghost s: bytes, ghost at: nat) returns (v: byte)
    requires buf.Valid() && at < |s| && buf.Contents() == s[at..]
    modifies buf
    ensures buf.Valid() && buf.data == old(buf.data)
    ensures v == s[at]
    ensures buf.Contents() == s[at + 1..]
  {
    var n := PopField(buf, s, at, 1);
    assert s[at..at + 1] == [s[at]];
    assert FromBig([s[at]]) == FromBig([]) * 256 + s[at];
    v := n;
  }

  method PopGateFront(buf: Buffer, ghost s: bytes) returns (msgType: byte, retrFlag: byte, mod: u16, method_: u16)
    requires buf.Valid() && |s| >= HeaderSize && buf.Contents() == s
    modifies buf
    ensures buf.Valid() && buf.data == old(buf.data) && buf.Contents() == s[10..]
    ensures msgType == s[4] && retrFlag == s[5] && mod == FieldOf(s, 6, 2) && method_ == FieldOf(s, 8, 2)
  {
    Widths();
    buf.Retrieve(4);
    msgType := PopByte(buf, s, 4);
    retrFlag := PopByte(buf, s, 5);
    mod := PopField(buf, s, 6, 2);
    method_ := PopField(buf, s, 8, 2);
  }

  method PopGateBack(buf: Buffer, ghost s: bytes) returns (sequence: u64, playerId: u64, src: byte, dst: byte)
    requires buf.Valid() && |s| >= HeaderSize && buf.Contents() == s[10..]
    modifies buf
    ensures buf.Valid() && buf.data == old(buf.data) && buf.Contents() == s[HeaderSize..]
    ensures sequence == FieldOf(s, 10, 8) && playerId == FieldOf(s, 18, 8) && src == s[30] && dst == s[31]
  {
    Widths();
    sequence := PopField(buf, s, 10, 8);
    playerId := PopField(buf, s, 18, 8);
    var _ := PopField(buf, s, 26, 4);
    src := PopByte(buf, s, 30);
    dst := PopByte(buf, s, 31);
  }

  lemma FieldOfPrefix(s: bytes, len: nat, at: nat, n: nat)
    requires at + n <= len <= |s|
    ensures FieldOf(s[..len], at, n) == FieldOf(s, at, n)
  {
    assert s[..len][at..at + n] == s[at..at + n];
  }

  lemma ReadGatePrefix(s: bytes, len: nat)
    requires HeaderSize <= len <= |s|
    ensures var m := ReadGate(s[..len]); var h := m.head;
            && h.msgType == s[4] && h.retrFlag == s[5] && h.mod == FieldOf(s, 6, 2) && h.method_ == FieldOf(s, 8, 2)
            && h.sequence == FieldOf(s, 10, 8) && h.playerId == FieldOf(s, 18, 8)
            && h.totalLen == FieldOf(s, 26, 4) && h.src == s[30] && h.dst == s[31]
            && m.body == s[HeaderSize..len]
  {
    FieldOfPrefix(s, len, 6, 2);
    FieldOfPrefix(s, len, 8, 2);
    FieldOfPrefix(s, len, 10, 8);
    FieldOfPrefix(s, len, 18, 8);
    FieldOfPrefix(s, len, 26, 4);
  }

  /** Pops the header fields and the body of a frame of len bytes. */
  method PopGate(buf: Buffer, len: nat) returns (m: GateMessage)
    requires buf.Valid() && HeaderSize <= len <= |buf.Contents()| && FieldOf(buf.Contents(), 26, 4) == len
    modifies buf
    ensures buf.Valid() && buf.data == old(buf.data)
    ensures m == ReadGate(old(buf.Contents())[..len])
    ensures buf.Contents() == old(buf.Contents())[len..]
  {
    ghost var s := buf.Contents();
    Widths();
    var msgType, retrFlag, mod, method_ := PopGateFront(buf, s);
    var sequence, playerId, src, dst := PopGateBack(buf, s);
    var body := buf.ReadAsString(len - HeaderSize);
    PrefixOfRest(s, len, body, buf.Contents());
    ReadGatePrefix(s, len);
    m := GateMessage(GateHeader(msgType, retrFlag, mod, method_, sequence, playerId, len, src, dst), body);
  }

  lemma PrefixOfRest(s: bytes, len: nat, body: bytes, rest: bytes)
    requires HeaderSize <= len <= |s| && body + rest == s[HeaderSize..] && |body| == len - HeaderSize
    ensures body == s[HeaderSize..len] && rest == s[len..]
  {
    assert body == (body + rest)[..|body|] && rest == (body + rest)[|body|..];
  }

  method PopClient(buf: Buffer, len: nat, name: bytes) returns (m: ClientMessage)
    requires buf.Valid() && HeaderSize <= len <= |buf.Contents()| && FieldOf(buf.Contents(), 16, 4) == len
    requires name == ReadClient(buf.Contents()[..len]).head.roleName
    modifies buf
    ensures buf.Valid() && buf.data == old(buf.data)
    ensures m == ReadClient(old(buf.Contents())[..len])
    ensures buf.Contents() == old(buf.Contents())[len..]
  {
    ghost var s := buf.Contents();
    Widths();
    var kind, mod, method_, requestId := PopClientFields(buf, s);
    var body := buf.ReadAsString(len - HeaderSize);
    PrefixOfRest(s, len, body, buf.Contents());
    FieldOfPrefix(s, len, 4, 2);
    FieldOfPrefix(s, len, 6, 2);
    FieldOfPrefix(s, len, 8, 8);
    FieldOfPrefix(s, len, 16, 4);
    m := ClientMessage(ClientHeader(kind, mod, method_, requestId, len, name), body);
  }

  method PopClientFields(buf: Buffer, ghost s: bytes) returns (kind: byte, mod: u16, method_: u16, requestId: u64)
    requires buf.Valid() && |s| >= HeaderSize && buf.Contents() == s
    modifies buf
    ensures buf.Valid() && buf.data == old(buf.data) && buf.Contents() == s[HeaderSize..]
    ensures kind == s[3] && mod == FieldOf(s, 4, 2) && method_ == FieldOf(s, 6, 2) && requestId == FieldOf(s, 8, 8)
  {
    Widths();
    buf.Retrieve(3);
    kind := PopByte(buf, s, 3);
    mod := PopField(buf, s, 4, 2);
    method_ := PopField(buf, s, 6, 2);
    requestId := PopField(buf, s, 8, 8);
    var _ := PopField(buf, s, 16, 4);
    buf.Retrieve(RoleNameSize);
  }

  /** Reads the zero-padded name field; None when it is not padded with zeros or the name is not acceptable. */
  method ReadName(field: bytes) returns (name: Option<bytes>)
    ensures name.Some? <==> NameFieldOk(field)
    ensures name.Some? ==> name.value == field[..NameLength(field)]
  {
    var n := 0;
    while n < |field| && field[n] != 0
      invariant 0 <= n <= |field|
      invariant forall k :: 0 <= k < n ==> field[k] != 0
    {
      n := n + 1;
    }
    assert n == NameLength(field);
    var padded := true;
    var i := n;
    while i < |field|
      invariant n <= i <= |field|
      invariant padded <==> forall k :: n <= k < i ==> field[k] == 0
    {
      if field[i] != 0 { padded := false; }
      i := i + 1;
    }
    assert padded <==> Zeros(field[n..]) by {
      if padded {
        assert forall k :: 0 <= k < |field[n..]| ==> field[n..][k] == field[n + k];
      } else {
        var k :| n <= k < |field| && field[k] != 0;
        assert field[n..][k - n] != 0;
      }
    }
    var ok := ValidRoleName(field[..n]);
    name := if padded && ok then Some(field[..n]) else None;
  }

  /** The checks on a located header, in the decoder's order. */
  method InspectGate(buf: Buffer, service: byte) returns (v: Verdict)
    requires buf.Valid() && |buf.Contents()| >= HeaderSize
    ensures v == Examine(Gate(service), buf.Contents())
  {
    var s := buf.data[buf.readIndex..buf.writeIndex];
    if FromBig(s[2..4]) != 1 {
      return Reject;
    }
    var total := FromBig(s[26..30]);
    if total < HeaderSize || total > MaxSize(Gate(service)) {
      return Reject;
    }
    if service != 0 && s[31] != service {
      return Reject;
    }
    if total > |s| {
      return Wait;
    }
    v := Whole(total);
  }

  /** What a decoder call does with the magic in front: it ends, or goes on behind a rejected candidate. */
  method SettleGate(buf: Buffer, service: byte, resync: nat) returns (done: bool, r: Reply<GateMessage>, next: nat)
    requires buf.Valid() && |buf.Contents()| >= HeaderSize && Starts(Gate(service), buf.Contents())
    modifies buf
    ensures buf.Valid() && buf.data == old(buf.data)
    ensures var j := Judge(Gate(service), old(buf.Contents()), resync);
            if done then r == GateReply(j.outcome) && buf.Contents() == j.rest
            else Decode(Gate(service), buf.Contents(), next) == j && |buf.Contents()| < |old(buf.Contents())|
  {
    var v := InspectGate(buf, service);
    if v == Wait {
      return true, More, resync;
    } else if v.Whole? {
      var m := PopGate(buf, v.len);
      return true, Got(m), resync;
    } else {
      buf.Retrieve(2);
      next := resync + 1;
      done, r := next > MaxResync, Bad;
    }
  }

  /** One decoder call on a service link. */
  method DecodeFrame(buf: Buffer, service: byte) returns (r: Reply<GateMessage>)
    requires buf.Valid()
    modifies buf
    ensures buf.Valid() && buf.data == old(buf.data)
    ensures var d := Decode(Gate(service), old(buf.Contents()), 0);
            r == GateReply(d.outcome) && buf.Contents() == d.rest
  {
    ghost var d := Decode(Gate(service), buf.Contents(), 0);
    var resync, done := 0, false;
    r := More;
    while !done
      invariant buf.Valid() && buf.data == old(buf.data)
      invariant if done then r == GateReply(d.outcome) && buf.Contents() == d.rest
                else Decode(Gate(service), buf.Contents(), resync) == d
      decreases !done, |buf.Contents()|
    {
      var stop;
      stop, resync := Locate(Gate(service), buf, resync);
      if stop.Some? {
        return if stop.value == NeedMore then More else Bad;
      }
      done, r, resync := SettleGate(buf, service, resync);
    }
  }

  /** The checks on a located client header; the name is looked at only once the frame is complete. */
  method InspectClient(buf: Buffer) returns (v: Verdict, name: bytes)
    requires buf.Valid() && |buf.Contents()| >= HeaderSize
    ensures v == Examine(Client, buf.Contents())
    ensures v.Whole? ==> name == ReadClient(buf.Contents()[..v.len]).head.roleName
  {
    var s := buf.data[buf.readIndex..buf.writeIndex];
    name := [];
    if s[2] != 2 {
      return Reject, name;
    }
    var total := FromBig(s[16..20]);
    if total < HeaderSize || total > MaxSize(Client) {
      return Reject, name;
    }
    if total > |s| {
      return Wait, name;
    }
    var read := ReadName(s[20..32]);
    if read.None? {
      return Broken, name;
    }
    assert s[..total][20..32] == s[20..32];
    return Whole(total), read.value;
  }

  /** What a decoder call does with the magic in front: it ends, or goes on behind a rejected candidate. */
  method SettleClient(buf: Buffer, resync: nat) returns (done: bool, r: Reply<ClientMessage>, next: nat)
    requires buf.Valid() && |buf.Contents()| >= HeaderSize && Starts(Client, buf.Contents())
    modifies buf
    ensures buf.Valid() && buf.data == old(buf.data)
    ensures var j := Judge(Client, old(buf.Contents()), resync);
            if done then r == ClientReply(j.outcome) && buf.Contents() == j.rest
            else Decode(Client, buf.Contents(), next) == j && |buf.Contents()| < |old(buf.Contents())|
  {
    var v, name := InspectClient(buf);
    if v == Wait {
      return true, More, resync;
    } else if v.Whole? {
      var m := PopClient(buf, v.len, name);
      return true, Got(m), resync;
    } else {
      buf.Retrieve(2);
      next := resync + 1;
      done, r := v == Broken || next > MaxResync, Bad;
    }
  }

  /** One decoder call on a client link. */
  method DecodeClientFrame(buf: Buffer) returns (r: Reply<ClientMessage>)
    requires buf.Valid()
    modifies buf
    ensures buf.Valid() && buf.data == old(buf.data)
    ensures var d := Decode(Client, old(buf.Contents()), 0);
            r == ClientReply(d.outcome) && buf.Contents() == d.rest
  {
    ghost var d := Decode(Client, buf.Contents(), 0);
    var resync, done := 0, false;
    r := More;
    while !done
      invariant buf.Valid() && buf.data == old(buf.data)
      invariant if done then r == ClientReply(d.outcome) && buf.Contents() == d.rest
                else Decode(Client, buf.Contents(), resync) == d
      decreases !done, |buf.Contents()|
    {
      var stop;
      stop, resync := Locate(Client, buf, resync);
      if stop.Some? {
        return if stop.value == NeedMore then More else Bad;
      }
      done, r, resync := SettleClient(buf, resync);
    }
  }

  ghost function ReadAll(frames: seq<bytes>): (ms: seq<GateMessage>)
    requires forall i :: 0 <= i < |frames| ==> |frames[i]| >= HeaderSize
  {
    seq(|frames|, i requires 0 <= i < |frames| => ReadGate(frames[i]))
  }

  lemma ReadAllMore(frames: seq<bytes>, last: bytes)
    requires AllHeaded(frames) && |last| >= HeaderSize
    ensures AllHeaded(frames + [last]) && ReadAll(frames + [last]) == ReadAll(frames) + [ReadGate(last)]
  {
  }

  predicate AllHeaded(frames: seq<bytes>) { forall i :: 0 <= i < |frames| ==> |frames[i]| >= HeaderSize }

  /** A service connection: its buffer, what it handed on, its error count. */
  class ServiceLink {
    const service: byte
    const limit: nat
    const input: Buffer
    var delivered: seq<GateMessage>
    var errors: nat
    var closed: bool

    ghost predicate Valid()
      reads this, input
    {
      input.Valid()
    }

    /** The connection as the stream theorems see it, once its frames are known. */
    ghost predicate Is(c: Conn)
      requires Valid()
      reads this, input, input.data
    {
      && c.pending == input.Contents() && c.errors == errors && c.closed == closed
      && AllHeaded(c.frames) && delivered == ReadAll(c.frames)
    }

    constructor (service: byte, limit: nat)
      ensures Valid() && fresh(input) && fresh(input.data) && this.service == service && this.limit == limit
      ensures Is(Opened)
    {
      this.service := service;
      this.limit := limit;
      delivered := [];
      errors := 0;
      closed := false;
      input := new Buffer();
    }

    /** One turn of the read loop. */
    method Step(ghost c: Conn) returns (again: bool)
      requires Valid() && !closed && Is(c)
      modifies this, input
      ensures Valid() && input.data == old(input.data)
      ensures var (next, more) := Turn(limit, c, Decode(Gate(service), c.pending, 0)); Is(next) && again == more
    {
      ghost var d := Decode(Gate(service), c.pending, 0);
      var r := DecodeFrame(input, service);
      match r
      case More =>
        again := false;
      case Bad =>
        errors := errors + 1;
        closed := errors >= limit;
        again := !closed;
      case Got(m) =>
        ReadAllMore(c.frames, d.outcome.frame);
        delivered := delivered + [m];
        again := true;
    }

    /** The read handler: bytes in, then frames out until more bytes are needed or the connection closes. */
    method OnReadable(chunk: bytes, ghost c: Conn)
      requires Valid() && !closed && Is(c)
      modifies this, input, input.data
      ensures Valid() && Is(Receive(Gate(service), limit, c, chunk))
      ensures input.data == old(input.data) || fresh(input.data)
    {
      input.Append(chunk);
      ghost var d := c.(pending := c.pending + chunk);
      ghost var whole := Pump(Gate(service), limit, d);
      var again := true;
      while again
        invariant Valid() && (input.data == old(input.data) || fresh(input.data))
        invariant if again then !closed && Is(d) && Pump(Gate(service), limit, d) == whole else Is(whole)
        decreases again, |d.pending|
      {
        ghost var next := Turn(limit, d, Decode(Gate(service), d.pending, 0)).0;
        again := Step(d);
        d := next;
      }
    }
  }
}
