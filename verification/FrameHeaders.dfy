/** The two 32-byte headers: fields to bytes and back, and messages through a chunked stream. */
module FrameHeaders {
  import opened Common
  import opened Endian
  import opened Utf8
  import opened FrameSpec
  import opened FrameTheorems

  // ---- service link ----

  datatype GateHeader = GateHeader(
    msgType: byte, retrFlag: byte, mod: u16, method_: u16, sequence: u64, playerId: u64, totalLen: u32,
    src: byte, dst: byte)

  datatype GateMessage = GateMessage(head: GateHeader, body: bytes)

  /** The header written for a body of the given size; the header's own length field plays no part,
      and a length beyond 32 bits is cut. */
  function GateHead(h: GateHeader, size: nat): (r: bytes)
    ensures |r| == HeaderSize
  {
    [0xC1, 0xEA] + Big(1, 2) + [h.msgType, h.retrFlag] + Big(h.mod, 2) + Big(h.method_, 2)
    + Big(h.sequence, 8) + Big(h.playerId, 8) + Big(HeaderSize + size, 4) + [h.src, h.dst]
  }

  function EncodeGate(m: GateMessage): bytes { GateHead(m.head, |m.body|) + m.body }

  function FieldOf(u: bytes, at: nat, n: nat): (v: nat)
    requires at + n <= |u|
    ensures v < Pow256(n)
  {
    BigInverse(u[at..at + n]);
    FromBig(u[at..at + n])
  }

  function ReadGate(u: bytes): GateMessage
    requires |u| >= HeaderSize
  {
    Widths();
    GateMessage(
      GateHeader(u[4], u[5], FieldOf(u, 6, 2), FieldOf(u, 8, 2), FieldOf(u, 10, 8), FieldOf(u, 18, 8),
                 FieldOf(u, 26, 4), u[30], u[31]),
      u[HeaderSize..])
  }

  lemma GateHeadFields(h: GateHeader, size: nat)
    ensures var u := GateHead(h, size);
            && u[2..4] == Big(1, 2) && u[6..8] == Big(h.mod, 2) && u[8..10] == Big(h.method_, 2)
            && u[10..18] == Big(h.sequence, 8) && u[18..26] == Big(h.playerId, 8)
            && u[26..30] == Big(HeaderSize + size, 4)
            && u[0] == 0xC1 && u[1] == 0xEA && u[4] == h.msgType && u[5] == h.retrFlag
            && u[30] == h.src && u[31] == h.dst
  {
  }

  lemma FieldOfBig(u: bytes, at: nat, n: nat, v: nat)
    requires at + n <= |u| && u[at..at + n] == Big(v, n) && v < Pow256(n)
    ensures FieldOf(u, at, n) == v
  {
    BigRoundTrip(v, n);
  }

  lemma GateLayout(m: GateMessage)
    ensures var u, h := EncodeGate(m), m.head;
            && |u| == HeaderSize + |m.body| && u[HeaderSize..] == m.body
            && u[2..4] == Big(1, 2) && u[6..8] == Big(h.mod, 2) && u[8..10] == Big(h.method_, 2)
            && u[10..18] == Big(h.sequence, 8) && u[18..26] == Big(h.playerId, 8)
            && u[26..30] == Big(|u|, 4)
            && u[0] == 0xC1 && u[1] == 0xEA && u[4] == h.msgType && u[5] == h.retrFlag
            && u[30] == h.src && u[31] == h.dst
  {
    var head := GateHead(m.head, |m.body|);
    var u := EncodeGate(m);
    GateHeadFields(m.head, |m.body|);
    assert u[..HeaderSize] == head;
    assert u[2..4] == head[2..4] && u[6..8] == head[6..8] && u[8..10] == head[8..10] && u[10..18] == head[10..18];
    assert u[18..26] == head[18..26] && u[26..30] == head[26..30];
  }

  /** A message as its reader sees it: the length filled in. */
  function GateStamped(m: GateMessage): GateMessage {
    m.(head := m.head.(totalLen := (HeaderSize + |m.body|) % 0x1_0000_0000))
  }

  lemma GateReadsBack(m: GateMessage)
    requires HeaderSize + |m.body| < 0x1_0000_0000
    ensures ReadGate(EncodeGate(m)) == GateStamped(m)
  {
    var u, h := EncodeGate(m), m.head;
    GateLayout(m);
    Widths();
    FieldOfBig(u, 6, 2, h.mod);
    FieldOfBig(u, 8, 2, h.method_);
    FieldOfBig(u, 10, 8, h.sequence);
    FieldOfBig(u, 18, 8, h.playerId);
    FieldOfBig(u, 26, 4, |u|);
  }

  predicate GateSendable(service: byte, m: GateMessage) {
    HeaderSize + |m.body| <= MaxSize(Gate(service)) && (service == 0 || m.head.dst == service)
  }

  /** A decoder takes an encoded message for one frame exactly when it is short enough and addressed to it. */
  lemma GateAcceptedIff(service: byte, m: GateMessage)
    ensures WellFramed(Gate(service), EncodeGate(m)) <==> GateSendable(service, m)
  {
    var u, f := EncodeGate(m), Gate(service);
    GateLayout(m);
    Widths();
    FieldOfBig(u, 2, 2, 1);
    assert VersionOk(f, u);
    assert FieldOf(u, 26, 4) == TotalLen(f, u);
    if |u| < 0x1_0000_0000 {
      FieldOfBig(u, 26, 4, |u|);
    }
  }

  lemma BigOfField(u: bytes, at: nat, n: nat)
    requires at + n <= |u|
    ensures Big(FieldOf(u, at, n), n) == u[at..at + n]
  {
    BigInverse(u[at..at + n]);
  }

  /** Nothing else is accepted: every accepted frame is the encoding of what is read from it. */
  lemma GateFramesAreEncodings(service: byte, u: bytes)
    requires WellFramed(Gate(service), u)
    ensures EncodeGate(ReadGate(u)) == u && ReadGate(u).head.totalLen == |u|
  {
    var f, m := Gate(service), ReadGate(u);
    Widths();
    var h := m.head;
    BigOfField(u, 2, 2);
    BigOfField(u, 6, 2);
    BigOfField(u, 8, 2);
    BigOfField(u, 10, 8);
    BigOfField(u, 18, 8);
    BigOfField(u, 26, 4);
    assert FieldOf(u, 26, 4) == TotalLen(f, u) == |u|;
    assert FieldOf(u, 2, 2) == 1;
    GateHeadIs(u[..HeaderSize], h, |m.body|);
    assert u == u[..HeaderSize] + u[HeaderSize..];
  }

  lemma Cut(u: bytes, a: nat, b: nat)
    requires a <= b <= |u|
    ensures u[0..a] + u[a..b] == u[0..b]
  {
  }

  lemma GateFrontIs(u: bytes, h: GateHeader)
    requires |u| == HeaderSize && u[2..4] == Big(1, 2) && u[6..8] == Big(h.mod, 2) && u[8..10] == Big(h.method_, 2)
    requires u[0] == 0xC1 && u[1] == 0xEA && u[4] == h.msgType && u[5] == h.retrFlag
    ensures [0xC1, 0xEA] + Big(1, 2) + [h.msgType, h.retrFlag] + Big(h.mod, 2) + Big(h.method_, 2) == u[0..10]
  {
    assert u[0..2] == [0xC1, 0xEA] && u[4..6] == [h.msgType, h.retrFlag];
    Cut(u, 2, 4);
    Cut(u, 4, 6);
    Cut(u, 6, 8);
    Cut(u, 8, 10);
  }

  lemma GateHeadIs(u: bytes, h: GateHeader, size: nat)
    requires |u| == HeaderSize
    requires u[2..4] == Big(1, 2) && u[6..8] == Big(h.mod, 2) && u[8..10] == Big(h.method_, 2)
    requires u[10..18] == Big(h.sequence, 8) && u[18..26] == Big(h.playerId, 8) && u[26..30] == Big(HeaderSize + size, 4)
    requires u[0] == 0xC1 && u[1] == 0xEA && u[4] == h.msgType && u[5] == h.retrFlag && u[30] == h.src && u[31] == h.dst
    ensures GateHead(h, size) == u
  {
    GateFrontIs(u, h);
    GateBackIs(u, h, size);
  }

  lemma GateBackIs(u: bytes, h: GateHeader, size: nat)
    requires |u| == HeaderSize && u[10..18] == Big(h.sequence, 8) && u[18..26] == Big(h.playerId, 8)
    requires u[26..30] == Big(HeaderSize + size, 4) && u[30] == h.src && u[31] == h.dst
    ensures u[0..10] + Big(h.sequence, 8) + Big(h.playerId, 8) + Big(HeaderSize + size, 4) + [h.src, h.dst] == u
  {
    assert u[30..32] == [h.src, h.dst];
    Cut(u, 10, 18);
    Cut(u, 18, 26);
    Cut(u, 26, 30);
    Cut(u, 30, 32);
    assert u[0..32] == u;
  }

  function GateWire(ms: seq<GateMessage>): seq<bytes> { seq(|ms|, i requires 0 <= i < |ms| => EncodeGate(ms[i])) }

  /** Messages sent back to back to a service and split anywhere are read as sent, in order, without error. */
  lemma GateMessagesArrive(service: byte, limit: nat, ms: seq<GateMessage>, chunks: seq<bytes>)
    requires forall i :: 0 <= i < |ms| ==> GateSendable(service, ms[i])
    requires Joined(chunks) == Stream(GateWire(ms))
    ensures var c := Run(Gate(service), limit, chunks);
            && c.errors == 0 && !c.closed && c.pending == [] && c.frames == GateWire(ms)
            && forall i :: 0 <= i < |ms| ==> ReadGate(c.frames[i]) == GateStamped(ms[i])
  {
    forall i | 0 <= i < |ms| ensures WellFramed(Gate(service), EncodeGate(ms[i])) {
      GateAcceptedIff(service, ms[i]);
    }
    FramesArriveAsSent(Gate(service), limit, chunks, GateWire(ms));
    forall i | 0 <= i < |ms|
      ensures ReadGate(GateWire(ms)[i]) == GateStamped(ms[i])
    {
      GateReadsBack(ms[i]);
    }
  }

  /** A concrete stream on which asking for more consumes: one stray byte, then a frame still short of its body. */
  lemma NeedMoreCanConsume()
    ensures var m := GateMessage(GateHeader(1, 0, 1, 1, 5, 6, 0, 1, 8), [9]);
            var s := [0] + EncodeGate(m)[..HeaderSize];
            var d := Decode(Gate(8), s, 0);
            d.outcome == NeedMore && |s| == 33 && |d.rest| == 32 && Starts(Gate(8), s[1..])
  {
    var m := GateMessage(GateHeader(1, 0, 1, 1, 5, 6, 0, 1, 8), [9]);
    GateAcceptedIff(8, m);
    GateLayout(m);
    var u := EncodeGate(m);
    JunkIsDropped(Gate(8), 0, u, HeaderSize);
    assert ([0] + u[..HeaderSize])[1..] == u[..HeaderSize];
  }

  // ---- client link ----

  datatype ClientHeader = ClientHeader(
    kind: byte, mod: u16, method_: u16, requestId: u64, totalLen: u32, roleName: bytes)

  datatype ClientMessage = ClientMessage(head: ClientHeader, body: bytes)

  function Padding(n: nat): (r: bytes)
    ensures |r| == n && Zeros(r)
  {
    seq(n, _ => 0)
  }

  function ClientHead(h: ClientHeader, size: nat): (r: bytes)
    requires |h.roleName| <= RoleNameSize
    ensures |r| == HeaderSize
  {
    [0xC1, 0xEB, 2, h.kind] + Big(h.mod, 2) + Big(h.method_, 2) + Big(h.requestId, 8) + Big(HeaderSize + size, 4)
    + (h.roleName + Padding(RoleNameSize - |h.roleName|))
  }

  /** None stands for the exception on an unacceptable role name. */
  function EncodeClient(m: ClientMessage): Option<bytes> {
    if RoleName(m.head.roleName) then Some(ClientHead(m.head, |m.body|) + m.body) else None
  }

  function ReadClient(u: bytes): ClientMessage
    requires |u| >= HeaderSize
  {
    Widths();
    var field := u[20..32];
    ClientMessage(
      ClientHeader(u[3], FieldOf(u, 4, 2), FieldOf(u, 6, 2), FieldOf(u, 8, 8), FieldOf(u, 16, 4),
                   field[..NameLength(field)]),
      u[HeaderSize..])
  }

  /** Zero padding is undone because no acceptable name contains a zero. */
  lemma PaddingIsUndone(name: bytes)
    requires RoleName(name)
    ensures var field := name + Padding(RoleNameSize - |name|);
            NameLength(field) == |name| && field[..|name|] == name && NameFieldOk(field)
  {
    var field := name + Padding(RoleNameSize - |name|);
    assert forall k :: 0 <= k < |name| ==> field[k] == name[k] != 0;
    assert |name| < RoleNameSize ==> field[|name|] == 0;
    assert field[..|name|] == name && field[|name|..] == Padding(RoleNameSize - |name|);
  }

  lemma ClientLayout(h: ClientHeader, body: bytes)
    requires |h.roleName| <= RoleNameSize
    ensures var u := ClientHead(h, |body|) + body;
            && |u| == HeaderSize + |body| && u[HeaderSize..] == body
            && u[4..6] == Big(h.mod, 2) && u[6..8] == Big(h.method_, 2) && u[8..16] == Big(h.requestId, 8)
            && u[16..20] == Big(|u|, 4)
            && u[20..32] == h.roleName + Padding(RoleNameSize - |h.roleName|)
            && u[0] == 0xC1 && u[1] == 0xEB && u[2] == 2 && u[3] == h.kind
  {
    var head := ClientHead(h, |body|);
    var u := head + body;
    assert u[4..6] == head[4..6] == Big(h.mod, 2);
    assert u[6..8] == head[6..8] == Big(h.method_, 2);
    assert u[8..16] == head[8..16] == Big(h.requestId, 8);
    assert u[16..20] == head[16..20] == Big(|u|, 4);
    assert u[20..32] == head[20..32] == h.roleName + Padding(RoleNameSize - |h.roleName|);
  }

  function ClientStamped(m: ClientMessage): ClientMessage {
    m.(head := m.head.(totalLen := (HeaderSize + |m.body|) % 0x1_0000_0000))
  }

  lemma ClientFieldsBack(h: ClientHeader, body: bytes)
    requires |h.roleName| <= RoleNameSize && HeaderSize + |body| < 0x1_0000_0000
    ensures var u := ClientHead(h, |body|) + body;
            && FieldOf(u, 4, 2) == h.mod && FieldOf(u, 6, 2) == h.method_
            && FieldOf(u, 8, 8) == h.requestId && FieldOf(u, 16, 4) == |u|
  {
    var u := ClientHead(h, |body|) + body;
    ClientLayout(h, body);
    Widths();
    FieldOfBig(u, 4, 2, h.mod);
    FieldOfBig(u, 6, 2, h.method_);
    FieldOfBig(u, 8, 8, h.requestId);
    FieldOfBig(u, 16, 4, |u|);
  }

  lemma ClientReadsBack(m: ClientMessage)
    requires RoleName(m.head.roleName) && HeaderSize + |m.body| < 0x1_0000_0000
    ensures ReadClient(EncodeClient(m).value) == ClientStamped(m)
  {
    ClientLayout(m.head, m.body);
    ClientFieldsBack(m.head, m.body);
    PaddingIsUndone(m.head.roleName);
  }

  /** Every frame a client or the gateway can encode is taken whole exactly when it is within the size cap. */
  lemma ClientAcceptedIff(m: ClientMessage)
    requires RoleName(m.head.roleName)
    ensures WellFramed(Client, EncodeClient(m).value) <==> HeaderSize + |m.body| <= MaxSize(Client)
  {
    var u := EncodeClient(m).value;
    ClientLayout(m.head, m.body);
    PaddingIsUndone(m.head.roleName);
    Widths();
    assert FieldOf(u, 16, 4) == TotalLen(Client, u);
    if |u| < 0x1_0000_0000 {
      ClientFieldsBack(m.head, m.body);
    }
  }

  /** Every accepted client frame carries an acceptable name and is the encoding of what is read from it. */
  lemma ClientFramesAreEncodings(u: bytes)
    requires WellFramed(Client, u)
    ensures EncodeClient(ReadClient(u)) == Some(u) && ReadClient(u).head.totalLen == |u|
  {
    var m := ReadClient(u);
    Widths();
    BigOfField(u, 4, 2);
    BigOfField(u, 6, 2);
    BigOfField(u, 8, 8);
    BigOfField(u, 16, 4);
    assert FieldOf(u, 16, 4) == TotalLen(Client, u) == |u|;
    NameFieldIs(u[20..32]);
    var head := u[..HeaderSize];
    assert head[4..6] == u[4..6] && head[6..8] == u[6..8] && head[8..16] == u[8..16];
    assert head[16..20] == u[16..20] == Big(HeaderSize + |m.body|, 4);
    assert head[20..32] == u[20..32];
    ClientHeadIs(head, m.head, |m.body|);
    assert u == head + u[HeaderSize..];
  }

  lemma NameFieldIs(field: bytes)
    requires |field| == RoleNameSize && NameFieldOk(field)
    ensures var name := field[..NameLength(field)]; RoleName(name) && field == name + Padding(RoleNameSize - |name|)
  {
    var n := NameLength(field);
    assert field[n..] == Padding(RoleNameSize - n);
    assert field == field[..n] + field[n..];
  }

  lemma ClientHeadIs(u: bytes, h: ClientHeader, size: nat)
    requires |u| == HeaderSize && |h.roleName| <= RoleNameSize
    requires u[4..6] == Big(h.mod, 2) && u[6..8] == Big(h.method_, 2) && u[8..16] == Big(h.requestId, 8)
    requires u[16..20] == Big(HeaderSize + size, 4)
    requires u[20..32] == h.roleName + Padding(RoleNameSize - |h.roleName|)
    requires u[0] == 0xC1 && u[1] == 0xEB && u[2] == 2 && u[3] == h.kind
    ensures ClientHead(h, size) == u
  {
    assert u[0..4] == [0xC1, 0xEB, 2, h.kind];
    Cut(u, 4, 6);
    Cut(u, 6, 8);
    Cut(u, 8, 16);
    Cut(u, 16, 20);
    Cut(u, 20, 32);
    assert u[0..32] == u;
  }

  predicate ClientSendable(m: ClientMessage) {
    RoleName(m.head.roleName) && HeaderSize + |m.body| <= MaxSize(Client)
  }

  function ClientBytes(m: ClientMessage): bytes
    requires ClientSendable(m)
  {
    EncodeClient(m).value
  }

  function ClientWire(ms: seq<ClientMessage>): seq<bytes>
    requires forall i :: 0 <= i < |ms| ==> ClientSendable(ms[i])
  {
    seq(|ms|, i requires 0 <= i < |ms| => ClientBytes(ms[i]))
  }

  /** The same promise on the public link, role names included. */
  lemma ClientMessagesArrive(limit: nat, ms: seq<ClientMessage>, chunks: seq<bytes>)
    requires forall i :: 0 <= i < |ms| ==> ClientSendable(ms[i])
    requires Joined(chunks) == Stream(ClientWire(ms))
    ensures var c := Run(Client, limit, chunks);
            && c.errors == 0 && !c.closed && c.pending == [] && c.frames == ClientWire(ms)
            && forall i :: 0 <= i < |ms| ==> ReadClient(c.frames[i]) == ClientStamped(ms[i])
  {
    forall i | 0 <= i < |ms| ensures WellFramed(Client, ClientWire(ms)[i]) {
      ClientAcceptedIff(ms[i]);
    }
    FramesArriveAsSent(Client, limit, chunks, ClientWire(ms));
    forall i | 0 <= i < |ms|
      ensures ReadClient(ClientWire(ms)[i]) == ClientStamped(ms[i])
    {
      ClientReadsBack(ms[i]);
    }
  }
}
