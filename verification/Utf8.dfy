/** Which byte strings pass as role names and chat text: the octet grammar of section 4 of RFC 3629,
    the text it denotes, and the scanner that decides it. */
module Utf8 {
  import opened Common

  // ---- the grammar ----

  predicate Tail(b: byte) { 0x80 <= b <= 0xBF }

  predicate Utf8One(s: bytes) { |s| == 1 && s[0] <= 0x7F }

  predicate Utf8Two(s: bytes) { |s| == 2 && 0xC2 <= s[0] <= 0xDF && Tail(s[1]) }

  predicate Utf8Three(s: bytes) {
    && |s| == 3
    && Tail(s[2])
    && (|| (s[0] == 0xE0 && 0xA0 <= s[1] <= 0xBF)
        || (0xE1 <= s[0] <= 0xEC && Tail(s[1]))
        || (s[0] == 0xED && 0x80 <= s[1] <= 0x9F)
        || (0xEE <= s[0] <= 0xEF && Tail(s[1])))
  }

  predicate Utf8Four(s: bytes) {
    && |s| == 4
    && Tail(s[2]) && Tail(s[3])
    && (|| (s[0] == 0xF0 && 0x90 <= s[1] <= 0xBF)
        || (0xF1 <= s[0] <= 0xF3 && Tail(s[1]))
        || (s[0] == 0xF4 && 0x80 <= s[1] <= 0x8F))
  }

  predicate Utf8Char(s: bytes) { Utf8One(s) || Utf8Two(s) || Utf8Three(s) || Utf8Four(s) }

  /** Any number of characters, split anyhow. */
  predicate Octets(s: bytes)
    decreases |s|
  {
    s == [] || exists n {:trigger Leads(s, n)} :: 1 <= n <= |s| && Leads(s, n) && Octets(s[n..])
  }

  predicate Leads(s: bytes, n: int) { 1 <= n <= |s| && Utf8Char(s[..n]) }

  /** No byte of a control character. */
  predicate Plain(s: bytes) { forall k :: 0 <= k < |s| ==> s[k] >= 0x20 && s[k] != 0x7F }

  const RoleNameSize: nat := 12
  const MaxChatText: nat := 1024

  predicate RoleName(s: bytes) { |s| <= RoleNameSize && Octets(s) && Plain(s) }

  predicate ChatText(s: bytes) { 1 <= |s| <= MaxChatText && Octets(s) && Plain(s) }

  // ---- what the octets denote ----

  type Scalar = c: int | 0 <= c <= 0xD7FF || 0xE000 <= c <= 0x10FFFF

  /** The shortest encoding of one scalar value. */
  function Encoded(c: Scalar): bytes {
    if c < 0x80 then [c]
    else if c < 0x800 then [0xC0 + c / 64, 0x80 + c % 64]
    else if c < 0x10000 then [0xE0 + c / 4096, 0x80 + c / 64 % 64, 0x80 + c % 64]
    else [0xF0 + c / 262144, 0x80 + c / 4096 % 64, 0x80 + c / 64 % 64, 0x80 + c % 64]
  }

  function Flatten(parts: seq<bytes>): bytes {
    if parts == [] then [] else parts[0] + Flatten(parts[1..])
  }

  function Text(cs: seq<Scalar>): bytes {
    Flatten(seq(|cs|, i requires 0 <= i < |cs| => Encoded(cs[i])))
  }

  lemma EncodedIsChar(c: Scalar)
    ensures Utf8Char(Encoded(c))
  {
    if c < 0x80 {
    } else if c < 0x800 {
      assert Utf8Two(Encoded(c));
    } else if c < 0x10000 {
      assert c / 64 / 64 == c / 4096;
      assert Utf8Three(Encoded(c));
    } else {
      assert c / 4096 / 64 == c / 262144;
      assert Utf8Four(Encoded(c));
    }
  }

  function Denoted(s: bytes): Scalar
    requires Utf8Char(s)
  {
    var a: int := s[0];
    if |s| == 1 then a
    else
      var b: int := s[1];
      if |s| == 2 then (a - 0xC0) * 64 + (b - 0x80)
      else
        var c: int := s[2];
        if |s| == 3 then ((a - 0xE0) * 64 + (b - 0x80)) * 64 + (c - 0x80)
        else (((a - 0xF0) * 64 + (b - 0x80)) * 64 + (c - 0x80)) * 64 + (s[3] - 0x80)
  }

  lemma Digits(hi: int, lo: int)
    requires 0 <= lo < 64
    ensures (hi * 64 + lo) / 64 == hi && (hi * 64 + lo) % 64 == lo
  {
  }

  lemma ThreeDigits(a: int, b: int, c: int)
    requires 0 <= b < 64 && 0 <= c < 64
    ensures var v := (a * 64 + b) * 64 + c;
            v / 4096 == a && v / 64 % 64 == b && v % 64 == c
  {
    Digits(a, b);
    Digits(a * 64 + b, c);
    var v := (a * 64 + b) * 64 + c;
    assert v / 64 / 64 == v / 4096;
  }

  lemma FourDigits(a: int, b: int, c: int, d: int)
    requires 0 <= b < 64 && 0 <= c < 64 && 0 <= d < 64
    ensures var v := ((a * 64 + b) * 64 + c) * 64 + d;
            v / 262144 == a && v / 4096 % 64 == b && v / 64 % 64 == c && v % 64 == d
  {
    ThreeDigits(a, b, c);
    Digits((a * 64 + b) * 64 + c, d);
    var v := ((a * 64 + b) * 64 + c) * 64 + d;
    assert v / 64 / 4096 == v / 262144;
    assert v / 64 / 64 == v / 4096;
  }

  lemma ThreeIsEncoded(s: bytes)
    requires Utf8Three(s)
    ensures Encoded(Denoted(s)) == s
  {
    ThreeDigits(s[0] - 0xE0, s[1] - 0x80, s[2] - 0x80);
    assert Denoted(s) >= 0x800;
  }

  lemma FourIsEncoded(s: bytes)
    requires Utf8Four(s)
    ensures Encoded(Denoted(s)) == s
  {
    FourDigits(s[0] - 0xF0, s[1] - 0x80, s[2] - 0x80, s[3] - 0x80);
    assert Denoted(s) >= 0x10000;
  }

  lemma CharIsEncoded(s: bytes)
    requires Utf8Char(s)
    ensures Encoded(Denoted(s)) == s
  {
    if |s| == 2 {
      Digits(s[0] - 0xC0, s[1] - 0x80);
    } else if |s| == 3 {
      ThreeIsEncoded(s);
    } else if |s| == 4 {
      FourIsEncoded(s);
    }
  }

  lemma DenotedOfEncoded(c: Scalar)
    ensures Utf8Char(Encoded(c)) && Denoted(Encoded(c)) == c
  {
    EncodedIsChar(c);
    if 0x800 <= c {
      assert c / 64 / 64 == c / 4096;
      assert c / 4096 / 64 == c / 262144;
    }
  }

  // ---- the scanner ----

  /** How many bytes the first one announces; 0 for a byte that starts no character. */
  function Width(c: byte): nat {
    if c < 0x80 then 1
    else if 0xC2 <= c <= 0xDF then 2
    else if 0xE0 <= c <= 0xEF then 3
    else if 0xF0 <= c <= 0xF4 then 4
    else 0
  }

  lemma CharHasItsWidth(s: bytes)
    requires Utf8Char(s)
    ensures |s| == Width(s[0])
  {
  }

  /** The first byte settles how a string splits. */
  lemma OctetsUnfold(s: bytes)
    requires s != []
    ensures Octets(s) <==>
            var n := Width(s[0]);
            Leads(s, n) && Octets(s[n..])
  {
    if Octets(s) {
      var n :| 1 <= n <= |s| && Leads(s, n) && Octets(s[n..]);
      CharHasItsWidth(s[..n]);
    }
  }

  // ---- the grammar generates exactly the encodings ----

  /** A string cut where its first bytes say. */
  function Chars(s: bytes): (parts: seq<bytes>)
    ensures Flatten(parts) == s
    decreases |s|
  {
    if s == [] then []
    else
      var n := Width(s[0]);
      if n == 0 || n > |s| then [s]
      else
        FlattenMore(s[..n], Chars(s[n..]));
        [s[..n]] + Chars(s[n..])
  }

  lemma {:induction false} CharsOfOctets(s: bytes)
    requires Octets(s)
    ensures forall i :: 0 <= i < |Chars(s)| ==> Utf8Char(Chars(s)[i])
    decreases |s|
  {
    if s != [] {
      OctetsUnfold(s);
      CharsOfOctets(s[Width(s[0])..]);
    }
  }

  lemma FlattenMore(u: bytes, parts: seq<bytes>)
    ensures Flatten([u] + parts) == u + Flatten(parts)
  {
    assert ([u] + parts)[1..] == parts;
  }

  /** There is only one way to cut a string into characters. */
  lemma {:induction false} CharsOfFlatten(parts: seq<bytes>)
    requires forall i :: 0 <= i < |parts| ==> Utf8Char(parts[i])
    ensures Octets(Flatten(parts)) && Chars(Flatten(parts)) == parts
  {
    if parts != [] {
      CharsOfFlatten(parts[1..]);
      var s, n := Flatten(parts), |parts[0]|;
      assert s[..n] == parts[0] && s[n..] == Flatten(parts[1..]) && s[0] == parts[0][0];
      assert Leads(s, n);
      CharHasItsWidth(parts[0]);
    }
  }

  /** The scalar values that a well-formed string encodes. */
  function CodePoints(s: bytes): seq<Scalar>
    requires Octets(s)
  {
    CharsOfOctets(s);
    var parts := Chars(s);
    seq(|parts|, i requires 0 <= i < |parts| => Denoted(parts[i]))
  }

  /** Every well-formed string is the encoding of some scalar values. */
  lemma OctetsAreText(s: bytes)
    requires Octets(s)
    ensures Text(CodePoints(s)) == s
  {
    var cs, parts := CodePoints(s), Chars(s);
    CharsOfOctets(s);
    forall i | 0 <= i < |parts| ensures Encoded(cs[i]) == parts[i] {
      CharIsEncoded(parts[i]);
    }
    assert seq(|cs|, i requires 0 <= i < |cs| => Encoded(cs[i])) == parts;
  }

  /** Every encoded text is well formed and encodes nothing else. */
  lemma TextIsOctets(cs: seq<Scalar>)
    ensures Octets(Text(cs)) && CodePoints(Text(cs)) == cs
  {
    var parts := seq(|cs|, i requires 0 <= i < |cs| => Encoded(cs[i]));
    forall i | 0 <= i < |parts| ensures Utf8Char(parts[i]) && Denoted(parts[i]) == cs[i] {
      DenotedOfEncoded(cs[i]);
    }
    CharsOfFlatten(parts);
  }

  /** Whether the bytes after the first one continue a character as the scanner asks. */
  method Continues(s: bytes, i: nat, n: nat) returns (ok: bool)
    requires i < |s| && n == Width(s[i]) && n >= 1 && i + n <= |s|
    ensures ok <==> Utf8Char(s[i..i + n])
  {
    var u := s[i..i + n];
    var j := 1;
    while j < n
      invariant 1 <= j <= n
      invariant forall k :: 1 <= k < j ==> Tail(u[k])
    {
      if s[i + j] / 64 != 2 {
        assert !Tail(u[j]);
        return false;
      }
      assert u[j] == s[i + j];
      j := j + 1;
    }
    if n > 1 {
      var c, second := s[i], s[i + 1];
      assert u[0] == c && u[1] == second;
      if (c == 0xE0 && second < 0xA0) || (c == 0xED && second >= 0xA0) ||
         (c == 0xF0 && second < 0x90) || (c == 0xF4 && second >= 0x90) {
        return false;
      }
    }
    ok := true;
  }

  predicate Clean(s: bytes) { Octets(s) && Plain(s) }

  lemma CleanUnfold(s: bytes)
    requires s != []
    ensures Clean(s) <==>
            var n := Width(s[0]);
            s[0] >= 0x20 && s[0] != 0x7F && Leads(s, n) && Clean(s[n..])
  {
    OctetsUnfold(s);
    var n := Width(s[0]);
    if Leads(s, n) {
      assert s == s[..n] + s[n..];
      assert s[..n][0] == s[0];
      if s[0] >= 0x20 && s[0] != 0x7F {
        CharBytesArePlain(s[..n]);
        PlainSplits(s[..n], s[n..]);
      }
    }
  }

  lemma PlainSplits(a: bytes, b: bytes)
    ensures Plain(a + b) <==> Plain(a) && Plain(b)
  {
    assert forall k :: 0 <= k < |a| ==> (a + b)[k] == a[k];
    assert forall k :: 0 <= k < |b| ==> (a + b)[|a| + k] == b[k];
  }

  lemma CharBytesArePlain(u: bytes)
    requires Utf8Char(u) && u[0] >= 0x20 && u[0] != 0x7F
    ensures Plain(u)
  {
  }

  method Scan(s: bytes) returns (ok: bool)
    ensures ok <==> Octets(s) && Plain(s)
  {
    var i := 0;
    while i < |s|
      invariant 0 <= i <= |s|
      invariant Clean(s) <==> Clean(s[i..])
    {
      CleanUnfold(s[i..]);
      var c := s[i];
      if c < 0x20 || c == 0x7F {
        return false;
      }
      var n := Width(c);
      if n == 0 || i + n > |s| {
        return false;
      }
      assert s[i..][..n] == s[i..i + n] && s[i..][n..] == s[i + n..];
      var fits := Continues(s, i, n);
      if !fits {
        return false;
      }
      i := i + n;
    }
    assert s[i..] == [];
    ok := true;
  }

  method ValidRoleName(s: bytes) returns (ok: bool)
    ensures ok <==> RoleName(s)
  {
    if |s| > RoleNameSize {
      return false;
    }
    ok := Scan(s);
  }

  method ValidChatText(s: bytes) returns (ok: bool)
    ensures ok <==> ChatText(s)
  {
    if s == [] || |s| > MaxChatText {
      return false;
    }
    ok := Scan(s);
  }
}
