/** The wire form of value trees. */
module ValueCodec {
  import opened Common
  import opened Endian
  import opened DbValue

  const MaxDepth: nat := 64
  const MaxItems: nat := 0x100_0000

  /** What the encoder appends; lengths and integers are cut to their fields,
      and below the depth limit only the tag is written. */
  function EncodeVal(v: Val, depth: nat): (r: bytes)
    ensures |r| >= 1
    decreases v
  {
    if depth > MaxDepth then [Tag(v)]
    else
      match v
      case Nil => [0]
      case Int(i) => [1] + Little(i % 0x1_0000_0000_0000_0000, 8)
      case Str(s) => [2] + (Little(|s|, 4) + s)
      case Arr(a) => [3] + (Little(|a|, 4) + EncodeAll(a, depth + 1))
  }

  function Tag(v: Val): byte {
    match v
    case Nil => 0
    case Int(_) => 1
    case Str(_) => 2
    case Arr(_) => 3
  }

  function EncodeAll(a: seq<Val>, depth: nat): (r: bytes)
    ensures |r| >= |a|
    decreases a
  {
    if a == [] then [] else EncodeVal(a[0], depth) + EncodeAll(a[1..], depth)
  }

  datatype Parsed<+T> = Parsed(value: T, rest: bytes)

  /** The values the format can carry below a given depth. */
  predicate Fits(v: Val, depth: nat)
    decreases v
  {
    && depth <= MaxDepth
    && match v
       case Nil => true
       case Int(i) => -0x8000_0000_0000_0000 <= i < 0x8000_0000_0000_0000
       case Str(s) => |s| < 0x1_0000_0000
       case Arr(a) => |a| <= MaxItems && forall k :: 0 <= k < |a| ==> Fits(a[k], depth + 1)
  }

  /** An integer field of n bytes, low byte first. */
  function TakeUint(s: bytes, n: nat): (r: Option<Parsed<nat>>)
    ensures r.Some? <==> |s| >= n
    ensures r.Some? ==> r.value.value < Pow256(n) && |r.value.rest| == |s| - n
  {
    if |s| < n then None
    else
      LittleInverse(s[..n]);
      Some(Parsed(FromLittle(s[..n]), s[n..]))
  }

  function TakeBytes(s: bytes, n: nat): (r: Option<Parsed<bytes>>)
    ensures r.Some? ==> |r.value.value| == n && |r.value.rest| == |s| - n
  {
    if |s| < n then None else Some(Parsed(s[..n], s[n..]))
  }

  function DecodeVal(s: bytes, depth: nat): (r: Option<Parsed<Val>>)
    ensures r.Some? ==> |r.value.rest| < |s|
    decreases |s|, 0
  {
    if depth > MaxDepth || s == [] then None
    else
      var u := s[1..];
      match s[0]
      case 0 => Some(Parsed(Nil, u))
      case 1 => IntOf(TakeUint(u, 8))
      case 2 => StrOf(TakeUint(u, 4))
      case 3 =>
        var n := TakeUint(u, 4);
        if n.None? || n.value.value > MaxItems || |n.value.rest| < n.value.value then None
        else
          var a := DecodeAll(n.value.rest, n.value.value, depth + 1);
          if a.None? then None else Some(Parsed(Arr(a.value.value), a.value.rest))
      case _ => None
  }

  function IntOf(n: Option<Parsed<nat>>): (r: Option<Parsed<Val>>)
    requires n.Some? ==> n.value.value < Pow256(8)
    ensures r.Some? ==> n.Some? && r.value.rest == n.value.rest
  {
    Widths();
    if n.None? then None else Some(Parsed(Int(Signed64(n.value.value)), n.value.rest))
  }

  function StrOf(n: Option<Parsed<nat>>): (r: Option<Parsed<Val>>)
    ensures r.Some? ==> n.Some? && |r.value.rest| <= |n.value.rest|
  {
    if n.None? then None
    else
      var s := TakeBytes(n.value.rest, n.value.value);
      if s.None? then None else Some(Parsed(Str(s.value.value), s.value.rest))
  }

  function DecodeAll(s: bytes, n: nat, depth: nat): (r: Option<Parsed<seq<Val>>>)
    ensures r.Some? ==> |r.value.value| == n && |r.value.rest| <= |s|
    decreases |s|, 1
  {
    if n == 0 then Some(Parsed([], s))
    else
      var v := DecodeVal(s, depth);
      if v.None? then None
      else
        var a := DecodeAll(v.value.rest, n - 1, depth);
        if a.None? then None else Some(Parsed([v.value.value] + a.value.value, a.value.rest))
  }

  // ---- fields ----

  lemma TakeLittle(v: nat, n: nat, t: bytes)
    requires v < Pow256(n)
    ensures TakeUint(Little(v, n) + t, n) == Some(Parsed(v, t))
  {
    LittleRoundTrip(v, n);
    var s := Little(v, n) + t;
    assert s[..n] == Little(v, n) && s[n..] == t;
  }

  lemma TakenIsLittle(s: bytes, n: nat)
    requires |s| >= n
    ensures var p := TakeUint(s, n).value; s == Little(p.value, n) + p.rest
  {
    LittleInverse(s[..n]);
    assert s == s[..n] + s[n..];
  }

  lemma TakeExactly(a: bytes, t: bytes)
    ensures TakeBytes(a + t, |a|) == Some(Parsed(a, t))
  {
    assert (a + t)[..|a|] == a && (a + t)[|a|..] == t;
  }

  lemma Signed64Inverse(i: int)
    requires -0x8000_0000_0000_0000 <= i < 0x8000_0000_0000_0000
    ensures 0 <= i % 0x1_0000_0000_0000_0000 < 0x1_0000_0000_0000_0000
    ensures Signed64(i % 0x1_0000_0000_0000_0000) == i
  {
    if i < 0 {
      assert (i + 0x1_0000_0000_0000_0000) % 0x1_0000_0000_0000_0000 == i % 0x1_0000_0000_0000_0000;
    }
  }

  // ---- decoding undoes encoding, whatever follows ----

  lemma DecodeInt(i: int, depth: nat, t: bytes)
    requires depth <= MaxDepth && -0x8000_0000_0000_0000 <= i < 0x8000_0000_0000_0000
    ensures DecodeVal(EncodeVal(Int(i), depth) + t, depth) == Some(Parsed(Int(i), t))
  {
    var n := i % 0x1_0000_0000_0000_0000;
    var s := [1] + (Little(n, 8) + t);
    assert EncodeVal(Int(i), depth) + t == s;
    Widths();
    Signed64Inverse(i);
    TakeLittle(n, 8, t);
    assert s[1..] == Little(n, 8) + t;
  }

  lemma DecodeStr(b: bytes, depth: nat, t: bytes)
    requires depth <= MaxDepth && |b| < 0x1_0000_0000
    ensures DecodeVal(EncodeVal(Str(b), depth) + t, depth) == Some(Parsed(Str(b), t))
  {
    var s := [2] + (Little(|b|, 4) + (b + t));
    assert EncodeVal(Str(b), depth) + t == s;
    assert s[1..] == Little(|b|, 4) + (b + t);
    Widths();
    TakeLittle(|b|, 4, b + t);
    TakeExactly(b, t);
  }

  /** An array decodes when its elements do. */
  lemma DecodeArr(a: seq<Val>, depth: nat, t: bytes)
    requires depth <= MaxDepth && |a| <= MaxItems
    requires DecodeAll(EncodeAll(a, depth + 1) + t, |a|, depth + 1) == Some(Parsed(a, t))
    ensures DecodeVal(EncodeVal(Arr(a), depth) + t, depth) == Some(Parsed(Arr(a), t))
  {
    var e := EncodeAll(a, depth + 1);
    ArrHead(|a|, e, t);
    DecodeElements(EncodeVal(Arr(a), depth) + t, |a|, e + t, depth);
  }

  /** The tag and the count of an array are read back, whatever follows. */
  lemma ArrHead(n: nat, e: bytes, t: bytes)
    requires n <= MaxItems
    ensures var s := [3] + (Little(n, 4) + e) + t; s[0] == 3 && TakeUint(s[1..], 4) == Some(Parsed(n, e + t))
  {
    Widths();
    Reassociate([3], Little(n, 4) + e, t);
    Reassociate(Little(n, 4), e, t);
    TakeLittle(n, 4, e + t);
  }

  /** After the count an array is decoded as its elements are. */
  lemma DecodeElements(s: bytes, n: nat, x: bytes, depth: nat)
    requires depth <= MaxDepth && s != [] && s[0] == 3 && TakeUint(s[1..], 4) == Some(Parsed(n, x)) && n <= MaxItems && n <= |x|
    ensures var all := DecodeAll(x, n, depth + 1);
            DecodeVal(s, depth) == if all.None? then None else Some(Parsed(Arr(all.value.value), all.value.rest))
  {
  }

  lemma {:induction false} ValueRoundTrip(v: Val, depth: nat, t: bytes)
    requires Fits(v, depth)
    ensures DecodeVal(EncodeVal(v, depth) + t, depth) == Some(Parsed(v, t))
    decreases v
  {
    match v
    case Nil =>
      assert ([0] + t)[1..] == t;
    case Int(i) => DecodeInt(i, depth, t);
    case Str(b) => DecodeStr(b, depth, t);
    case Arr(a) =>
      AllRoundTrip(a, depth + 1, t);
      DecodeArr(a, depth, t);
  }

  lemma DecodeMore(s: bytes, n: nat, depth: nat, v: Val, rest: bytes, a: seq<Val>, t: bytes)
    requires n > 0 && DecodeVal(s, depth) == Some(Parsed(v, rest)) && DecodeAll(rest, n - 1, depth) == Some(Parsed(a, t))
    ensures DecodeAll(s, n, depth) == Some(Parsed([v] + a, t))
  {
  }

  lemma EncodeMore(a: seq<Val>, depth: nat, t: bytes)
    requires a != []
    ensures EncodeAll(a, depth) + t == EncodeVal(a[0], depth) + (EncodeAll(a[1..], depth) + t)
  {
    Reassociate(EncodeVal(a[0], depth), EncodeAll(a[1..], depth), t);
  }

  lemma Reassociate(x: bytes, y: bytes, z: bytes)
    ensures x + y + z == x + (y + z)
  {
  }

  lemma {:induction false} AllRoundTrip(a: seq<Val>, depth: nat, t: bytes)
    requires forall k :: 0 <= k < |a| ==> Fits(a[k], depth)
    ensures DecodeAll(EncodeAll(a, depth) + t, |a|, depth) == Some(Parsed(a, t))
    decreases a
  {
    if a == [] {
      assert [] + t == t;
    } else {
      var rest := EncodeAll(a[1..], depth) + t;
      EncodeMore(a, depth, t);
      ValueRoundTrip(a[0], depth, rest);
      AllRoundTrip(a[1..], depth, t);
      DecodeMore(EncodeAll(a, depth) + t, |a|, depth, a[0], rest, a[1..], t);
      assert a == [a[0]] + a[1..];
    }
  }

  // ---- and encoding undoes decoding: one wire form per value ----

  predicate Canonical(s: bytes, depth: nat, p: Parsed<Val>) {
    Fits(p.value, depth) && s == EncodeVal(p.value, depth) + p.rest
  }

  lemma {:induction false} DecodedIsCanonical(s: bytes, depth: nat)
    ensures DecodeVal(s, depth).Some? ==> Canonical(s, depth, DecodeVal(s, depth).value)
    decreases |s|, 0
  {
    var r := DecodeVal(s, depth);
    if r.Some? {
      var u := s[1..];
      assert s == [s[0]] + u;
      if s[0] == 1 {
        IntIsCanonical(s, depth, u);
      } else if s[0] == 2 {
        StrIsCanonical(s, depth, u);
      } else if s[0] == 3 {
        var n := TakeUint(u, 4).value;
        AllDecodedCanonical(n.rest, n.value, depth + 1);
        ArrIsCanonical(s, depth, u, n, DecodeAll(n.rest, n.value, depth + 1).value);
      }
    }
  }

  lemma IntIsCanonical(s: bytes, depth: nat, u: bytes)
    requires s == [1] + u && DecodeVal(s, depth).Some?
    ensures Canonical(s, depth, DecodeVal(s, depth).value)
  {
    Widths();
    assert s[1..] == u;
    TakenIsLittle(u, 8);
    var n := TakeUint(u, 8).value;
    var i: int := Signed64(n.value);
    assert i % 0x1_0000_0000_0000_0000 == n.value;
    Reassociate([1], Little(n.value, 8), n.rest);
  }

  lemma StrIsCanonical(s: bytes, depth: nat, u: bytes)
    requires s == [2] + u && DecodeVal(s, depth).Some?
    ensures Canonical(s, depth, DecodeVal(s, depth).value)
  {
    Widths();
    assert s[1..] == u;
    TakenIsLittle(u, 4);
    var n := TakeUint(u, 4).value;
    var b, t := n.rest[..n.value], n.rest[n.value..];
    assert n.rest == b + t;
    Reassociate(Little(n.value, 4), b, t);
    Reassociate([2], Little(n.value, 4) + b, t);
  }

  lemma ArrIsCanonical(s: bytes, depth: nat, u: bytes, n: Parsed<nat>, a: Parsed<seq<Val>>)
    requires s == [3] + u && DecodeVal(s, depth) == Some(Parsed(Arr(a.value), a.rest)) && depth <= MaxDepth
    requires TakeUint(u, 4) == Some(n) && |a.value| == n.value <= MaxItems
    requires n.rest == EncodeAll(a.value, depth + 1) + a.rest
    requires forall k :: 0 <= k < n.value ==> Fits(a.value[k], depth + 1)
    ensures Canonical(s, depth, DecodeVal(s, depth).value)
  {
    var e := EncodeAll(a.value, depth + 1);
    TakenIsLittle(u, 4);
    Reassociate(Little(n.value, 4), e, a.rest);
    Reassociate([3], Little(n.value, 4) + e, a.rest);
    assert EncodeVal(Arr(a.value), depth) == [3] + (Little(n.value, 4) + e);
  }

  predicate AllCanonical(s: bytes, n: nat, depth: nat, p: Parsed<seq<Val>>) {
    s == EncodeAll(p.value, depth) + p.rest && |p.value| == n && forall k :: 0 <= k < n ==> Fits(p.value[k], depth)
  }

  lemma {:induction false} AllDecodedCanonical(s: bytes, n: nat, depth: nat)
    ensures DecodeAll(s, n, depth).Some? ==> AllCanonical(s, n, depth, DecodeAll(s, n, depth).value)
    decreases |s|, 1
  {
    var r := DecodeAll(s, n, depth);
    if r.Some? && n > 0 {
      DecodedIsCanonical(s, depth);
      var v := DecodeVal(s, depth).value;
      AllDecodedCanonical(v.rest, n - 1, depth);
      MoreCanonical(s, n, depth, v, DecodeAll(v.rest, n - 1, depth).value);
    }
  }

  lemma MoreCanonical(s: bytes, n: nat, depth: nat, v: Parsed<Val>, a: Parsed<seq<Val>>)
    requires n > 0 && Canonical(s, depth, v) && AllCanonical(v.rest, n - 1, depth, a)
    ensures AllCanonical(s, n, depth, Parsed([v.value] + a.value, a.rest))
  {
    var all := [v.value] + a.value;
    assert all[1..] == a.value;
    EncodeMore(all, depth, a.rest);
  }

  /** A value survives the wire exactly when it is nested at most 64 deep and its parts fit their length fields. */
  lemma ValueSurvivesIff(v: Val, t: bytes)
    ensures DecodeVal(EncodeVal(v, 0) + t, 0) == Some(Parsed(v, t)) <==> Fits(v, 0)
  {
    if Fits(v, 0) {
      ValueRoundTrip(v, 0, t);
    }
    DecodedIsCanonical(EncodeVal(v, 0) + t, 0);
  }

  /** Nil inside n arrays. */
  function Nested(n: nat): Val { if n == 0 then Nil else Arr([Nested(n - 1)]) }

  lemma {:induction false} NestedFitsIff(n: nat, depth: nat)
    ensures Fits(Nested(n), depth) <==> n + depth <= MaxDepth
    decreases n
  {
    if n > 0 {
      NestedFitsIff(n - 1, depth + 1);
      assert Nested(n).a[0] == Nested(n - 1);
    }
  }

  /** Past the limit the encoder writes bytes that the decoder refuses. */
  lemma {:induction false} DeepNestingIsRefused(n: nat, depth: nat, t: bytes)
    requires n + depth > MaxDepth
    ensures DecodeVal(EncodeVal(Nested(n), depth) + t, depth) == None
    decreases n
  {
    if depth <= MaxDepth {
      var a, d := [Nested(n - 1)], depth + 1;
      var e := EncodeAll(a, d);
      assert e == EncodeVal(a[0], d) + EncodeAll(a[1..], d) == EncodeVal(a[0], d);
      DeepNestingIsRefused(n - 1, d, t);
      ArrHead(1, e, t);
      DecodeElements(EncodeVal(Nested(n), depth) + t, 1, e + t, depth);
    }
  }

  /** The first value that is lost: Nil inside 65 arrays. */
  lemma SixtyFiveLevelsAreLost(t: bytes)
    ensures !Fits(Nested(65), 0) && DecodeVal(EncodeVal(Nested(65), 0) + t, 0) == None
    ensures DecodeVal(EncodeVal(Nested(64), 0) + t, 0) == Some(Parsed(Nested(64), t))
  {
    NestedFitsIff(65, 0);
    NestedFitsIff(64, 0);
    DeepNestingIsRefused(65, 0, t);
    ValueRoundTrip(Nested(64), 0, t);
  }

  /** No encoding is the beginning of another one. */
  lemma EncodingsDoNotOverlap(v: Val, w: Val, t: bytes, x: bytes)
    requires Fits(v, 0) && Fits(w, 0) && EncodeVal(v, 0) + t == EncodeVal(w, 0) + x
    ensures v == w && t == x
  {
    ValueRoundTrip(v, 0, t);
    ValueRoundTrip(w, 0, x);
  }

  // ---- the encoder and the decoder as they run ----

  /** Appends a value to the string under construction. */
  method WriteVal(text: bytes, v: Val, depth: nat) returns (r: bytes)
    ensures r == text + EncodeVal(v, depth)
    decreases v
  {
    r := text + [Tag(v)];
    if depth > MaxDepth {
      return;
    }
    match v
    case Nil =>
    case Int(i) =>
      r := r + Little(i % 0x1_0000_0000_0000_0000, 8);
      Reassociate(text, [1], Little(i % 0x1_0000_0000_0000_0000, 8));
    case Str(s) =>
      r := r + Little(|s|, 4);
      r := r + s;
      InFourParts(text, [2], Little(|s|, 4), s);
    case Arr(a) =>
      r := r + Little(|a|, 4);
      r := WriteAll(r, a, depth + 1);
      InFourParts(text, [3], Little(|a|, 4), EncodeAll(a, depth + 1));
  }

  lemma InFourParts(a: bytes, b: bytes, c: bytes, d: bytes)
    ensures a + b + c + d == a + (b + (c + d))
  {
  }

  method WriteAll(text: bytes, a: seq<Val>, depth: nat) returns (r: bytes)
    ensures r == text + EncodeAll(a, depth)
    decreases a, 0
  {
    r := text;
    var k := 0;
    while k < |a|
      invariant 0 <= k <= |a|
      invariant r + EncodeAll(a[k..], depth) == text + EncodeAll(a, depth)
    {
      ghost var was := r;
      r := WriteVal(r, a[k], depth);
      assert a[k..][1..] == a[k + 1..];
      Reassociate(was, EncodeVal(a[k], depth), EncodeAll(a[k + 1..], depth));
      k := k + 1;
    }
    assert a[k..] == [];
  }

  /** The decoded value and the rest, as a position in the text. */
  ghost predicate ReadFrom<T>(text: bytes, answer: Option<Parsed<T>>, value: Option<T>, q: nat) {
    if value.None? then answer.None? else q <= |text| && answer == Some(Parsed(value.value, text[q..]))
  }

  /** Reads one value at position p of the text and says where it ends. */
  method ReadVal(text: bytes, p: nat, depth: nat) returns (v: Option<Val>, q: nat)
    requires p <= |text|
    ensures ReadFrom(text, DecodeVal(text[p..], depth), v, q)
    decreases |text| - p, 0
  {
    if depth > MaxDepth || p >= |text| {
      return None, p;
    }
    var tag := text[p];
    q := p + 1;
    assert text[p..][1..] == text[q..];
    if tag == 0 {
      return Some(Nil), q;
    } else if tag == 1 {
      v, q := ReadInt(text, q);
    } else if tag == 2 {
      v, q := ReadStr(text, q);
    } else if tag == 3 {
      if |text| - q < 4 {
        return None, q;
      }
      ghost var head := TakeUint(text[q..], 4).value;
      var n := FromLittle(text[q..q + 4]);
      assert text[q..][..4] == text[q..q + 4] && head.rest == text[q + 4..];
      q := q + 4;
      if n > MaxItems || |text| - q < n {
        return None, q;
      }
      var a;
      a, q := ReadAll(text, q, n, depth + 1);
      v := if a.None? then None else Some(Arr(a.value));
    } else {
      return None, q;
    }
  }

  method ReadInt(text: bytes, p: nat) returns (v: Option<Val>, q: nat)
    requires p <= |text|
    ensures ReadFrom(text, IntOf(TakeUint(text[p..], 8)), v, q)
  {
    if |text| - p < 8 {
      return None, p;
    }
    Widths();
    LittleInverse(text[p..p + 8]);
    assert text[p..][..8] == text[p..p + 8] && text[p..][8..] == text[p + 8..];
    return Some(Int(Signed64(FromLittle(text[p..p + 8])))), p + 8;
  }

  method ReadStr(text: bytes, p: nat) returns (v: Option<Val>, q: nat)
    requires p <= |text|
    ensures ReadFrom(text, StrOf(TakeUint(text[p..], 4)), v, q)
  {
    if |text| - p < 4 {
      return None, p;
    }
    var n := FromLittle(text[p..p + 4]);
    q := p + 4;
    assert text[p..][..4] == text[p..q] && text[p..][4..] == text[q..];
    if |text| - q < n {
      return None, q;
    }
    assert text[q..][..n] == text[q..q + n] && text[q..][n..] == text[q + n..];
    return Some(Str(text[q..q + n])), q + n;
  }

  /** Reads n values in a row. */
  method ReadAll(text: bytes, p: nat, n: nat, depth: nat) returns (a: Option<seq<Val>>, q: nat)
    requires p <= |text|
    ensures ReadFrom(text, DecodeAll(text[p..], n, depth), a, q)
    decreases |text| - p, 1
  {
    var got: seq<Val> := [];
    q := p;
    var i := 0;
    AfterNone(DecodeAll(text[p..], n, depth));
    while i < n
      invariant 0 <= i <= n && p <= q <= |text|
      invariant DecodeAll(text[p..], n, depth) == After(got, DecodeAll(text[q..], n - i, depth))
    {
      var v;
      ghost var s := text[q..];
      v, q := ReadVal(text, q, depth);
      if v.None? {
        return None, q;
      }
      AfterOne(got, s, n - i, depth);
      got := got + [v.value];
      i := i + 1;
    }
    assert got + [] == got;
    a := Some(got);
  }

  /** A decoded list with the elements already read put back in front. */
  function After<T>(got: seq<T>, r: Option<Parsed<seq<T>>>): Option<Parsed<seq<T>>> {
    if r.None? then None else Some(Parsed(got + r.value.value, r.value.rest))
  }

  lemma AfterNone<T>(r: Option<Parsed<seq<T>>>)
    ensures After([], r) == r
  {
    if r.Some? {
      assert [] + r.value.value == r.value.value;
    }
  }

  lemma AfterOne(got: seq<Val>, s: bytes, n: nat, depth: nat)
    requires n > 0 && DecodeVal(s, depth).Some?
    ensures var v := DecodeVal(s, depth).value;
            After(got, DecodeAll(s, n, depth)) == After(got + [v.value], DecodeAll(v.rest, n - 1, depth))
  {
    var v := DecodeVal(s, depth).value;
    var a := DecodeAll(v.rest, n - 1, depth);
    if a.Some? {
      assert got + ([v.value] + a.value.value) == got + [v.value] + a.value.value;
    }
  }
}
