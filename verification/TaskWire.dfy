/** The task encoder and decoder as they run: loops appending to a string and loops advancing a position. */
module TaskWire {
  import opened Common
  import opened Endian
  import opened ValueCodec
  import opened TaskCodec

  /** Appends one statement; None stands for the exception on bad arguments. */
  method WriteStep(text: bytes, st: WireStep) returns (r: Option<bytes>)
    ensures r == if StepEncodable(st) then Some(text + EncodeStep(st)) else None
  {
    if st.args == [] || |st.args| > MaxArgs {
      return None;
    }
    var args := WriteArgs(text + Head(st), st.args);
    if args.None? {
      return None;
    }
    var whole := WriteVal(args.value, st.expectedData, 0);
    Reassociate(text + Head(st), EncodeArgs(st.args), EncodeVal(st.expectedData, 0));
    Reassociate(text, Head(st), EncodeArgs(st.args) + EncodeVal(st.expectedData, 0));
    r := Some(whole);
  }

  method WriteArgs(text: bytes, args: seq<bytes>) returns (r: Option<bytes>)
    ensures r == if Within(args, MaxArg) then Some(text + EncodeArgs(args)) else None
  {
    var out := text;
    var k := 0;
    while k < |args|
      invariant 0 <= k <= |args|
      invariant forall j :: 0 <= j < k ==> |args[j]| <= MaxArg
      invariant out + EncodeArgs(args[k..]) == text + EncodeArgs(args)
    {
      if |args[k]| > MaxArg {
        return None;
      }
      InFourParts(out, Little(|args[k]|, 4), args[k], EncodeArgs(args[k + 1..]));
      assert args[k..][1..] == args[k + 1..];
      out := out + Little(|args[k]|, 4) + args[k];
      k := k + 1;
    }
    assert args[k..] == [] && out + [] == out;
    r := Some(out);
  }

  /** Appends a statement list with its length. */
  method WriteList(text: bytes, l: seq<WireStep>) returns (r: Option<bytes>)
    ensures r == if AllEncodable(l) then Some(text + EncodeList(l)) else None
  {
    var out := text + Little(|l|, 4);
    Reassociate(text, Little(|l|, 4), EncodeSteps(l));
    var k := 0;
    while k < |l|
      invariant 0 <= k <= |l|
      invariant forall j :: 0 <= j < k ==> StepEncodable(l[j])
      invariant out + EncodeSteps(l[k..]) == text + EncodeList(l)
    {
      var more := WriteStep(out, l[k]);
      if more.None? {
        return None;
      }
      assert l[k..][1..] == l[k + 1..];
      Reassociate(out, EncodeStep(l[k]), EncodeSteps(l[k + 1..]));
      out := more.value;
      k := k + 1;
    }
    assert l[k..] == [] && out + [] == out;
    r := Some(out);
  }

  method ReadArgs(text: bytes, p: nat, n: nat, cap: nat) returns (a: Option<seq<bytes>>, q: nat)
    requires p <= |text|
    ensures ReadFrom(text, DecodeArgs(text[p..], n, cap), a, q)
  {
    var got: seq<bytes> := [];
    q := p;
    var i := 0;
    ghost var whole := DecodeArgs(text[p..], n, cap);
    ghost var left := whole;
    AfterNone(whole);
    while i < n
      invariant 0 <= i <= n && q <= |text|
      invariant left == DecodeArgs(text[q..], n - i, cap) && whole == After(got, left)
    {
      ghost var s := text[q..];
      var v;
      v, q := ReadArg(text, q, cap);
      if v.None? {
        return None, q;
      }
      AfterArg(got, s, n - i, cap);
      left := DecodeArgs(text[q..], n - i - 1, cap);
      got := got + [v.value];
      i := i + 1;
    }
    assert left == Some(Parsed([], text[q..])) && got + [] == got;
    a := Some(got);
  }

  method ReadArg(text: bytes, p: nat, cap: nat) returns (v: Option<bytes>, q: nat)
    requires p <= |text|
    ensures ReadFrom(text, DecodeArg(text[p..], cap), v, q)
    ensures v.Some? ==> p <= q
  {
    if |text| - p < 4 {
      return None, p;
    }
    var n := FromLittle(text[p..p + 4]);
    q := p + 4;
    assert text[p..][..4] == text[p..q] && text[p..][4..] == text[q..];
    if n > cap || |text| - q < n {
      return None, q;
    }
    assert text[q..][..n] == text[q..q + n] && text[q..][n..] == text[q + n..];
    return Some(text[q..q + n]), q + n;
  }

  lemma AfterArg(got: seq<bytes>, s: bytes, n: nat, cap: nat)
    requires n > 0 && DecodeArg(s, cap).Some?
    ensures var v := DecodeArg(s, cap).value;
            After(got, DecodeArgs(s, n, cap)) == After(got + [v.value], DecodeArgs(v.rest, n - 1, cap))
  {
    var v := DecodeArg(s, cap).value;
    var a := DecodeArgs(v.rest, n - 1, cap);
    if a.Some? {
      assert got + ([v.value] + a.value.value) == got + [v.value] + a.value.value;
    }
  }

  method ReadStep(text: bytes, p: nat) returns (v: Option<WireStep>, q: nat)
    requires p <= |text|
    ensures ReadFrom(text, DecodeStep(text[p..]), v, q)
    ensures v.Some? ==> p <= q
  {
    q := p;
    if |text| - p < 14 {
      return None, q;
    }
    var s := text[p..];
    var affected := AffectedOf(s);
    if (s[0] != 1 && s[0] != 2) || s[9] > 1 || affected < -1 {
      return None, q;
    }
    var argc := FromLittle(s[10..14]);
    q := p + 14;
    assert s[14..] == text[q..];
    if argc == 0 || argc > MaxArgs || |text| - q < argc * 4 {
      return None, q;
    }
    var args, data;
    args, q := ReadArgs(text, q, argc, MaxArg);
    if args.None? {
      return None, q;
    }
    data, q := ReadVal(text, q, 0);
    if data.None? {
      return None, q;
    }
    v := Some(WireStep(s[0], affected, s[9] == 1, args.value, data.value));
  }

  /** Reads a statement list with its length. */
  method ReadList(text: bytes, p: nat) returns (a: Option<seq<WireStep>>, q: nat)
    requires p <= |text|
    ensures ReadFrom(text, DecodeList(text[p..]), a, q)
  {
    q := p;
    if |text| - p < 4 {
      return None, q;
    }
    var n := FromLittle(text[p..p + 4]);
    q := p + 4;
    assert text[p..][..4] == text[p..q] && text[p..][4..] == text[q..];
    if n > MaxSteps || |text| - q < n * 15 {
      return None, q;
    }
    a, q := ReadSteps(text, q, n);
  }

  method ReadSteps(text: bytes, p: nat, n: nat) returns (a: Option<seq<WireStep>>, q: nat)
    requires p <= |text|
    ensures ReadFrom(text, DecodeSteps(text[p..], n), a, q)
  {
    var got: seq<WireStep> := [];
    q := p;
    var i := 0;
    ghost var whole := DecodeSteps(text[p..], n);
    ghost var left := whole;
    AfterNone(whole);
    while i < n
      invariant 0 <= i <= n && q <= |text|
      invariant left == DecodeSteps(text[q..], n - i) && whole == After(got, left)
    {
      ghost var s := text[q..];
      var v;
      v, q := ReadStep(text, q);
      if v.None? {
        return None, q;
      }
      AfterStep(got, s, n - i);
      left := DecodeSteps(text[q..], n - i - 1);
      got := got + [v.value];
      i := i + 1;
    }
    assert left == Some(Parsed([], text[q..])) && got + [] == got;
    a := Some(got);
  }

  lemma AfterStep(got: seq<WireStep>, s: bytes, n: nat)
    requires n > 0 && DecodeStep(s).Some?
    ensures var v := DecodeStep(s).value;
            After(got, DecodeSteps(s, n)) == After(got + [v.value], DecodeSteps(v.rest, n - 1))
  {
    var v := DecodeStep(s).value;
    var a := DecodeSteps(v.rest, n - 1);
    if a.Some? {
      assert got + ([v.value] + a.value.value) == got + [v.value] + a.value.value;
    }
  }
}
