/**
  Base64 (src/rtsp_base64.c; section 4 of RFC 4648). A byte and a six-bit symbol are numbers; the shifts and masks
  of the C code are written as divisions and remainders, which `ShiftsAreDivisions` justifies.
 */
module Base64 {
  import opened Wrappers

  const MAX_LEN := 4096
  const EINVAL := -22

  type Byte = x: int | 0 <= x < 256
  type Six = x: int | 0 <= x < 64

  lemma ShiftsAreDivisions(x: bv16, y: bv16)
    requires x < 256 && y < 256
    ensures (x >> 2) == x / 4
    ensures ((x << 4) | (y >> 4)) & 0x3f == (x % 4) * 16 + y / 16
    ensures ((x << 2) | (y >> 6)) & 0x3f == (x % 16) * 4 + y / 64
    ensures (x & 0x3f) == x % 64
  {
  }

  // --- the alphabet ---

  /** `encode_char` */
  function EncodeChar(val: Six): char {
    if val <= 25 then 'A' + val as char
    else if val <= 51 then 'a' + (val - 26) as char
    else if val <= 61 then '0' + (val - 52) as char
    else if val == 62 then '+'
    else '/'
  }

  /** The value of a character of the alphabet. */
  function DecodeChar(c: char): Option<Six> {
    if 'A' <= c <= 'Z' then Some(c as int - 'A' as int)
    else if 'a' <= c <= 'z' then Some(26 + c as int - 'a' as int)
    else if '0' <= c <= '9' then Some(52 + c as int - '0' as int)
    else if c == '+' then Some(62)
    else if c == '/' then Some(63)
    else None
  }

  lemma CharRoundTrip(v: Six)
    ensures DecodeChar(EncodeChar(v)) == Some(v) && EncodeChar(v) != '='
  {
  }

  lemma CharBack(c: char)
    ensures DecodeChar(c).Some? ==> EncodeChar(DecodeChar(c).value) == c
  {
  }

  // --- groups of three bytes and four symbols ---

  function Symbol1(x1: int): int { x1 / 4 }
  function Symbol2(x1: int, x2: int): int { x1 % 4 * 16 + x2 / 16 }
  function Symbol3(x2: int, x3: int): int { x2 % 16 * 4 + x3 / 64 }
  function Symbol4(x3: int): int { x3 % 64 }

  function Byte1(a: int, b: int): int { a * 4 + b / 16 }
  function Byte2(b: int, c: int): int { b % 16 * 16 + c / 4 }
  function Byte3(c: int, d: int): int { c % 4 * 64 + d }

  function Group(x1: Byte, x2: Byte, x3: Byte): (v: seq<Six>)
    ensures |v| == 4
  {
    [Symbol1(x1), Symbol2(x1, x2), Symbol3(x2, x3), Symbol4(x3)]
  }

  function Triple(a: Six, b: Six, c: Six, d: Six): (x: seq<Byte>)
    ensures |x| == 3
  {
    [Byte1(a, b), Byte2(b, c), Byte3(c, d)]
  }

  lemma TripleOfGroup(x1: Byte, x2: Byte, x3: Byte)
    ensures var g := Group(x1, x2, x3); Triple(g[0], g[1], g[2], g[3]) == [x1, x2, x3]
  {
    hide Symbol1, Symbol2, Symbol3, Symbol4, Byte1, Byte2, Byte3;
    BytesBack(x1, x2, x3);
  }

  lemma BytesBack(x1: Byte, x2: Byte, x3: Byte)
    ensures Byte1(Symbol1(x1), Symbol2(x1, x2)) == x1
    ensures Byte2(Symbol2(x1, x2), Symbol3(x2, x3)) == x2
    ensures Byte3(Symbol3(x2, x3), Symbol4(x3)) == x3
  {
    assert x1 == x1 / 4 * 4 + x1 % 4;
    assert x2 == x2 / 16 * 16 + x2 % 16;
    assert x3 == x3 / 64 * 64 + x3 % 64;
  }

  lemma GroupOfTriple(a: Six, b: Six, c: Six, d: Six)
    ensures var t := Triple(a, b, c, d); Group(t[0], t[1], t[2]) == [a, b, c, d]
    ensures var t := Triple(a, b, c, d); Group(t[0], t[1], 0)[..3] == [a, b, c] <==> c % 4 == 0
    ensures var t := Triple(a, b, c, d); Group(t[0], 0, 0)[..2] == [a, b] <==> b % 16 == 0
  {
    var t := Triple(a, b, c, d);
    assert Group(t[0], t[1], 0)[2] == c / 4 * 4;
    assert Group(t[0], 0, 0)[1] == b / 16 * 16;
    assert Group(t[0], t[1], 0)[..3] == [a, b, c / 4 * 4];
    assert Group(t[0], 0, 0)[..2] == [a, b / 16 * 16];
  }

  function SymbolCount(n: nat): nat { n / 3 * 4 + (if n % 3 == 0 then 0 else n % 3 + 1) }

  function Symbols(x: seq<Byte>): (v: seq<Six>)
    ensures |v| == SymbolCount(|x|)
  {
    if |x| == 0 then []
    else if |x| == 1 then Group(x[0], 0, 0)[..2]
    else if |x| == 2 then Group(x[0], x[1], 0)[..3]
    else Group(x[0], x[1], x[2]) + Symbols(x[3..])
  }

  function Bytes(v: seq<Six>): (x: seq<Byte>)
    requires |v| % 4 == 0
    ensures |x| == |v| / 4 * 3
  {
    if v == [] then [] else Triple(v[0], v[1], v[2], v[3]) + Bytes(v[4..])
  }

  function Zeros(n: nat): (v: seq<Six>)
    ensures |v| == n
  {
    seq(n, i => 0)
  }

  /** How many `=` stand for missing bytes. */
  function PadFor(n: nat): nat { (3 - n % 3) % 3 }

  function Pads(n: nat): (s: string)
    ensures |s| == n
  {
    seq(n, i => '=')
  }

  function Chars(v: seq<Six>): (s: string)
    ensures |s| == |v|
  {
    seq(|v|, i requires 0 <= i < |v| => EncodeChar(v[i]))
  }

  // --- what the two functions compute ---

  predicate Encodable(x: seq<Byte>) { 1 <= |x| <= MAX_LEN / 4 * 3 }

  function Encode(x: seq<Byte>): string {
    Chars(Symbols(x)) + Pads(PadFor(|x|))
  }

  /** The number of `=` at the end. */
  function Padding(s: string): (n: nat)
    ensures n <= |s| && forall i :: |s| - n <= i < |s| ==> s[i] == '='
    ensures n < |s| ==> s[|s| - n - 1] != '='
    decreases |s|
  {
    if s == "" || s[|s| - 1] != '=' then 0 else Padding(s[..|s| - 1]) + 1
  }

  predicate Decodable(s: string) {
    && 1 <= |s| <= MAX_LEN && |s| % 4 == 0 && Padding(s) <= 2
    && forall i :: 0 <= i < |s| - Padding(s) ==> DecodeChar(s[i]).Some?
  }

  /** A `=` counts as zero bits. */
  function Values(s: string): (v: seq<Six>)
    ensures |v| == |s|
  {
    seq(|s|, i requires 0 <= i < |s| => DecodeChar(s[i]).UnwrapOr(0))
  }

  function Decode(s: string): Result<seq<Byte>, int> {
    if Decodable(s) then Success(Bytes(Values(s))[..|s| / 4 * 3 - Padding(s)]) else Failure(EINVAL)
  }

  // --- round trips ---

  lemma BytesCons(g: seq<Six>, w: seq<Six>)
    requires |g| == 4 && |w| % 4 == 0
    ensures Bytes(g + w) == Triple(g[0], g[1], g[2], g[3]) + Bytes(w)
  {
    hide Triple;
    assert (g + w)[4..] == w;
  }

  lemma BytesOne(g: seq<Six>)
    requires |g| == 4
    ensures Bytes(g) == Triple(g[0], g[1], g[2], g[3])
  {
    hide Triple;
    BytesCons(g, []);
    assert g + [] == g;
  }

  lemma PrefixCons<T>(t: seq<T>, u: seq<T>, n: nat)
    requires |t| <= n <= |t| + |u|
    ensures (t + u)[..n] == t + u[..n - |t|]
  {
  }

  lemma {:induction false} BytesOfSymbols(x: seq<Byte>)
    ensures var v := Symbols(x) + Zeros(PadFor(|x|)); |v| % 4 == 0 && |Bytes(v)| >= |x| && Bytes(v)[..|x|] == x
    decreases |x|
  {
    hide Group, Triple, Bytes, SymbolCount, PadFor;
    CountStep(|x|);
    if |x| >= 3 {
      var g, y := Group(x[0], x[1], x[2]), x[3..];
      var w := Symbols(y) + Zeros(PadFor(|y|));
      BytesOfSymbols(y);
      TripleOfGroup(x[0], x[1], x[2]);
      assert Symbols(x) + Zeros(PadFor(|x|)) == g + w;
      BytesCons(g, w);
      PrefixCons([x[0], x[1], x[2]], Bytes(w), |x|);
      assert x == [x[0], x[1], x[2]] + y;
    } else if |x| > 0 {
      LastBytes(x[0], if |x| == 2 then x[1] else 0, |x|);
      assert x == [x[0], if |x| == 2 then x[1] else 0][..|x|];
    }
  }

  lemma CountStep(n: nat)
    ensures (SymbolCount(n) + PadFor(n)) % 4 == 0 && n == (SymbolCount(n) + PadFor(n)) / 4 * 3 - PadFor(n)
    ensures PadFor(n) <= 2 && (n % 3 == 0 ==> PadFor(n) == 0) && (n % 3 != 0 ==> PadFor(n) == 3 - n % 3)
    ensures n >= 3 ==> SymbolCount(n) == 4 + SymbolCount(n - 3) && PadFor(n) == PadFor(n - 3)
    ensures 1 <= n <= 2 ==> SymbolCount(n) == n + 1 && PadFor(n) == 3 - n
  {
  }

  lemma LastBytes(x1: Byte, x2: Byte, n: nat)
    requires 1 <= n <= 2 && (n == 1 ==> x2 == 0)
    ensures var v := Group(x1, x2, 0)[..n + 1] + Zeros(3 - n); |v| == 4 && Bytes(v)[..n] == [x1, x2][..n]
  {
    hide Bytes, Triple, Group;
    var g := Group(x1, x2, 0);
    ZeroTail(x1, x2);
    assert g[..n + 1] + Zeros(3 - n) == g;
    TripleOfGroup(x1, x2, 0);
    BytesOne(g);
  }

  lemma ZeroTail(x1: Byte, x2: Byte)
    ensures var g := Group(x1, x2, 0); g[3] == 0 && (x2 == 0 ==> g[2] == 0)
  {
  }

  lemma PaddingOf(s: string, n: nat)
    requires s != "" ==> s[|s| - 1] != '='
    ensures Padding(s + Pads(n)) == n
  {
    if n > 0 {
      assert (s + Pads(n))[..|s| + n - 1] == s + Pads(n - 1);
      PaddingOf(s, n - 1);
    } else {
      assert s + Pads(0) == s;
    }
  }

  lemma ValuesOfChars(v: seq<Six>, pad: nat)
    requires v != []
    ensures var s := Chars(v) + Pads(pad); Padding(s) == pad && Values(s) == v + Zeros(pad)
    ensures forall i :: 0 <= i < |v| ==> DecodeChar((Chars(v) + Pads(pad))[i]).Some?
  {
    hide EncodeChar, DecodeChar;
    var s := Chars(v) + Pads(pad);
    forall i | 0 <= i < |v| ensures DecodeChar(s[i]) == Some(v[i]) {
      CharRoundTrip(v[i]);
    }
    CharRoundTrip(v[|v| - 1]);
    PaddingOf(Chars(v), pad);
    PadIsNone();
  }

  lemma PadIsNone()
    ensures DecodeChar('=') == None
  {
  }

  /** The limits meet: what the encoder accepts fills exactly what the decoder accepts, and the other way round. */
  lemma LimitsMeet(x: seq<Byte>, s: string)
    ensures Encodable(x) <==> 1 <= |Encode(x)| <= MAX_LEN
    ensures Decode(s).Success? ==> Encodable(Decode(s).value)
  {
    hide Symbols, Bytes;
    assert |Encode(x)| == (|x| + 2) / 3 * 4;
  }

  /** Decoding an encoding gives the bytes back, for all lengths the encoder accepts. */
  lemma DecodeEncode(x: seq<Byte>)
    requires Encodable(x)
    ensures Decode(Encode(x)) == Success(x)
  {
    hide Symbols, Bytes, Chars, Pads, DecodeChar, SymbolCount, PadFor;
    CountStep(|x|);
    LimitsMeet(x, "");
    ValuesOfChars(Symbols(x), PadFor(|x|));
    BytesOfSymbols(x);
  }

  /** The bits of the last symbol before the padding that belong to no byte. */
  predicate UnusedBitsZero(s: string)
    requires Decodable(s)
  {
    match Padding(s)
    case 1 => DecodeChar(s[|s| - 2]).UnwrapOr(0) % 4 == 0
    case 2 => DecodeChar(s[|s| - 3]).UnwrapOr(0) % 16 == 0
    case _ => true
  }

  ghost predicate TailZero(v: seq<Six>, pad: nat)
    requires |v| >= 4
  {
    (pad == 1 ==> v[|v| - 2] % 4 == 0) && (pad == 2 ==> v[|v| - 3] % 16 == 0)
  }

  lemma SymbolsCons(t: seq<Byte>, y: seq<Byte>)
    requires |t| == 3
    ensures Symbols(t + y) == Group(t[0], t[1], t[2]) + Symbols(y)
  {
    hide Group;
    assert (t + y)[3..] == y;
  }

  lemma SameAfter<T>(g: seq<T>, a: seq<T>, b: seq<T>)
    ensures g + a == g + b <==> a == b
  {
    assert (g + a)[|g|..] == a && (g + b)[|g|..] == b;
  }

  lemma {:induction false} SymbolsOfBytes(v: seq<Six>, pad: nat)
    requires |v| >= 4 && |v| % 4 == 0 && pad <= 2
    ensures Symbols(Bytes(v)[..|v| / 4 * 3 - pad]) == v[..|v| - pad] <==> TailZero(v, pad)
    decreases |v|
  {
    hide Group, Triple, Symbols, Bytes;
    var g, w := v[..4], v[4..];
    assert v == g + w;
    var t := Triple(g[0], g[1], g[2], g[3]);
    GroupOfTriple(g[0], g[1], g[2], g[3]);
    assert g == [g[0], g[1], g[2], g[3]];
    if |v| == 4 {
      assert v == g;
      BytesOne(v);
      LastSymbols(v, t, pad);
    } else {
      BytesCons(g, w);
      SymbolsOfBytes(w, pad);
      var y := Bytes(w)[..|w| / 4 * 3 - pad];
      PrefixCons(t, Bytes(w), |v| / 4 * 3 - pad);
      SymbolsCons(t, y);
      PrefixCons(g, w, |v| - pad);
      SameAfter(g, Symbols(y), w[..|w| - pad]);
      assert TailZero(v, pad) <==> TailZero(w, pad);
    }
  }

  lemma LastSymbols(v: seq<Six>, t: seq<Byte>, pad: nat)
    requires |v| == 4 && pad <= 2 && t == Triple(v[0], v[1], v[2], v[3])
    ensures Symbols(t[..3 - pad]) == v[..4 - pad] <==> TailZero(v, pad)
  {
    hide Group, Triple;
    GroupOfTriple(v[0], v[1], v[2], v[3]);
    assert v == [v[0], v[1], v[2], v[3]];
    if pad == 0 {
      SymbolsCons(t, []);
      assert t + [] == t && t[..3] == t && v[..4] == v;
      assert Group(t[0], t[1], t[2]) + [] == Group(t[0], t[1], t[2]);
    } else if pad == 1 {
      assert v[..3] == [v[0], v[1], v[2]];
    } else {
      assert v[..2] == [v[0], v[1]];
    }
  }

  /** Two strings of symbols followed by padding are equal when the symbols are. */
  lemma SameSymbols(s: string, v: seq<Six>)
    requires Decodable(s) && |v| == |s| - Padding(s)
    ensures s == Chars(v) + Pads(Padding(s)) <==> Values(s)[..|v|] == v
  {
    hide EncodeChar, DecodeChar, Padding;
    var t := Chars(v) + Pads(Padding(s));
    forall i | 0 <= i < |v| ensures s[i] == t[i] <==> Values(s)[i] == v[i] {
      CharBack(s[i]);
      CharRoundTrip(v[i]);
    }
    assert s == t ==> forall i :: 0 <= i < |v| ==> Values(s)[..|v|][i] == v[i];
  }

  /** Encoding what was decoded gives the string back exactly when its unused trailing bits are zero. */
  lemma EncodeDecode(s: string)
    requires Decodable(s)
    ensures Encode(Decode(s).value) == s <==> UnusedBitsZero(s)
  {
    hide Symbols, Bytes, Chars, Pads;
    var pad, v := Padding(s), Values(s);
    var x := Decode(s).value;
    SymbolsOfBytes(v, pad);
    assert PadFor(|x|) == pad;
    SameSymbols(s, Symbols(x));
  }

  // --- the loops ---

  /** Writes the four characters of a whole group. */
  method PutGroup(out: array<char>, t: nat, x1: Byte, x2: Byte, x3: Byte)
    requires t + 4 <= out.Length
    modifies out
    ensures out[..t] == old(out[..t]) && out[..t + 4] == old(out[..t]) + Chars(Group(x1, x2, x3))
  {
    hide EncodeChar;
    out[t] := EncodeChar(Symbol1(x1));
    out[t + 1] := EncodeChar(Symbol2(x1, x2));
    out[t + 2] := EncodeChar(Symbol3(x2, x3));
    out[t + 3] := EncodeChar(Symbol4(x3));
    assert out[..t] == old(out[..t]);
  }

  /** Writes the characters of the last one or two bytes, and the padding. */
  method PutLast(out: array<char>, t: nat, rest: seq<Byte>)
    requires t + 4 == out.Length && 1 <= |rest| <= 2
    modifies out
    ensures out[..] == old(out[..t]) + Chars(Symbols(rest)) + Pads(3 - |rest|)
  {
    hide EncodeChar;
    var x1 := rest[0];
    if |rest| == 1 {
      out[t] := EncodeChar(Symbol1(x1));
      out[t + 1] := EncodeChar(Symbol2(x1, 0));
      out[t + 2] := '=';
      out[t + 3] := '=';
    } else {
      var x2 := rest[1];
      out[t] := EncodeChar(Symbol1(x1));
      out[t + 1] := EncodeChar(Symbol2(x1, x2));
      out[t + 2] := EncodeChar(Symbol3(x2, 0));
      out[t + 3] := '=';
    }
    assert out[..t] == old(out[..t]);
  }

  /** `rtsp_base64_encode` */
  method EncodeLoop(data: seq<Byte>) returns (r: Result<array<char>, int>)
    ensures r.Success? <==> Encodable(data)
    ensures r.Success? ==> r.value[..] == Encode(data)
  {
    hide Symbols, Group, Chars, SymbolCount, PadFor, Pads;
    CountStep(|data|);
    var size := |data|;
    if size == 0 || size > MAX_LEN / 4 * 3 {
      return Failure(EINVAL);
    }
    var groups, extra := size / 3, size % 3;
    assert size == 3 * groups + extra;
    var out := new char[groups * 4 + (if extra != 0 then 4 else 0)];
    var i, t := 0, 0;
    assert data[0..] == data && out[..0] == "";
    for g := 0 to groups
      invariant i == 3 * g && t == 4 * g
      invariant out[..t] + Chars(Symbols(data[i..])) == Chars(Symbols(data))
    {
      GroupStep(data, i, out[..t]);
      PutGroup(out, t, data[i], data[i + 1], data[i + 2]);
      t := t + 4;
      i := i + 3;
    }
    ghost var done := out[..t] + Chars(Symbols(data[i..]));
    if extra != 0 {
      PutLast(out, t, data[i..]);
      assert out[..] == done + Pads(PadFor(size));
    } else {
      NoneLeft();
      assert data[i..] == [] && out[..] == out[..t] && out[..t] + "" == out[..t];
      assert out[..] == done + Pads(PadFor(size));
    }
    return Success(out);
  }

  lemma NoneLeft()
    ensures Chars(Symbols([])) == "" && Pads(0) == ""
  {
  }

  lemma GroupStep(data: seq<Byte>, i: nat, done: string)
    requires i + 3 <= |data|
    ensures done + Chars(Symbols(data[i..]))
            == done + Chars(Group(data[i], data[i + 1], data[i + 2])) + Chars(Symbols(data[i + 3..]))
  {
    hide Group, EncodeChar;
    assert data[i..][3..] == data[i + 3..];
    assert Symbols(data[i..]) == Group(data[i], data[i + 1], data[i + 2]) + Symbols(data[i + 3..]);
  }

  /** The loop that counts the `=` at the end. */
  method CountPadding(str: string) returns (padding: nat)
    ensures padding == Padding(str)
  {
    padding := 0;
    var i := |str|;
    while i > 0 && str[i - 1] == '='
      invariant 0 <= i && i + padding == |str| && Padding(str) == padding + Padding(str[..i])
    {
      assert str[..i][..i - 1] == str[..i - 1];
      i := i - 1;
      padding := padding + 1;
    }
  }

  /** Writes the bytes of a full accumulator, as far as there is room. */
  method PutBytes(out: array<Byte>, start: nat, acc: int) returns (j: nat)
    requires start < out.Length && 0 <= acc < 0x100_0000
    modifies out
    ensures j == if start + 3 <= out.Length then start + 3 else out.Length
    ensures out[..j] == old(out[..start]) + [acc / 65536, acc / 256 % 256, acc % 256][..j - start]
  {
    j := start;
    out[j] := acc / 65536;
    j := j + 1;
    if j < out.Length {
      out[j] := acc / 256 % 256;
      j := j + 1;
    }
    if j < out.Length {
      out[j] := acc % 256;
      j := j + 1;
    }
  }

  /** The position in the output when `g` groups are done. */
  function Filled(g: nat, outLen: nat): nat { if 3 * g <= outLen then 3 * g else outLen }

  /** One round of the decoding loop: four characters are accumulated, or a wrong one is found. */
  method ReadGroup(str: string, padding: nat, g: nat) returns (r: Option<int>)
    requires 4 * g + 4 <= |str| && padding == Padding(str)
    ensures r.None? ==> !Decodable(str)
    ensures r.Some? ==> r.value == Accumulated(Values(str), 4 * g, 4 * g + 4)
    ensures r.Some? ==> forall k :: 4 * g <= k < 4 * g + 4 && k < |str| - padding ==> DecodeChar(str[k]).Some?
  {
    hide DecodeChar, Decodable;
    var acc: int := 0;
    for i := 4 * g to 4 * g + 4
      invariant forall k :: 4 * g <= k < i && k < |str| - padding ==> DecodeChar(str[k]).Some?
      invariant acc == Accumulated(Values(str), 4 * g, i)
    {
      var d := DecodeChar(str[i]);
      if d.None? && (str[i] != '=' || i < |str| - padding) {
        BadChar(str, i);
        return None;
      }
      var value: int := d.UnwrapOr(0);
      acc := acc * 64 + value;
    }
    return Some(acc);
  }

  /** `rtsp_base64_decode` */
  method DecodeLoop(str: string) returns (r: Result<array<Byte>, int>)
    ensures r.Success? <==> Decode(str).Success?
    ensures r.Success? ==> r.value[..] == Decode(str).value
  {
    hide Bytes, DecodeChar, Accumulated, Values;
    var n := |str|;
    if n == 0 || n > MAX_LEN || n % 4 != 0 {
      return Failure(EINVAL);
    }
    var padding := CountPadding(str);
    if padding > 2 {
      return Failure(EINVAL);
    }
    var groups := n / 4;
    var outLen := groups * 3 - padding;
    var out := new Byte[outLen](_ => 0);
    ghost var b := Bytes(Values(str));
    var j := 0;
    for g := 0 to groups
      invariant j == Filled(g, outLen)
      invariant forall k :: 0 <= k < 4 * g && k < n - padding ==> DecodeChar(str[k]).Some?
      invariant out[..j] == b[..j]
    {
      var acc := ReadGroup(str, padding, g);
      if acc.None? {
        return Failure(EINVAL);
      }
      AccumulatorBytes(Values(str), g);
      ghost var done := j;
      j := PutBytes(out, j, acc.value);
      FillStep(b, g, done, j);
    }
    return Success(out);
  }

  lemma BadChar(s: string, i: nat)
    requires i < |s| && DecodeChar(s[i]).None? && (s[i] != '=' || i < |s| - Padding(s))
    ensures !Decodable(s)
  {
    hide DecodeChar;
  }

  lemma FillStep(b: seq<Byte>, g: nat, i: nat, j: nat)
    requires i == 3 * g <= j <= i + 3 <= |b|
    ensures b[..i] + b[3 * g..3 * g + 3][..j - i] == b[..j]
  {
  }

  /** The accumulator after the symbols from `from` to before `i`. */
  function Accumulated(v: seq<Six>, from: nat, i: nat): int
    requires from <= i <= |v|
  {
    if i == from then 0 else Shifted(Accumulated(v, from, i - 1), v[i - 1])
  }

  function Shifted(acc: int, value: int): int { acc * 64 + value }

  lemma {:induction false} BytesAt(v: seq<Six>, g: nat)
    requires |v| % 4 == 0 && 4 * g + 4 <= |v|
    ensures 3 * g + 3 <= |Bytes(v)|
    ensures Bytes(v)[3 * g..3 * g + 3] == Triple(v[4 * g], v[4 * g + 1], v[4 * g + 2], v[4 * g + 3])
    decreases g
  {
    hide Triple, Bytes;
    var h, w := v[..4], v[4..];
    assert v == h + w;
    BytesCons(h, w);
    var t := Triple(h[0], h[1], h[2], h[3]);
    if g == 0 {
      assert (t + Bytes(w))[..3] == t;
    } else {
      BytesAt(w, g - 1);
      Shift(t, Bytes(w), 3 * g);
    }
  }

  lemma Shift(t: seq<Byte>, u: seq<Byte>, k: nat)
    requires |t| == 3 && 3 <= k && k <= |u|
    ensures (t + u)[k..k + 3] == u[k - 3..k]
  {
  }

  /** The bytes of a full accumulator. */
  lemma AccumulatorBytes(v: seq<Six>, g: nat)
    requires |v| % 4 == 0 && 4 * g + 4 <= |v|
    ensures 3 * g + 3 <= |Bytes(v)|
    ensures var acc := Accumulated(v, 4 * g, 4 * g + 4);
            0 <= acc < 0x100_0000
            && Bytes(v)[3 * g..3 * g + 3] == [acc / 65536, acc / 256 % 256, acc % 256]
  {
    hide Bytes, Shifted;
    BytesAt(v, g);
    var (a, b, c, d) := (v[4 * g], v[4 * g + 1], v[4 * g + 2], v[4 * g + 3]);
    assert Accumulated(v, 4 * g, 4 * g + 1) == Shifted(0, a);
    assert Accumulated(v, 4 * g, 4 * g + 2) == Shifted(Shifted(0, a), b);
    assert Accumulated(v, 4 * g, 4 * g + 3) == Shifted(Shifted(Shifted(0, a), b), c);
    SplitAccumulator(a, b, c, d);
  }

  lemma SplitAccumulator(a: Six, b: Six, c: Six, d: Six)
    ensures var acc := Shifted(Shifted(Shifted(Shifted(0, a), b), c), d);
            0 <= acc < 0x100_0000
            && acc / 65536 == Byte1(a, b) && acc / 256 % 256 == Byte2(b, c) && acc % 256 == Byte3(c, d)
  {
    var (m, n, o) := (Byte1(a, b), Byte2(b, c), Byte3(c, d));
    assert b == 16 * (b / 16) + b % 16 && c == 4 * (c / 4) + c % 4;
    assert Shifted(Shifted(Shifted(Shifted(0, a), b), c), d) == 65536 * m + 256 * n + o;
    Compose(m, n, o);
  }

  lemma Compose(m: nat, n: Byte, o: Byte)
    ensures var acc := 65536 * m + 256 * n + o; acc / 65536 == m && acc / 256 % 256 == n && acc % 256 == o
  {
    var acc := 65536 * m + 256 * n + o;
    assert acc / 256 == 256 * m + n;
  }
}
