/** `strtok_r` and hexadecimal numbers, as the header readers and writers use them. */
module Tokens {
  import opened Wrappers
  import opened Text

  /** What remains after the leading delimiters. */
  function SkipDelims(s: string, delims: string): (r: string)
    ensures |r| <= |s| && (r != "" ==> r[0] !in delims)
  {
    if s != "" && s[0] in delims then SkipDelims(s[1..], delims) else s
  }

  /** What comes before the first delimiter, and what comes after it. */
  function Span(s: string, delims: string): (r: (string, Option<string>))
    ensures forall c :: c in r.0 ==> c !in delims
    ensures r.1.Some? ==> |r.0| + |r.1.value| + 1 == |s|
    ensures s != "" && s[0] !in delims ==> r.0 != ""
  {
    if s == "" then ("", None)
    else if s[0] in delims then ("", Some(s[1..]))
    else var r := Span(s[1..], delims); ([s[0]] + r.0, r.1)
  }

  /** One call of `strtok_r`: the token and where the next call starts; None at the end. */
  function Next(s: string, delims: string): (r: Option<(string, string)>)
    ensures r.Some? ==> r.value.0 != "" && |r.value.1| < |s|
  {
    var t := SkipDelims(s, delims);
    if t == "" then None else var (token, rest) := Span(t, delims); Some((token, rest.UnwrapOr("")))
  }

  /** All the tokens that repeated calls deliver. */
  function All(s: string, delims: string): seq<string>
    decreases |s|
  {
    var n := Next(s, delims);
    if n.None? then [] else [n.value.0] + All(n.value.1, delims)
  }

  /** What a writer produces that puts `sep` between the parts. */
  function Join(parts: seq<string>, sep: string): string {
    if parts == [] then "" else if |parts| == 1 then parts[0] else parts[0] + sep + Join(parts[1..], sep)
  }

  ghost predicate Plain(s: string, delims: string) { s != "" && forall c :: c in s ==> c !in delims }

  lemma {:induction false} SpanAt(a: string, sep: string, b: string, delims: string)
    requires forall c :: c in a ==> c !in delims
    requires sep != "" && sep[0] in delims
    ensures Span(a + sep + b, delims) == (a, Some(sep[1..] + b))
  {
    var s := a + sep + b;
    if a == "" {
      assert s[1..] == sep[1..] + b;
    } else {
      assert s[1..] == a[1..] + sep + b;
      assert a == [a[0]] + a[1..];
      SpanAt(a[1..], sep, b, delims);
    }
  }

  lemma {:induction false} SpanEnd(a: string, delims: string)
    requires forall c :: c in a ==> c !in delims
    ensures Span(a, delims) == (a, None)
  {
    if a != "" {
      assert a == [a[0]] + a[1..];
      SpanEnd(a[1..], delims);
    }
  }

  lemma {:induction false} SkipsAll(sep: string, b: string, delims: string)
    requires forall c :: c in sep ==> c in delims
    ensures SkipDelims(sep + b, delims) == SkipDelims(b, delims)
  {
    if sep == "" {
      assert sep + b == b;
    } else {
      assert (sep + b)[1..] == sep[1..] + b;
      SkipsAll(sep[1..], b, delims);
    }
  }

  /** The separator after a token belongs to the delimiters of the next call. */
  lemma NextAt(a: string, sep: string, b: string, delims: string)
    requires Plain(a, delims) && sep != "" && forall c :: c in sep ==> c in delims
    ensures Next(a + sep + b, delims) == Some((a, sep[1..] + b))
    ensures All(a + sep + b, delims) == [a] + All(b, delims)
  {
    SpanAt(a, sep, b, delims);
    var s := a + sep + b;
    assert s[0] == a[0];
    assert SkipDelims(s, delims) == s;
    SkipsAll(sep[1..], b, delims);
    assert Next(sep[1..] + b, delims) == Next(b, delims);
  }

  lemma NextEnd(a: string, delims: string)
    requires Plain(a, delims)
    ensures Next(a, delims) == Some((a, "")) && All(a, delims) == [a]
  {
    SpanEnd(a, delims);
    assert SkipDelims(a, delims) == a;
    assert Next("", delims) == None;
  }

  /** The tokens of joined parts are the parts. */
  lemma {:induction false} AllJoined(parts: seq<string>, sep: string, delims: string)
    requires sep != "" && forall c :: c in sep ==> c in delims
    requires forall p :: p in parts ==> Plain(p, delims)
    ensures All(Join(parts, sep), delims) == parts
  {
    if parts == [] {
      assert Next("", delims) == None;
    } else if |parts| == 1 {
      NextEnd(parts[0], delims);
      assert parts == [parts[0]];
    } else {
      NextAt(parts[0], sep, Join(parts[1..], sep), delims);
      AllJoined(parts[1..], sep, delims);
      assert parts == [parts[0]] + parts[1..];
    }
  }

  /** `strspn`: past the leading delimiters. */
  method StrSpn(s: string, pos: nat, delims: string) returns (start: nat)
    requires pos <= |s|
    ensures pos <= start <= |s| && SkipDelims(s[pos..], delims) == s[start..]
  {
    start := pos;
    while start < |s| && s[start] in delims
      invariant pos <= start <= |s| && SkipDelims(s[pos..], delims) == SkipDelims(s[start..], delims)
    {
      assert s[start..][1..] == s[start + 1..];
      start := start + 1;
    }
  }

  /** `strcspn`: up to the next delimiter. */
  method StrCSpn(s: string, start: nat, delims: string) returns (end: nat)
    requires start <= |s|
    ensures start <= end <= |s| && (end < |s| ==> s[end] in delims)
    ensures Span(s[start..], delims) == (s[start..end], if end < |s| then Some(s[end + 1..]) else None)
  {
    end := start;
    while end < |s| && s[end] !in delims
      invariant start <= end <= |s| && forall c :: c in s[start..end] ==> c !in delims
    {
      end := end + 1;
    }
    if end < |s| {
      assert s[start..] == s[start..end] + [s[end]] + s[end + 1..];
      SpanAt(s[start..end], [s[end]], s[end + 1..], delims);
      assert [s[end]][1..] + s[end + 1..] == s[end + 1..];
    } else {
      assert s[start..] == s[start..end];
      SpanEnd(s[start..end], delims);
    }
  }

  /** `strtok_r`, from the position where the last call stopped. */
  method StrTok(s: string, pos: nat, delims: string) returns (token: Option<string>, next: nat)
    requires pos <= |s|
    ensures pos <= next <= |s| && (token.Some? ==> pos < next)
    ensures match Next(s[pos..], delims)
            case None => token.None?
            case Some(n) => token == Some(n.0) && s[next..] == n.1
  {
    var start := StrSpn(s, pos, delims);
    if start == |s| {
      return None, |s|;
    }
    var end := StrCSpn(s, start, delims);
    assert Span(s[start..], delims).0 != "";
    next := if end < |s| then end + 1 else end;
    return Some(s[start..end]), next;
  }

  // --- key and value ---

  /** The key up to the first `=` and the value after it, which is None when there is nothing. */
  function KeyValue(param: string): Option<(string, Option<string>)> {
    var n := Next(param, "=");
    if n.None? then None else Some((n.value.0, if n.value.1 == "" then None else Some(n.value.1)))
  }

  lemma KeyValueAt(key: string, val: string)
    requires Plain(key, "=") && val != ""
    ensures KeyValue(key + "=" + val) == Some((key, Some(val)))
  {
    NextAt(key, "=", val, "=");
    assert "="[1..] + val == val;
  }

  lemma KeyAlone(key: string)
    requires Plain(key, "=")
    ensures KeyValue(key) == Some((key, None))
  {
    NextEnd(key, "=");
  }

  // --- hexadecimal numbers ---

  function HexChar(d: nat, upper: bool): (c: char)
    requires d < 16
    ensures IsHexDigit(c) && HexValue(c) == d
  {
    if d < 10 then '0' + d as char else if upper then 'A' + (d - 10) as char else 'a' + (d - 10) as char
  }

  function HexValue(c: char): (d: nat)
    requires IsHexDigit(c)
    ensures d < 16
  {
    if IsDigit(c) then c as int - '0' as int
    else if 'a' <= c <= 'f' then c as int - 'a' as int + 10
    else c as int - 'A' as int + 10
  }

  lemma HexDigitsAre(d: nat)
    requires d < 16
    ensures HexChar(d, true) == "0123456789ABCDEF"[d] && HexChar(d, false) == "0123456789abcdef"[d]
  {
  }

  function Pow16(n: nat): nat { if n == 0 then 1 else 16 * Pow16(n - 1) }

  /** `%0nX` or `%0nx` of a number that fits. */
  function Hex(v: nat, n: nat, upper: bool): (s: string)
    ensures |s| == n && forall c :: c in s ==> IsHexDigit(c)
  {
    if n == 0 then "" else Hex(v / 16, n - 1, upper) + [HexChar(v % 16, upper)]
  }

  /** The value of at most `width` leading hexadecimal digits, and what follows them. */
  function HexDigits(s: string, width: nat, acc: nat): (nat, string) {
    if width > 0 && s != "" && IsHexDigit(s[0]) then HexDigits(s[1..], width - 1, acc * 16 + HexValue(s[0])) else (acc, s)
  }

  lemma {:induction false} HexDigitsAppend(a: string, c: char, b: string, acc: nat)
    requires (forall x :: x in a ==> IsHexDigit(x)) && IsHexDigit(c)
    ensures HexDigits(a + [c] + b, |a| + 1, acc) == (HexDigits(a, |a|, acc).0 * 16 + HexValue(c), b)
  {
    var s := a + [c] + b;
    if a == "" {
      assert s[1..] == b && s[0] == c;
    } else {
      assert s[1..] == a[1..] + [c] + b;
      HexDigitsAppend(a[1..], c, b, acc * 16 + HexValue(a[0]));
    }
  }

  /** A printed number is read back. */
  lemma {:induction false} HexReadBack(v: nat, n: nat, upper: bool)
    requires v < Pow16(n)
    ensures HexDigits(Hex(v, n, upper), n, 0) == (v, "")
  {
    if n > 0 {
      HexReadBack(v / 16, n - 1, upper);
      HexDigitsAppend(Hex(v / 16, n - 1, upper), HexChar(v % 16, upper), "", 0);
      assert Hex(v, n, upper) + "" == Hex(v, n, upper);
    }
  }
}
