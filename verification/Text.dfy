/**
  The parts of the C library the parsers rest on: character classes, `strchr`, `strrchr`, and decimal
  numbers as printed by `%u` and read by `strtol`. A string is what comes before the terminator.
 */
module Text {
  import opened Wrappers

  // --- characters of the "C" locale ---

  predicate IsDigit(c: char) { '0' <= c <= '9' }

  predicate IsAlnum(c: char) { IsDigit(c) || 'a' <= c <= 'z' || 'A' <= c <= 'Z' }

  predicate IsHexDigit(c: char) { IsDigit(c) || 'a' <= c <= 'f' || 'A' <= c <= 'F' }

  predicate IsSpace(c: char) { c == ' ' || '\t' <= c <= '\r' }

  function ToUpper(c: char): char { if 'a' <= c <= 'z' then 'A' + (c - 'a') else c }

  predicate StartsWith(s: string, p: string) { |p| <= |s| && s[..|p|] == p }

  function DigitValue(c: char): (d: nat)
    requires IsDigit(c)
    ensures d < 10
  {
    c as int - '0' as int
  }

  function DigitChar(d: nat): (c: char)
    requires d < 10
    ensures IsDigit(c) && DigitValue(c) == d
  {
    '0' + d as char
  }

  lemma DecimalDigits(d: nat)
    requires d < 10
    ensures DigitChar(d) == "0123456789"[d]
  {
  }

  // --- cutting at a character ---

  /** What comes before and after the first `c`. */
  function Cut(s: string, c: char): (r: (string, Option<string>))
    ensures c !in r.0
    ensures r.1.None? ==> s == r.0
    ensures r.1.Some? ==> s == r.0 + [c] + r.1.value
  {
    if s == "" then ("", None)
    else if s[0] == c then
      assert s == [c] + s[1..];
      ("", Some(s[1..]))
    else
      var r := Cut(s[1..], c);
      assert r.1.Some? ==> s == [s[0]] + r.0 + [c] + r.1.value;
      ([s[0]] + r.0, r.1)
  }

  /** What comes before and after the last `c`. */
  function CutLast(s: string, c: char): (r: (Option<string>, string))
    ensures c !in r.1
    ensures r.0.None? ==> s == r.1
    ensures r.0.Some? ==> s == r.0.value + [c] + r.1
    decreases |s|
  {
    if s == "" then (None, "")
    else if s[|s| - 1] == c then
      assert s == s[..|s| - 1] + [c];
      (Some(s[..|s| - 1]), "")
    else
      var r := CutLast(s[..|s| - 1], c);
      assert r.0.Some? ==> s == r.0.value + [c] + (r.1 + [s[|s| - 1]]);
      (r.0, r.1 + [s[|s| - 1]])
  }

  lemma CutAt(a: string, c: char, b: string)
    requires c !in a
    ensures Cut(a + [c] + b, c) == (a, Some(b))
  {
    var s := a + [c] + b;
    if a != "" {
      assert s[1..] == a[1..] + [c] + b;
      assert s[0] == a[0] && a == [a[0]] + a[1..];
      CutAt(a[1..], c, b);
    } else {
      assert s[1..] == b;
    }
  }

  lemma CutNone(a: string, c: char)
    requires c !in a
    ensures Cut(a, c) == (a, None)
  {
    if a != "" {
      CutNone(a[1..], c);
    }
  }

  lemma {:induction false} CutLastAt(a: string, c: char, b: string)
    requires c !in b
    ensures CutLast(a + [c] + b, c) == (Some(a), b)
    decreases |b|
  {
    var s := a + [c] + b;
    if b == "" {
      assert s[..|s| - 1] == a;
    } else {
      assert s[..|s| - 1] == a + [c] + b[..|b| - 1];
      assert s[|s| - 1] == b[|b| - 1] && b == b[..|b| - 1] + [b[|b| - 1]];
      CutLastAt(a, c, b[..|b| - 1]);
    }
  }

  lemma {:induction false} CutLastNone(b: string, c: char)
    requires c !in b
    ensures CutLast(b, c) == (None, b)
    decreases |b|
  {
    if b != "" {
      CutLastNone(b[..|b| - 1], c);
    }
  }

  // --- decimal numbers ---

  ghost predicate AllDigits(s: string) { forall c :: c in s ==> IsDigit(c) }

  /** `%u` */
  function Dec(n: nat): (s: string)
    ensures s != "" && AllDigits(s)
  {
    if n < 10 then [DigitChar(n)] else Dec(n / 10) + [DigitChar(n % 10)]
  }

  /** The value of the leading digits, and what follows them. */
  function Digits(s: string, acc: nat): (r: (nat, string))
    ensures |r.1| <= |s| && (r.1 != "" ==> !IsDigit(r.1[0]))
  {
    if s != "" && IsDigit(s[0]) then Digits(s[1..], acc * 10 + DigitValue(s[0])) else (acc, s)
  }

  /** The number whose decimal digits are those of `acc` followed by `s`. */
  function Value(s: string, acc: nat): nat
    requires AllDigits(s)
  {
    if s == "" then acc else Value(s[1..], acc * 10 + DigitValue(s[0]))
  }

  lemma {:induction false} ValueAppend(s: string, d: char, acc: nat)
    requires AllDigits(s) && IsDigit(d)
    ensures AllDigits(s + [d]) && Value(s + [d], acc) == Value(s, acc) * 10 + DigitValue(d)
  {
    if s == "" {
      assert (s + [d])[1..] == "" && (s + [d])[0] == d;
    } else {
      assert (s + [d])[1..] == s[1..] + [d];
      ValueAppend(s[1..], d, acc * 10 + DigitValue(s[0]));
    }
  }

  lemma {:induction false} ValueOfDec(n: nat)
    ensures Value(Dec(n), 0) == n
  {
    if n >= 10 {
      ValueOfDec(n / 10);
      ValueAppend(Dec(n / 10), DigitChar(n % 10), 0);
    } else {
      assert Dec(n)[1..] == "";
    }
  }

  lemma {:induction false} DigitsSplit(a: string, b: string, acc: nat)
    requires AllDigits(a) && (b != "" ==> !IsDigit(b[0]))
    ensures Digits(a + b, acc) == (Value(a, acc), b)
  {
    if a == "" {
      assert a + b == b;
    } else {
      assert (a + b)[1..] == a[1..] + b;
      DigitsSplit(a[1..], b, acc * 10 + DigitValue(a[0]));
    }
  }

  /** A string read to its end holds nothing but digits. */
  lemma {:induction false} DigitsWhole(s: string, acc: nat)
    requires Digits(s, acc).1 == ""
    ensures AllDigits(s) && Digits(s, acc).0 == Value(s, acc)
  {
    if s != "" {
      DigitsWhole(s[1..], acc * 10 + DigitValue(s[0]));
      assert forall c :: c in s ==> c == s[0] || c in s[1..];
    }
  }

  /** A printed number is read back, whatever follows it. */
  lemma DecReadBack(n: nat, b: string)
    requires b != "" ==> !IsDigit(b[0])
    ensures Digits(Dec(n) + b, 0) == (n, b)
  {
    ValueOfDec(n);
    DigitsSplit(Dec(n), b, 0);
  }

  /** No string of digits with this value is shorter than the printed number. */
  lemma {:induction false} DecIsShortest(s: string)
    requires AllDigits(s) && s != ""
    ensures |Dec(Value(s, 0))| <= |s|
    decreases |s|
  {
    var p, d := s[..|s| - 1], s[|s| - 1];
    assert s == p + [d];
    ValueAppend(p, d, 0);
    if p != "" {
      DecIsShortest(p);
      var v := Value(s, 0);
      assert v / 10 == Value(p, 0);
      assert v >= 10 ==> Dec(v) == Dec(v / 10) + [DigitChar(v % 10)];
    }
  }

  function SkipSpaces(s: string): (r: string)
    ensures |r| <= |s|
  {
    if s != "" && IsSpace(s[0]) then SkipSpaces(s[1..]) else s
  }

  /** `strtol` in base 10: the value and what it did not read, which is everything when there is no digit. */
  function StrToL(s: string): (r: (int, string)) {
    var t := SkipSpaces(s);
    var negative := t != "" && t[0] == '-';
    var u := if t != "" && (t[0] == '-' || t[0] == '+') then t[1..] else t;
    if u == "" || !IsDigit(u[0]) then (0, s)
    else
      var d := Digits(u, 0);
      var v: int := d.0;
      (if negative then -v else v, d.1)
  }

  /** Digits are read as their value, up to what follows them. */
  lemma DigitsRead(digits: string, rest: string)
    requires AllDigits(digits) && digits != "" && (rest != "" ==> !IsDigit(rest[0]))
    ensures StrToL(digits + rest) == (Value(digits, 0) as int, rest)
  {
    hide Digits, Value;
    DigitsSplit(digits, rest, 0);
    FirstDigit(digits, rest);
  }

  /** A blank or a plus sign before the digits changes nothing, a minus sign changes the sign. */
  lemma SignRead(digits: string, rest: string)
    requires AllDigits(digits) && digits != "" && (rest != "" ==> !IsDigit(rest[0]))
    ensures StrToL(" " + (digits + rest)) == (Value(digits, 0) as int, rest)
    ensures StrToL("+" + (digits + rest)) == (Value(digits, 0) as int, rest)
    ensures StrToL("-" + (digits + rest)) == (0 - Value(digits, 0), rest)
  {
    hide Digits, Value, StrToL;
    DigitsSplit(digits, rest, 0);
    FirstDigit(digits, rest);
    ReadAfter(' ', digits + rest);
    ReadAfter('+', digits + rest);
    ReadAfter('-', digits + rest);
  }

  lemma FirstDigit(digits: string, rest: string)
    requires AllDigits(digits) && digits != ""
    ensures digits + rest != "" && IsDigit((digits + rest)[0]) && SkipSpaces(digits + rest) == digits + rest
  {
    assert digits[0] in digits;
  }

  lemma ReadAfter(c: char, s: string)
    requires c in {' ', '+', '-'} && s != "" && IsDigit(s[0])
    ensures var v: int := Digits(s, 0).0;
            StrToL([c] + s) == (if c == '-' then -v else v, Digits(s, 0).1)
  {
    hide Digits;
    var t := [c] + s;
    assert t[1..] == s;
    assert SkipSpaces(s) == s;
    assert SkipSpaces(t) == if c == ' ' then s else t;
  }
}
