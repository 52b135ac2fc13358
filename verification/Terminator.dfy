/**
  The search for the end of a message header (src/rtsp.c:308-368).
  A byte is a `char`; a C string or buffer is a sequence of them.
 */
module Terminator {
  import opened Wrappers

  type Bytes = string

  const CRLF_CRLF: Bytes := "\r\n\r\n"
  const LF_CRLF_CR: Bytes := "\n\r\n\r"
  const LF_LF: Bytes := "\n\n"
  const CR_CR: Bytes := "\r\r"

  predicate OccursAt(s: Bytes, pattern: Bytes, i: nat) {
    i + |pattern| <= |s| && s[i..i + |pattern|] == pattern
  }

  /** `i` is the first occurrence of `pattern`, and no NUL comes before it. */
  ghost predicate FirstAt(s: Bytes, pattern: Bytes, i: nat) {
    OccursAt(s, pattern, i) && forall k: nat | k < i :: !OccursAt(s, pattern, k) && s[k] != '\0'
  }

  function Search(s: Bytes, pattern: Bytes, i: nat): (r: Option<nat>)
    requires pattern != [] && i <= |s|
    ensures r.Some? ==> i <= r.value && OccursAt(s, pattern, r.value)
    ensures r.Some? ==> forall k: nat | i <= k < r.value :: !OccursAt(s, pattern, k) && s[k] != '\0'
    ensures r.None? ==> forall j: nat | i <= j && OccursAt(s, pattern, j) :: exists k: nat :: i <= k < j && s[k] == '\0'
    decreases |s| - i
  {
    if i + |pattern| > |s| then None
    else if s[i..i + |pattern|] == pattern then Some(i)
    else if s[i] == '\0' then None
    else Search(s, pattern, i + 1)
  }

  /** What `rtsp_strnstr` finds. */
  function StrNStr(s: Bytes, pattern: Bytes): Option<nat>
    requires pattern != []
  {
    Search(s, pattern, 0)
  }

  /** The search finds a position exactly when it is the first occurrence with no NUL before it. */
  lemma StrNStrIsFirst(s: Bytes, pattern: Bytes, i: nat)
    requires pattern != []
    ensures StrNStr(s, pattern) == Some(i) <==> FirstAt(s, pattern, i)
  {
    assert FirstAt(s, pattern, i) ==> OccursAt(s, pattern, i);
  }

  /** The loop of `rtsp_strnstr`: a first-character test, then a comparison of the rest. */
  method FindSubstring(s: Bytes, pattern: Bytes) returns (r: Option<nat>)
    requires pattern != []
    ensures forall i: nat :: r == Some(i) <==> FirstAt(s, pattern, i)
  {
    var c := pattern[0];
    var rest := pattern[1..];
    r := None;
    if |rest| < |s| {
      var pos, left := 0, |s|;
      while left > |rest|
        invariant pos + left == |s| && |rest| <= left
        invariant StrNStr(s, pattern) == Search(s, pattern, pos)
      {
        var sc := s[pos];
        assert s[pos..pos + |pattern|] == [sc] + s[pos + 1..pos + |pattern|];
        assert pattern == [c] + rest;
        pos, left := pos + 1, left - 1;
        if sc == c && s[pos..pos + |rest|] == rest {
          r := Some(pos - 1);
          break;
        }
        if sc == '\0' {
          break;
        }
      }
    }
    forall i: nat {
      StrNStrIsFirst(s, pattern, i);
    }
  }

  /** Position and length of the first double newline, in the order in which the patterns are tried. */
  function FindDoubleNewline(s: Bytes): (r: Option<(nat, nat)>)
    ensures r.Some? ==> 2 <= r.value.1 <= 4 && r.value.0 + r.value.1 <= |s|
  {
    var a := StrNStr(s, CRLF_CRLF);
    if a.Some? then Some((a.value, 4)) else
    var b := StrNStr(s, LF_CRLF_CR);
    if b.Some? then Some((b.value, 4)) else
    var c := StrNStr(s, LF_LF);
    if c.Some? then Some((c.value, 2)) else
    var d := StrNStr(s, CR_CR);
    if d.Some? then Some((d.value, 2)) else None
  }

  /** The pattern does not occur before a NUL. */
  ghost predicate Absent(s: Bytes, pattern: Bytes) {
    forall i: nat | OccursAt(s, pattern, i) :: exists k: nat :: k < i && s[k] == '\0'
  }

  /** What ends a header: CR LF CR LF anywhere, else LF CR LF CR, else two LF, else two CR; a NUL hides what comes after it. */
  lemma EndsOfHeader(s: Bytes, i: nat)
    ensures FindDoubleNewline(s) == Some((i, 4)) <==>
            FirstAt(s, "\r\n\r\n", i) || (Absent(s, "\r\n\r\n") && FirstAt(s, "\n\r\n\r", i))
    ensures FindDoubleNewline(s) == Some((i, 2)) <==>
            && Absent(s, "\r\n\r\n") && Absent(s, "\n\r\n\r")
            && (FirstAt(s, "\n\n", i) || (Absent(s, "\n\n") && FirstAt(s, "\r\r", i)))
    ensures FindDoubleNewline(s).None? <==>
            Absent(s, "\r\n\r\n") && Absent(s, "\n\r\n\r") && Absent(s, "\n\n") && Absent(s, "\r\r")
  {
    hide FirstAt, Absent, StrNStr;
    Searched(s, "\r\n\r\n", i);
    Searched(s, "\n\r\n\r", i);
    Searched(s, "\n\n", i);
    Searched(s, "\r\r", i);
  }

  lemma Searched(s: Bytes, pattern: Bytes, i: nat)
    requires pattern != []
    ensures StrNStr(s, pattern) == Some(i) <==> FirstAt(s, pattern, i)
    ensures StrNStr(s, pattern).None? <==> Absent(s, pattern)
  {
    StrNStrIsFirst(s, pattern, i);
  }

  /** `find_double_newline`, with its four searches in order. */
  method FindHeaderEnd(s: Bytes) returns (r: Option<(nat, nat)>)
    ensures r == FindDoubleNewline(s)
  {
    var i := FindSubstring(s, CRLF_CRLF);
    Agrees(s, CRLF_CRLF, i);
    if i.Some? {
      return Some((i.value, 4));
    }
    i := FindSubstring(s, LF_CRLF_CR);
    Agrees(s, LF_CRLF_CR, i);
    if i.Some? {
      return Some((i.value, 4));
    }
    i := FindSubstring(s, LF_LF);
    Agrees(s, LF_LF, i);
    if i.Some? {
      return Some((i.value, 2));
    }
    i := FindSubstring(s, CR_CR);
    Agrees(s, CR_CR, i);
    if i.Some? {
      return Some((i.value, 2));
    }
    return None;
  }

  lemma Agrees(s: Bytes, pattern: Bytes, r: Option<nat>)
    requires pattern != []
    requires forall i: nat :: r == Some(i) <==> FirstAt(s, pattern, i)
    ensures r == StrNStr(s, pattern)
  {
    var f := StrNStr(s, pattern);
    if f.Some? {
      StrNStrIsFirst(s, pattern, f.value);
    } else if r.Some? {
      StrNStrIsFirst(s, pattern, r.value);
    }
  }

  /** Cutting the text after `m` bytes keeps exactly the occurrences that end within them. */
  lemma OccursInPrefix(s: Bytes, m: nat, pattern: Bytes, i: nat)
    requires m <= |s|
    ensures OccursAt(s[..m], pattern, i) <==> OccursAt(s, pattern, i) && i + |pattern| <= m
  {
    if i + |pattern| <= m {
      assert s[..m][i..i + |pattern|] == s[i..i + |pattern|];
    }
  }

  /** A search over a prefix gives the same answer when the occurrence fits, and nothing otherwise. */
  lemma SearchPrefix(s: Bytes, m: nat, pattern: Bytes)
    requires m <= |s| && pattern != []
    ensures StrNStr(s[..m], pattern)
         == (var r := StrNStr(s, pattern); if r.Some? && r.value + |pattern| <= m then r else None)
  {
    var r, q := StrNStr(s, pattern), StrNStr(s[..m], pattern);
    forall k: nat
      ensures OccursAt(s[..m], pattern, k) <==> OccursAt(s, pattern, k) && k + |pattern| <= m
    {
      OccursInPrefix(s, m, pattern, k);
    }
    if q.Some? {
      assert FirstAt(s, pattern, q.value);
      StrNStrIsFirst(s, pattern, q.value);
    }
  }

  /** The header reader searches again inside the header: it finds the same terminator. */
  lemma SecondSearchAgrees(s: Bytes)
    requires FindDoubleNewline(s).Some?
    ensures var (p, n) := FindDoubleNewline(s).value;
            FindDoubleNewline(s[..p + n]) == Some((p, n))
  {
    hide StrNStr;
    var (p, n) := FindDoubleNewline(s).value;
    SearchPrefix(s, p + n, CRLF_CRLF);
    SearchPrefix(s, p + n, LF_CRLF_CR);
    SearchPrefix(s, p + n, LF_LF);
    SearchPrefix(s, p + n, CR_CR);
  }

  /** A header closed by CR LF CR LF is found whatever follows it. */
  lemma TerminatorStable(header: Bytes, rest: Bytes)
    requires FindDoubleNewline(header) == Some((|header| - 4, 4))
    requires OccursAt(header, CRLF_CRLF, |header| - 4)
    ensures FindDoubleNewline(header + rest) == Some((|header| - 4, 4))
  {
    var s := header + rest;
    assert s[..|header|] == header;
    SearchPrefix(s, |header|, CRLF_CRLF);
  }
}
