/**
  The URL parser as the C code runs it: the copy of the URL is cut in place by writing terminators, and the
  parts are offsets into it. Each method is tied to the function of `Url` that gives the parts as values.
 */
module UrlBuffer {
  import opened Wrappers
  import opened Text
  import opened Url

  /** The C string at `at` is `t`, and its terminator is no further than `hi`. */
  ghost predicate Holds(s: seq<char>, at: nat, t: string, hi: nat) {
    at + |t| <= hi < |s| && s[at..at + |t|] == t && s[at + |t|] == '\0' && '\0' !in t
  }

  ghost predicate HoldsAt(s: seq<char>, at: Option<nat>, t: Option<string>, hi: nat) {
    at.Some? == t.Some? && (at.Some? ==> Holds(s, at.value, t.value, hi))
  }

  /** Only the part from `lo` to before `hi` differs. */
  ghost predicate SameOutside(s: seq<char>, t: seq<char>, lo: nat, hi: nat) {
    |s| == |t| && forall i :: 0 <= i < |s| && !(lo <= i < hi) ==> s[i] == t[i]
  }

  lemma StillHolds(s: seq<char>, t: seq<char>, lo: nat, hi: nat, at: nat, x: string)
    requires SameOutside(s, t, lo, hi) && lo > 0 && Holds(s, at, x, lo - 1) && lo <= hi < |s|
    ensures Holds(t, at, x, hi)
  {
    assert t[at..at + |x|] == s[at..at + |x|];
  }

  /** `strchr` */
  method StrChr(buf: array<char>, lo: nat, hi: nat, c: char) returns (k: Option<nat>)
    requires lo <= hi <= buf.Length
    ensures k.None? ==> Cut(buf[lo..hi], c) == (buf[lo..hi], None)
    ensures k.Some? ==> lo <= k.value < hi && buf[k.value] == c
    ensures k.Some? ==> Cut(buf[lo..hi], c) == (buf[lo..k.value], Some(buf[k.value + 1..hi]))
  {
    for i := lo to hi
      invariant c !in buf[lo..i]
    {
      if buf[i] == c {
        assert buf[lo..hi] == buf[lo..i] + [c] + buf[i + 1..hi];
        CutAt(buf[lo..i], c, buf[i + 1..hi]);
        return Some(i);
      }
    }
    CutNone(buf[lo..hi], c);
    return None;
  }

  /** `strrchr` */
  method StrRChr(buf: array<char>, lo: nat, hi: nat, c: char) returns (k: Option<nat>)
    requires lo <= hi <= buf.Length
    ensures k.None? ==> CutLast(buf[lo..hi], c) == (None, buf[lo..hi])
    ensures k.Some? ==> lo <= k.value < hi && buf[k.value] == c
    ensures k.Some? ==> CutLast(buf[lo..hi], c) == (Some(buf[lo..k.value]), buf[k.value + 1..hi])
  {
    for i := hi downto lo
      invariant c !in buf[i..hi]
    {
      if buf[i] == c {
        assert buf[lo..hi] == buf[lo..i] + [c] + buf[i + 1..hi];
        CutLastAt(buf[lo..i], c, buf[i + 1..hi]);
        return Some(i);
      }
    }
    CutLastNone(buf[lo..hi], c);
    return None;
  }

  /** Writing a terminator at `k` cuts the string from `lo` to `hi` in two. */
  method Terminate(buf: array<char>, lo: nat, k: nat, hi: nat)
    requires lo <= k < hi <= buf.Length && '\0' !in buf[lo..hi]
    modifies buf
    ensures SameOutside(old(buf[..]), buf[..], k, k + 1) && buf[k] == '\0'
    ensures buf[lo..k] == old(buf[lo..k]) && buf[k + 1..hi] == old(buf[k + 1..hi])
    ensures '\0' !in buf[lo..k] && '\0' !in buf[k + 1..hi]
  {
    assert buf[lo..hi] == buf[lo..k] + [buf[k]] + buf[k + 1..hi];
    buf[k] := '\0';
  }

  /** The loop of `parse_path` that overwrites the trailing slashes with terminators. */
  method CutSlashes(buf: array<char>, lo: nat, hi: nat) returns (end: nat)
    requires lo <= hi < buf.Length && buf[hi] == '\0'
    modifies buf
    ensures lo <= end <= hi && buf[end] == '\0'
    ensures SameOutside(old(buf[..]), buf[..], end, hi)
    ensures StripSlashes(old(buf[lo..hi])) == old(buf[lo..end])
  {
    end := hi;
    while end > lo && buf[end - 1] == '/'
      invariant lo <= end <= hi && buf[end] == '\0'
      invariant SameOutside(old(buf[..]), buf[..], end, hi)
      invariant StripSlashes(old(buf[lo..hi])) == StripSlashes(old(buf[lo..end]))
    {
      assert old(buf[lo..end])[..end - lo - 1] == old(buf[lo..end - 1]);
      end := end - 1;
      buf[end] := '\0';
    }
  }

  method CheckPath(buf: array<char>, lo: nat, hi: nat) returns (ok: bool)
    requires lo <= hi <= buf.Length
    ensures ok == IsPath(buf[lo..hi])
  {
    for i := lo to hi
      invariant IsPath(buf[lo..i])
    {
      if !IsPathChar(buf[i]) {
        assert buf[lo..hi][i - lo] == buf[i];
        return false;
      }
    }
    return true;
  }

  /** `parse_path` */
  method CutPath(buf: array<char>, lo: nat, hi: nat) returns (r: Option<Option<nat>>)
    requires lo <= hi < buf.Length && '\0' !in buf[lo..hi] && buf[hi] == '\0'
    modifies buf
    ensures SameOutside(old(buf[..]), buf[..], lo, hi)
    ensures r.Some? == ParsePath(old(buf[lo..hi])).Some?
    ensures r.Some? ==> HoldsAt(buf[..], r.value, ParsePath(old(buf[lo..hi])).value, hi)
  {
    ghost var text := buf[lo..hi];
    var end := CutSlashes(buf, lo, hi);
    assert buf[lo..end] == old(buf[lo..end]) == text[..end - lo] == buf[..][lo..end];
    if end == lo {
      return Some(None);
    }
    var ok := CheckPath(buf, lo, end);
    return if ok then Some(Some(lo)) else None;
  }

  /** The port text between `lo` and `hi`, when there is one. */
  method ReadPort(buf: array<char>, lo: nat, hi: nat, present: bool) returns (port: Option<nat>)
    requires present ==> lo <= hi <= buf.Length
    ensures port == ParsePort(if present then Some(buf[lo..hi]) else None)
  {
    if present && lo < hi {
      var (val, unread) := StrToL(buf[lo..hi]);
      return if unread != "" || val < 0 || val > 65535 then None else Some(val);
    }
    return Some(0);
  }

  method CheckHost(buf: array<char>, lo: nat, hi: nat, bracketed: bool) returns (ok: bool)
    requires lo <= hi <= buf.Length
    ensures ok == IsHost(buf[lo..hi], bracketed)
  {
    for i := lo to hi
      invariant IsHost(buf[lo..i], bracketed)
    {
      if !(if bracketed then IsIpv6Char(buf[i]) else IsHostChar(buf[i])) {
        assert buf[lo..hi][i - lo] == buf[i];
        return false;
      }
    }
    return true;
  }

  /** Where the host is and where the port starts, when there is one. */
  datatype HostParts = HostParts(host: nat, end: nat, bracketed: bool, port: Option<nat>)

  /** The first part of `parse_host_and_port`: finding the host and the port. */
  method FindHost(buf: array<char>, lo: nat, hi: nat) returns (r: Option<HostParts>)
    requires lo <= hi < buf.Length
    ensures r.Some? == SplitHost(buf[lo..hi]).Some?
    ensures r.Some? ==> var (host, bracketed, port) := SplitHost(buf[lo..hi]).value; var p := r.value;
                        && lo <= p.host <= p.end <= hi && buf[p.host..p.end] == host && p.bracketed == bracketed
                        && p.port.Some? == port.Some?
                        && (port.Some? ==> p.end < p.port.value <= hi && buf[p.port.value..hi] == port.value)
  {
    if lo < hi && buf[lo] == '[' {
      var closing := StrChr(buf, lo, hi, ']');
      if closing.None? || closing.value == lo + 1 {
        return None;
      }
      var end := closing.value;
      assert buf[lo..end][1..] == buf[lo + 1..end];
      if end + 1 == hi {
        return Some(HostParts(lo + 1, end, true, None));
      }
      assert buf[end + 1..hi][1..] == buf[end + 2..hi];
      return if buf[end + 1] == ':' then Some(HostParts(lo + 1, end, true, Some(end + 2))) else None;
    }
    var colon := StrChr(buf, lo, hi, ':');
    var end := if colon.Some? then colon.value else hi;
    return if end == lo then None
           else Some(HostParts(lo, end, false, if colon.Some? then Some(end + 1) else None));
  }

  /** `parse_host_and_port` */
  method CutHostAndPort(buf: array<char>, lo: nat, hi: nat) returns (r: Option<(nat, nat)>)
    requires lo <= hi < buf.Length && '\0' !in buf[lo..hi] && buf[hi] == '\0'
    modifies buf
    ensures SameOutside(old(buf[..]), buf[..], lo, hi)
    ensures r.Some? == ParseHostAndPort(old(buf[lo..hi])).Some?
    ensures r.Some? ==> var (host, port) := ParseHostAndPort(old(buf[lo..hi])).value;
                        Holds(buf[..], r.value.0, host, hi) && r.value.1 == port && lo <= r.value.0
  {
    hide SplitHost, ParsePort, IsHost;
    ghost var text := buf[lo..hi];
    var found := FindHost(buf, lo, hi);
    if found.None? {
      return None;
    }
    var p := found.value;
    ghost var name := buf[p.host..p.end];
    assert name == text[p.host - lo..p.end - lo] && '\0' !in name;
    var port := ReadPort(buf, p.port.UnwrapOr(0), hi, p.port.Some?);
    buf[p.end] := '\0';
    assert buf[p.host..p.end] == name == buf[..][p.host..p.end];
    if port.None? {
      return None;
    }
    var ok := CheckHost(buf, p.host, p.end, p.bracketed);
    return if ok then Some((p.host, port.value)) else None;
  }

  datatype Parts = Parts(user: Option<nat>, pass: Option<nat>, host: nat, port: nat)

  /** The credentials end at `k`, where the `@` was: cutting them at the first colon. */
  method CutCredentials(buf: array<char>, lo: nat, k: nat) returns (pass: Option<nat>)
    requires lo <= k < buf.Length && '\0' !in buf[lo..k] && buf[k] == '\0'
    modifies buf
    ensures SameOutside(old(buf[..]), buf[..], lo, k)
    ensures var (u, p) := Cut(old(buf[lo..k]), ':'); Holds(buf[..], lo, u, k) && HoldsAt(buf[..], pass, p, k)
  {
    var colon := StrChr(buf, lo, k, ':');
    if colon.None? {
      assert buf[..][lo..k] == buf[lo..k];
      return None;
    }
    var c := colon.value;
    Terminate(buf, lo, c, k);
    assert buf[..][lo..c] == buf[lo..c] && buf[..][c + 1..k] == buf[c + 1..k];
    return Some(c + 1);
  }

  /** `parse_authority` once the `@` at `k` has been overwritten: the user name must not be empty. */
  method CutLogin(buf: array<char>, lo: nat, k: nat, hi: nat) returns (r: Option<Parts>)
    requires lo <= k < hi < buf.Length && buf[k] == '\0' && buf[hi] == '\0'
    requires '\0' !in buf[lo..k] && '\0' !in buf[k + 1..hi]
    modifies buf
    ensures SameOutside(old(buf[..]), buf[..], lo, hi)
    ensures var (u, p) := Cut(old(buf[lo..k]), ':'); var hp := ParseHostAndPort(old(buf[k + 1..hi]));
            && (r.None? <==> u == "" || hp.None?)
            && (r.Some? ==> ReadsParts(buf[..], r.value, Some(u), p, hp.value.0, hi) && r.value.port == hp.value.1)
  {
    hide ParseHostAndPort, Holds;
    ghost var (u, p) := Cut(buf[lo..k], ':');
    ghost var h := buf[k + 1..hi];
    var pass := CutCredentials(buf, lo, k);
    EmptyHeld(buf[..], lo, u, k);
    if buf[lo] == '\0' {
      return None;
    }
    assert buf[k + 1..hi] == h;
    ghost var cut := buf[..];
    var hp := CutHostAndPort(buf, k + 1, hi);
    if hp.None? {
      return None;
    }
    StillHolds(cut, buf[..], k + 1, hi, lo, u);
    if p.Some? {
      StillHolds(cut, buf[..], k + 1, hi, pass.value, p.value);
    }
    return Some(Parts(Some(lo), pass, hp.value.0, hp.value.1));
  }

  /** `parse_authority` */
  method CutAuthority(buf: array<char>, lo: nat, hi: nat) returns (r: Option<Parts>)
    requires lo <= hi < buf.Length && '\0' !in buf[lo..hi] && buf[hi] == '\0'
    modifies buf
    ensures SameOutside(old(buf[..]), buf[..], lo, hi)
    ensures r.Some? == ParseAuthority(old(buf[lo..hi])).Some?
    ensures r.Some? ==> var (user, pass, host, port) := ParseAuthority(old(buf[lo..hi])).value;
                        ReadsParts(buf[..], r.value, user, pass, host, hi) && r.value.port == port
  {
    hide ParseHostAndPort, Holds;
    var at := StrRChr(buf, lo, hi, '@');
    if at.None? {
      var hp := CutHostAndPort(buf, lo, hi);
      return if hp.None? then None else Some(Parts(None, None, hp.value.0, hp.value.1));
    }
    Terminate(buf, lo, at.value, hi);
    r := CutLogin(buf, lo, at.value, hi);
  }

  lemma EmptyHeld(s: seq<char>, at: nat, t: string, hi: nat)
    requires Holds(s, at, t, hi)
    ensures at < |s| && (s[at] == '\0' <==> t == "")
  {
    assert t != "" ==> s[at] == t[0];
  }

  datatype ParsedUrl = ParsedUrl(scheme: Scheme, parts: Parts, portExplicit: bool, path: Option<nat>)

  ghost predicate ReadsParts(s: seq<char>, p: Parts, user: Option<string>, pass: Option<string>, host: string, hi: nat) {
    HoldsAt(s, p.user, user, hi) && HoldsAt(s, p.pass, pass, hi) && Holds(s, p.host, host, hi)
  }

  /** The fields of `p` are those of `u`, the strings being read from the buffer. */
  ghost predicate Reads(s: seq<char>, p: ParsedUrl, u: Url, hi: nat) {
    && p.scheme == u.scheme && p.parts.port == u.port && p.portExplicit == u.portExplicit
    && ReadsParts(s, p.parts, u.user, u.pass, u.host, hi) && HoldsAt(s, p.path, u.path, hi)
  }

  lemma PartsStillHold(s: seq<char>, t: seq<char>, lo: nat, hi: nat, p: Parts,
                       user: Option<string>, pass: Option<string>, host: string)
    requires SameOutside(s, t, lo, hi) && lo > 0 && lo <= hi < |s| && ReadsParts(s, p, user, pass, host, lo - 1)
    ensures ReadsParts(t, p, user, pass, host, hi)
  {
    if user.Some? {
      StillHolds(s, t, lo, hi, p.user.value, user.value);
    }
    if pass.Some? {
      StillHolds(s, t, lo, hi, p.pass.value, pass.value);
    }
    StillHolds(s, t, lo, hi, p.host, host);
  }

  /** Everything after the scheme: the authority up to the first slash, then the path. */
  method CutRest(buf: array<char>, lo: nat, n: nat) returns (r: Option<(Parts, Option<nat>)>)
    requires lo <= n < buf.Length && buf[n] == '\0' && '\0' !in buf[lo..n]
    modifies buf
    ensures r.Some? == ParseRest(old(buf[lo..n])).Some?
    ensures r.Some? ==> var ((user, pass, host, port), path) := ParseRest(old(buf[lo..n])).value;
                        && ReadsParts(buf[..], r.value.0, user, pass, host, n) && r.value.0.port == port
                        && HoldsAt(buf[..], r.value.1, path, n)
  {
    hide ParseAuthority, ParsePath, Holds;
    var slash := StrChr(buf, lo, n, '/');
    if slash.None? {
      var parts := CutAuthority(buf, lo, n);
      return if parts.None? then None else Some((parts.value, None));
    }
    var k := slash.value;
    Terminate(buf, lo, k, n);
    ghost var authority, tail := buf[lo..k], buf[k + 1..n];
    var parts := CutAuthority(buf, lo, k);
    if parts.None? {
      return None;
    }
    assert buf[k + 1..n] == tail;
    ghost var cut := buf[..];
    ghost var (user, pass, host, _) := ParseAuthority(authority).value;
    if k + 1 == n {
      PartsStillHold(cut, cut, k + 1, n, parts.value, user, pass, host);
      return Some((parts.value, None));
    }
    var path := CutPath(buf, k + 1, n);
    PartsStillHold(cut, buf[..], k + 1, n, parts.value, user, pass, host);
    return if path.None? then None else Some((parts.value, path.value));
  }

  /** `rtsp_url_parse_internal` on the string that ends at `n`. */
  method ParseInternal(buf: array<char>, n: nat) returns (r: Option<ParsedUrl>)
    requires n < buf.Length && buf[n] == '\0' && '\0' !in buf[..n]
    modifies buf
    ensures r.Some? == Parse(old(buf[..n])).Success?
    ensures r.Some? ==> Reads(buf[..], r.value, Parse(old(buf[..n])).value, n)
  {
    hide ParseRest, FindScheme, Holds;
    ghost var url := buf[..n];
    var scheme := FindScheme(buf[..n]);
    if n == 0 || n >= PATH_MAX || scheme.None? {
      return None;
    }
    var lo := |SchemeText(scheme.value)|;
    assert url[lo..] == buf[lo..n];
    if lo == n || buf[lo] == '/' {
      return None;
    }
    var rest := CutRest(buf, lo, n);
    if rest.None? {
      return None;
    }
    var (parts, path) := rest.value;
    var port := parts.port;
    return Some(ParsedUrl(scheme.value, parts.(port := if port == 0 then DefaultPort(scheme.value) else port), port != 0, path));
  }

  /** `anonymize_str`, on the copy it works on. */
  method AnonymizeStr(output: array<char>, kept: nat)
    modifies output
    ensures output[..] == Stars(old(output[..]), kept)
  {
    var len := output.Length;
    if len > 2 * kept {
      for i := kept to len - kept
        invariant forall k :: 0 <= k < len ==> output[k] == if kept <= k < i then '*' else old(output[k])
      {
        output[i] := '*';
      }
    }
    assert |old(output[..])| == len;
  }
}
