/** Parsing and printing of RTSP URLs (src/rtsp_url.c). */
module Url {
  import opened Wrappers
  import opened Text

  const PATH_MAX := 4096
  const EINVAL := -22

  datatype Scheme = Tcp | Udp | Tls

  /** `struct rtsp_url`, without the resolved host, which only depends on the host. */
  datatype Url = Url(scheme: Scheme, user: Option<string>, pass: Option<string>, host: string,
                     port: nat, portExplicit: bool, path: Option<string>)

  function SchemeText(s: Scheme): string {
    match s case Tcp => "rtsp://" case Udp => "rtspu://" case Tls => "rtsps://"
  }

  function DefaultPort(s: Scheme): nat {
    match s case Tcp => 554 case Udp => 554 case Tls => 322
  }

  function FindScheme(url: string): (r: Option<Scheme>)
    ensures r.Some? ==> StartsWith(url, SchemeText(r.value))
  {
    if StartsWith(url, SchemeText(Tcp)) then Some(Tcp)
    else if StartsWith(url, SchemeText(Udp)) then Some(Udp)
    else if StartsWith(url, SchemeText(Tls)) then Some(Tls)
    else None
  }

  predicate IsHostChar(c: char) { IsAlnum(c) || c == '.' || c == '-' }

  predicate IsIpv6Char(c: char) { IsHexDigit(c) || c == ':' || c == '.' }

  predicate IsPathChar(c: char) { IsAlnum(c) || c in "-._~!$&'()*+,;=:@/" }

  predicate IsPath(s: string) { forall c :: c in s ==> IsPathChar(c) }

  /** A missing or empty port reads as 0. */
  function ParsePort(s: Option<string>): (r: Option<nat>)
    ensures r.Some? ==> r.value <= 65535
  {
    if s.None? || s.value == "" then Some(0)
    else
      var v := StrToL(s.value);
      if v.1 != "" || v.0 < 0 || v.0 > 65535 then None else Some(v.0)
  }

  /** The host, whether it was bracketed, and what follows the colon. */
  function SplitHost(h: string): Option<(string, bool, Option<string>)> {
    if h != "" && h[0] == '[' then
      var (front, rest) := Cut(h, ']');
      if rest.None? || |front| <= 1 then None
      else if rest.value == "" then Some((front[1..], true, None))
      else if rest.value[0] == ':' then Some((front[1..], true, Some(rest.value[1..])))
      else None
    else
      var (host, rest) := Cut(h, ':');
      if host == "" then None else Some((host, false, rest))
  }

  predicate IsHost(host: string, bracketed: bool) {
    forall c :: c in host ==> if bracketed then IsIpv6Char(c) else IsHostChar(c)
  }

  /** `parse_host_and_port` */
  function ParseHostAndPort(h: string): Option<(string, nat)> {
    var s := SplitHost(h);
    if s.None? || ParsePort(s.value.2).None? || !IsHost(s.value.0, s.value.1) then None
    else Some((s.value.0, ParsePort(s.value.2).value))
  }

  /** User name, password, host and port; 0 when the port is not given. */
  type Authority = (Option<string>, Option<string>, string, nat)

  /** `parse_authority`: the credentials end at the last `@`, the user name at the first colon. */
  function ParseAuthority(a: string): Option<Authority> {
    var (credentials, h) := CutLast(a, '@');
    var (user, pass) := if credentials.Some? then Cut(credentials.value, ':') else ("", None);
    if credentials.Some? && user == "" then None
    else
      var hp := ParseHostAndPort(h);
      if hp.None? then None
      else Some((if credentials.Some? then Some(user) else None, pass, hp.value.0, hp.value.1))
  }

  function StripSlashes(s: string): (r: string)
    ensures r <= s
    ensures r != "" ==> r[|r| - 1] != '/'
    decreases |s|
  {
    if s != "" && s[|s| - 1] == '/' then StripSlashes(s[..|s| - 1]) else s
  }

  /** `parse_path`; the inner option is None for a path that is empty or nothing but slashes. */
  function ParsePath(s: string): Option<Option<string>> {
    var p := StripSlashes(s);
    if p == "" then Some(None)
    else if IsPath(p) then Some(Some(p))
    else None
  }

  /** What follows the scheme: the authority up to the first slash, and the path. */
  function ParseRest(rest: string): Option<(Authority, Option<string>)> {
    var (authority, tail) := Cut(rest, '/');
    var a := ParseAuthority(authority);
    var path := if tail.None? || tail.value == "" then Some(None) else ParsePath(tail.value);
    if a.None? || path.None? then None else Some((a.value, path.value))
  }

  /** `rtsp_url_parse` */
  function Parse(url: string): Result<Url, int> {
    var scheme := FindScheme(url);
    if url == "" || |url| >= PATH_MAX || scheme.None? then Failure(EINVAL)
    else
      var rest := url[|SchemeText(scheme.value)|..];
      var parts := ParseRest(rest);
      if rest == "" || rest[0] == '/' || parts.None? then Failure(EINVAL)
      else
        var ((user, pass, host, port), path) := parts.value;
        Success(Url(scheme.value, user, pass, host,
                    if port == 0 then DefaultPort(scheme.value) else port, port != 0, path))
  }

  function PrintCredentials(u: Url): string {
    u.user.UnwrapOr("") + (if u.user.Some? && u.pass.Some? then ":" else "") + u.pass.UnwrapOr("")
      + (if u.user.Some? then "@" else "")
  }

  function PrintHost(u: Url): string {
    if ':' in u.host then "[" + u.host + "]" else u.host
  }

  function PrintPort(u: Url): string {
    if u.port != 0 && u.portExplicit then ":" + Dec(u.port) else ""
  }

  function PrintPath(u: Url): string {
    if u.path.Some? then "/" + u.path.value else ""
  }

  /** `rtsp_url_to_str` */
  function Print(u: Url): string {
    SchemeText(u.scheme) + (PrintCredentials(u) + (PrintHost(u) + PrintPort(u))) + PrintPath(u)
  }

  /** `rtsp_url_strip_credentials` */
  function StripCredentials(url: string): Result<string, int> {
    var u := Parse(url);
    if u.Failure? then Failure(u.error) else Success(Print(u.value.(user := None, pass := None)))
  }

  /** `anonymize_str`: stars, except for a kept number of characters at both ends. */
  function Stars(s: string, kept: nat): (r: string)
    ensures |r| == |s|
  {
    if |s| <= 2 * kept then s
    else seq(|s|, i requires 0 <= i < |s| => if kept <= i < |s| - kept then '*' else s[i])
  }

  function StarsIn(f: Option<string>, kept: nat): Option<string> {
    if f.Some? then Some(Stars(f.value, kept)) else None
  }

  function Anonymous(u: Url): Url {
    u.(user := StarsIn(u.user, 0), pass := StarsIn(u.pass, 0), path := StarsIn(u.path, 2))
  }

  /** `rtsp_url_anonymize` */
  function Anonymize(url: string): Result<string, int> {
    var u := Parse(url);
    if u.Failure? then Failure(u.error) else Success(Print(Anonymous(u.value)))
  }
}
