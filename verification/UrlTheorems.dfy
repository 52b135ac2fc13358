/** Printing an accepted URL gives its normal form; stripping and anonymising keep the rest of it. */
module UrlTheorems {
  import opened Wrappers
  import opened Text
  import opened Url

  ghost predicate CredentialsOk(user: Option<string>, pass: Option<string>) {
    && (user.Some? ==> user.value != "" && ':' !in user.value && '/' !in user.value)
    && (pass.Some? ==> user.Some? && '/' !in pass.value)
  }

  ghost predicate HostOk(host: string) {
    && host != ""
    && (':' in host ==> forall c :: c in host ==> IsIpv6Char(c))
    && (':' !in host ==> forall c :: c in host ==> IsHostChar(c))
  }

  ghost predicate PathOk(path: Option<string>) {
    path.Some? ==> path.value != "" && path.value[|path.value| - 1] != '/' && forall c :: c in path.value ==> IsPathChar(c)
  }

  /** Without a port in the text, 554 or for TLS 322. */
  ghost predicate PortOk(scheme: Scheme, port: nat, isExplicit: bool) {
    if isExplicit then 1 <= port <= 65535 else port == if scheme == Tls then 322 else 554
  }

  /** The URLs the parser can produce. */
  ghost predicate WellFormed(u: Url) {
    CredentialsOk(u.user, u.pass) && HostOk(u.host) && PortOk(u.scheme, u.port, u.portExplicit) && PathOk(u.path)
  }

  // --- the port ---

  function PortText(port: nat): string { if port != 0 then ":" + Dec(port) else "" }

  lemma SkippedShorter(s: string)
    requires StrToL(s).1 == "" && s != ""
    ensures exists d :: d != "" && |d| <= |s| && AllDigits(d) && (StrToL(s).0 == Value(d, 0) || StrToL(s).0 + Value(d, 0) == 0)
  {
    var t := SkipSpaces(s);
    var u := if t != "" && (t[0] == '-' || t[0] == '+') then t[1..] else t;
    DigitsWhole(u, 0);
    assert u != "" && |u| <= |s| && AllDigits(u);
  }

  lemma PortShrinks(s: Option<string>)
    requires ParsePort(s).Some?
    ensures |PortText(ParsePort(s).value)| <= if s.Some? then |s.value| + 1 else 0
  {
    var port := ParsePort(s).value;
    if port != 0 {
      SkippedShorter(s.value);
      var d :| d != "" && |d| <= |s.value| && AllDigits(d)
               && (StrToL(s.value).0 == Value(d, 0) || StrToL(s.value).0 + Value(d, 0) == 0);
      DecIsShortest(d);
    }
  }

  lemma PortReadBack(port: nat)
    requires 0 < port <= 65535
    ensures ParsePort(Some(Dec(port))) == Some(port)
  {
    var s := Dec(port);
    DecReadBack(port, "");
    assert s + "" == s;
    assert IsDigit(s[0]);
    assert SkipSpaces(s) == s;
  }

  // --- host and port ---

  function HostText(host: string): string { if ':' in host then "[" + host + "]" else host }

  lemma HostParsed(h: string)
    requires ParseHostAndPort(h).Some?
    ensures var (host, port) := ParseHostAndPort(h).value;
            HostOk(host) && port <= 65535 && |HostText(host) + PortText(port)| <= |h|
  {
    if h != "" && h[0] == '[' {
      var (front, rest) := Cut(h, ']');
      assert front[0] == '[';
      var p := if rest.value == "" then None else Some(rest.value[1..]);
      PortShrinks(p);
      assert forall c :: c in front[1..] && c != ':' ==> IsHostChar(c);
    } else {
      PortShrinks(Cut(h, ':').1);
    }
  }

  lemma HostReadBack(host: string, port: nat)
    requires HostOk(host) && port <= 65535
    ensures ParseHostAndPort(HostText(host) + PortText(port)) == Some((host, port))
  {
    var h := HostText(host) + PortText(port);
    var tail := if port == 0 then None else Some(Dec(port));
    if port != 0 {
      PortReadBack(port);
    }
    if ':' in host {
      assert ']' !in "[" + host;
      assert h == ("[" + host) + [']'] + PortText(port);
      CutAt("[" + host, ']', PortText(port));
      assert ("[" + host)[1..] == host;
      assert port != 0 ==> PortText(port)[1..] == Dec(port);
    } else {
      assert IsHostChar(host[0]);
      assert h[0] == host[0];
      if port == 0 {
        assert h == host;
        CutNone(host, ':');
      } else {
        assert h == host + [':'] + Dec(port);
        CutAt(host, ':', Dec(port));
      }
      assert Cut(h, ':') == (host, tail);
    }
  }

  lemma HostTextPlain(host: string, port: nat)
    requires HostOk(host)
    ensures forall c :: c in HostText(host) + PortText(port) ==> c != '@' && c != '/'
  {
    assert forall c :: c in host ==> c != '@' && c != '/';
  }

  // --- the authority ---

  function CredentialText(user: Option<string>, pass: Option<string>): string {
    user.UnwrapOr("") + (if user.Some? && pass.Some? then ":" else "") + pass.UnwrapOr("") + (if user.Some? then "@" else "")
  }

  lemma AuthorityParsed(a: string)
    requires '/' !in a && ParseAuthority(a).Some?
    ensures var (user, pass, host, port) := ParseAuthority(a).value;
            && CredentialsOk(user, pass) && HostOk(host) && port <= 65535
            && |CredentialText(user, pass) + (HostText(host) + PortText(port))| <= |a|
  {
    var (credentials, h) := CutLast(a, '@');
    HostParsed(h);
    if credentials.Some? {
      var (user, pass) := Cut(credentials.value, ':');
      assert forall c :: c in user ==> c in credentials.value && c in a;
      assert pass.Some? ==> forall c :: c in pass.value ==> c in credentials.value && c in a;
    }
  }

  lemma CredentialsReadBack(user: string, pass: Option<string>)
    requires ':' !in user
    ensures Cut(user + (if pass.Some? then ":" + pass.value else ""), ':') == (user, pass)
  {
    if pass.Some? {
      assert user + (":" + pass.value) == user + [':'] + pass.value;
      CutAt(user, ':', pass.value);
    } else {
      assert user + "" == user;
      CutNone(user, ':');
    }
  }

  lemma AuthorityReadBack(user: Option<string>, pass: Option<string>, host: string, port: nat)
    requires CredentialsOk(user, pass) && HostOk(host) && port <= 65535
    ensures var a := CredentialText(user, pass) + (HostText(host) + PortText(port));
            ParseAuthority(a) == Some((user, pass, host, port)) && '/' !in a
  {
    hide ParseHostAndPort, HostOk, HostText, PortText;
    var h := HostText(host) + PortText(port);
    HostReadBack(host, port);
    HostTextPlain(host, port);
    assert '/' !in h;
    if user.Some? {
      var c := user.value + (if pass.Some? then ":" + pass.value else "");
      CredentialsReadBack(user.value, pass);
      CutLastAt(c, '@', h);
      assert CredentialText(user, pass) + h == c + ['@'] + h;
    } else {
      assert CredentialText(user, pass) + h == h;
      CutLastNone(h, '@');
    }
  }

  // --- the path ---

  lemma PathParsed(s: string)
    requires ParsePath(s).Some?
    ensures PathOk(ParsePath(s).value)
    ensures ParsePath(s).value.Some? ==> |ParsePath(s).value.value| <= |s|
  {
  }

  lemma PathReadBack(path: string)
    requires PathOk(Some(path))
    ensures ParsePath(path) == Some(Some(path))
  {
    assert StripSlashes(path) == path;
  }

  // --- the URL ---

  lemma TailReadBack(authority: string, path: Option<string>)
    requires '/' !in authority && PathOk(path)
    ensures Cut(authority + (if path.Some? then "/" + path.value else ""), '/') == (authority, path)
    ensures path.Some? ==> path.value != "" && ParsePath(path.value) == Some(path)
  {
    if path.Some? {
      assert authority + ("/" + path.value) == authority + ['/'] + path.value;
      CutAt(authority, '/', path.value);
      PathReadBack(path.value);
    } else {
      assert authority + "" == authority;
      CutNone(authority, '/');
    }
  }

  lemma NoPath()
    ensures PathOk(None)
  {
  }

  lemma PrintedParts(u: Url, port: nat)
    requires u.portExplicit <==> port != 0
    requires u.portExplicit ==> u.port == port
    ensures PrintPort(u) == PortText(port) && PrintHost(u) == HostText(u.host)
    ensures PrintCredentials(u) == CredentialText(u.user, u.pass)
  {
  }

  lemma AuthorityStart(user: Option<string>, pass: Option<string>, host: string, port: nat)
    requires CredentialsOk(user, pass) && HostOk(host)
    ensures CredentialText(user, pass) + (HostText(host) + PortText(port)) != ""
  {
    assert HostText(host) != "";
  }

  /** Everything the parser accepts is well formed, and prints no longer than it was. */
  lemma ParsedWellFormed(url: string)
    requires Parse(url).Success?
    ensures WellFormed(Parse(url).value) && |Print(Parse(url).value)| <= |url|
  {
    hide ParseAuthority, ParsePath, CredentialsOk, HostOk, PathOk, HostText, CredentialText, PortText;
    var u := Parse(url).value;
    var rest := url[|SchemeText(u.scheme)|..];
    var (authority, tail) := Cut(rest, '/');
    AuthorityParsed(authority);
    var a := ParseAuthority(authority).value;
    if tail.Some? && tail.value != "" {
      PathParsed(tail.value);
    } else {
      NoPath();
    }
    PrintedParts(u, a.3);
  }

  lemma SchemeReadBack(scheme: Scheme, rest: string)
    ensures FindScheme(SchemeText(scheme) + rest) == Some(scheme)
  {
    var url := SchemeText(scheme) + rest;
    assert url[..7] == SchemeText(scheme)[..7];
    assert scheme == Tls ==> url[4] == 's';
    assert scheme == Udp ==> url[4] == 'u';
    assert SchemeText(Tcp)[4] == ':' && SchemeText(Udp)[4] == 'u' && SchemeText(Tls)[4] == 's';
    assert forall t :: StartsWith(url, SchemeText(t)) ==> url[4] == SchemeText(t)[4] by {
      forall t | StartsWith(url, SchemeText(t)) ensures url[4] == SchemeText(t)[4] {
        assert url[..|SchemeText(t)|][4] == url[4];
      }
    }
    assert StartsWith(url, SchemeText(scheme));
  }

  /** A well-formed URL of allowed length is read back from its printed form. */
  lemma PrintParses(u: Url)
    requires WellFormed(u) && |Print(u)| < PATH_MAX
    ensures Parse(Print(u)) == Success(u)
  {
    hide ParseAuthority, ParsePath, CredentialsOk, HostOk, PathOk, HostText, CredentialText, PortText, StartsWith, FindScheme;
    var port := if u.portExplicit then u.port else 0;
    var authority := CredentialText(u.user, u.pass) + (HostText(u.host) + PortText(port));
    var rest := authority + PrintPath(u);
    PrintedParts(u, port);
    assert Print(u) == SchemeText(u.scheme) + rest;
    SchemeReadBack(u.scheme, rest);
    AuthorityReadBack(u.user, u.pass, u.host, port);
    assert Print(u)[|SchemeText(u.scheme)|..] == rest;
    AuthorityStart(u.user, u.pass, u.host, port);
    assert authority[0] != '/' && rest[0] == authority[0];
    TailReadBack(authority, u.path);
    var tail := Cut(rest, '/').1;
    var path := if tail.None? || tail.value == "" then Some(None) else ParsePath(tail.value);
    assert path == Some(u.path);
  }

  /** Print after parse: a normal form, no longer than the input, that means the same URL. */
  lemma NormalForm(url: string)
    requires Parse(url).Success?
    ensures var n := Print(Parse(url).value);
            |n| <= |url| && Parse(n) == Parse(url) && Print(Parse(n).value) == n
  {
    ParsedWellFormed(url);
    PrintParses(Parse(url).value);
  }

  /** The parser produces exactly the well-formed URLs whose printed form is short enough. */
  lemma ExactlyWellFormed(u: Url)
    ensures (exists url :: Parse(url) == Success(u)) <==> WellFormed(u) && |Print(u)| < PATH_MAX
  {
    if WellFormed(u) && |Print(u)| < PATH_MAX {
      PrintParses(u);
    }
    forall url | Parse(url) == Success(u) ensures WellFormed(u) && |Print(u)| < PATH_MAX {
      ParsedWellFormed(url);
    }
  }

  // --- stripping and anonymising ---

  /** Stripping loses the credentials and nothing else; a second time changes nothing. */
  lemma StrippedKeepsTheRest(url: string)
    requires Parse(url).Success?
    ensures var s := StripCredentials(url);
            && s.Success? && |s.value| <= |url|
            && Parse(s.value) == Success(Parse(url).value.(user := None, pass := None))
            && StripCredentials(s.value) == s
  {
    var u := Parse(url).value;
    ParsedWellFormed(url);
    var v := u.(user := None, pass := None);
    assert |Print(v)| <= |Print(u)|;
    PrintParses(v);
  }

  lemma StarsKeepChars(s: string, kept: nat)
    ensures forall c :: c in Stars(s, kept) ==> c == '*' || c in s
  {
  }

  lemma StarsAgain(s: string, kept: nat)
    ensures Stars(Stars(s, kept), kept) == Stars(s, kept)
  {
  }

  lemma AnonymousWellFormed(u: Url)
    requires WellFormed(u)
    ensures WellFormed(Anonymous(u)) && |Print(Anonymous(u))| == |Print(u)| && Anonymous(Anonymous(u)) == Anonymous(u)
  {
    var v := Anonymous(u);
    if u.user.Some? {
      StarsKeepChars(u.user.value, 0);
      StarsAgain(u.user.value, 0);
    }
    if u.pass.Some? {
      StarsKeepChars(u.pass.value, 0);
      StarsAgain(u.pass.value, 0);
    }
    if u.path.Some? {
      StarsKeepChars(u.path.value, 2);
      StarsAgain(u.path.value, 2);
      assert v.path.value[|v.path.value| - 1] == u.path.value[|u.path.value| - 1];
    }
  }

  ghost predicate SameLength(a: Option<string>, b: Option<string>) {
    a.Some? == b.Some? && (a.Some? ==> |a.value| == |b.value|)
  }

  /** An anonymised URL is still a URL, of the same scheme, host, port and lengths, and anonymises to itself. */
  lemma AnonymisedKeepsTheRest(url: string)
    requires Parse(url).Success?
    ensures var a := Anonymize(url);
            && a.Success? && |a.value| <= |url| && Anonymize(a.value) == a
            && Parse(a.value) == Success(Anonymous(Parse(url).value))
            && var u, v := Parse(url).value, Parse(a.value).value;
               && v.(user := u.user, pass := u.pass, path := u.path) == u
               && SameLength(u.user, v.user) && SameLength(u.pass, v.pass) && SameLength(u.path, v.path)
  {
    var u := Parse(url).value;
    ParsedWellFormed(url);
    AnonymousWellFormed(u);
    PrintParses(Anonymous(u));
  }

  /** Nothing of the user name and password shows but their lengths. */
  lemma AnonymisedHidesCredentials(url: string, other: string)
    requires Parse(url).Success? && Parse(other).Success?
    requires var u, v := Parse(url).value, Parse(other).value;
             v.(user := u.user, pass := u.pass) == u && SameLength(u.user, v.user) && SameLength(u.pass, v.pass)
    ensures Anonymize(url) == Anonymize(other)
  {
    var u, v := Parse(url).value, Parse(other).value;
    assert StarsIn(u.user, 0) == StarsIn(v.user, 0) by {
      if u.user.Some? {
        assert Stars(u.user.value, 0) == Stars(v.user.value, 0);
      }
    }
    assert StarsIn(u.pass, 0) == StarsIn(v.pass, 0) by {
      if u.pass.Some? {
        assert Stars(u.pass.value, 0) == Stars(v.pass.value, 0);
      }
    }
  }
}
