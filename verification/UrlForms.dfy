/** The words of a URL: its schemes and ports, where its parts stand, and which texts are refused. */
module UrlForms {
  import opened Wrappers
  import opened Text
  import opened Url
  import opened UrlTheorems

  /** The three schemes, and the port a URL has when it does not give one. */
  lemma Schemes(url: string)
    ensures match Parse(url)
            case Failure(e) => e == -22
            case Success(u) =>
              && (u.scheme == Tcp <==> "rtsp://" <= url) && (u.scheme == Udp <==> "rtspu://" <= url)
              && (u.scheme == Tls <==> "rtsps://" <= url)
              && (!u.portExplicit ==> u.port == if "rtsps://" <= url then 322 else 554)
    ensures !("rtsp://" <= url) && !("rtspu://" <= url) && !("rtsps://" <= url) ==> Parse(url).Failure?
    ensures |url| >= 4096 ==> Parse(url).Failure?
  {
    hide ParseRest;
    var tcp, udp, tls := "rtsp://", "rtspu://", "rtsps://";
    assert tcp[4] == ':' && udp[4] == 'u' && tls[4] == 's';
    assert StartsWith(url, tcp) <==> tcp <= url;
    assert StartsWith(url, udp) <==> udp <= url;
    assert StartsWith(url, tls) <==> tls <= url;
    assert tcp <= url ==> url[4] == ':';
    assert udp <= url ==> url[4] == 'u';
    assert tls <= url ==> url[4] == 's';
  }

  /** The characters a host name, an address in brackets, and a path may hold. */
  lemma Alphabets(c: char)
    ensures IsHostChar(c) <==> c in "ABCDEFGHIJKLMNOPQRSTUVWXYZ" || c in "abcdefghijklmnopqrstuvwxyz" || c in "0123456789" || c in ".-"
    ensures IsIpv6Char(c) <==> c in "0123456789" || c in "abcdef" || c in "ABCDEF" || c in ":."
    ensures IsPathChar(c) <==> c in "ABCDEFGHIJKLMNOPQRSTUVWXYZ" || c in "abcdefghijklmnopqrstuvwxyz" || c in "0123456789" || c in "-._~!$&'()*+,;=:@/"
  {
    Upper(c);
    Lower(c);
    Digit(c);
    HexLetter(c);
    assert c in ".-" <==> c == '.' || c == '-';
    assert c in ":." <==> c == ':' || c == '.';
  }

  lemma Upper(c: char)
    ensures 'A' <= c <= 'Z' <==> c in "ABCDEFGHIJKLMNOPQRSTUVWXYZ"
  {
    var s := "ABCDEFGHIJKLMNOPQRSTUVWXYZ";
    assert 'A' <= c <= 'Z' ==> s[c as int - 'A' as int] == c;
  }

  lemma Lower(c: char)
    ensures 'a' <= c <= 'z' <==> c in "abcdefghijklmnopqrstuvwxyz"
  {
    var s := "abcdefghijklmnopqrstuvwxyz";
    assert 'a' <= c <= 'z' ==> s[c as int - 'a' as int] == c;
  }

  lemma Digit(c: char)
    ensures '0' <= c <= '9' <==> c in "0123456789"
  {
    var s := "0123456789";
    assert '0' <= c <= '9' ==> s[c as int - '0' as int] == c;
  }

  lemma HexLetter(c: char)
    ensures 'a' <= c <= 'f' <==> c in "abcdef"
    ensures 'A' <= c <= 'F' <==> c in "ABCDEF"
  {
    var s, t := "abcdef", "ABCDEF";
    assert 'a' <= c <= 'f' ==> s[c as int - 'a' as int] == c;
    assert 'A' <= c <= 'F' ==> t[c as int - 'A' as int] == c;
  }

  /** A host name that can be written without brackets. */
  predicate Hostname(h: string) { h != "" && forall c :: c in h ==> IsHostChar(c) }

  /** The digits of a port: read as a number of at most 65535, with leading zeros allowed and zero for none. */
  lemma PortWords(digits: string)
    requires AllDigits(digits) && digits != ""
    ensures ParsePort(Some(digits)) == if Value(digits, 0) <= 65535 then Some(Value(digits, 0)) else None
    ensures ParsePort(None) == Some(0) && ParsePort(Some("")) == Some(0)
  {
    hide StrToL, Value;
    DigitsRead(digits, "");
    assert digits + "" == digits;
  }

  lemma HostWords(host: string, digits: string)
    requires Hostname(host) && AllDigits(digits) && digits != ""
    ensures ParseHostAndPort(host + ":" + digits) == if Value(digits, 0) <= 65535 then Some((host, Value(digits, 0))) else None
    ensures ParseHostAndPort(host) == Some((host, 0))
  {
    hide ParsePort, Cut, Value;
    PortWords(digits);
    assert host[0] in host;
    assert ':' !in host;
    assert host + ":" + digits == host + [':'] + digits;
    CutAt(host, ':', digits);
    CutNone(host, ':');
  }

  /** An address in brackets, in which colons are allowed. */
  lemma BracketWords(host: string, digits: string)
    requires host != "" && (forall c :: c in host ==> IsIpv6Char(c)) && AllDigits(digits) && digits != ""
    ensures ParseHostAndPort("[" + host + "]:" + digits) == if Value(digits, 0) <= 65535 then Some((host, Value(digits, 0))) else None
    ensures ParseHostAndPort("[" + host + "]") == Some((host, 0))
  {
    hide ParsePort, Cut, Value;
    PortWords(digits);
    assert ']' !in "[" + host;
    assert "[" + host + "]:" + digits == ("[" + host) + [']'] + (":" + digits);
    CutAt("[" + host, ']', ":" + digits);
    assert "[" + host + "]" == ("[" + host) + [']'] + "";
    CutAt("[" + host, ']', "");
    assert ("[" + host)[1..] == host && (":" + digits)[1..] == digits;
  }

  lemma AuthorityWords(user: string, pass: string, h: string)
    requires user != "" && ':' !in user && '@' !in h && ParseHostAndPort(h).Some?
    ensures var (host, port) := ParseHostAndPort(h).value;
            && ParseAuthority(user + ":" + pass + "@" + h) == Some((Some(user), Some(pass), host, port))
            && ParseAuthority(h) == Some((None, None, host, port))
  {
    hide ParseHostAndPort, Cut, CutLast;
    assert user + ":" + pass + "@" + h == (user + [':'] + pass) + ['@'] + h;
    CutLastAt(user + [':'] + pass, '@', h);
    CutAt(user, ':', pass);
    CutLastNone(h, '@');
  }

  /** A name of medias: it holds path characters only and does not end in a slash. */
  predicate Pathname(p: string) { p != "" && p[|p| - 1] != '/' && IsPath(p) }

  /** Where the parts of a URL stand: credentials, host, port and path. */
  lemma FullUrl(user: string, pass: string, host: string, digits: string, path: string)
    requires user != "" && ':' !in user && '/' !in user && '/' !in pass && Hostname(host) && AllDigits(digits) && digits != ""
    requires 1 <= Value(digits, 0) <= 65535 && Pathname(path)
    requires |user| + |pass| + |host| + |digits| + |path| < 4000
    ensures Parse("rtsp://" + (user + ":" + pass + "@" + (host + ":" + digits)) + "/" + path)
            == Success(Url(Tcp, Some(user), Some(pass), host, Value(digits, 0), true, Some(path)))
  {
    hide ParseAuthority, ParsePath, Parse, Value, ParseHostAndPort;
    var a := user + ":" + pass + "@" + (host + ":" + digits);
    FullAuthority(user, pass, host, digits);
    PathWords(path);
    TcpUrl(a, path, Value(digits, 0));
  }

  lemma FullAuthority(user: string, pass: string, host: string, digits: string)
    requires user != "" && ':' !in user && '/' !in user && '/' !in pass && Hostname(host) && AllDigits(digits) && digits != ""
    requires Value(digits, 0) <= 65535
    ensures var a := user + ":" + pass + "@" + (host + ":" + digits);
            && '/' !in a && a != "" && |a| == |user| + |pass| + |host| + |digits| + 3
            && ParseAuthority(a) == Some((Some(user), Some(pass), host, Value(digits, 0)))
  {
    hide ParseAuthority, Value, ParseHostAndPort;
    HostWords(host, digits);
    assert '@' !in host + ":" + digits;
    AuthorityWords(user, pass, host + ":" + digits);
  }

  lemma TcpUrl(a: string, path: string, port: nat)
    requires a != "" && '/' !in a && |a| + |path| < 4080 && ParseAuthority(a).Some? && ParsePath(path) == Some(Some(path))
    requires path != "" && ParseAuthority(a).value.3 == port != 0
    ensures var (user, pass, host, _) := ParseAuthority(a).value;
            Parse("rtsp://" + a + "/" + path) == Success(Url(Tcp, user, pass, host, port, true, Some(path)))
  {
    hide ParseAuthority, ParsePath, Parse;
    Assembled(Tcp, a, Some(path));
  }

  /** Without credentials and port; slashes at the end do not belong to the path. */
  lemma BareUrl(host: string, path: string)
    requires Hostname(host) && Pathname(path) && |host| + |path| < 4000
    ensures Parse("rtsps://" + host + "/" + (path + "//")) == Success(Url(Tls, None, None, host, 322, false, Some(path)))
    ensures Parse("rtspu://" + host) == Success(Url(Udp, None, None, host, 554, false, None))
  {
    hide ParseAuthority, ParsePath, Parse, ParseHostAndPort;
    HostWords(host, "0");
    AuthorityWords("u", "", host);
    PathWords(path);
    Assembled(Tls, host, Some(path + "//"));
    Assembled(Udp, host, None);
    assert "rtspu://" + host + "" == "rtspu://" + host;
  }

  lemma PathWords(path: string)
    requires Pathname(path)
    ensures ParsePath(path) == Some(Some(path)) && ParsePath(path + "//") == Some(Some(path)) && ParsePath("//") == Some(None)
  {
    assert (path + "//")[..|path| + 1] == path + "/" && (path + "/")[..|path|] == path;
    assert StripSlashes(path) == path && StripSlashes(path + "/") == path && StripSlashes(path + "//") == path;
    assert "//"[..1] == "/" && "/"[..0] == "";
    assert StripSlashes("//") == "";
  }

  lemma Assembled(scheme: Scheme, authority: string, tail: Option<string>)
    requires authority != "" && '/' !in authority && ParseAuthority(authority).Some?
    requires tail.Some? ==> tail.value != "" && ParsePath(tail.value).Some?
    requires |authority| + (if tail.Some? then |tail.value| else 0) < 4080
    ensures var prefix := match scheme case Tcp => "rtsp://" case Udp => "rtspu://" case Tls => "rtsps://";
            var (user, pass, host, port) := ParseAuthority(authority).value;
            var path := if tail.None? then None else ParsePath(tail.value).value;
            Parse(prefix + authority + (if tail.Some? then "/" + tail.value else ""))
            == Success(Url(scheme, user, pass, host, if port == 0 then (if scheme == Tls then 322 else 554) else port, port != 0, path))
    ensures tail.Some? ==>
              var prefix := match scheme case Tcp => "rtsp://" case Udp => "rtspu://" case Tls => "rtsps://";
              prefix + authority + "/" + tail.value == prefix + authority + ("/" + tail.value)
  {
    hide ParseAuthority, ParsePath, FindScheme, Cut;
    var rest := authority + (if tail.Some? then "/" + tail.value else "");
    SchemeReadBack(scheme, rest);
    var url := SchemeText(scheme) + rest;
    assert url[|SchemeText(scheme)|..] == rest && rest[0] == authority[0];
    assert url == SchemeText(scheme) + authority + (if tail.Some? then "/" + tail.value else "");
    assert authority[0] in authority;
    if tail.Some? {
      assert rest == authority + ['/'] + tail.value;
      CutAt(authority, '/', tail.value);
    } else {
      assert rest == authority;
      CutNone(authority, '/');
    }
  }

  /** Texts that are refused: no host, an empty user name, a port that is too large, a bad character in the host or the path. */
  lemma RefusedUrls(prefix: string, host: string, digits: string, bad: char, path: string)
    requires prefix in {"rtsp://", "rtspu://", "rtsps://"} && Hostname(host) && AllDigits(digits) && digits != ""
    requires Value(digits, 0) > 65535 && !IsHostChar(bad) && bad !in "/@:[" && !IsPathChar(bad)
    requires Pathname(path)
    ensures Parse(prefix).Failure? && Parse(prefix + "/" + path).Failure? && Parse(prefix + "@" + host).Failure?
    ensures Parse(prefix + host + ":" + digits).Failure? && Parse(prefix + host + [bad]).Failure?
    ensures Parse(prefix + host + "/" + path + [bad]).Failure?
  {
    hide ParseAuthority, ParsePath, Value, Parse;
    Nothing(prefix);
    assert prefix + "" == prefix;
    RestRefused(prefix, "");
    assert prefix + "/" + path == prefix + ("/" + path);
    RestRefused(prefix, "/" + path);
    EmptyUser(host);
    RestRefused(prefix, "@" + host);
    assert prefix + "@" + host == prefix + ("@" + host);
    HostWords(host, digits);
    LargePort(host, digits);
    assert prefix + host + ":" + digits == prefix + (host + ":" + digits);
    RestRefused(prefix, host + ":" + digits);
    BadHost(host, bad);
    assert prefix + host + [bad] == prefix + (host + [bad]);
    RestRefused(prefix, host + [bad]);
    BadPath(host, path, bad);
    assert prefix + host + "/" + path + [bad] == prefix + (host + "/" + path + [bad]);
    RestRefused(prefix, host + "/" + path + [bad]);
  }

  lemma Nothing(prefix: string)
    requires prefix in {"rtsp://", "rtspu://", "rtsps://"}
    ensures exists s: Scheme :: prefix == SchemeText(s)
  {
    assert prefix == SchemeText(Tcp) || prefix == SchemeText(Udp) || prefix == SchemeText(Tls);
  }

  lemma RestRefused(prefix: string, rest: string)
    requires prefix in {"rtsp://", "rtspu://", "rtsps://"} && (rest == "" || rest[0] == '/' || ParseRest(rest).None?)
    ensures Parse(prefix + rest).Failure?
  {
    hide ParseRest, FindScheme;
    Nothing(prefix);
    var s: Scheme :| prefix == SchemeText(s);
    SchemeReadBack(s, rest);
    assert (prefix + rest)[|prefix|..] == rest;
  }

  lemma EmptyUser(host: string)
    requires Hostname(host)
    ensures ParseRest("@" + host).None?
  {
    hide ParseHostAndPort, Cut, CutLast;
    assert '/' !in "@" + host && '@' !in host;
    CutNone("@" + host, '/');
    assert "@" + host == "" + ['@'] + host;
    CutLastAt("", '@', host);
    CutNone("", ':');
  }

  lemma LargePort(host: string, digits: string)
    requires Hostname(host) && AllDigits(digits) && ParseHostAndPort(host + ":" + digits).None?
    ensures ParseRest(host + ":" + digits).None?
  {
    hide ParseHostAndPort, Cut, CutLast;
    CutNone(host + ":" + digits, '/');
    CutLastNone(host + ":" + digits, '@');
  }

  lemma BadHost(host: string, bad: char)
    requires Hostname(host) && !IsHostChar(bad) && bad !in "/@:["
    ensures ParseRest(host + [bad]).None?
  {
    hide Cut, CutLast, ParsePort;
    var h := host + [bad];
    assert "/@:["[0] == '/' && "/@:["[1] == '@' && "/@:["[2] == ':' && "/@:["[3] == '[';
    CutNone(h, '/');
    CutLastNone(h, '@');
    CutNone(h, ':');
    assert host[0] in host && h[0] == host[0] && bad in h;
  }

  lemma BadPath(host: string, path: string, bad: char)
    requires Hostname(host) && Pathname(path) && !IsPathChar(bad)
    ensures ParseRest(host + "/" + path + [bad]).None?
  {
    hide Cut, ParseAuthority;
    assert host + "/" + path + [bad] == host + ['/'] + (path + [bad]);
    CutAt(host, '/', path + [bad]);
    assert "-._~!$&'()*+,;=:@/"[17] == '/';
    assert StripSlashes(path + [bad]) == path + [bad] && bad in path + [bad];
  }

  /** How a URL is printed: credentials, the host in brackets when it has a colon, the port only when it was given. */
  lemma PrintedWords(u: Url)
    ensures Print(u) == (match u.scheme case Tcp => "rtsp://" case Udp => "rtspu://" case Tls => "rtsps://")
                        + ((match (u.user, u.pass)
                            case (None, None) => ""
                            case (None, Some(p)) => p
                            case (Some(n), None) => n + "@"
                            case (Some(n), Some(p)) => n + ":" + p + "@")
                        + ((if ':' in u.host then "[" + u.host + "]" else u.host)
                        + (if u.portExplicit && u.port != 0 then ":" + Dec(u.port) else "")))
                        + (if u.path.None? then "" else "/" + u.path.value)
  {
    hide Dec, SchemeText;
    SchemeWords(u.scheme);
    Joined(u.user.UnwrapOr(""), u.pass.UnwrapOr(""));
  }

  lemma SchemeWords(s: Scheme)
    ensures SchemeText(s) == match s case Tcp => "rtsp://" case Udp => "rtspu://" case Tls => "rtsps://"
  {
  }

  lemma Joined(n: string, p: string)
    ensures "" + "" + "" + "" == "" && "" + "" + p + "" == p && n + "" + "" + "@" == n + "@"
  {
  }

  /** What shows of an anonymised URL: only stars for the credentials, two characters at both ends of a longer path. */
  lemma AnonymisedShows(u: Url, i: nat)
    ensures var v := Anonymous(u);
            && (u.user.Some? && i < |u.user.value| ==> v.user.Some? && |v.user.value| == |u.user.value| && v.user.value[i] == '*')
            && (u.pass.Some? && i < |u.pass.value| ==> v.pass.Some? && |v.pass.value| == |u.pass.value| && v.pass.value[i] == '*')
            && (u.path.Some? && i < |u.path.value| ==>
                  && v.path.Some? && |v.path.value| == |u.path.value|
                  && v.path.value[i] == if |u.path.value| <= 4 || i < 2 || i >= |u.path.value| - 2 then u.path.value[i] else '*')
  {
  }
}
