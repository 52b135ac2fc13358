/** A written request header is read back, whatever body follows it. */
module RequestTheorems {
  import opened Wrappers
  import opened Text
  import opened Tokens
  import opened RequestHeader
  import T = Transport
  import TT = TransportTheorems
  import A = Authorization

  // --- what can be written, and how it comes back ---

  /** Fit to stand in a line. */
  ghost predicate Clean(s: string) { '\r' !in s && '\n' !in s && '\0' !in s }

  ghost predicate CleanIf(s: Option<string>) { s.Some? ==> Clean(s.value) }

  ghost predicate AuthWritable(a: A.Authorization) {
    match a.kind
    case Basic => a.credentials.Some? && Plain(a.credentials.value, " ") && !A.IsChallenge(a.credentials.value) && CleanIf(a.credentials)
    case Digest =>
      && A.Writable(a) && CleanIf(a.username) && CleanIf(a.uri) && CleanIf(a.response) && CleanIf(a.cnonce)
      && CleanIf(a.realm) && CleanIf(a.nonce) && CleanIf(a.token)
  }

  ghost predicate TransportWritable(t: T.Transport) { T.Writable(t) && CleanIf(t.destination) && CleanIf(t.source) }

  ghost predicate RangeWritable(r: Range) {
    r.Npt? ==> RangeText(r).Success? && TimeOk(r.start) && (r.stop.Some? ==> TimeOk(r.stop.value))
  }

  ghost predicate TimeOk(t: Time) { t.At? ==> t.seconds < 0x1_0000_0000 }

  ghost predicate ExtensionOk(e: Extension) { IsNamed(e.0, ExtensionName) && ':' !in e.0 && Clean(e.0) && Clean(e.1) }

  ghost predicate Writable(h: Header) {
    && h.verb != Unknown && Plain(h.uri, " ") && Clean(h.uri)
    && h.cseq < 0x8000_0000 && h.timeout < 0x8000_0000 && h.contentLength < 0x8000_0000
    && CleanIf(h.sid) && (h.sid.Some? ==> ';' !in h.sid.value)
    && (forall t :: t in h.transports ==> TransportWritable(t))
    && (h.auth.Some? ==> AuthWritable(h.auth.value))
    && CleanIf(h.contentType) && CleanIf(h.userAgent) && CleanIf(h.server) && CleanIf(h.accept)
    && RangeWritable(h.range) && forall e :: e in h.ext ==> ExtensionOk(e)
  }

  function AuthNormal(a: A.Authorization): A.Authorization {
    if a.kind.Basic? then A.Empty(A.Basic).(credentials := a.credentials) else A.Normal(a)
  }

  /** What the writer leaves out comes back as if it had not been given. */
  function Normal(h: Header): Header {
    h.(cseq := if h.cseq < 0 then 0 else h.cseq,
       sid := T.NonEmpty(h.sid), timeout := if T.NonEmpty(h.sid).None? then 0 else h.timeout,
       transports := TT.Normals(h.transports)[..TT.Min(|h.transports|, T.MAX_COUNT)],
       auth := if h.auth.None? then None else Some(AuthNormal(h.auth.value)),
       contentType := T.NonEmpty(h.contentType), userAgent := T.NonEmpty(h.userAgent), server := T.NonEmpty(h.server),
       accept := T.NonEmpty(h.accept), contentLength := if h.contentLength < 0 then 0 else h.contentLength)
  }

  // --- names ---

  /** The first four characters, without case. */
  function Code(s: string): (char, char, char, char)
    requires |s| >= 4
  {
    (ToUpper(s[0]), ToUpper(s[1]), ToUpper(s[2]), ToUpper(s[3]))
  }

  lemma CodeOfName(n: Name)
    requires n != NoName && n != ExtensionName
    ensures |NameText(n)| >= 4
    ensures Code(NameText(n)) == match n
                                 case CSeqName => ('C', 'S', 'E', 'Q')
                                 case DateName => ('D', 'A', 'T', 'E')
                                 case SessionName => ('S', 'E', 'S', 'S')
                                 case TransportName => ('T', 'R', 'A', 'N')
                                 case ScaleName => ('S', 'C', 'A', 'L')
                                 case AuthorizationName => ('A', 'U', 'T', 'H')
                                 case UserAgentName => ('U', 'S', 'E', 'R')
                                 case ServerName => ('S', 'E', 'R', 'V')
                                 case AcceptName => ('A', 'C', 'C', 'E')
                                 case RangeName => ('R', 'A', 'N', 'G')
                                 case _ => ('C', 'O', 'N', 'T')
  {
  }

  /** A field that starts like a name has its code; the two names that share a code differ later. */
  lemma NamedHasCode(field: string, n: Name)
    requires |field| >= 4 && n != NoName && n != ExtensionName && IsNamed(field, n)
    ensures Code(field) == Code(NameText(n))
  {
    hide NameText;
    CodeOfName(n);
  }

  lemma ContentNames()
    ensures !IsNamed(NameText(ContentLengthName), ContentTypeName) && !IsNamed(NameText(ContentTypeName), ContentLengthName)
  {
    assert "Content-Type"[8] == 'T' && "Content-Length"[8] == 'L';
  }

  predicate IsNameChar(c: char) { IsAlnum(c) || c == '-' }

  lemma NameChars(n: Name)
    ensures forall i :: 0 <= i < |NameText(n)| ==> IsNameChar(NameText(n)[i])
  {
  }

  lemma NameIsClean(n: Name)
    requires n != NoName
    ensures ':' !in NameText(n) && Clean(NameText(n)) && NameText(n) != ""
  {
    hide NameText;
    NameChars(n);
    SelfNamed(n);
    NotBlank(n);
  }

  lemma NotBlank(n: Name)
    requires n != NoName
    ensures NameText(n) != ""
  {
  }

  /** No written field name starts like one that is tried before it. */
  lemma NameOfText(n: Name)
    requires n != NoName && n != ExtensionName
    ensures NameOf(NameText(n)) == n && ':' !in NameText(n) && Clean(NameText(n)) && NameText(n) != ""
  {
    hide NameText, IsNamed;
    CodeOfName(n);
    NameIsClean(n);
    ContentNames();
    SelfNamed(n);
    forall m | m != NoName && m != ExtensionName && m != n ensures !IsNamed(NameText(n), m) {
      CodeOfName(m);
      if IsNamed(NameText(n), m) {
        NamedHasCode(NameText(n), m);
      }
    }
  }

  lemma SelfNamed(n: Name)
    ensures IsNamed(NameText(n), n)
  {
  }

  lemma NameOfExtension(field: string)
    requires IsNamed(field, ExtensionName)
    ensures NameOf(field) == ExtensionName
  {
    hide NameText, IsNamed;
    ExtensionStart(field);
    forall m | m != NoName && m != ExtensionName ensures !IsNamed(field, m) {
      CodeOfName(m);
      if IsNamed(field, m) {
        LongEnough(field, m);
        NamedHasCode(field, m);
      }
    }
  }

  lemma ExtensionStart(field: string)
    requires IsNamed(field, ExtensionName)
    ensures field != "" && ToUpper(field[0]) == 'X'
  {
    assert ToUpper("X-"[0]) == 'X';
  }

  lemma LongEnough(field: string, n: Name)
    requires IsNamed(field, n)
    ensures |field| >= |NameText(n)|
  {
  }

  lemma VerbOfText(v: Verb)
    requires v != Unknown
    ensures VerbOf(VerbText(v)) == v
  {
    assert "OPTIONS"[0] == 'O' && "DESCRIBE"[0] == 'D' && "ANNOUNCE"[0] == 'A' && "SETUP"[0] == 'S' && "PLAY"[0] == 'P';
    assert "PAUSE"[0] == 'P' && "TEARDOWN"[0] == 'T' && "GET_PARAMETER"[0] == 'G' && "SET_PARAMETER"[0] == 'S';
    assert "REDIRECT"[0] == 'R' && "RECORD"[0] == 'R' && |"SETUP"| == 5 && |"SET_PARAMETER"| == 13;
    assert |"PLAY"| == 4 && |"PAUSE"| == 5 && |"REDIRECT"| == 8 && |"RECORD"| == 6;
  }

  lemma VerbChars(v: Verb)
    ensures VerbText(v) != "" && forall i :: 0 <= i < |VerbText(v)| ==> 'A' <= VerbText(v)[i] <= '_'
  {
  }

  lemma VerbTextPlain(v: Verb)
    ensures Plain(VerbText(v), " ") && Clean(VerbText(v))
  {
    hide VerbText;
    VerbChars(v);
  }

  // --- times and ranges ---

  function Pow10(n: nat): nat { if n == 0 then 1 else 10 * Pow10(n - 1) }

  lemma {:induction false} DecShort(n: nat, k: nat)
    requires k >= 1 && n < Pow10(k)
    ensures |Dec(n)| <= k
  {
    if n >= 10 {
      DecShort(n / 10, k - 1);
    }
  }

  lemma NumberOfDec(n: nat)
    requires n < 0x1_0000_0000
    ensures Number(Dec(n)) == n
  {
    T.AtoiDecAlone(n);
  }

  lemma NumberOfTwoDigits(n: nat)
    requires n < 60
    ensures Number(TwoDigits(n)) == n
  {
    if n < 10 {
      var s := "0" + Dec(n);
      assert s[1..] == Dec(n) && s[0] == '0';
      DecReadBack(n, "");
      assert Dec(n) + "" == Dec(n);
      assert Digits(s, 0) == Digits(s[1..], 0);
      assert SkipSpaces(s) == s;
    } else {
      NumberOfDec(n);
    }
  }

  /** Digits and colons only. */
  ghost predicate Clocky(s: string) { forall c :: c in s ==> IsDigit(c) || c == ':' }

  lemma ClockParts(s: nat)
    requires s >= 60
    ensures var m := TwoDigits(s / 60 % 60) + ":" + TwoDigits(s % 60);
            && Cut(TimeText(At(s)), ':') == (Dec(s / 3600), Some(m))
            && Cut(m, ':') == (TwoDigits(s / 60 % 60), Some(TwoDigits(s % 60)))
            && Clocky(TimeText(At(s)))
  {
    hide Dec;
    var h, mm, ss := Dec(s / 3600), TwoDigits(s / 60 % 60), TwoDigits(s % 60);
    assert AllDigits(h) && AllDigits(mm) && AllDigits(ss);
    CutAt(h, ':', mm + ":" + ss);
    CutAt(mm, ':', ss);
  }

  lemma ClockSum(s: nat)
    requires s < 0x1_0000_0000
    ensures s % 60 + T.U32((s / 60 % 60) * 60 + s / 3600 * 3600) == s
  {
    assert s / 3600 == s / 60 / 60;
    var m := s / 60;
    assert m == m / 60 * 60 + m % 60 && s == m * 60 + s % 60;
  }

  lemma TimeRead(t: Time)
    requires TimeOk(t)
    ensures ReadLimit(TimeText(t)) == Some(t)
  {
    hide Cut, Dec, Number, TwoDigits;
    match t
    case Now => NowRead();
    case Infinite =>
    case At(s) =>
      if s < 60 {
        NumberOfDec(s);
        SecondsPlain(s);
      } else {
        ClockParts(s);
        NumberOfDec(s / 3600);
        NumberOfTwoDigits(s / 60 % 60);
        NumberOfTwoDigits(s % 60);
        ClockSum(s);
        NotEmpty(s);
      }
  }

  lemma NowRead()
    ensures Cut("now", ':') == ("now", None)
  {
    CutNone("now", ':');
  }

  lemma SecondsPlain(s: nat)
    ensures Cut(Dec(s), ':') == (Dec(s), None) && Dec(s) != "now" && Dec(s) != ""
  {
    assert AllDigits(Dec(s)) && ':' !in Dec(s);
    CutNone(Dec(s), ':');
    assert Dec(s) == "now" ==> 'n' in Dec(s) by {
      assert "now"[0] == 'n';
    }
  }

  lemma NotEmpty(s: nat)
    requires s >= 60
    ensures TimeText(At(s)) != ""
  {
  }

  lemma TimeTextPlain(t: Time)
    requires TimeOk(t)
    ensures forall c :: c in TimeText(t) ==> c != ';' && c != '=' && c != '-' && c != '\r' && c != '\n' && c != '\0'
    ensures |TimeText(t)| <= 40
  {
    if t.At? {
      TimeLength(t.seconds);
      if t.seconds >= 60 {
        ClockParts(t.seconds);
      }
    }
  }

  lemma TimeLength(s: nat)
    requires s < 0x1_0000_0000
    ensures |TimeText(At(s))| <= 40
  {
    hide Dec;
    assert Pow10(10) > 0x1_0000_0000 by {
      assert Pow10(5) == 100000;
    }
    DecShort(s, 10);
    DecShort(s / 3600, 10);
    DecShort(s / 60 % 60, 10);
    DecShort(s % 60, 10);
  }

  /** Every range the writer accepts is read back. */
  lemma RangeRead(r: Range)
    requires r.Npt? && RangeWritable(r)
    ensures ReadRange(RangeText(r).value) == Success(r) && Clean(RangeText(r).value)
  {
    hide TimeText, ReadLimit, Cut;
    var first := TimeText(r.start);
    TimeRead(r.start);
    TimeTextPlain(r.start);
    var last := if r.stop.Some? then "-" + TimeText(r.stop.value) else "";
    if r.stop.Some? {
      TimeRead(r.stop.value);
      TimeTextPlain(r.stop.value);
    }
    var s := RangeText(r).value;
    assert s == "npt" + ['='] + (first + last);
    CutNone(s, ';');
    CutAt("npt", '=', first + last);
    if r.stop.Some? {
      assert first + last == first + ['-'] + TimeText(r.stop.value);
      CutAt(first, '-', TimeText(r.stop.value));
    } else {
      assert first + last == first;
      CutNone(first, '-');
    }
    assert "npt"[0] == 'n' && "smpte"[0] == 's' && "clock"[0] == 'c';
  }

  // --- fields, one after the other ---

  function ProcessAll(h: Header, l: seq<Line>): (Header, int)
    decreases |l|
  {
    if l == [] then (h, 0)
    else
      var (g, stop) := Process(h, l[0].0, l[0].1);
      if stop.Some? then (g, stop.value) else ProcessAll(g, l[1..])
  }

  ghost predicate LineOk(l: Line) { l.0 != "" && ':' !in l.0 && Clean(l.0) && Clean(l.1) }

  ghost predicate LinesOk(l: seq<Line>) { forall x :: x in l ==> LineOk(x) }

  lemma LineRead(h: Header, l: Line)
    requires LineOk(l)
    ensures ReadLine(h, LineText(l)) == Process(h, l.0, l.1)
  {
    hide Process;
    assert LineText(l) == l.0 + [':'] + (" " + l.1);
    CutAt(l.0, ':', " " + l.1);
    assert (" " + l.1)[1..] == l.1;
  }

  lemma {:induction false} LinesRead(h: Header, l: seq<Line>)
    requires LinesOk(l)
    ensures ReadLines(h, LineTexts(l)) == ProcessAll(h, l)
    decreases |l|
  {
    hide Process, ReadLine, LineText;
    if l != [] {
      LineRead(h, l[0]);
      LinesRead(Process(h, l[0].0, l[0].1).0, l[1..]);
      assert LineTexts(l)[1..] == LineTexts(l[1..]);
    }
  }

  /** A line that does not stop the reader. */
  lemma OneLine(h: Header, l: Line, rest: seq<Line>, g: Header)
    requires Process(h, l.0, l.1) == (g, None)
    ensures ProcessAll(h, [l] + rest) == ProcessAll(g, rest)
  {
    hide Process;
    assert ([l] + rest)[1..] == rest;
  }

  lemma NoLine(h: Header, rest: seq<Line>)
    ensures ProcessAll(h, [] + rest) == ProcessAll(h, rest)
  {
    assert [] + rest == rest;
  }

  lemma IntOfDec(n: nat)
    requires n < 0x8000_0000
    ensures ToInt(T.Atoi(Dec(n))) == n
  {
    T.AtoiDecAlone(n);
  }

  lemma CSeqStep(h: Header, cseq: int, rest: seq<Line>)
    requires cseq < 0x8000_0000 && h.cseq == 0
    ensures ProcessAll(h, (if cseq >= 0 then [(NameText(CSeqName), Dec(cseq))] else []) + rest)
            == ProcessAll(h.(cseq := if cseq < 0 then 0 else cseq), rest)
  {
    hide NameText, NameOf, ToInt, T.Atoi, Dec, ProcessAll;
    NameOfText(CSeqName);
    if cseq >= 0 {
      IntOfDec(cseq);
      OneLine(h, (NameText(CSeqName), Dec(cseq)), rest, h.(cseq := cseq));
    } else {
      NoLine(h, rest);
    }
  }

  lemma LengthStep(h: Header, length: int, rest: seq<Line>)
    requires length < 0x8000_0000 && h.contentLength == 0
    ensures ProcessAll(h, (if length > 0 then [(NameText(ContentLengthName), Dec(length))] else []) + rest)
            == ProcessAll(h.(contentLength := if length < 0 then 0 else length), rest)
  {
    hide NameText, NameOf, ToInt, T.Atoi, Dec, ProcessAll;
    NameOfText(ContentLengthName);
    if length > 0 {
      IntOfDec(length);
      OneLine(h, (NameText(ContentLengthName), Dec(length)), rest, h.(contentLength := length));
    } else {
      NoLine(h, rest);
    }
  }

  lemma SessionValue(sid: string, timeout: nat)
    requires ';' !in sid && timeout < 0x8000_0000
    ensures ReadSession(sid + (if timeout > 0 then ";timeout=" + Dec(timeout) else "")) == (sid, timeout)
  {
    hide Dec, Number, Cut;
    if timeout > 0 {
      var d := Dec(timeout);
      TimeoutParameter(d);
      assert sid + (";timeout=" + d) == sid + [';'] + ("timeout=" + d);
      CutAt(sid, ';', "timeout=" + d);
      NumberOfDec(timeout);
    } else {
      assert sid + "" == sid;
      CutNone(sid, ';');
    }
  }

  lemma TimeoutParameter(d: string)
    ensures StartsWith("timeout=" + d, "timeout") && Cut("timeout=" + d, '=') == ("timeout", Some(d))
  {
    var rest := "timeout=" + d;
    assert rest[..7] == "timeout";
    assert rest == "timeout" + ['='] + d;
    CutAt("timeout", '=', d);
  }

  lemma SessionStep(h: Header, x: Header, rest: seq<Line>)
    requires h.sid.None? && h.timeout == 0 && (x.sid.Some? ==> ';' !in x.sid.value) && x.timeout < 0x8000_0000
    ensures ProcessAll(h, SessionLine(x) + rest)
            == ProcessAll(h.(sid := T.NonEmpty(x.sid), timeout := if T.NonEmpty(x.sid).None? then 0 else x.timeout), rest)
  {
    hide NameText, NameOf, ReadSession, Dec, ProcessAll;
    NameOfText(SessionName);
    if x.sid.UnwrapOr("") != "" {
      SessionValue(x.sid.value, x.timeout);
      OneLine(h, SessionLine(x)[0], rest, h.(sid := x.sid, timeout := x.timeout));
    } else {
      NoLine(h, rest);
    }
  }

  lemma TransportStep(h: Header, x: Header, rest: seq<Line>)
    requires h.transports == [] && forall t :: t in x.transports ==> T.Writable(t)
    ensures ProcessAll(h, TransportLine(x) + rest)
            == ProcessAll(h.(transports := TT.Normals(x.transports)[..TT.Min(|x.transports|, T.MAX_COUNT)]), rest)
  {
    hide NameText, NameOf, T.Read, T.Entries, ProcessAll, T.Normal;
    NameOfText(TransportName);
    if x.transports != [] {
      TT.ListRoundTrip(x.transports, T.MAX_COUNT);
      var l := TT.Normals(x.transports)[..TT.Min(|x.transports|, T.MAX_COUNT)];
      OneLine(h, TransportLine(x)[0], rest, h.(transports := l));
    } else {
      NoLine(h, rest);
    }
  }

  lemma AuthRead(a: A.Authorization)
    requires AuthWritable(a)
    ensures A.WriteValue(a).Success? && A.Read(A.WriteValue(a).value) == Success(AuthNormal(a))
  {
    if a.kind.Basic? {
      A.BasicRoundTrip(a);
    } else {
      A.DigestRoundTrip(a);
    }
  }

  lemma AuthStep(h: Header, x: Header, rest: seq<Line>)
    requires h.auth.None? && (x.auth.Some? ==> AuthWritable(x.auth.value))
    ensures ProcessAll(h, AuthorizationLine(x) + rest)
            == ProcessAll(h.(auth := if x.auth.None? then None else Some(AuthNormal(x.auth.value))), rest)
  {
    hide NameText, NameOf, A.Read, A.WriteValue, ProcessAll, AuthWritable, AuthNormal;
    NameOfText(AuthorizationName);
    if x.auth.Some? {
      AuthRead(x.auth.value);
      OneLine(h, AuthorizationLine(x)[0], rest, h.(auth := Some(AuthNormal(x.auth.value))));
    } else {
      NoLine(h, rest);
    }
  }

  /** Setting one of the plain text fields. */
  function SetText(h: Header, n: Name, val: Option<string>): Header {
    match n
    case ContentTypeName => h.(contentType := val)
    case UserAgentName => h.(userAgent := val)
    case ServerName => h.(server := val)
    case AcceptName => h.(accept := val)
    case _ => h
  }

  lemma TextStep(h: Header, n: Name, val: Option<string>, rest: seq<Line>)
    requires n == ContentTypeName || n == UserAgentName || n == ServerName || n == AcceptName
    requires SetText(h, n, None) == h
    ensures ProcessAll(h, Given(n, val) + rest) == ProcessAll(SetText(h, n, T.NonEmpty(val)), rest)
  {
    hide NameText, NameOf, ProcessAll;
    NameOfText(n);
    if val.UnwrapOr("") != "" {
      OneLine(h, (NameText(n), val.value), rest, SetText(h, n, val));
    } else {
      NoLine(h, rest);
    }
  }

  lemma RangeStep(h: Header, x: Header, rest: seq<Line>)
    requires h.range == NoRange && RangeWritable(x.range)
    ensures ProcessAll(h, RangeLine(x) + rest) == ProcessAll(h.(range := x.range), rest)
  {
    hide NameText, NameOf, ReadRange, RangeText, ProcessAll;
    NameOfText(RangeName);
    if x.range.Npt? {
      RangeRead(x.range);
      OneLine(h, RangeLine(x)[0], rest, h.(range := x.range));
    } else {
      NoLine(h, rest);
    }
  }

  lemma {:induction false} ExtensionsStep(h: Header, ext: seq<Extension>)
    requires forall e :: e in ext ==> ExtensionOk(e)
    ensures ProcessAll(h, ext) == (h.(ext := h.ext + ext), 0)
    decreases |ext|
  {
    hide NameOf, IsNamed;
    if ext == [] {
      assert h.ext + ext == h.ext;
    } else {
      assert ExtensionOk(ext[0]);
      NameOfExtension(ext[0].0);
      var g := h.(ext := h.ext + [ext[0]]);
      ExtensionsStep(g, ext[1..]);
      assert g.ext + ext[1..] == h.ext + ext;
      assert ProcessAll(h, ext) == ProcessAll(g, ext[1..]);
    }
  }

  /** The four plain text lines. */
  lemma TextLinesProcessed(h: Header, x: Header, rest: seq<Line>)
    requires h.contentType.None? && h.userAgent.None? && h.server.None? && h.accept.None?
    ensures ProcessAll(h, Given(ContentTypeName, x.contentType) + (Given(UserAgentName, x.userAgent)
                          + (Given(ServerName, x.server) + (Given(AcceptName, x.accept) + rest))))
            == ProcessAll(h.(contentType := T.NonEmpty(x.contentType), userAgent := T.NonEmpty(x.userAgent),
                             server := T.NonEmpty(x.server), accept := T.NonEmpty(x.accept)), rest)
  {
    hide NameText, Given, ProcessAll, T.NonEmpty;
    var l8 := Given(AcceptName, x.accept) + rest;
    var l7 := Given(ServerName, x.server) + l8;
    var l6 := Given(UserAgentName, x.userAgent) + l7;
    TextStep(h, ContentTypeName, x.contentType, l6);
    var h5 := h.(contentType := T.NonEmpty(x.contentType));
    TextStep(h5, UserAgentName, x.userAgent, l7);
    var h6 := h5.(userAgent := T.NonEmpty(x.userAgent));
    TextStep(h6, ServerName, x.server, l8);
    TextStep(h6.(server := T.NonEmpty(x.server)), AcceptName, x.accept, rest);
  }

  lemma LastLinesProcessed(h: Header, x: Header)
    requires RangeWritable(x.range) && x.contentLength < 0x8000_0000 && forall e :: e in x.ext ==> ExtensionOk(e)
    requires h == Empty(h.verb, h.uri).(cseq := h.cseq, sid := h.sid, timeout := h.timeout, transports := h.transports, auth := h.auth)
    ensures var n := Normal(x);
            ProcessAll(h, LastLines(x))
            == (h.(contentType := n.contentType, userAgent := n.userAgent, server := n.server, accept := n.accept,
                   range := n.range, contentLength := n.contentLength, ext := n.ext), 0)
  {
    hide NameText, RangeLine, Given, ProcessAll, RangeWritable, ExtensionOk, AuthNormal, TT.Normals, Dec, T.NonEmpty;
    var l10 := (if x.contentLength > 0 then [(NameText(ContentLengthName), Dec(x.contentLength))] else []) + x.ext;
    TextLinesProcessed(h, x, RangeLine(x) + l10);
    var h8 := h.(contentType := T.NonEmpty(x.contentType), userAgent := T.NonEmpty(x.userAgent),
                 server := T.NonEmpty(x.server), accept := T.NonEmpty(x.accept));
    RangeStep(h8, x, l10);
    var h9 := h8.(range := x.range);
    LengthStep(h9, x.contentLength, x.ext);
    ExtensionsStep(h9.(contentLength := if x.contentLength < 0 then 0 else x.contentLength), x.ext);
    assert [] + x.ext == x.ext;
  }

  /** All the lines of a header, read into an empty one. */
  lemma LinesProcessed(x: Header)
    requires Writable(x)
    ensures ProcessAll(Empty(x.verb, x.uri), Lines(x)) == (Normal(x), 0)
  {
    hide NameText, SessionLine, TransportLine, AuthorizationLine, LastLines, ProcessAll, AuthWritable, RangeWritable,
         ExtensionOk, AuthNormal, TT.Normals, Dec, CleanIf, TransportWritable, T.Writable, Plain;
    var n := Normal(x);
    var h0 := Empty(x.verb, x.uri);
    var l5 := LastLines(x);
    var l4 := AuthorizationLine(x) + l5;
    var l3 := TransportLine(x) + l4;
    var l2 := SessionLine(x) + l3;
    LinesSplit(x);
    CSeqStep(h0, x.cseq, l2);
    var h1 := h0.(cseq := n.cseq);
    SessionStep(h1, x, l3);
    var h2 := h1.(sid := n.sid, timeout := n.timeout);
    TransportsWritable(x);
    TransportStep(h2, x, l4);
    var h3 := h2.(transports := n.transports);
    AuthStep(h3, x, l5);
    LastLinesProcessed(h3.(auth := n.auth), x);
  }

  lemma LinesSplit(x: Header)
    ensures Lines(x) == (if x.cseq >= 0 then [(NameText(CSeqName), Dec(x.cseq))] else [])
                        + (SessionLine(x) + (TransportLine(x) + (AuthorizationLine(x) + LastLines(x))))
  {
  }

  lemma TransportsWritable(x: Header)
    requires Writable(x)
    ensures forall t :: t in x.transports ==> T.Writable(t)
  {
    forall t | t in x.transports ensures T.Writable(t) {
      assert TransportWritable(t);
    }
  }
}
