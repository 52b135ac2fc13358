/**
  The words of a request header, as RTSP spells them: which line sets which field, for lines of any peer, and which lines
  the writer writes.
 */
module RequestFields {
  import opened Wrappers
  import opened Text
  import opened Tokens
  import opened RequestHeader
  import opened RequestTheorems
  import opened RequestFrames
  import T = Transport
  import A = Authorization

  // --- names in any case ---

  predicate SameLetter(a: char, b: char) {
    || a == b
    || ('a' <= a <= 'z' && a as int == b as int + 32)
    || ('a' <= b <= 'z' && b as int == a as int + 32)
  }

  /** The field starts with this name, whatever the case of its letters. */
  predicate Begins(field: string, name: string) {
    |name| <= |field| && forall i :: 0 <= i < |name| ==> SameLetter(field[i], name[i])
  }

  lemma BeginsIsNamed(field: string, n: Name, name: string)
    requires NameText(n) == name && forall i :: 0 <= i < |name| ==> IsNameChar(name[i])
    ensures Begins(field, name) <==> IsNamed(field, n)
  {
    hide NameText;
    forall i | 0 <= i < |name| && i < |field| ensures SameLetter(field[i], name[i]) <==> ToUpper(field[i]) == ToUpper(name[i]) {
      SameUpper(field[i], name[i]);
    }
  }

  lemma SameUpper(a: char, b: char)
    requires IsNameChar(b)
    ensures SameLetter(a, b) <==> ToUpper(a) == ToUpper(b)
  {
  }

  /** The first name that a field starts with is the only one. */
  lemma NameOfField(field: string, n: Name)
    requires n != NoName && IsNamed(field, n)
    ensures NameOf(field) == n
  {
    hide NameText, IsNamed;
    if n == ExtensionName {
      NameOfExtension(field);
    } else {
      CodeOfName(n);
      LongEnough(field, n);
      NamedHasCode(field, n);
      forall m | m != NoName && m != ExtensionName && m != n ensures !IsNamed(field, m) {
        CodeOfName(m);
        if IsNamed(field, m) {
          LongEnough(field, m);
          NamedHasCode(field, m);
          ContentDiffers(field);
        }
      }
    }
  }

  lemma ContentDiffers(field: string)
    ensures !(IsNamed(field, ContentLengthName) && IsNamed(field, ContentTypeName))
  {
    assert "Content-Type"[8] == 'T' && "Content-Length"[8] == 'L';
    assert |field| > 8 && IsNamed(field, ContentLengthName) ==> ToUpper(field[8]) == 'L';
    assert |field| > 8 && IsNamed(field, ContentTypeName) ==> ToUpper(field[8]) == 'T';
  }

  lemma NameIs(field: string, n: Name, name: string)
    requires n != NoName && NameText(n) == name && (forall i :: 0 <= i < |name| ==> IsNameChar(name[i])) && Begins(field, name)
    ensures NameOf(field) == n
  {
    hide NameText;
    BeginsIsNamed(field, n, name);
    NameOfField(field, n);
  }

  // --- lines of any peer ---

  /** A line with one space after its colon, or none. */
  predicate IsLine(line: string, field: string, v: string) {
    && ':' !in field
    && (line == field + ": " + v || (line == field + ":" + v && (v == "" || v[0] != ' ')))
  }

  lemma LineCut(h: Header, line: string, field: string, v: string)
    requires IsLine(line, field, v)
    ensures ReadLine(h, line) == Process(h, field, v)
  {
    hide Process;
    if line == field + ": " + v {
      assert line == field + [':'] + (" " + v);
      CutAt(field, ':', " " + v);
      assert (" " + v)[1..] == v;
    } else {
      assert line == field + [':'] + v;
      CutAt(field, ':', v);
    }
  }

  /** `atoi` into an `int` of 32 bits. */
  function Int(v: string): int { (StrToL(v).0 + 0x8000_0000) % 0x1_0000_0000 - 0x8000_0000 }

  /** Numbers: the sequence number and the length of the body. */
  lemma NumberLines(h: Header, line: string, field: string, v: string)
    requires IsLine(line, field, v)
    ensures Begins(field, "CSeq") ==> ReadLine(h, line) == (h.(cseq := Int(v)), None)
    ensures Begins(field, "Content-Length") ==> ReadLine(h, line) == (h.(contentLength := Int(v)), None)
  {
    hide NameOf, StrToL;
    LineCut(h, line, field, v);
    if Begins(field, "CSeq") {
      NameIs(field, CSeqName, "CSeq");
    }
    if Begins(field, "Content-Length") {
      NameIs(field, ContentLengthName, "Content-Length");
    }
  }

  /** A number of digits that fits is itself. */
  lemma DigitsAreTheirValue(v: string)
    requires AllDigits(v) && v != "" && Value(v, 0) < 0x8000_0000
    ensures Int(v) == Value(v, 0)
  {
    assert v[0] in v;
    assert SkipSpaces(v) == v;
    DigitsSplit(v, "", 0);
    assert v + "" == v;
  }

  /** Texts are taken as they are. */
  lemma TextLines(h: Header, line: string, field: string, v: string)
    requires IsLine(line, field, v)
    ensures Begins(field, "Content-Type") ==> ReadLine(h, line) == (h.(contentType := Some(v)), None)
    ensures Begins(field, "User-Agent") ==> ReadLine(h, line) == (h.(userAgent := Some(v)), None)
    ensures Begins(field, "Server") ==> ReadLine(h, line) == (h.(server := Some(v)), None)
    ensures Begins(field, "Accept") ==> ReadLine(h, line) == (h.(accept := Some(v)), None)
    ensures Begins(field, "X-") ==> ReadLine(h, line) == (h.(ext := h.ext + [(field, v)]), None)
  {
    hide NameOf, Begins, NameText;
    LineCut(h, line, field, v);
    if Begins(field, "Content-Type") {
      NameContentType(field);
    }
    if Begins(field, "User-Agent") {
      NameUserAgent(field);
    }
    if Begins(field, "Server") {
      NameServer(field);
    }
    if Begins(field, "Accept") {
      NameAccept(field);
    }
    if Begins(field, "X-") {
      NameX(field);
    }
  }

  lemma NameContentType(field: string)
    requires Begins(field, "Content-Type")
    ensures NameOf(field) == ContentTypeName
  {
    hide NameOf, Begins;
    NameIs(field, ContentTypeName, "Content-Type");
  }

  lemma NameUserAgent(field: string)
    requires Begins(field, "User-Agent")
    ensures NameOf(field) == UserAgentName
  {
    hide NameOf, Begins;
    NameIs(field, UserAgentName, "User-Agent");
  }

  lemma NameServer(field: string)
    requires Begins(field, "Server")
    ensures NameOf(field) == ServerName
  {
    hide NameOf, Begins;
    NameIs(field, ServerName, "Server");
  }

  lemma NameAccept(field: string)
    requires Begins(field, "Accept")
    ensures NameOf(field) == AcceptName
  {
    hide NameOf, Begins;
    NameIs(field, AcceptName, "Accept");
  }

  lemma NameX(field: string)
    requires Begins(field, "X-")
    ensures NameOf(field) == ExtensionName
  {
    hide NameOf, Begins;
    NameIs(field, ExtensionName, "X-");
  }

  /** Structured values: the session and its timeout, transports, credentials and the range. */
  lemma StructuredLines(h: Header, line: string, field: string, v: string)
    requires IsLine(line, field, v)
    ensures Begins(field, "Session") ==> ReadLine(h, line) == (h.(sid := Some(ReadSession(v).0), timeout := ReadSession(v).1), None)
    ensures Begins(field, "Transport") ==>
              var (l, ret) := T.Read(v, 5); ReadLine(h, line) == (h.(transports := l), if ret < 0 || l == [] then Some(ret) else None)
    ensures Begins(field, "Authorization") ==>
              ReadLine(h, line) == match A.Read(v) case Failure(e) => (h, Some(e)) case Success(a) => (h.(auth := Some(a)), None)
    ensures Begins(field, "Range") ==>
              ReadLine(h, line) == match ReadRange(v) case Failure(e) => (h, Some(e)) case Success(r) => (h.(range := r), None)
  {
    hide NameOf, NameText, ReadSession, T.Read, A.Read, ReadRange, Begins;
    LineCut(h, line, field, v);
    if Begins(field, "Session") {
      NameSession(field);
    }
    if Begins(field, "Transport") {
      NameTransport(field);
    }
    if Begins(field, "Authorization") {
      NameAuthorization(field);
    }
    if Begins(field, "Range") {
      NameRange(field);
    }
  }

  lemma NameSession(field: string)
    requires Begins(field, "Session")
    ensures NameOf(field) == SessionName
  {
    hide NameOf, Begins;
    NameIs(field, SessionName, "Session");
  }

  lemma NameTransport(field: string)
    requires Begins(field, "Transport")
    ensures NameOf(field) == TransportName
  {
    hide NameOf, Begins;
    NameIs(field, TransportName, "Transport");
  }

  lemma NameAuthorization(field: string)
    requires Begins(field, "Authorization")
    ensures NameOf(field) == AuthorizationName
  {
    hide NameOf, Begins;
    NameIs(field, AuthorizationName, "Authorization");
  }

  lemma NameRange(field: string)
    requires Begins(field, "Range")
    ensures NameOf(field) == RangeName
  {
    hide NameOf, Begins;
    NameIs(field, RangeName, "Range");
  }

  /** A session line without a timeout, and one with it. */
  lemma SessionWords(sid: string, digits: string)
    requires ';' !in sid && AllDigits(digits) && digits != "" && Value(digits, 0) < 0x8000_0000
    ensures ReadSession(sid) == (sid, 0) && ReadSession(sid + ";timeout=" + digits) == (sid, Value(digits, 0))
  {
    hide Cut, StrToL;
    CutNone(sid, ';');
    assert sid + ";timeout=" + digits == sid + [';'] + ("timeout=" + digits);
    CutAt(sid, ';', "timeout=" + digits);
    TimeoutParameter(digits);
    DigitsAreTheirValue(digits);
    NumberIs(digits);
  }

  lemma NumberIs(digits: string)
    requires AllDigits(digits) && digits != "" && Value(digits, 0) < 0x8000_0000
    ensures Number(digits) == Value(digits, 0)
  {
    assert digits[0] in digits;
    assert SkipSpaces(digits) == digits;
    DigitsSplit(digits, "", 0);
    assert digits + "" == digits;
  }

  predicate NoneOfThese(field: string) {
    && !Begins(field, "CSeq") && !Begins(field, "Session") && !Begins(field, "Transport") && !Begins(field, "Content-Type")
    && !Begins(field, "Authorization") && !Begins(field, "User-Agent") && !Begins(field, "Server") && !Begins(field, "Accept")
    && !Begins(field, "Range") && !Begins(field, "Content-Length") && !Begins(field, "X-")
  }

  /** A line of another name, or without a colon, changes nothing. */
  lemma OtherLines(h: Header, line: string, field: string, v: string)
    requires IsLine(line, field, v)
    requires NoneOfThese(field)
    ensures ReadLine(h, line) == (h, None)
  {
    hide NameOf, Begins, NameText;
    LineCut(h, line, field, v);
    Unnamed(field);
  }

  lemma Unnamed(field: string)
    requires NoneOfThese(field)
    ensures NameOf(field) in {NoName, DateName, ScaleName}
  {
    hide Begins, IsNamed;
    BeginsIsNamed(field, CSeqName, "CSeq");
    BeginsIsNamed(field, SessionName, "Session");
    BeginsIsNamed(field, TransportName, "Transport");
    BeginsIsNamed(field, ContentTypeName, "Content-Type");
    BeginsIsNamed(field, AuthorizationName, "Authorization");
    BeginsIsNamed(field, UserAgentName, "User-Agent");
    BeginsIsNamed(field, ServerName, "Server");
    BeginsIsNamed(field, AcceptName, "Accept");
    BeginsIsNamed(field, RangeName, "Range");
    BeginsIsNamed(field, ContentLengthName, "Content-Length");
    BeginsIsNamed(field, ExtensionName, "X-");
  }

  lemma NoColon(h: Header, line: string)
    requires ':' !in line
    ensures ReadLine(h, line) == (h, None)
  {
    CutNone(line, ':');
  }

  // --- the request line ---

  /** The methods and their words. */
  lemma MethodWords(s: string)
    ensures VerbOf(s) == Options <==> s == "OPTIONS"
    ensures VerbOf(s) == Describe <==> s == "DESCRIBE"
    ensures VerbOf(s) == Announce <==> s == "ANNOUNCE"
    ensures VerbOf(s) == Setup <==> s == "SETUP"
    ensures VerbOf(s) == Play <==> s == "PLAY"
    ensures VerbOf(s) == Pause <==> s == "PAUSE"
    ensures VerbOf(s) == Teardown <==> s == "TEARDOWN"
    ensures VerbOf(s) == GetParameter <==> s == "GET_PARAMETER"
    ensures VerbOf(s) == SetParameter <==> s == "SET_PARAMETER"
    ensures VerbOf(s) == Redirect <==> s == "REDIRECT"
    ensures VerbOf(s) == Record <==> s == "RECORD"
  {
    assert "OPTIONS"[0] == 'O' && "DESCRIBE"[0] == 'D' && "ANNOUNCE"[0] == 'A' && "SETUP"[0] == 'S' && "PLAY"[0] == 'P';
    assert "PAUSE"[0] == 'P' && "TEARDOWN"[0] == 'T' && "GET_PARAMETER"[0] == 'G' && "SET_PARAMETER"[0] == 'S';
    assert "REDIRECT"[0] == 'R' && "RECORD"[0] == 'R' && |"SETUP"| == 5 && |"SET_PARAMETER"| == 13;
    assert |"PLAY"| == 4 && |"PAUSE"| == 5 && |"REDIRECT"| == 8 && |"RECORD"| == 6;
  }

  /** A request line is accepted exactly with a known method and the version "RTSP/1.0". */
  lemma RequestLineWords(verb: string, uri: string, version: string)
    requires Plain(verb, " ") && Plain(uri, " ") && Plain(version, " \r\n") && Clean(uri)
    ensures ReadRequestLine(verb + " " + (uri + " " + version))
            == if VerbOf(verb) != Unknown && version == "RTSP/1.0" then Success(Empty(VerbOf(verb), uri)) else Failure(-71)
  {
    hide Tokens.Next, VerbOf;
    NextAt(verb, " ", uri + " " + version, " ");
    NextAt(uri, " ", version, " ");
    assert " "[1..] + (uri + " " + version) == uri + " " + version && " "[1..] + version == version;
    NextEnd(version, CRLF);
  }

  // --- whole headers of any peer ---

  /** The header that is read: the request line, then the lines one after the other. */
  lemma PeerHeaderRead(verb: string, uri: string, lines: seq<string>, body: string)
    requires Plain(verb, " ") && Clean(verb) && verb[0] != '$' && Plain(uri, " ") && Clean(uri) && VerbOf(verb) != Unknown
    requires forall l :: l in lines ==> TextLine(l)
    ensures var s := Closed([verb + " " + (uri + " RTSP/1.0")] + lines);
            var (h, ret) := ReadLines(Empty(VerbOf(verb), uri), lines);
            Read(s + body) == if ret < 0 then Failure(ret) else Success((h, |s|))
  {
    hide Closed, ReadLines, VerbOf, ReadRequestLine, Tokens.Next, All, Terminator.FindDoubleNewline;
    VersionPlain();
    var first := verb + " " + (uri + " RTSP/1.0");
    assert first == verb + " " + (uri + " " + "RTSP/1.0");
    RequestLineWords(verb, uri, "RTSP/1.0");
    assert first[0] == verb[0];
    FirstClean(verb, uri);
    ClosedFound([first] + lines, body);
    assert ([first] + lines)[1..] == lines;
  }

  lemma FirstClean(verb: string, uri: string)
    requires Clean(verb) && Clean(uri)
    ensures TextLine(verb + " " + (uri + " RTSP/1.0"))
  {
  }

  // --- what the writer writes ---

  function TextIf(name: string, v: Option<string>): seq<string> { if v.UnwrapOr("") == "" then [] else [name + ": " + v.value] }

  function RangeWords(r: Range): seq<string> { if r.NoRange? || RangeText(r).Failure? then [] else ["Range: " + RangeText(r).value] }

  function SessionWord(h: Header): seq<string> {
    if h.sid.UnwrapOr("") == "" then []
    else ["Session: " + h.sid.value + (if h.timeout > 0 then ";timeout=" + Dec(h.timeout) else "")]
  }

  function AuthorizationWords(h: Header): seq<string> {
    if h.auth.None? || A.WriteValue(h.auth.value).Failure? then [] else ["Authorization: " + A.WriteValue(h.auth.value).value]
  }

  /** The lines of a written header, each there exactly when its field is given. */
  function WrittenLines(h: Header): seq<string> {
    (if h.cseq >= 0 then ["CSeq: " + Dec(h.cseq)] else [])
    + (SessionWord(h)
    + ((if h.transports == [] then [] else ["Transport: " + T.Entries(h.transports)])
    + (AuthorizationWords(h)
    + (TextIf("Content-Type", h.contentType)
    + (TextIf("User-Agent", h.userAgent)
    + (TextIf("Server", h.server)
    + (TextIf("Accept", h.accept)
    + (RangeWords(h.range)
    + ((if h.contentLength > 0 then ["Content-Length: " + Dec(h.contentLength)] else [])
    + LineTexts(h.ext))))))))))
  }

  function Method(v: Verb): string {
    match v
    case Unknown => ""
    case Options => "OPTIONS"
    case Describe => "DESCRIBE"
    case Announce => "ANNOUNCE"
    case Setup => "SETUP"
    case Play => "PLAY"
    case Pause => "PAUSE"
    case Teardown => "TEARDOWN"
    case GetParameter => "GET_PARAMETER"
    case SetParameter => "SET_PARAMETER"
    case Redirect => "REDIRECT"
    case Record => "RECORD"
  }

  lemma TextsOf(a: seq<Line>, b: seq<Line>)
    ensures LineTexts(a + b) == LineTexts(a) + LineTexts(b)
  {
  }

  lemma OneText(name: string, v: string)
    ensures LineTexts([(name, v)]) == [name + ": " + v]
  {
  }

  lemma NoTexts()
    ensures LineTexts([]) == []
  {
  }

  lemma GivenText(n: Name, name: string, v: Option<string>)
    requires NameText(n) == name
    ensures LineTexts(Given(n, v)) == TextIf(name, v)
  {
    hide NameText;
    NoTexts();
    if v.UnwrapOr("") != "" {
      OneText(name, v.value);
    }
  }

  lemma NamedText(n: Name, name: string, v: string)
    requires NameText(n) == name
    ensures LineTexts([(NameText(n), v)]) == [name + ": " + v]
  {
    hide NameText;
    OneText(name, v);
  }

  lemma FirstTexts(h: Header)
    ensures LineTexts(if h.cseq >= 0 then [(NameText(CSeqName), Dec(h.cseq))] else []) == if h.cseq >= 0 then ["CSeq: " + Dec(h.cseq)] else []
    ensures LineTexts(SessionLine(h)) == SessionWord(h)
  {
    hide Dec, LineTexts;
    NoTexts();
    if h.cseq >= 0 {
      NamedText(CSeqName, "CSeq", Dec(h.cseq));
      assert "CSeq" + ": " == "CSeq: ";
    }
    if h.sid.UnwrapOr("") != "" {
      var timeout := if h.timeout > 0 then ";timeout=" + Dec(h.timeout) else "";
      NamedText(SessionName, "Session", h.sid.value + timeout);
      assert "Session" + ": " == "Session: ";
      assert "Session: " + h.sid.value + timeout == "Session: " + (h.sid.value + timeout);
    }
  }

  lemma MiddleTexts(h: Header)
    ensures LineTexts(TransportLine(h)) == if h.transports == [] then [] else ["Transport: " + T.Entries(h.transports)]
    ensures LineTexts(AuthorizationLine(h)) == AuthorizationWords(h)
  {
    hide T.Entries, A.WriteValue, LineTexts;
    NoTexts();
    if h.transports != [] {
      NamedText(TransportName, "Transport", T.Entries(h.transports));
      assert "Transport" + ": " == "Transport: ";
    }
    if h.auth.Some? && A.WriteValue(h.auth.value).Success? {
      NamedText(AuthorizationName, "Authorization", A.WriteValue(h.auth.value).value);
      assert "Authorization" + ": " == "Authorization: ";
    }
  }

  lemma LastTexts(h: Header)
    ensures LineTexts(RangeLine(h)) == RangeWords(h.range)
    ensures LineTexts(if h.contentLength > 0 then [(NameText(ContentLengthName), Dec(h.contentLength))] else [])
            == if h.contentLength > 0 then ["Content-Length: " + Dec(h.contentLength)] else []
  {
    hide Dec, RangeText, LineTexts;
    NoTexts();
    if !h.range.NoRange? && RangeText(h.range).Success? {
      NamedText(RangeName, "Range", RangeText(h.range).value);
      assert "Range" + ": " == "Range: ";
    }
    if h.contentLength > 0 {
      NamedText(ContentLengthName, "Content-Length", Dec(h.contentLength));
      assert "Content-Length" + ": " == "Content-Length: ";
    }
  }

  lemma LinesAreWritten(h: Header)
    ensures LineTexts(Lines(h)) == WrittenLines(h)
  {
    hide NameText, Dec, SessionLine, TransportLine, AuthorizationLine, RangeLine, Given, LineTexts, SessionWord, AuthorizationWords,
         RangeWords, TextIf, T.Entries;
    FirstTexts(h);
    MiddleTexts(h);
    LastTexts(h);
    NamesGiven(h);
    var l10 := (if h.contentLength > 0 then [(NameText(ContentLengthName), Dec(h.contentLength))] else []) + h.ext;
    TextsOf(if h.contentLength > 0 then [(NameText(ContentLengthName), Dec(h.contentLength))] else [], h.ext);
    TextsOf(RangeLine(h), l10);
    var l9 := RangeLine(h) + l10;
    TextsOf(Given(AcceptName, h.accept), l9);
    var l8 := Given(AcceptName, h.accept) + l9;
    TextsOf(Given(ServerName, h.server), l8);
    var l7 := Given(ServerName, h.server) + l8;
    TextsOf(Given(UserAgentName, h.userAgent), l7);
    var l6 := Given(UserAgentName, h.userAgent) + l7;
    TextsOf(Given(ContentTypeName, h.contentType), l6);
    var l5 := Given(ContentTypeName, h.contentType) + l6;
    TextsOf(AuthorizationLine(h), l5);
    var l4 := AuthorizationLine(h) + l5;
    TextsOf(TransportLine(h), l4);
    var l3 := TransportLine(h) + l4;
    TextsOf(SessionLine(h), l3);
    var l2 := SessionLine(h) + l3;
    TextsOf(if h.cseq >= 0 then [(NameText(CSeqName), Dec(h.cseq))] else [], l2);
  }

  lemma NamesGiven(h: Header)
    ensures LineTexts(Given(ContentTypeName, h.contentType)) == TextIf("Content-Type", h.contentType)
    ensures LineTexts(Given(UserAgentName, h.userAgent)) == TextIf("User-Agent", h.userAgent)
    ensures LineTexts(Given(ServerName, h.server)) == TextIf("Server", h.server)
    ensures LineTexts(Given(AcceptName, h.accept)) == TextIf("Accept", h.accept)
  {
    hide Given, TextIf, LineTexts;
    GivenText(ContentTypeName, "Content-Type", h.contentType);
    GivenText(UserAgentName, "User-Agent", h.userAgent);
    GivenText(ServerName, "Server", h.server);
    GivenText(AcceptName, "Accept", h.accept);
  }

  /**
    What is written: the method, the URL and the version, then the lines of the fields that are given, each ended by CR LF,
    then an empty line.
   */
  lemma HeaderWords(h: Header)
    requires Write(h).Success? && !LeavesLineOpen(h.auth)
    ensures h.verb != Unknown && h.uri != ""
    ensures Write(h).value == Closed([Method(h.verb) + " " + (h.uri + " RTSP/1.0")] + WrittenLines(h))
  {
    hide Lines, WrittenLines, Closed, RangeText, A.WriteValue, LineTexts;
    LinesAreWritten(h);
    assert " RTSP/1.0" == " " + VERSION;
    assert h.uri + " RTSP/1.0" == h.uri + " " + VERSION;
  }

  /** The text of lines: CR LF after each, and an empty line at the end. */
  lemma ClosedWords(lines: seq<string>, line: string)
    ensures Closed([]) == "\r\n" && Closed([line] + lines) == line + "\r\n" + Closed(lines)
  {
    assert ([line] + lines)[1..] == lines;
  }

  // --- times and ranges ---

  /** The words of a time: now, nothing, seconds, or hours, minutes and seconds. */
  lemma TimeWords(hours: string, minutes: string, seconds: string)
    requires AllDigits(hours) && AllDigits(minutes) && AllDigits(seconds) && hours != "" && minutes != "" && seconds != ""
    requires Value(hours, 0) < 0x8000_0000 && Value(minutes, 0) < 0x8000_0000 && Value(seconds, 0) < 0x8000_0000
    ensures ReadLimit("") == Some(Infinite) && ReadLimit("now") == Some(Now)
    ensures ReadLimit(seconds) == Some(At(Value(seconds, 0)))
    ensures ReadLimit(hours + ":" + minutes + ":" + seconds)
            == Some(At(Value(seconds, 0) + (Value(minutes, 0) * 60 + Value(hours, 0) * 3600) % 0x1_0000_0000))
    ensures ReadLimit(hours + ":" + minutes).None?
  {
    hide ReadLimit;
    OnePart(seconds);
    AllParts(hours, minutes, seconds);
  }

  lemma OnePart(seconds: string)
    requires AllDigits(seconds) && seconds != "" && Value(seconds, 0) < 0x8000_0000
    ensures ReadLimit("") == Some(Infinite) && ReadLimit("now") == Some(Now)
    ensures ReadLimit(seconds) == Some(At(Value(seconds, 0)))
  {
    hide Cut, Number, Value;
    CutNone("now", ':');
    NumberIs(seconds);
    CutNone(seconds, ':');
    assert seconds[0] in seconds && "now"[0] == 'n';
  }

  lemma AllParts(hours: string, minutes: string, seconds: string)
    requires AllDigits(hours) && AllDigits(minutes) && AllDigits(seconds) && hours != "" && minutes != "" && seconds != ""
    requires Value(hours, 0) < 0x8000_0000 && Value(minutes, 0) < 0x8000_0000 && Value(seconds, 0) < 0x8000_0000
    ensures ReadLimit(hours + ":" + minutes + ":" + seconds)
            == Some(At(Value(seconds, 0) + (Value(minutes, 0) * 60 + Value(hours, 0) * 3600) % 0x1_0000_0000))
    ensures ReadLimit(hours + ":" + minutes).None?
  {
    hide Cut, Number, Value;
    NumberIs(hours);
    NumberIs(minutes);
    NumberIs(seconds);
    CutNone(minutes, ':');
    assert hours + ":" + minutes == hours + [':'] + minutes;
    CutAt(hours, ':', minutes);
    var rest := minutes + [':'] + seconds;
    assert hours + ":" + minutes + ":" + seconds == hours + [':'] + rest;
    CutAt(hours, ':', rest);
    CutAt(minutes, ':', seconds);
  }

  /** What is written for a time. */
  lemma TimeIsWritten(s: nat)
    ensures TimeText(Now) == "now" && TimeText(Infinite) == "" && (s < 60 ==> TimeText(At(s)) == Dec(s))
    ensures s >= 60 ==> TimeText(At(s)) == Dec(s / 3600) + ":" + ((if s / 60 % 60 < 10 then "0" else "") + Dec(s / 60 % 60) + ":"
                                           + ((if s % 60 < 10 then "0" else "") + Dec(s % 60)))
  {
    hide Dec;
    if s >= 60 {
      assert "" + Dec(s / 60 % 60) == Dec(s / 60 % 60) && "" + Dec(s % 60) == Dec(s % 60);
    }
  }

  /** What is written for a range: an open one without a dash, refused when it stops at now or has two open ends. */
  lemma RangeIsWritten(start: Time, stop: Time)
    ensures RangeText(Npt(start, None)) == Success("npt=" + TimeText(start))
    ensures RangeText(Npt(start, Some(stop)))
            == if stop == Now || (start == Infinite && stop == Infinite) then Failure(-22)
               else Success("npt=" + (TimeText(start) + "-" + TimeText(stop)))
  {
    hide TimeText;
  }

  /** Other formats are refused, as is a value without one or one that is too long. */
  lemma OtherRanges(unit: string, times: string)
    requires ';' !in unit && '=' !in unit && ';' !in times && unit != "npt"
    ensures ReadRange(unit + "=" + times)
            == Failure(if |unit| + |times| + 1 >= 4096 then -36 else if unit == "smpte" || unit == "clock" then -38 else -22)
    ensures |unit| < 4096 ==> ReadRange(unit) == Failure(-22)
  {
    hide ReadLimit, Cut;
    var s := unit + "=" + times;
    assert s == unit + ['='] + times;
    CutNone(s, ';');
    CutAt(unit, '=', times);
    CutNone(unit, ';');
    CutNone(unit, '=');
  }
}
