/** The header of an RTSP request: writer and reader (src/rtsp.c:362-500, 722-925, 930-992, 2335-2704). */
module RequestHeader {
  import opened Wrappers
  import opened Text
  import opened Tokens
  import opened Terminator
  import Transport
  import Authorization

  const EINVAL := -22
  const ENAMETOOLONG := -36
  const ENOSYS := -38
  const EPROTO := -71
  const PATH_MAX := 4096
  const CRLF := "\r\n"
  const VERSION := "RTSP/1.0"

  datatype Verb = Unknown | Options | Describe | Announce | Setup | Play | Pause | Teardown | GetParameter | SetParameter
                | Redirect | Record

  /** A normal play time in whole seconds. */
  datatype Time = Now | Infinite | At(seconds: nat)

  datatype Range = NoRange | Npt(start: Time, stop: Option<Time>)

  type Extension = (string, string)

  /** `struct rtsp_request_header`, without date and scale. */
  datatype Header = Header(
    verb: Verb, uri: string, cseq: int, sid: Option<string>, timeout: nat, transports: seq<Transport.Transport>,
    auth: Option<Authorization.Authorization>, contentType: Option<string>, userAgent: Option<string>, server: Option<string>,
    accept: Option<string>, range: Range, contentLength: int, ext: seq<Extension>)

  function Empty(verb: Verb, uri: string): Header {
    Header(verb, uri, 0, None, 0, [], None, None, None, None, None, NoRange, 0, [])
  }

  // --- methods and field names ---

  function VerbText(v: Verb): string {
    match v
    case Unknown => "UNKNOWN"
    case Options => "OPTIONS"
    case Describe => "DESCRIBE"
    case Announce => "ANNOUNCE"
    case Setup => "SETUP"
    case Play => "PLAY"
    case Pause => "PAUSE"
    case Teardown => "TEARDOWN"
    case GetParameter => "GET_PARAMETER"
    case SetParameter => "SET_PARAMETER"
    case Redirect => "REDIRECT"
    case Record => "RECORD"
  }

  function VerbOf(s: string): Verb {
    if s == "OPTIONS" then Options
    else if s == "DESCRIBE" then Describe
    else if s == "ANNOUNCE" then Announce
    else if s == "SETUP" then Setup
    else if s == "PLAY" then Play
    else if s == "PAUSE" then Pause
    else if s == "TEARDOWN" then Teardown
    else if s == "GET_PARAMETER" then GetParameter
    else if s == "SET_PARAMETER" then SetParameter
    else if s == "REDIRECT" then Redirect
    else if s == "RECORD" then Record
    else Unknown
  }

  datatype Name = NoName | CSeqName | DateName | SessionName | TransportName | ContentTypeName | ScaleName | AuthorizationName
                | UserAgentName | ServerName | AcceptName | RangeName | ContentLengthName | ExtensionName

  function NameText(n: Name): string {
    match n
    case NoName => ""
    case CSeqName => "CSeq"
    case DateName => "Date"
    case SessionName => "Session"
    case TransportName => "Transport"
    case ContentTypeName => "Content-Type"
    case ScaleName => "Scale"
    case AuthorizationName => "Authorization"
    case UserAgentName => "User-Agent"
    case ServerName => "Server"
    case AcceptName => "Accept"
    case RangeName => "Range"
    case ContentLengthName => "Content-Length"
    case ExtensionName => "X-"
  }

  predicate IsNamed(field: string, n: Name) { Transport.StartsWithNoCase(field, NameText(n)) }

  /** The reader only looks at how a field name starts, in this order. */
  function NameOf(field: string): Name {
    if IsNamed(field, CSeqName) then CSeqName
    else if IsNamed(field, DateName) then DateName
    else if IsNamed(field, SessionName) then SessionName
    else if IsNamed(field, TransportName) then TransportName
    else if IsNamed(field, ContentTypeName) then ContentTypeName
    else if IsNamed(field, ScaleName) then ScaleName
    else if IsNamed(field, AuthorizationName) then AuthorizationName
    else if IsNamed(field, UserAgentName) then UserAgentName
    else if IsNamed(field, ServerName) then ServerName
    else if IsNamed(field, AcceptName) then AcceptName
    else if IsNamed(field, RangeName) then RangeName
    else if IsNamed(field, ContentLengthName) then ContentLengthName
    else if IsNamed(field, ExtensionName) then ExtensionName
    else NoName
  }

  // --- the Range header ---

  function TwoDigits(n: nat): string { if n < 10 then "0" + Dec(n) else Dec(n) }

  /** `rtsp_time_write` for whole seconds */
  function TimeText(t: Time): string {
    match t
    case Now => "now"
    case Infinite => ""
    case At(s) =>
      if s < 60 then Dec(s) else Dec(s / 3600) + ":" + (TwoDigits(s / 60 % 60) + ":" + TwoDigits(s % 60))
  }

  /** `rtsp_range_header_write`: the value, or the error for two infinities or a stop at "now". */
  function RangeText(r: Range): Result<string, int> {
    match r
    case NoRange => Failure(EINVAL)
    case Npt(start, stop) =>
      if stop.None? then Success("npt=" + TimeText(start))
      else if (start == Infinite && stop.value == Infinite) || stop.value == Now then Failure(EINVAL)
      else Success("npt=" + (TimeText(start) + "-" + TimeText(stop.value)))
  }

  function Number(s: string): nat { Transport.U32(Transport.Atoi(s)) }

  /** `rtsp_time_read`, reading whole seconds */
  function ReadTime(s: string): Option<Time> {
    var (hours, rest) := Cut(s, ':');
    if rest.None? then Some(if s == "now" then Now else At(Number(s)))
    else
      var (minutes, seconds) := Cut(rest.value, ':');
      if seconds.None? then None
      else Some(At(Number(seconds.value) + Transport.U32(Number(minutes) * 60 + Number(hours) * 3600)))
  }

  function ReadLimit(s: string): Option<Time> { if s == "" then Some(Infinite) else ReadTime(s) }

  /** `rtsp_range_header_read` */
  function ReadRange(s: string): Result<Range, int> {
    var range := Cut(s, ';').0;
    var (unit, times) := Cut(range, '=');
    if |s| >= PATH_MAX then Failure(ENAMETOOLONG)
    else if times.None? then Failure(EINVAL)
    else
      var (first, last) := Cut(times.value, '-');
      if unit == "smpte" || unit == "clock" then Failure(ENOSYS)
      else if unit != "npt" then Failure(EINVAL)
      else
        var start := ReadLimit(first);
        var stop := if last.None? then Some(Now) else ReadLimit(last.value);
        if start.None? || stop.None? then Failure(EINVAL)
        else Success(Npt(start.value, if last.None? then None else stop))
  }

  // --- the writer ---

  /** A line: the field name and its value. */
  type Line = (string, string)

  function Given(n: Name, val: Option<string>): seq<Line> { if val.UnwrapOr("") == "" then [] else [(NameText(n), val.value)] }

  function SessionLine(h: Header): seq<Line> {
    if h.sid.UnwrapOr("") == "" then []
    else [(NameText(SessionName), h.sid.value + (if h.timeout > 0 then ";timeout=" + Dec(h.timeout) else ""))]
  }

  function TransportLine(h: Header): seq<Line> {
    if h.transports == [] then [] else [(NameText(TransportName), Transport.Entries(h.transports))]
  }

  function AuthorizationLine(h: Header): seq<Line> {
    if h.auth.None? || Authorization.WriteValue(h.auth.value).Failure? then []
    else [(NameText(AuthorizationName), Authorization.WriteValue(h.auth.value).value)]
  }

  function RangeLine(h: Header): seq<Line> {
    if h.range.NoRange? || RangeText(h.range).Failure? then [] else [(NameText(RangeName), RangeText(h.range).value)]
  }

  /** The lines after the request line, in the order they are written. */
  function Lines(h: Header): seq<Line> {
    (if h.cseq >= 0 then [(NameText(CSeqName), Dec(h.cseq))] else [])
    + (SessionLine(h)
    + (TransportLine(h)
    + (AuthorizationLine(h)
    + (Given(ContentTypeName, h.contentType)
    + (Given(UserAgentName, h.userAgent)
    + (Given(ServerName, h.server)
    + (Given(AcceptName, h.accept)
    + (RangeLine(h)
    + ((if h.contentLength > 0 then [(NameText(ContentLengthName), Dec(h.contentLength))] else [])
    + h.ext)))))))))
  }

  /** The lines before the authorization. */
  function FirstLines(h: Header): seq<Line> {
    (if h.cseq >= 0 then [(NameText(CSeqName), Dec(h.cseq))] else []) + (SessionLine(h) + TransportLine(h))
  }

  /** The lines from the content type on. */
  function LastLines(h: Header): seq<Line> {
    Given(ContentTypeName, h.contentType)
    + (Given(UserAgentName, h.userAgent)
    + (Given(ServerName, h.server)
    + (Given(AcceptName, h.accept)
    + (RangeLine(h)
    + ((if h.contentLength > 0 then [(NameText(ContentLengthName), Dec(h.contentLength))] else [])
    + h.ext)))))
  }

  function LineText(l: Line): string { l.0 + ": " + l.1 }

  function LineTexts(l: seq<Line>): seq<string> { seq(|l|, i requires 0 <= i < |l| => LineText(l[i])) }

  function RequestLine(h: Header): string { VerbText(h.verb) + " " + (h.uri + " " + VERSION) }

  /** Each line with its line end, then the empty line. */
  function Closed(lines: seq<string>): string {
    if lines == [] then CRLF else lines[0] + CRLF + Closed(lines[1..])
  }

  /** Each line with its line end. */
  function Ended(lines: seq<string>): string {
    if lines == [] then "" else lines[0] + CRLF + Ended(lines[1..])
  }

  /** A Digest without a response leaves its line open, so that the next line runs into it. */
  predicate LeavesLineOpen(a: Option<Authorization.Authorization>) {
    a.Some? && a.value.kind.Digest? && a.value.response.UnwrapOr("") == ""
  }

  function OpenText(h: Header): string {
    Ended([RequestLine(h)] + LineTexts(FirstLines(h))) + (NameText(AuthorizationName) + ": " + Closed(LineTexts(LastLines(h))))
  }

  /** `rtsp_request_header_write` */
  function Write(h: Header): Result<string, int> {
    if h.uri == "" || h.verb == Unknown then Failure(EINVAL)
    else if h.auth.Some? && Authorization.WriteValue(h.auth.value).Failure? then Failure(EPROTO)
    else if !h.range.NoRange? && RangeText(h.range).Failure? then Failure(EINVAL)
    else if LeavesLineOpen(h.auth) then Success(OpenText(h))
    else Success(Closed([RequestLine(h)] + LineTexts(Lines(h))))
  }

  // --- the reader ---

  /** `rtsp_session_header_read` */
  function ReadSession(s: string): (string, nat) {
    var (sid, rest) := Cut(s, ';');
    if rest.None? || !StartsWith(rest.value, "timeout") then (sid, 0)
    else
      var val := Cut(rest.value, '=').1;
      (sid, if val.None? then 0 else Number(val.value))
  }

  function ToInt(x: int): int { (x + 0x8000_0000) % 0x1_0000_0000 - 0x8000_0000 }

  /** One field; the second part is the return value when the reader stops here. */
  function Process(h: Header, field: string, val: string): (Header, Option<int>) {
    match NameOf(field)
    case CSeqName => (h.(cseq := ToInt(Transport.Atoi(val))), None)
    case SessionName => (h.(sid := Some(ReadSession(val).0), timeout := ReadSession(val).1), None)
    case TransportName =>
      var (l, ret) := Transport.Read(val, Transport.MAX_COUNT);
      (h.(transports := l), if ret < 0 || l == [] then Some(ret) else None)
    case ContentTypeName => (h.(contentType := Some(val)), None)
    case AuthorizationName =>
      var a := Authorization.Read(val);
      if a.Failure? then (h, Some(a.error)) else (h.(auth := Some(a.value)), None)
    case UserAgentName => (h.(userAgent := Some(val)), None)
    case ServerName => (h.(server := Some(val)), None)
    case AcceptName => (h.(accept := Some(val)), None)
    case RangeName =>
      var r := ReadRange(val);
      if r.Failure? then (h, Some(r.error)) else (h.(range := r.value), None)
    case ContentLengthName => (h.(contentLength := ToInt(Transport.Atoi(val))), None)
    case ExtensionName => (h.(ext := h.ext + [(field, val)]), None)
    case _ => (h, None)
  }

  /** A line without a colon is passed over; one space after the colon is skipped. */
  function ReadLine(h: Header, line: string): (Header, Option<int>) {
    var (field, rest) := Cut(line, ':');
    if rest.None? then (h, None)
    else Process(h, field, if rest.value != "" && rest.value[0] == ' ' then rest.value[1..] else rest.value)
  }

  function ReadLines(h: Header, lines: seq<string>): (Header, int)
    decreases |lines|
  {
    if lines == [] then (h, 0)
    else
      var (g, stop) := ReadLine(h, lines[0]);
      if stop.Some? then (g, stop.value) else ReadLines(g, lines[1..])
  }

  function ReadRequestLine(line: string): Result<Header, int> {
    var m := Next(line, " ");
    if m.None? || VerbOf(m.value.0) == Unknown then Failure(EPROTO)
    else
      var u := Next(m.value.1, " ");
      if u.None? then Failure(EPROTO)
      else
        var v := Next(u.value.1, CRLF);
        if v.None? || v.value.0 != VERSION then Failure(EPROTO) else Success(Empty(VerbOf(m.value.0), u.value.0))
  }

  /** `rtsp_request_header_read`: the header, and where the body starts. */
  function Read(s: string): Result<(Header, nat), int> {
    var end := FindDoubleNewline(s);
    if end.None? then Failure(EPROTO)
    else
      var lines := All(s[..end.value.0], CRLF);
      if lines == [] then Failure(EPROTO)
      else
        var start := ReadRequestLine(lines[0]);
        if start.Failure? then Failure(start.error)
        else
          var (h, ret) := ReadLines(start.value, lines[1..]);
          if ret < 0 then Failure(ret) else Success((h, end.value.0 + end.value.1))
  }

  /** The loop over the lines of the header. */
  method ReadLoop(start: Header, header: string, from: nat) returns (h: Header, ret: int)
    requires from <= |header|
    ensures (h, ret) == ReadLines(start, All(header[from..], CRLF))
  {
    hide ReadLine, Tokens.Next;
    h := start;
    var line, pos := StrTok(header, from, CRLF);
    while line.Some?
      invariant pos <= |header|
      invariant ReadLines(start, All(header[from..], CRLF))
                == ReadLines(h, if line.None? then [] else [line.value] + All(header[pos..], CRLF))
      decreases |header| - pos, line.Some?
    {
      ghost var rest := All(header[pos..], CRLF);
      assert ([line.value] + rest)[1..] == rest;
      var (g, stop) := ReadLine(h, line.value);
      h := g;
      if stop.Some? {
        return h, stop.value;
      }
      line, pos := StrTok(header, pos, CRLF);
    }
    return h, 0;
  }

  /** `rtsp_request_header_read` */
  method ReadHeader(s: string) returns (r: Result<(Header, nat), int>)
    ensures r == Read(s)
  {
    hide ReadRequestLine, ReadLine, Tokens.Next, FindDoubleNewline;
    var end := FindHeaderEnd(s);
    if end.None? {
      return Failure(EPROTO);
    }
    var header := s[..end.value.0];
    var line, pos := StrTok(header, 0, CRLF);
    assert header[0..] == header;
    if line.None? {
      return Failure(EPROTO);
    }
    ghost var rest := All(header[pos..], CRLF);
    assert ([line.value] + rest)[1..] == rest;
    var start := ReadRequestLine(line.value);
    if start.Failure? {
      return Failure(start.error);
    }
    var h, ret := ReadLoop(start.value, header, pos);
    return if ret < 0 then Failure(ret) else Success((h, end.value.0 + end.value.1));
  }

  // --- appending the lines ---

  lemma ClosedCons(str: string, l: Line, rest: seq<Line>)
    ensures str + Closed(LineTexts([l] + rest)) == (str + LineText(l) + CRLF) + Closed(LineTexts(rest))
  {
    assert LineTexts([l] + rest)[1..] == LineTexts(rest);
  }

  /** Appends the lines `l`, which are none or one. */
  method AppendLines(str: string, l: seq<Line>, ghost rest: seq<Line>) returns (r: string)
    ensures r + Closed(LineTexts(rest)) == str + Closed(LineTexts(l + rest))
  {
    hide Closed, LineTexts, LineText;
    r := str;
    assert l[0..] == l;
    for i := 0 to |l|
      invariant r + Closed(LineTexts(l[i..] + rest)) == str + Closed(LineTexts(l + rest))
    {
      assert l[i..] + rest == [l[i]] + (l[i + 1..] + rest);
      ClosedCons(r, l[i], l[i + 1..] + rest);
      r := r + LineText(l[i]) + CRLF;
    }
    assert l[|l|..] + rest == rest;
  }

  /** The fields before the authorization. */
  method AppendFirst(h: Header, ghost rest: seq<Line>) returns (str: string)
    ensures str + Closed(LineTexts(rest)) == RequestLine(h) + CRLF + Closed(LineTexts(FirstLines(h) + rest))
  {
    hide Closed, LineTexts, LineText, SessionLine, TransportLine, Dec, NameText;
    var cseq := if h.cseq >= 0 then [(NameText(CSeqName), Dec(h.cseq))] else [];
    str := RequestLine(h) + CRLF;
    str := AppendLines(str, cseq, SessionLine(h) + (TransportLine(h) + rest));
    str := AppendLines(str, SessionLine(h), TransportLine(h) + rest);
    str := AppendLines(str, TransportLine(h), rest);
    Regroup(cseq, SessionLine(h), TransportLine(h), rest);
  }

  lemma Regroup(a: seq<Line>, b: seq<Line>, c: seq<Line>, d: seq<Line>)
    ensures a + (b + c) + d == a + (b + (c + d))
  {
  }

  /** The fields after it, the extensions in a loop, then the empty line. */
  method AppendLast(start: string, h: Header) returns (str: string)
    ensures str == start + Closed(LineTexts(LastLines(h)))
  {
    hide Closed, LineTexts, LineText, RangeLine, Given, Dec, NameText;
    var length := if h.contentLength > 0 then [(NameText(ContentLengthName), Dec(h.contentLength))] else [];
    ghost var l10 := length + h.ext;
    ghost var l9 := RangeLine(h) + l10;
    ghost var l8 := Given(AcceptName, h.accept) + l9;
    ghost var l7 := Given(ServerName, h.server) + l8;
    ghost var l6 := Given(UserAgentName, h.userAgent) + l7;
    str := AppendLines(start, Given(ContentTypeName, h.contentType), l6);
    str := AppendLines(str, Given(UserAgentName, h.userAgent), l7);
    str := AppendLines(str, Given(ServerName, h.server), l8);
    str := AppendLines(str, Given(AcceptName, h.accept), l9);
    str := AppendLines(str, RangeLine(h), l10);
    str := AppendLines(str, length, h.ext);
    str := AppendLines(str, h.ext, []);
    assert h.ext + [] == h.ext;
    NoLines();
    str := str + CRLF;
  }

  /** `rtsp_request_header_write`: one field after the other; a Digest without a response does not end its line. */
  method WriteHeader(h: Header) returns (r: Result<string, int>)
    ensures r == Write(h)
  {
    hide Closed, Ended, LineTexts, LineText, FirstLines, LastLines, AuthorizationLine, NameText, Authorization.WriteValue, RangeText;
    if h.uri == "" || h.verb == Unknown {
      return Failure(EINVAL);
    }
    if h.auth.Some? && Authorization.WriteValue(h.auth.value).Failure? {
      return Failure(EPROTO);
    }
    if !h.range.NoRange? && RangeText(h.range).Failure? {
      return Failure(EINVAL);
    }
    ghost var last := LastLines(h);
    var str;
    if LeavesLineOpen(h.auth) {
      str := AppendFirst(h, []);
      EndedFirst(h, str);
      str := AppendLast(str + (NameText(AuthorizationName) + ": "), h);
      OpenTextIs(h, str);
    } else {
      str := AppendFirst(h, AuthorizationLine(h) + last);
      str := AppendLines(str, AuthorizationLine(h), last);
      str := AppendLast(str, h);
      ClosedEnds(h);
    }
    return Success(str);
  }

  lemma NoLines()
    ensures Closed(LineTexts([])) == CRLF
  {
  }

  lemma {:induction false} EndedThenClosed(a: seq<string>, b: seq<string>)
    ensures Ended(a) + Closed(b) == Closed(a + b)
    decreases |a|
  {
    if a == [] {
      assert a + b == b;
    } else {
      EndedThenClosed(a[1..], b);
      assert (a + b)[1..] == a[1..] + b;
      assert a[0] + CRLF + Ended(a[1..]) + Closed(b) == a[0] + CRLF + (Ended(a[1..]) + Closed(b));
    }
  }

  lemma SameStart(a: string, b: string, c: string)
    requires a + c == b + c
    ensures a == b
  {
    assert a == (a + c)[..|a + c| - |c|];
    assert b == (b + c)[..|b + c| - |c|];
  }

  lemma EndedFirst(h: Header, str: string)
    requires str + Closed(LineTexts([])) == RequestLine(h) + CRLF + Closed(LineTexts(FirstLines(h) + []))
    ensures str == Ended([RequestLine(h)] + LineTexts(FirstLines(h)))
  {
    hide FirstLines, RequestLine, LineText;
    var texts := LineTexts(FirstLines(h));
    assert FirstLines(h) + [] == FirstLines(h);
    NoLines();
    EndedThenClosed([RequestLine(h)] + texts, []);
    assert [RequestLine(h)] + texts + [] == [RequestLine(h)] + texts && ([RequestLine(h)] + texts)[1..] == texts;
    SameStart(str, Ended([RequestLine(h)] + texts), CRLF);
  }

  lemma OpenTextIs(h: Header, str: string)
    requires str == Ended([RequestLine(h)] + LineTexts(FirstLines(h))) + (NameText(AuthorizationName) + ": ") + Closed(LineTexts(LastLines(h)))
    ensures str == OpenText(h)
  {
    hide FirstLines, LastLines, RequestLine, NameText, Ended, Closed, LineTexts;
    Associate(Ended([RequestLine(h)] + LineTexts(FirstLines(h))), NameText(AuthorizationName) + ": ", Closed(LineTexts(LastLines(h))));
  }

  lemma Associate(a: string, b: string, c: string)
    ensures a + b + c == a + (b + c)
  {
  }

  lemma ClosedEnds(h: Header)
    ensures Closed([RequestLine(h)] + LineTexts(Lines(h)))
            == RequestLine(h) + CRLF + Closed(LineTexts(FirstLines(h) + (AuthorizationLine(h) + LastLines(h))))
  {
    hide RequestLine, LineTexts, SessionLine, TransportLine, AuthorizationLine, Given, RangeLine, NameText, Dec;
    assert ([RequestLine(h)] + LineTexts(Lines(h)))[1..] == LineTexts(Lines(h));
    var cseq := if h.cseq >= 0 then [(NameText(CSeqName), Dec(h.cseq))] else [];
    Regroup(cseq, SessionLine(h), TransportLine(h), AuthorizationLine(h) + LastLines(h));
  }

  /** An empty header, or one that starts like an interleaved packet, is refused. */
  lemma MagicRefused(s: string)
    requires s != "" ==> s[0] == '$'
    ensures Read(s).Failure?
  {
    if FindDoubleNewline(s).Some? {
      MagicLine(s[..FindDoubleNewline(s).value.0]);
    }
  }

  lemma MagicLine(h: string)
    requires h != "" ==> h[0] == '$'
    ensures All(h, CRLF) != [] ==> ReadRequestLine(All(h, CRLF)[0]).Failure?
  {
    hide ReadRequestLine;
    if All(h, CRLF) != [] {
      var line := All(h, CRLF)[0];
      assert SkipDelims(h, CRLF) == h;
      FirstOfSpan(h, CRLF);
      MagicVerb(line);
    }
  }

  lemma FirstOfSpan(s: string, delims: string)
    requires s != "" && s[0] !in delims
    ensures Span(s, delims).0 != "" && Span(s, delims).0[0] == s[0]
  {
  }

  lemma MagicVerb(line: string)
    requires line != "" && line[0] == '$'
    ensures ReadRequestLine(line).Failure?
  {
    hide VerbOf;
    FirstOfSpan(line, " ");
    assert SkipDelims(line, " ") == line;
    var m := Next(line, " ").value.0;
    NoSuchVerb(m);
  }

  lemma NoSuchVerb(m: string)
    requires m != "" && m[0] == '$'
    ensures VerbOf(m) == Unknown
  {
  }
}
