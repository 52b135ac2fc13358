/**
  From the written header to the delivered message: the text of a request is a well-formed frame, so requests
  written one after the other arrive as they were, however the stream is cut into chunks.
 */
module RequestFrames {
  import opened Wrappers
  import opened Text
  import opened Tokens
  import opened Terminator
  import opened RequestHeader
  import opened RequestTheorems
  import Stream
  import StreamTheorems
  import StreamLengths
  import T = Transport
  import TT = TransportTheorems
  import A = Authorization

  // --- what stands in the lines ---

  lemma JoinClean(l: seq<string>, sep: string)
    requires Clean(sep) && forall s :: s in l ==> Clean(s)
    ensures Clean(Join(l, sep))
  {
    TT.JoinKeeps(l, sep, '\r');
    TT.JoinKeeps(l, sep, '\n');
    TT.JoinKeeps(l, sep, '\0');
  }

  lemma KeyClean(k: T.Key)
    ensures Clean(T.KeyText(k))
  {
  }

  lemma PortsClean(t: T.Transport)
    ensures forall s :: s in T.PortParams(t) ==> Clean(s)
  {
    hide T.KeyText, Dec;
    KeyClean(T.ClientPortKey);
    KeyClean(T.ServerPortKey);
    KeyClean(T.PortKey);
    forall n ensures Clean(Dec(n)) {
      DecClean(n);
    }
  }

  lemma DecClean(n: nat)
    ensures Clean(Dec(n))
  {
    assert AllDigits(Dec(n));
  }

  lemma LastParamsClean(t: T.Transport)
    requires T.Writable(t)
    ensures t.interleaved != [] ==> Clean(T.KeyText(T.InterleavedKey) + "=" + T.PairsText(t.interleaved))
    ensures t.ssrc.Some? ==> Clean(T.KeyText(T.SsrcKey) + "=" + Hex(t.ssrc.value, 8, true))
    ensures t.mode != T.NoMode ==> Clean(T.KeyText(T.ModeKey) + "=" + T.ModeText(t.mode))
  {
    hide T.KeyText, Dec, Hex;
    KeyClean(T.InterleavedKey);
    KeyClean(T.SsrcKey);
    KeyClean(T.ModeKey);
    forall n ensures Clean(Dec(n)) {
      DecClean(n);
    }
  }

  lemma SettingClean(key: T.Key, val: Option<string>)
    requires CleanIf(val)
    ensures forall s :: s in T.Setting(key, val) ==> Clean(s)
  {
    hide T.KeyText;
    KeyClean(key);
  }

  lemma NumberClean(key: T.Key, n: nat)
    ensures forall s :: s in T.Number(key, n) ==> Clean(s)
  {
    hide T.KeyText, Dec;
    KeyClean(key);
    DecClean(n);
  }

  lemma EntryClean(t: T.Transport)
    requires TransportWritable(t)
    ensures Clean(T.Entry(t)) && T.Entry(t) != ""
  {
    hide T.KeyText, T.Setting, T.Number, T.PortParams, T.PairsText, Hex, T.ModeText, Clean;
    KeyClean(if t.delivery == T.Unicast then T.UnicastKey else T.MulticastKey);
    KeyClean(T.AppendKey);
    SettingClean(T.DestinationKey, t.destination);
    SettingClean(T.SourceKey, t.source);
    NumberClean(T.TtlKey, t.ttl);
    NumberClean(T.LayersKey, t.layers);
    PortsClean(t);
    LastParamsClean(t);
    HeadClean(t);
    assert forall s :: s in T.Params(t) ==> Clean(s);
    SemicolonClean();
    JoinClean([T.Head(t)] + T.Params(t), ";");
    TT.JoinNotEmpty([T.Head(t)] + T.Params(t), ";");
  }

  lemma HeadClean(t: T.Transport)
    requires t.protocol == "RTP" && t.profile == "AVP"
    ensures Clean(T.Head(t)) && T.Head(t) != ""
  {
  }

  lemma SemicolonClean()
    ensures Clean(";")
  {
  }

  lemma {:induction false} EntriesClean(l: seq<T.Transport>)
    requires forall t :: t in l ==> TransportWritable(t)
    ensures Clean(T.Entries(l))
    decreases |l|
  {
    hide T.Entry;
    if l != [] {
      EntryClean(l[0]);
      EntriesClean(l[1..]);
    }
  }

  lemma {:induction false} FieldTextsClean(l: seq<A.Field>, first: bool)
    requires forall f :: f in l ==> Clean(f.1)
    ensures forall p :: p in A.FieldTexts(l, first) ==> Clean(p)
    decreases |l|
  {
    hide A.KeyText;
    if l != [] {
      AuthKeyClean(l[0].0);
      FieldTextsClean(l[1..], false);
    }
  }

  lemma AuthKeyClean(k: A.Key)
    ensures Clean(A.KeyText(k))
  {
  }

  lemma FieldsClean(a: A.Authorization)
    requires AuthWritable(a) && a.kind.Digest?
    ensures forall f :: f in A.Fields(a) ==> Clean(f.1)
  {
    hide A.QopFields, Clean;
    QopClean(a);
    AlgorithmClean(a);
  }

  lemma AlgorithmClean(a: A.Authorization)
    ensures Clean(A.AlgorithmText(a.algorithm))
  {
  }

  lemma QopClean(a: A.Authorization)
    requires CleanIf(a.cnonce)
    ensures forall f :: f in A.QopFields(a) ==> Clean(f.1)
  {
    assert Clean(Hex(a.nc, 8, false)) && Clean(A.QopText(a.qop));
  }

  lemma AuthClean(a: A.Authorization)
    requires AuthWritable(a)
    ensures A.WriteValue(a).Success? && Clean(A.WriteValue(a).value)
  {
    hide A.Fields, A.FieldTexts;
    if a.kind.Digest? {
      FieldsClean(a);
      FieldTextsClean(A.Fields(a), true);
      JoinClean(A.FieldTexts(A.Fields(a), true), ",");
    }
  }

  lemma NamedLineOk(n: Name, val: string)
    requires n != NoName && n != ExtensionName && Clean(val)
    ensures LineOk((NameText(n), val))
  {
    NameOfText(n);
  }

  lemma SessionLineOk(x: Header)
    requires CleanIf(x.sid)
    ensures LinesOk(SessionLine(x))
  {
    hide NameText, Dec;
    DecClean(x.timeout);
    if x.sid.UnwrapOr("") != "" {
      NamedLineOk(SessionName, SessionLine(x)[0].1);
    }
  }

  lemma GivenOk(n: Name, val: Option<string>)
    requires n != NoName && n != ExtensionName && CleanIf(val)
    ensures LinesOk(Given(n, val))
  {
    hide NameText;
    if val.Some? {
      NamedLineOk(n, val.value);
    }
  }

  lemma OtherLinesOk(x: Header)
    requires Writable(x)
    ensures LinesOk(TransportLine(x)) && LinesOk(AuthorizationLine(x)) && LinesOk(RangeLine(x))
  {
    hide NameText, T.Entries, A.WriteValue, RangeText, AuthWritable, TransportWritable;
    EntriesClean(x.transports);
    NamedLineOk(TransportName, T.Entries(x.transports));
    if x.auth.Some? {
      AuthClean(x.auth.value);
      NamedLineOk(AuthorizationName, A.WriteValue(x.auth.value).value);
    }
    if x.range.Npt? {
      RangeRead(x.range);
      NamedLineOk(RangeName, RangeText(x.range).value);
    }
  }

  lemma LinesAreOk(x: Header)
    requires Writable(x)
    ensures LinesOk(Lines(x))
  {
    hide NameText, SessionLine, TransportLine, AuthorizationLine, RangeLine, Given, Dec, AuthWritable, RangeWritable, LineOk;
    OtherLinesOk(x);
    SessionLineOk(x);
    GivenOk(ContentTypeName, x.contentType);
    GivenOk(UserAgentName, x.userAgent);
    GivenOk(ServerName, x.server);
    GivenOk(AcceptName, x.accept);
    if x.cseq >= 0 {
      DecClean(x.cseq);
      NamedLineOk(CSeqName, Dec(x.cseq));
    }
    if x.contentLength > 0 {
      DecClean(x.contentLength);
      NamedLineOk(ContentLengthName, Dec(x.contentLength));
    }
    forall e | e in x.ext ensures LineOk(e) {
      assert ExtensionOk(e);
      ExtensionLineOk(e);
    }
  }

  lemma ExtensionLineOk(e: Extension)
    requires ExtensionOk(e)
    ensures LineOk(e)
  {
    ExtensionStart(e.0);
  }

  // --- the text of a header ---

  /** Lines end in CR LF, are not empty but for the last, and hold no NUL. */
  ghost predicate Neat(s: string) {
    && |s| >= 2 && s[|s| - 2] == '\r' && s[|s| - 1] == '\n'
    && (forall i :: 0 <= i < |s| ==> s[i] != '\0')
    && (forall i :: 0 <= i < |s| && s[i] == '\r' ==> i + 1 < |s| && s[i + 1] == '\n')
    && (forall i :: 0 <= i < |s| - 1 && s[i] == '\n' ==> s[i + 1] != '\n' && (s[i + 1] == '\r' ==> i + 3 == |s|))
  }

  ghost predicate TextLine(s: string) { s != "" && Clean(s) }

  lemma NeatStep(line: string, rest: string)
    requires TextLine(line) && Neat(rest) && (rest[0] != '\n') && (rest[0] == '\r' ==> |rest| == 2)
    ensures var s := line + CRLF + rest; Neat(s) && s[0] == line[0]
  {
    var s, n := line + CRLF + rest, |line| + 2;
    assert forall i :: 0 <= i < |line| ==> s[i] == line[i] && s[i] in line;
    assert s[|line|] == '\r' && s[|line| + 1] == '\n';
    assert forall i :: n <= i < |s| ==> s[i] == rest[i - n];
  }

  lemma {:induction false} ClosedNeat(lines: seq<string>)
    requires forall l :: l in lines ==> TextLine(l)
    ensures Neat(Closed(lines))
    ensures lines != [] ==> lines[0] != "" && Closed(lines)[0] == lines[0][0]
    decreases |lines|
  {
    if lines != [] {
      assert TextLine(lines[0]);
      ClosedNeat(lines[1..]);
      assert |lines| > 1 ==> lines[1..][0] == lines[1] && TextLine(lines[1]) && lines[1][0] in lines[1];
      NeatStep(lines[0], Closed(lines[1..]));
    }
  }

  lemma {:induction false} ClosedIsJoin(lines: seq<string>)
    requires lines != []
    ensures Closed(lines) == Join(lines, CRLF) + CRLF_CRLF
    decreases |lines|
  {
    if |lines| == 1 {
      assert Closed(lines[1..]) == CRLF;
      assert CRLF_CRLF == CRLF + CRLF;
    } else {
      ClosedIsJoin(lines[1..]);
      assert lines[0] + CRLF + (Join(lines[1..], CRLF) + CRLF_CRLF) == lines[0] + CRLF + Join(lines[1..], CRLF) + CRLF_CRLF;
    }
  }

  lemma OccursChars(s: string, pattern: string, i: nat)
    requires OccursAt(s, pattern, i)
    ensures forall k :: i <= k < i + |pattern| ==> s[k] == pattern[k - i]
    ensures |pattern| >= 2 ==> s[i] == pattern[0] && s[i + 1] == pattern[1]
  {
    assert forall k :: i <= k < i + |pattern| ==> s[i..i + |pattern|][k - i] == s[k];
  }

  /** A neat text holds CR LF CR LF at its end only. */
  lemma OnlyAtTheEnd(s: string, i: nat)
    requires Neat(s) && OccursAt(s, CRLF_CRLF, i)
    ensures i == |s| - 4
  {
    OccursChars(s, CRLF_CRLF, i);
    assert s[i + 1] == '\n' && s[i + 2] == '\r';
  }

  /** The other double newlines do not occur in it. */
  lemma NoOther(s: string, pattern: string, i: nat)
    requires Neat(s) && (pattern == LF_CRLF_CR || pattern == LF_LF || pattern == CR_CR)
    ensures !OccursAt(s, pattern, i)
  {
    if OccursAt(s, pattern, i) {
      OccursChars(s, pattern, i);
    }
  }

  lemma NeatClean(s: string)
    requires Neat(s) && |s| >= 4 && s[|s| - 4..] == CRLF_CRLF && s[0] != '$'
    ensures StreamTheorems.CleanHeader(s) && FindDoubleNewline(s) == Some((|s| - 4, 4))
  {
    assert OccursAt(s, CRLF_CRLF, |s| - 4);
    forall k: nat | k < |s| - 4 ensures !OccursAt(s, CRLF_CRLF, k) {
      if OccursAt(s, CRLF_CRLF, k) {
        OnlyAtTheEnd(s, k);
      }
    }
    assert FirstAt(s, CRLF_CRLF, |s| - 4);
    StrNStrIsFirst(s, CRLF_CRLF, |s| - 4);
    forall k: nat | k < |s| ensures StreamTheorems.OpenAt(s, k) {
      PrefixOpen(s, k);
    }
  }

  lemma PrefixOpen(s: string, k: nat)
    requires Neat(s) && k < |s|
    ensures FindDoubleNewline(s[..k]).None?
  {
    hide Neat;
    NoneInPrefix(s, k, CRLF_CRLF);
    NoneInPrefix(s, k, LF_CRLF_CR);
    NoneInPrefix(s, k, LF_LF);
    NoneInPrefix(s, k, CR_CR);
  }

  lemma NoneInPrefix(s: string, k: nat, pattern: string)
    requires Neat(s) && k < |s|
    requires pattern == CRLF_CRLF || pattern == LF_CRLF_CR || pattern == LF_LF || pattern == CR_CR
    ensures StrNStr(s[..k], pattern).None?
  {
    hide Neat;
    SearchPrefix(s, k, pattern);
    var r := StrNStr(s, pattern);
    if r.Some? {
      if pattern == CRLF_CRLF {
        OnlyAtTheEnd(s, r.value);
      } else {
        NoOther(s, pattern, r.value);
      }
    }
  }

  // --- the whole header ---

  lemma RequestLineRead(x: Header)
    requires Writable(x)
    ensures ReadRequestLine(RequestLine(x)) == Success(Empty(x.verb, x.uri)) && TextLine(RequestLine(x))
    ensures RequestLine(x)[0] != '$' && !(RequestLine(x)[0] == 'R' && RequestLine(x)[1] == 'T')
  {
    hide VerbText, VerbOf, Writable, Next, Plain, Clean;
    UriOk(x);
    VerbOfText(x.verb);
    VerbTextPlain(x.verb);
    VerbStart(x.verb);
    ThreeWords(VerbText(x.verb), x.uri);
  }

  lemma ThreeWords(a: string, b: string)
    requires Plain(a, " ") && Plain(b, " ") && Clean(a) && Clean(b)
    ensures Next(a + " " + (b + " " + VERSION), " ") == Some((a, b + " " + VERSION))
    ensures Next(b + " " + VERSION, " ") == Some((b, VERSION)) && Next(VERSION, CRLF) == Some((VERSION, ""))
    ensures TextLine(a + " " + (b + " " + VERSION))
  {
    hide Next;
    NextAt(a, " ", b + " " + VERSION, " ");
    NextAt(b, " ", VERSION, " ");
    assert " "[1..] + (b + " " + VERSION) == b + " " + VERSION;
    assert " "[1..] + VERSION == VERSION;
    VersionPlain();
    NextEnd(VERSION, CRLF);
  }

  lemma VersionPlain()
    ensures Plain(VERSION, CRLF) && Clean(VERSION)
  {
  }

  lemma UriOk(x: Header)
    requires Writable(x)
    ensures x.verb != Unknown && Plain(x.uri, " ") && Clean(x.uri)
  {
  }

  lemma VerbStart(v: Verb)
    ensures |VerbText(v)| >= 2 && VerbText(v)[0] != '$' && VerbText(v)[1] != 'T'
  {
  }

  /** The lines of a header: the request line and the fields. */
  function AllLines(x: Header): seq<string> { [RequestLine(x)] + LineTexts(Lines(x)) }

  lemma AllLinesOk(x: Header)
    requires Writable(x)
    ensures forall l :: l in AllLines(x) ==> TextLine(l)
  {
    hide Lines, RequestLine, Writable;
    RequestLineRead(x);
    LinesAreOk(x);
    forall i | 0 <= i < |Lines(x)| ensures TextLine(LineText(Lines(x)[i])) {
      assert LineOk(Lines(x)[i]);
    }
  }

  lemma WriteSucceeds(x: Header)
    requires Writable(x)
    ensures !LeavesLineOpen(x.auth) && Write(x) == Success(Closed(AllLines(x)))
  {
    hide Lines, RangeText, A.WriteValue, A.IsChallenge, RequestLine, LineTexts, Closed;
    if x.auth.Some? {
      AuthRead(x.auth.value);
    }
  }

  lemma EndsClosed(head: string)
    ensures var s := head + CRLF_CRLF; |s| >= 4 && s[|s| - 4..] == CRLF_CRLF && s[..|s| - 4] == head
  {
  }

  /** A written header, with whatever follows it, is read back in normal form, and its end is found. */
  lemma RequestRoundTrip(x: Header, body: string)
    requires Writable(x)
    ensures Write(x).Success?
    ensures var s := Write(x).value;
            StreamTheorems.CleanHeader(s) && s[0] != '$' && Read(s + body) == Success((Normal(x), |s|))
  {
    hide Lines, RequestLine, LineTexts, Write, Writable, ReadRequestLine, ReadLines, ProcessAll, Normal, Closed;
    WriteSucceeds(x);
    var lines := AllLines(x);
    AllLinesOk(x);
    RequestLineRead(x);
    ClosedFound(lines, body);
    assert lines[1..] == LineTexts(Lines(x));
    LinesAreOk(x);
    LinesRead(Empty(x.verb, x.uri), Lines(x));
    LinesProcessed(x);
  }

  /** The end of closed lines is found, and cutting what comes before it gives the lines. */
  lemma ClosedFound(lines: seq<string>, body: string)
    requires lines != [] && (forall l :: l in lines ==> TextLine(l)) && TextLine(lines[0]) && lines[0][0] != '$'
    ensures var s := Closed(lines);
            && |s| >= 4 && StreamTheorems.CleanHeader(s) && s[0] != '$'
            && FindDoubleNewline(s + body) == Some((|s| - 4, 4)) && All((s + body)[..|s| - 4], CRLF) == lines
  {
    hide Neat, Closed, All, StreamTheorems.CleanHeader;
    var s, head := Closed(lines), Join(lines, CRLF);
    ClosedNeat(lines);
    ClosedIsJoin(lines);
    EndsClosed(head);
    NeatClean(s);
    EndOccurs(s);
    TerminatorStable(s, body);
    assert (s + body)[..|s| - 4] == head;
    AllJoined(lines, CRLF, CRLF);
  }

  lemma EndOccurs(s: string)
    requires |s| >= 4 && s[|s| - 4..] == CRLF_CRLF
    ensures OccursAt(s, CRLF_CRLF, |s| - 4)
  {
  }

  // --- a stream of requests ---

  /** The header reader of the parser reads requests as `Read` does. */
  ghost predicate ReadsRequests(r: Stream.HeaderReader<Header>) {
    forall s :: Read(s).Success? ==> r.read(Stream.Request, s) == Some((Read(s).value.0, Read(s).value.0.contentLength))
  }

  /** Such a reader, which leaves the header as it is. */
  function RequestReader(): Stream.HeaderReader<Header> {
    Stream.HeaderReader(
      (kind: Stream.Kind, s: string) =>
        if kind == Stream.Request && Read(s).Success? then Some((Read(s).value.0, Read(s).value.0.contentLength)) else None,
      (kind: Stream.Kind, s: string) => s)
  }

  /** It is a reader the theorems about the stream apply to: it refuses what starts like a packet, and reads an int. */
  lemma RequestReaderOk()
    ensures StreamLengths.ReaderWrites(RequestReader()) && ReadsRequests(RequestReader())
  {
    hide Read;
    forall s | Read(s).Success? ensures s != "" && s[0] != Stream.INTERLEAVED_MAGIC && StreamLengths.IsInt(Read(s).value.0.contentLength) {
      LengthIsInt(s);
      if s == "" || s[0] == '$' {
        MagicRefused(s);
      }
    }
  }

  lemma LengthIsInt(s: string)
    requires Read(s).Success?
    ensures StreamLengths.IsInt(Read(s).value.0.contentLength)
  {
    hide ReadLines, All, FindDoubleNewline, ReadLine;
    var lines := All(s[..FindDoubleNewline(s).value.0], CRLF);
    LinesKeepInt(ReadRequestLine(lines[0]).value, lines[1..]);
  }

  lemma {:induction false} LinesKeepInt(h: Header, lines: seq<string>)
    requires StreamLengths.IsInt(h.contentLength)
    ensures StreamLengths.IsInt(ReadLines(h, lines).0.contentLength)
    decreases |lines|
  {
    hide ReadLine;
    if lines != [] {
      LineKeepsInt(h, lines[0]);
      LinesKeepInt(ReadLine(h, lines[0]).0, lines[1..]);
    }
  }

  lemma LineKeepsInt(h: Header, line: string)
    requires StreamLengths.IsInt(h.contentLength)
    ensures StreamLengths.IsInt(ReadLine(h, line).0.contentLength)
  {
    hide NameOf, T.Read, A.Read, ReadRange, ReadSession, T.Atoi, Cut;
  }

  /** A request and the body it announces. */
  ghost predicate Sendable(x: Header, body: string) {
    Writable(x) && |body| == if x.contentLength > 0 then x.contentLength else 0
  }

  function Bytes(x: Header, body: string): string
    requires Write(x).Success?
  {
    Write(x).value + body
  }

  function Delivered(x: Header, body: string): Stream.Message<Header>
    requires Write(x).Success?
  {
    Stream.Text(Stream.Request, Normal(x), body, |Bytes(x, body)|)
  }

  lemma RequestIsFrame(r: Stream.HeaderReader<Header>, x: Header, body: string)
    requires ReadsRequests(r) && Sendable(x, body)
    ensures Write(x).Success?
    ensures StreamTheorems.IsFrame(r, Bytes(x, body), Delivered(x, body)) && Bytes(x, body) != "" && Bytes(x, body)[0] != '$'
  {
    hide Write, Writable, Read, Normal, StreamTheorems.CleanHeader, Stream.HeaderKind, ReadsRequests;
    RequestRoundTrip(x, "");
    RequestRoundTrip(x, body);
    var s := Write(x).value;
    assert s + "" == s;
    LengthOfNormal(x);
    ReadsIt(r, s, Normal(x));
    IsRequestKind(x);
    Stream.KindIs(s);
    CleanIsHeader(s);
    var raw := Bytes(x, body);
    assert raw[..|raw| - |body|] == s && raw[|s|..] == body;
  }

  lemma LengthOfNormal(x: Header)
    ensures Normal(x).contentLength == if x.contentLength > 0 then x.contentLength else 0
  {
    hide TT.Normals;
  }

  lemma ReadsIt(r: Stream.HeaderReader<Header>, s: string, h: Header)
    requires ReadsRequests(r) && Read(s) == Success((h, |s|)) && h.contentLength >= 0
    ensures r.read(Stream.Request, s) == Some((h, h.contentLength))
  {
    hide Read;
  }

  lemma CleanIsHeader(s: string)
    requires StreamTheorems.CleanHeader(s)
    ensures Stream.IsHeader(s) && |s| >= 4
  {
  }

  lemma IsRequestKind(x: Header)
    requires Writable(x) && Write(x).Success?
    ensures Stream.HeaderKind(Write(x).value) == Stream.Request
  {
    hide Lines, Write, Writable, VerbText, LineTexts;
    WriteSucceeds(x);
    RequestLineRead(x);
    var s := Write(x).value;
    assert s == RequestLine(x) + (CRLF + Closed(AllLines(x)[1..]));
    VerbStart(x.verb);
    assert s[0] == RequestLine(x)[0] && s[1] == RequestLine(x)[1];
    ResponseStart(s);
  }

  lemma ResponseStart(s: string)
    ensures Stream.HeaderKind(s) == Stream.Response ==> |s| >= 2 && s[0] == 'R' && s[1] == 'T'
  {
    assert Stream.RTSP_VERSION[0] == 'R' && Stream.RTSP_VERSION[1] == 'T';
    assert |s| >= 8 ==> s[..8][0] == s[0] && s[..8][1] == s[1];
  }

  lemma {:induction false} NoBadCut(raws: seq<string>, n: nat)
    requires forall raw :: raw in raws ==> raw != "" && raw[0] != '$'
    ensures !StreamTheorems.BadCutAt(raws, n)
    decreases |raws|
  {
    if raws != [] {
      assert raws[0] in raws;
      assert forall raw :: raw in raws[1..] ==> raw in raws;
      if n >= |raws[0]| {
        NoBadCut(raws[1..], n - |raws[0]|);
      }
    }
  }

  lemma {:induction false} AllCutsSafe(raws: seq<string>, n: nat, chunks: seq<string>)
    requires forall raw :: raw in raws ==> raw != "" && raw[0] != '$'
    ensures StreamTheorems.SafeCuts(raws, n, chunks)
    decreases |chunks|
  {
    if chunks != [] {
      NoBadCut(raws, n + |chunks[0]|);
      AllCutsSafe(raws, n + |chunks[0]|, chunks[1..]);
    }
  }

  /** `raw` are the bytes of a request and its body, and `msg` is what they should be delivered as. */
  ghost predicate Carries(x: Header, body: string, raw: string, msg: Stream.Message<Header>) {
    && Sendable(x, body) && Write(x).Success?
    && raw == Bytes(x, body) && msg == Delivered(x, body)
  }

  lemma CarriesFrame(r: Stream.HeaderReader<Header>, x: Header, body: string, raw: string, msg: Stream.Message<Header>)
    requires ReadsRequests(r) && Carries(x, body, raw, msg)
    ensures StreamTheorems.IsFrame(r, raw, msg) && raw != "" && raw[0] != '$'
  {
    hide Write, Writable, Normal, StreamTheorems.IsFrame, ReadsRequests, Sendable;
    RequestIsFrame(r, x, body);
  }

  /**
    Requests written one after the other, each followed by the body it announces, are delivered in order with their
    headers and bodies, and nothing is left over, however the bytes are cut into chunks: by the receive loop as it is,
    and by the one that refuses negative lengths, for streams of any length.
   */
  lemma RequestsArrive(r: Stream.HeaderReader<Header>, xs: seq<Header>, bodies: seq<string>, raws: seq<string>,
                       msgs: seq<Stream.Message<Header>>, chunks: seq<string>)
    requires StreamLengths.ReaderWrites(r) && ReadsRequests(r) && |xs| == |bodies| == |raws| == |msgs|
    requires forall i :: 0 <= i < |xs| ==> Carries(xs[i], bodies[i], raws[i], msgs[i])
    requires Stream.Flatten(chunks) == Stream.Flatten(raws)
    ensures |Stream.Flatten(raws)| < StreamLengths.NO_BUFFER ==>
              StreamLengths.ReceiveAllWord(r, StreamTheorems.Idle(), chunks) == (StreamTheorems.Idle(), StreamTheorems.Delivers(msgs))
    ensures Stream.ReaderOk(StreamLengths.NonNegative(r))
    ensures StreamTheorems.ReceiveAll(StreamLengths.NonNegative(r), StreamTheorems.Idle(), chunks)
            == (StreamTheorems.Idle(), StreamTheorems.Delivers(msgs))
  {
    hide StreamTheorems.IsFrame, ReadsRequests, Stream.ReaderOk, StreamLengths.ReaderWrites, Carries, StreamTheorems.SafeCuts,
         StreamTheorems.ReceiveAll, StreamLengths.ReceiveAllWord, Stream.Flatten, StreamLengths.NonNegative, StreamTheorems.Deliveries;
    forall i | 0 <= i < |xs| ensures StreamTheorems.IsFrame(r, raws[i], msgs[i]) && raws[i] != "" && raws[i][0] != '$' {
      CarriesFrame(r, xs[i], bodies[i], raws[i], msgs[i]);
    }
    AllCutsSafe(raws, 0, chunks);
    StreamLengths.FramesReceived(r, raws, msgs, chunks);
    if |Stream.Flatten(raws)| < StreamLengths.NO_BUFFER {
      StreamLengths.FramesDelivered(r, raws, msgs, chunks);
    }
  }
}
