/**
  Where writing and reading a request header part: a Digest authorization without a response, and ranges that can be read
  but not written.
 */
module RequestDigests {
  import opened Wrappers
  import opened Text
  import opened Tokens
  import opened RequestHeader
  import opened RequestTheorems
  import opened RequestFrames
  import T = Transport
  import A = Authorization

  // --- the line left open ---

  /** The line the open authorization makes with the one after it. */
  function MergedLine(l: Line): Line { (NameText(AuthorizationName), LineText(l)) }

  lemma {:induction false} EndedAppend(a: seq<string>, b: seq<string>)
    ensures Ended(a + b) == Ended(a) + Ended(b)
    decreases |a|
  {
    if a == [] {
      assert a + b == b;
    } else {
      EndedAppend(a[1..], b);
      assert (a + b)[1..] == a[1..] + b;
      Associate(a[0] + CRLF, Ended(a[1..]), Ended(b));
    }
  }

  lemma TextsAppend(a: seq<Line>, b: seq<Line>)
    ensures LineTexts(a + b) == LineTexts(a) + LineTexts(b)
  {
  }

  /** With lines after it, the text is that of a header whose authorization holds the next line. */
  lemma OpenMerges(x: Header)
    requires LastLines(x) != []
    ensures var last := LastLines(x);
            OpenText(x) == Closed([RequestLine(x)] + LineTexts(FirstLines(x) + ([MergedLine(last[0])] + last[1..])))
  {
    hide FirstLines, LastLines, RequestLine, NameText, LineText;
    var first, last := FirstLines(x), LastLines(x);
    var merged := [MergedLine(last[0])] + last[1..];
    assert LineTexts(last)[1..] == LineTexts(last[1..]) && LineTexts(merged)[1..] == LineTexts(last[1..]);
    MergedText(last[0]);
    Associate(NameText(AuthorizationName) + ": ", LineText(last[0]) + CRLF, Closed(LineTexts(last[1..])));
    Associate(NameText(AuthorizationName) + ": ", LineText(last[0]), CRLF);
    EndedThenClosed([RequestLine(x)] + LineTexts(first), LineTexts(merged));
    TextsAppend(first, merged);
    assert [RequestLine(x)] + LineTexts(first) + LineTexts(merged) == [RequestLine(x)] + LineTexts(first + merged);
  }

  lemma MergedText(l: Line)
    ensures LineText(MergedLine(l)) == NameText(AuthorizationName) + ": " + LineText(l)
  {
  }

  /** Without, it is the start of a header whose empty line is missing. */
  lemma OpenTruncates(x: Header)
    requires LastLines(x) == []
    ensures OpenText(x) + CRLF == Closed([RequestLine(x)] + LineTexts(FirstLines(x) + [(NameText(AuthorizationName), "")]))
  {
    hide FirstLines, RequestLine, NameText, Ended;
    var first := FirstLines(x);
    var line := (NameText(AuthorizationName), "");
    NoLines();
    assert LineTexts([]) == [];
    assert LineText(line) == NameText(AuthorizationName) + ": ";
    assert LineTexts([line]) == [LineText(line)];
    TextsAppend(first, [line]);
    EndedThenClosed([RequestLine(x)] + LineTexts(first), LineTexts([line]));
    assert LineTexts([line])[1..] == [];
    assert [RequestLine(x)] + LineTexts(first) + LineTexts([line]) == [RequestLine(x)] + LineTexts(first + [line]);
    Associate(Ended([RequestLine(x)] + LineTexts(first)), LineText(line) + CRLF, CRLF);
  }

  /** The text does not start with the letter of an authentication scheme. */
  predicate NoScheme(s: string) { s != "" && s[0] != ' ' && ToUpper(s[0]) != 'B' && ToUpper(s[0]) != 'D' }

  lemma NameNoScheme(n: Name)
    requires n != NoName && n != DateName
    ensures NoScheme(NameText(n))
  {
  }

  lemma ExtensionNoScheme(e: Extension)
    requires ExtensionOk(e)
    ensures NoScheme(e.0)
  {
    assert NameText(ExtensionName)[0] == 'X' && ToUpper(e.0[0]) == ToUpper('X');
  }

  lemma LastNoScheme(x: Header)
    requires forall e :: e in x.ext ==> ExtensionOk(e)
    ensures forall l :: l in LastLines(x) ==> NoScheme(l.0)
  {
    hide NameText, NoScheme, ExtensionOk;
    NameNoScheme(ContentTypeName);
    NameNoScheme(UserAgentName);
    NameNoScheme(ServerName);
    NameNoScheme(AcceptName);
    NameNoScheme(RangeName);
    NameNoScheme(ContentLengthName);
    forall e | e in x.ext ensures NoScheme(e.0) {
      ExtensionNoScheme(e);
    }
  }

  lemma SchemeRefused(s: string)
    requires NoScheme(s)
    ensures A.Read(s) == Failure(A.EPROTO)
  {
    assert SkipDelims(s, " ") == s;
    FirstOfSpan(s, " ");
  }

  lemma MergedRefused(h: Header, l: Line)
    requires NoScheme(l.0)
    ensures Process(h, MergedLine(l).0, MergedLine(l).1) == (h, Some(A.EPROTO))
  {
    hide NameText, NameOf;
    NameOfText(AuthorizationName);
    SchemeRefused(LineText(l));
  }

  /** The header without its authorization. */
  function Plainly(x: Header): Header { x.(auth := None) }

  lemma PlainlySame(x: Header)
    ensures FirstLines(Plainly(x)) == FirstLines(x) && LastLines(Plainly(x)) == LastLines(x) && RequestLine(Plainly(x)) == RequestLine(x)
    ensures Lines(Plainly(x)) == FirstLines(x) + LastLines(x)
  {
    hide NameText, Dec, SessionLine, TransportLine, LastLines;
    LinesSplit(Plainly(x));
    SameOthers(x);
    assert [] + LastLines(x) == LastLines(x);
    var cseq := if x.cseq >= 0 then [(NameText(CSeqName), Dec(x.cseq))] else [];
    Regroup(cseq, SessionLine(x), TransportLine(x), LastLines(x));
  }

  lemma SameOthers(x: Header)
    ensures LastLines(Plainly(x)) == LastLines(x) && AuthorizationLine(Plainly(x)) == []
    ensures SessionLine(Plainly(x)) == SessionLine(x) && TransportLine(Plainly(x)) == TransportLine(x)
  {
  }

  /** The lines before the authorization do not stop the reader. */
  lemma FirstProcessed(x: Header, rest: seq<Line>)
    requires Writable(Plainly(x))
    ensures exists h :: ProcessAll(Empty(x.verb, x.uri), FirstLines(x) + rest) == ProcessAll(h, rest)
  {
    hide NameText, SessionLine, TransportLine, ProcessAll, RangeWritable, ExtensionOk, TransportWritable, T.Writable, Dec, Plain;
    var p := Plainly(x);
    var n := Normal(p);
    var h0 := Empty(x.verb, x.uri);
    var cseq := if x.cseq >= 0 then [(NameText(CSeqName), Dec(x.cseq))] else [];
    Regroup(cseq, SessionLine(x), TransportLine(x), rest);
    CSeqStep(h0, x.cseq, SessionLine(x) + (TransportLine(x) + rest));
    var h1 := h0.(cseq := n.cseq);
    SessionStep(h1, x, TransportLine(x) + rest);
    var h2 := h1.(sid := n.sid, timeout := n.timeout);
    TransportsWritable(p);
    TransportStep(h2, x, rest);
    var h3 := h2.(transports := n.transports);
    assert ProcessAll(h0, FirstLines(x) + rest) == ProcessAll(h3, rest);
  }

  /** Reading lines one of which is refused fails. */
  lemma RefusedLines(h: Header, l: Line, rest: seq<Line>)
    requires Process(h, l.0, l.1) == (h, Some(A.EPROTO))
    ensures ProcessAll(h, [l] + rest) == (h, A.EPROTO)
  {
    hide Process;
  }

  lemma OpenLinesOk(x: Header)
    requires Writable(Plainly(x))
    ensures LinesOk(FirstLines(x)) && LinesOk(LastLines(x))
    ensures ReadRequestLine(RequestLine(x)) == Success(Empty(x.verb, x.uri)) && TextLine(RequestLine(x)) && RequestLine(x)[0] != '$'
  {
    hide Lines, FirstLines, LastLines, RequestLine, Writable, LineOk;
    PlainlySame(x);
    LinesAreOk(Plainly(x));
    RequestLineRead(Plainly(x));
    assert forall l :: l in FirstLines(x) ==> l in Lines(Plainly(x));
    assert forall l :: l in LastLines(x) ==> l in Lines(Plainly(x));
  }

  lemma MergedOk(l: Line)
    requires LineOk(l)
    ensures LineOk(MergedLine(l))
  {
    hide NameText;
    NameOfText(AuthorizationName);
  }

  lemma TextsOk(start: string, lines: seq<Line>)
    requires TextLine(start) && LinesOk(lines)
    ensures forall t :: t in [start] + LineTexts(lines) ==> TextLine(t)
  {
    forall i | 0 <= i < |lines| ensures TextLine(LineText(lines[i])) {
      assert LineOk(lines[i]);
    }
  }

  /** Reading closed lines comes down to processing them. */
  lemma ClosedRead(x: Header, lines: seq<Line>, body: string)
    requires TextLine(RequestLine(x)) && RequestLine(x)[0] != '$' && LinesOk(lines)
    requires ReadRequestLine(RequestLine(x)) == Success(Empty(x.verb, x.uri))
    ensures var s := Closed([RequestLine(x)] + LineTexts(lines));
            var (h, ret) := ProcessAll(Empty(x.verb, x.uri), lines);
            Read(s + body) == if ret < 0 then Failure(ret) else Success((h, |s|))
  {
    hide RequestLine, LineTexts, ReadRequestLine, ReadLines, ProcessAll, Closed;
    var texts := [RequestLine(x)] + LineTexts(lines);
    TextsOk(RequestLine(x), lines);
    ClosedFound(texts, body);
    assert texts[1..] == LineTexts(lines);
    LinesRead(Empty(x.verb, x.uri), lines);
  }

  lemma OpenNotRead(x: Header, body: string)
    requires Writable(Plainly(x)) && (x.contentLength <= 0 ==> body == "")
    ensures Read(OpenText(x) + body) == Failure(RequestHeader.EPROTO)
  {
    hide FirstLines, LastLines, RequestLine, Writable, ReadRequestLine, Closed, OpenText, LineTexts, LineOk, NoScheme, MergedLine;
    OpenLinesOk(x);
    var first, last := FirstLines(x), LastLines(x);
    if last == [] {
      NoLength(x);
      OpenTruncates(x);
      NamedLineOk(AuthorizationName, "");
      TruncatedRead(OpenText(x), [RequestLine(x)] + LineTexts(first + [(NameText(AuthorizationName), "")]),
                    first + [(NameText(AuthorizationName), "")]);
      assert OpenText(x) + body == OpenText(x);
    } else {
      OpenMerges(x);
      MergedOk(last[0]);
      var rest := [MergedLine(last[0])] + last[1..];
      ClosedRead(x, first + rest, body);
      ExtensionsOk(x);
      LastNoScheme(x);
      FirstProcessed(x, rest);
      var h :| ProcessAll(Empty(x.verb, x.uri), first + rest) == ProcessAll(h, rest);
      MergedRefused(h, last[0]);
      RefusedLines(h, MergedLine(last[0]), last[1..]);
    }
  }

  lemma ExtensionsOk(x: Header)
    requires Writable(Plainly(x))
    ensures forall e :: e in x.ext ==> ExtensionOk(e)
  {
  }

  lemma NoLength(x: Header)
    requires LastLines(x) == []
    ensures x.contentLength <= 0
  {
    hide NameText;
  }

  lemma TruncatedRead(s: string, texts: seq<string>, lines: seq<Line>)
    requires texts != [] && LinesOk(lines) && TextLine(texts[0]) && texts[1..] == LineTexts(lines) && s + CRLF == Closed(texts)
    ensures Read(s) == Failure(RequestHeader.EPROTO)
  {
    hide Closed, Neat, LineTexts;
    TextsOk(texts[0], lines);
    assert texts == [texts[0]] + LineTexts(lines);
    ClosedNeat(texts);
    PrefixOpen(Closed(texts), |s|);
    assert Closed(texts)[..|s|] == s;
  }

  /**
    A Digest authorization in a header that is otherwise fit to be written: the writer accepts it, and what it wrote is
    read back, in normal form, if and only if the response is not empty; otherwise the reader refuses the header.
   */
  lemma DigestReadBackIff(x: Header, body: string)
    requires x.auth.Some? && x.auth.value.kind.Digest? && Writable(Plainly(x)) && (x.contentLength <= 0 ==> body == "")
    requires x.auth.value.response.UnwrapOr("") != "" ==> AuthWritable(x.auth.value)
    ensures Write(x).Success?
    ensures Read(Write(x).value + body).Success? <==> x.auth.value.response.UnwrapOr("") != ""
    ensures Read(Write(x).value + body) == if LeavesLineOpen(x.auth) then Failure(RequestHeader.EPROTO) else Success((Normal(x), |Write(x).value|))
  {
    hide Read, Normal, OpenText, Closed, Lines, RequestLine, AuthWritable, ExtensionOk, TransportWritable, RangeText;
    if LeavesLineOpen(x.auth) {
      WritesOpen(x);
      OpenNotRead(x, body);
    } else {
      RequestRoundTrip(x, body);
    }
  }

  lemma WritesOpen(x: Header)
    requires LeavesLineOpen(x.auth) && Writable(Plainly(x))
    ensures Write(x) == Success(OpenText(x))
  {
    hide OpenText, RangeText, ExtensionOk, TransportWritable;
  }

  // --- ranges ---

  /** The two limits in the text of a range. */
  function Limits(s: string): (string, Option<string>) { Cut(Cut(Cut(s, ';').0, '=').1.UnwrapOr(""), '-') }

  lemma LimitNow(s: string)
    ensures ReadLimit(s) == Some(Now) <==> s == "now"
    ensures ReadLimit(s) == Some(Infinite) <==> s == ""
  {
    if s == "now" {
      CutNone(s, ':');
    }
  }

  /**
    A range that was read is refused by the writer exactly when its text stops at "now", or gives a dash and no time:
    the reader makes these two checks only when there is no dash.
   */
  lemma ReadNotWrittenIff(s: string)
    requires ReadRange(s).Success?
    ensures RangeText(ReadRange(s).value).Failure? <==>
            (Limits(s).1 == Some("now") || (Limits(s).0 == "" && Limits(s).1 == Some("")))
  {
    hide Cut, ReadLimit;
    LimitNow(Limits(s).0);
    if Limits(s).1.Some? {
      LimitNow(Limits(s).1.value);
    }
  }

  lemma DashRead(first: string, last: string)
    requires ';' !in first && ';' !in last && '-' !in first && ReadLimit(first).Some? && ReadLimit(last).Some?
    requires |first| + |last| < 100
    ensures ReadRange("npt=" + (first + "-" + last)) == Success(Npt(ReadLimit(first).value, Some(ReadLimit(last).value)))
  {
    hide ReadLimit, Cut;
    var times := first + ['-'] + last;
    assert first + "-" + last == times;
    assert "npt=" + times == "npt" + ['='] + times;
    CutNone("npt=" + times, ';');
    CutAt("npt", '=', times);
    CutAt(first, '-', last);
    assert "npt"[0] == 'n' && "smpte"[0] == 's' && "clock"[0] == 'c';
  }

  /** Such texts are accepted by the reader. */
  lemma ReadNotWritten()
    ensures var r := ReadRange("npt=" + ("" + "-" + "")); r == Success(Npt(Infinite, Some(Infinite))) && RangeText(r.value).Failure?
    ensures var r := ReadRange("npt=" + ("now" + "-" + "now")); r == Success(Npt(Now, Some(Now))) && RangeText(r.value).Failure?
  {
    hide ReadLimit, ReadRange;
    LimitNow("");
    LimitNow("now");
    DashRead("", "");
    DashRead("now", "now");
  }
}
