/**
  The message parser with the length sum the C code uses: an int is converted to an unsigned 64-bit word and added to
  the length of the header. The other stream modules leave readers out that accept a negative Content-Length; here no
  reader is, and what is proved there carries over to every stream in which no such header is met.
 */
module StreamLengths {
  import opened Wrappers
  import opened Terminator
  import opened Stream
  import opened StreamTheorems

  const WORD := 0x1_0000_0000_0000_0000
  /** More bytes than any buffer holds. */
  const NO_BUFFER := 0x8000_0000_0000_0000

  predicate IsInt(n: int) { -0x8000_0000 <= n < 0x8000_0000 }

  /** What the real readers do: only write NULs, refuse a header that starts with '$', and read lengths with `atoi`. */
  ghost predicate ReaderWrites<H>(r: HeaderReader<H>) {
    && (forall k, h :: Scratched(h, r.scratch(k, h)))
    && (forall k, h :: r.read(k, h).Some? ==> IsInt(r.read(k, h).value.1) && h != [] && h[0] != INTERLEAVED_MAGIC)
  }

  /** The reader that refuses a negative length besides. */
  function NonNegative<H>(r: HeaderReader<H>): HeaderReader<H> {
    HeaderReader((k, h) => if r.read(k, h).Some? && r.read(k, h).value.1 >= 0 then r.read(k, h) else None, r.scratch)
  }

  lemma NonNegativeOk<H>(r: HeaderReader<H>)
    requires ReaderWrites(r)
    ensures ReaderOk(NonNegative(r))
  {
  }

  /** `bodyLen` is a 64-bit word; a body that does not lie within the message is left out. */
  function CompleteWord<H>(data: Bytes, p: Pending<H>): (State<H>, Outcome<H>)
    requires p.headerLen <= |data|
  {
    var total := (p.bodyLen + p.headerLen) % WORD;
    if |data| < total then (State(data, Some(p)), Again)
    else (State(data, None), Delivered(Text(p.kind, p.header, if p.headerLen <= total then data[p.headerLen..total] else [], total)))
  }

  function NextTextWord<H>(r: HeaderReader<H>, data: Bytes): (State<H>, Outcome<H>)
    requires ReaderWrites(r)
  {
    var end := FindDoubleNewline(data);
    if end.None? then (State(data, None), Again) else
    var headerLen := end.value.0 + end.value.1;
    var header := data[..headerLen];
    var kind := HeaderKind(header);
    var scratched := r.scratch(kind, header) + data[headerLen..];
    match r.read(kind, header)
    case None => (State(scratched, None), Malformed(headerLen))
    case Some((h, contentLength)) => CompleteWord(scratched, Pending(kind, h, contentLength % WORD, headerLen))
  }

  function NextWord<H>(r: HeaderReader<H>, s: State<H>): (State<H>, Outcome<H>)
    requires ReaderWrites(r) && WellFormed(s)
  {
    match ParseInterleaved(s.data)
    case Packet(channel, payload) => (s, Delivered(Interleaved(channel, payload, 4 + |payload|)))
    case Incomplete => (s, Again)
    case NotInterleaved =>
      if s.pending.None? then NextTextWord(r, s.data) else CompleteWord(s.data, s.pending.value)
  }

  /** The parser is about to read a header, and that header gives this length. */
  function LengthMet<H>(r: HeaderReader<H>, s: State<H>): Option<int> {
    if s.pending.Some? || !ParseInterleaved(s.data).NotInterleaved? then None else
    match FindDoubleNewline(s.data)
    case None => None
    case Some((at, n)) =>
      var header := s.data[..at + n];
      match r.read(HeaderKind(header), header)
      case None => None
      case Some((_, contentLength)) => Some(contentLength)
  }

  predicate NegativeMet<H>(r: HeaderReader<H>, s: State<H>) { LengthMet(r, s).Some? && LengthMet(r, s).value < 0 }

  /** A length the context holds was not negative, and the buffer is one that fits in memory. */
  predicate Fits<H>(s: State<H>) { |s.data| < NO_BUFFER && (s.pending.Some? ==> s.pending.value.bodyLen < 0x8000_0000) }

  lemma CompleteAgrees<H>(data: Bytes, p: Pending<H>)
    requires p.headerLen <= |data| < NO_BUFFER && p.bodyLen < 0x8000_0000
    ensures CompleteWord(data, p) == Complete(data, p)
  {
  }

  lemma HeaderAgrees<H>(r: HeaderReader<H>, data: Bytes, end: (nat, nat))
    requires ReaderWrites(r) && ReaderOk(NonNegative(r)) && FindDoubleNewline(data) == Some(end) && |data| < NO_BUFFER
    requires end.0 + end.1 <= |data|
    requires var header := data[..end.0 + end.1]; var m := r.read(HeaderKind(header), header); m.Some? ==> m.value.1 >= 0
    ensures NextTextWord(r, data) == NextText(NonNegative(r), data)
  {
    hide FindDoubleNewline, HeaderKind, Complete, CompleteWord;
    var headerLen := end.0 + end.1;
    var header := data[..headerLen];
    var kind := HeaderKind(header);
    var scratched := r.scratch(kind, header) + data[headerLen..];
    assert Scratched(header, r.scratch(kind, header));
    if r.read(kind, header).Some? {
      var (h, contentLength) := r.read(kind, header).value;
      CompleteAgrees(scratched, Pending(kind, h, contentLength, headerLen));
    }
  }

  /** The two parsers make the same call exactly when no negative length is met. */
  lemma SameCallIff<H>(r: HeaderReader<H>, s: State<H>)
    requires ReaderWrites(r) && WellFormed(s) && Fits(s)
    ensures ReaderOk(NonNegative(r))
    ensures NextWord(r, s) == Next(NonNegative(r), s) <==> !NegativeMet(r, s)
    ensures !NegativeMet(r, s) ==> Fits(Next(NonNegative(r), s).0)
    ensures NegativeMet(r, s) ==> Next(NonNegative(r), s).1.Malformed?
  {
    hide FindDoubleNewline, NextText, NextTextWord, HeaderKind, ReaderWrites, ReaderOk;
    NonNegativeOk(r);
    if s.pending.Some? {
      CompleteAgrees(s.data, s.pending.value);
    } else if ParseInterleaved(s.data).NotInterleaved? {
      TextCallIff(r, s);
    }
  }

  lemma TextCallIff<H>(r: HeaderReader<H>, s: State<H>)
    requires ReaderWrites(r) && ReaderOk(NonNegative(r)) && |s.data| < NO_BUFFER
    requires s.pending.None? && ParseInterleaved(s.data).NotInterleaved?
    ensures NextTextWord(r, s.data) == NextText(NonNegative(r), s.data) <==> !NegativeMet(r, s)
    ensures !NegativeMet(r, s) ==> Fits(NextText(NonNegative(r), s.data).0)
    ensures NegativeMet(r, s) ==> NextText(NonNegative(r), s.data).1.Malformed?
  {
    hide FindDoubleNewline, HeaderKind;
    if FindDoubleNewline(s.data).Some? {
      var end := FindDoubleNewline(s.data).value;
      SecondSearchAgrees(s.data);
      if NegativeMet(r, s) {
        NegativeDiffers(r, s.data, end);
      } else {
        HeaderAgrees(r, s.data, end);
        HeaderFits(r, s.data, end);
      }
    }
  }

  lemma NegativeDiffers<H>(r: HeaderReader<H>, data: Bytes, end: (nat, nat))
    requires ReaderWrites(r) && ReaderOk(NonNegative(r)) && FindDoubleNewline(data) == Some(end) && end.0 + end.1 <= |data|
    requires var header := data[..end.0 + end.1]; var m := r.read(HeaderKind(header), header); m.Some? && m.value.1 < 0
    ensures NextText(NonNegative(r), data).1.Malformed? && !NextTextWord(r, data).1.Malformed?
  {
    hide FindDoubleNewline, HeaderKind;
    var header := data[..end.0 + end.1];
    assert Scratched(header, r.scratch(HeaderKind(header), header));
  }

  lemma HeaderFits<H>(r: HeaderReader<H>, data: Bytes, end: (nat, nat))
    requires ReaderWrites(r) && ReaderOk(NonNegative(r)) && FindDoubleNewline(data) == Some(end) && end.0 + end.1 <= |data| < NO_BUFFER
    ensures Fits(NextText(NonNegative(r), data).0)
  {
    hide FindDoubleNewline, HeaderKind;
    var header := data[..end.0 + end.1];
    assert Scratched(header, r.scratch(HeaderKind(header), header));
  }

  /**
    A negative length: down to that of the header the message is delivered, but cut inside its own header; below it the
    message is never complete, whatever arrives.
   */
  lemma NegativeLength<H>(r: HeaderReader<H>, s: State<H>, more: Bytes)
    requires ReaderWrites(r) && WellFormed(s) && Fits(s) && NegativeMet(r, s) && |s.data| + |more| < NO_BUFFER
    ensures var (t, out) := NextWord(r, s);
            var headerLen := FindDoubleNewline(s.data).value.0 + FindDoubleNewline(s.data).value.1;
            var left := headerLen as int + LengthMet(r, s).value;
            if left >= 0 then out.Delivered? && out.msg.total == left && left < headerLen
            else
              && out.Again? && t.pending.Some? && WellFormed(State(t.data + more, t.pending))
              && NextWord(r, State(t.data + more, t.pending)).1.Again?
  {
    hide FindDoubleNewline;
    SecondSearchAgrees(s.data);
    var headerLen := FindDoubleNewline(s.data).value.0 + FindDoubleNewline(s.data).value.1;
    var header := s.data[..headerLen];
    var n := LengthMet(r, s).value;
    assert Scratched(header, r.scratch(HeaderKind(header), header));
    WrappedSum(n, headerLen);
  }

  lemma WrappedSum(n: int, headerLen: nat)
    requires IsInt(n) && n < 0 && headerLen < NO_BUFFER
    ensures (n % WORD + headerLen) % WORD == if headerLen + n >= 0 then headerLen + n else WORD + headerLen + n
  {
    assert n % WORD == n + WORD;
  }

  /** A delivery makes progress exactly when the length is not so negative that less than two bytes are left. */
  lemma ProgressIff<H>(r: HeaderReader<H>, s: State<H>)
    requires ReaderWrites(r) && WellFormed(s) && Fits(s) && NextWord(r, s).1.Delivered?
    ensures 2 <= NextWord(r, s).1.msg.total <= |s.data| <==>
            !(NegativeMet(r, s) && FindDoubleNewline(s.data).value.0 + FindDoubleNewline(s.data).value.1 + LengthMet(r, s).value < 2)
  {
    hide NextWord, Next, FindDoubleNewline;
    SameCallIff(r, s);
    if NegativeMet(r, s) {
      NegativeLength(r, s, []);
      SecondSearchAgrees(s.data);
    } else {
      NextProgress(NonNegative(r), s);
    }
  }

  // --- one message, in its own words ---

  /** A header closed by CR LF CR LF, and by nothing before. */
  ghost predicate ClosedHeader(h: Bytes) {
    && |h| >= 4 && h[|h| - 4..] == "\r\n\r\n"
    && forall i :: 0 <= i < |h| - 4 ==> h[i..i + 4] != "\r\n\r\n" && h[i] != '\0'
  }

  /**
    A header at the front of the buffer goes to the reader for responses when it starts with "RTSP/1.0", and to that for
    requests otherwise; what was read is delivered as such with as many bytes of the body as it says, or waits for them.
   */
  lemma TextRead<H>(r: HeaderReader<H>, h: Bytes, rest: Bytes)
    requires ReaderWrites(r) && ClosedHeader(h) && h[0] != '$' && |h| + |rest| < NO_BUFFER
    ensures var kind := if "RTSP/1.0" <= h then Response else Request;
            var (t, out) := NextWord(r, State(h + rest, None));
            match r.read(kind, h)
            case None => out == Malformed(|h|)
            case Some((x, n)) =>
              n >= 0 ==> if |rest| < n then out == Again && t.pending == Some(Pending(kind, x, n, |h|))
                         else out == Delivered(Text(kind, x, rest[..n], |h| + n))
  {
    hide FindDoubleNewline, HeaderKind, CompleteWord;
    HeaderFound(h, rest);
    KindIs(h);
    var data := h + rest;
    assert data[..|h|] == h && data[|h|..] == rest && data[0] == h[0];
    assert Scratched(h, r.scratch(HeaderKind(h), h));
    if r.read(HeaderKind(h), h).Some? {
      var (x, n) := r.read(HeaderKind(h), h).value;
      if n >= 0 {
        BodyTaken(r.scratch(HeaderKind(h), h), rest, HeaderKind(h), x, n);
        assert n % WORD == n;
      }
    }
  }

  lemma BodyTaken<H>(h: Bytes, rest: Bytes, kind: Kind, x: H, n: nat)
    requires IsInt(n) && |h| + |rest| < NO_BUFFER
    ensures var p := Pending(kind, x, n, |h|);
            CompleteWord(h + rest, p) ==
            if |rest| < n then (State(h + rest, Some(p)), Again)
            else (State(h + rest, None), Delivered(Text(kind, x, rest[..n], |h| + n)))
  {
    if n <= |rest| {
      assert (h + rest)[|h|..|h| + n] == rest[..n];
    }
  }

  lemma HeaderFound(h: Bytes, rest: Bytes)
    requires ClosedHeader(h)
    ensures FindDoubleNewline(h + rest) == Some((|h| - 4, 4))
  {
    hide FindDoubleNewline;
    var s, i := h + rest, |h| - 4;
    assert s[i..i + 4] == h[i..];
    assert OccursAt(s, "\r\n\r\n", i);
    forall k: nat | k < i ensures !OccursAt(s, "\r\n\r\n", k) && s[k] != '\0' {
      assert s[k..k + 4] == h[k..k + 4] && s[k] == h[k];
      assert h[k..k + 4] != "\r\n\r\n";
      NotThere(s, k);
    }
    EndsOfHeader(s, i);
  }

  lemma NotThere(s: Bytes, k: nat)
    requires k + 4 <= |s| && s[k..k + 4] != "\r\n\r\n"
    ensures !OccursAt(s, "\r\n\r\n", k)
  {
  }

  /** A `$` packet at the front: its channel, and a payload of the length its third and fourth byte give. */
  lemma PacketRead<H>(r: HeaderReader<H>, channel: char, high: char, low: char, payload: Bytes, rest: Bytes)
    requires ReaderWrites(r) && |payload| == high as int * 256 + low as int
    ensures var s := State(['$', channel, high, low] + payload + rest, None);
            NextWord(r, s) == (s, Delivered(Interleaved(channel, payload, 4 + |payload|)))
  {
    var data := ['$', channel, high, low] + payload + rest;
    assert data[4..4 + |payload|] == payload;
  }

  // --- whole streams ---

  lemma NextWordKeepsForm<H>(r: HeaderReader<H>, s: State<H>)
    requires ReaderWrites(r) && WellFormed(s)
    ensures WellFormed(NextWord(r, s).0)
  {
    hide FindDoubleNewline;
    if s.pending.None? && ParseInterleaved(s.data).NotInterleaved? && FindDoubleNewline(s.data).Some? {
      SecondSearchAgrees(s.data);
      var headerLen := FindDoubleNewline(s.data).value.0 + FindDoubleNewline(s.data).value.1;
      var header := s.data[..headerLen];
      assert Scratched(header, r.scratch(HeaderKind(header), header));
    }
  }

  /** The receive loop, for at most `turns` calls: with a negative length it may never ask for more. */
  function DrainWord<H>(r: HeaderReader<H>, s: State<H>, turns: nat): (res: (State<H>, seq<Event<H>>))
    requires ReaderWrites(r) && WellFormed(s)
    ensures WellFormed(res.0)
    decreases turns
  {
    if turns == 0 then (s, []) else
    NextWordKeepsForm(r, s);
    var (t, out) := NextWord(r, s);
    match out
    case Again => (t, [])
    case Malformed(n) => (State(RemoveFirst(t.data, n), None), [Skip(n)])
    case Delivered(m) =>
      var (v, events) := DrainWord(r, State(RemoveFirst(t.data, m.total), None), turns - 1);
      (v, [Deliver(m)] + events)
  }

  /** The loop asks for more bytes, or stops at a malformed header, within that many calls. */
  predicate EndsWithin<H>(r: HeaderReader<H>, s: State<H>, turns: nat)
    requires ReaderWrites(r) && WellFormed(s)
    decreases turns
  {
    && turns > 0
    && var (t, out) := NextWord(r, s);
       out.Delivered? ==> EndsWithin(r, State(RemoveFirst(t.data, out.msg.total), None), turns - 1)
  }

  /** One turn of the loop, seen from the events collected so far. */
  lemma TurnWord<H>(r: HeaderReader<H>, s: State<H>, events: seq<Event<H>>, turns: nat)
    requires ReaderWrites(r) && WellFormed(s) && EndsWithin(r, s, turns)
    ensures var (t, out) := NextWord(r, s);
            && WellFormed(t) && (!out.Again? ==> t.pending.None?)
            && (DrainWord(r, s, turns).0, events + DrainWord(r, s, turns).1) == match out
               case Again => (t, events)
               case Malformed(n) => (State(RemoveFirst(t.data, n), None), events + [Skip(n)])
               case Delivered(m) =>
                 var d := DrainWord(r, State(RemoveFirst(t.data, m.total), None), turns - 1);
                 (d.0, events + [Deliver(m)] + d.1)
  {
    hide FindDoubleNewline;
    NextWordKeepsForm(r, s);
    var (t, out) := NextWord(r, s);
    assert events + [] == events;
    if out.Delivered? {
      var rest := DrainWord(r, State(RemoveFirst(t.data, out.msg.total), None), turns - 1).1;
      assert events + ([Deliver(out.msg)] + rest) == events + [Deliver(out.msg)] + rest;
    }
  }

  /** All chunks in turn, with as many calls for each as the buffer has bytes, and one more. */
  function ReceiveAllWord<H>(r: HeaderReader<H>, s: State<H>, chunks: seq<Bytes>): (State<H>, seq<Event<H>>)
    requires ReaderWrites(r) && WellFormed(s)
    decreases |chunks|
  {
    if chunks == [] then (s, []) else
    var (t, events) := DrainWord(r, State(s.data + chunks[0], s.pending), |s.data| + |chunks[0]| + 1);
    var (v, more) := ReceiveAllWord(r, t, chunks[1..]);
    (v, events + more)
  }

  /** The loop on these bytes reads a header with a negative length. */
  predicate DrainMeets<H>(r: HeaderReader<H>, s: State<H>)
    requires ReaderWrites(r) && WellFormed(s)
    decreases |s.data|
  {
    NonNegativeOk(r);
    NextProgress(NonNegative(r), s);
    var (t, out) := Next(NonNegative(r), s);
    NegativeMet(r, s) || (out.Delivered? && DrainMeets(r, State(RemoveFirst(t.data, out.msg.total), t.pending)))
  }

  predicate RunMeets<H>(r: HeaderReader<H>, s: State<H>, chunks: seq<Bytes>)
    requires ReaderWrites(r) && WellFormed(s)
    decreases |chunks|
  {
    chunks != [] &&
    var u := State(s.data + chunks[0], s.pending);
    NonNegativeOk(r);
    DrainWellFormed(NonNegative(r), u);
    DrainMeets(r, u) || RunMeets(r, Drain(NonNegative(r), u).0, chunks[1..])
  }

  /** Without a negative length it is the same loop, and it ends within its turns. */
  lemma {:induction false} DrainAgrees<H>(r: HeaderReader<H>, s: State<H>, turns: nat)
    requires ReaderWrites(r) && WellFormed(s) && Fits(s) && turns > |s.data| && !DrainMeets(r, s)
    ensures ReaderOk(NonNegative(r))
    ensures DrainWord(r, s, turns) == Drain(NonNegative(r), s) && Fits(Drain(NonNegative(r), s).0)
    ensures |Drain(NonNegative(r), s).0.data| <= |s.data| && EndsWithin(r, s, turns)
    decreases turns
  {
    hide Next, NextWord, NegativeMet;
    var q := NonNegative(r);
    NonNegativeOk(r);
    NextProgress(q, s);
    SameCallIff(r, s);
    var (t, out) := Next(q, s);
    if out.Delivered? {
      DrainAgrees(r, State(RemoveFirst(t.data, out.msg.total), t.pending), turns - 1);
    }
  }

  lemma TurnsLeft<H>(r: HeaderReader<H>, s: State<H>, turns: nat)
    requires ReaderWrites(r) && WellFormed(s) && EndsWithin(r, s, turns)
    ensures turns > 0
    ensures var (t, out) := NextWord(r, s);
            out.Delivered? ==> EndsWithin(r, State(RemoveFirst(t.data, out.msg.total), None), turns - 1)
  {
  }

  /** However many calls are allowed, if the loop ends within them it ends in the same way. */
  lemma {:induction false} TurnsAgree<H>(r: HeaderReader<H>, s: State<H>, turns: nat)
    requires ReaderWrites(r) && WellFormed(s) && Fits(s) && !DrainMeets(r, s) && EndsWithin(r, s, turns)
    ensures ReaderOk(NonNegative(r))
    ensures DrainWord(r, s, turns) == Drain(NonNegative(r), s) && Fits(Drain(NonNegative(r), s).0)
    decreases turns
  {
    hide Next, NextWord, NegativeMet;
    var q := NonNegative(r);
    NonNegativeOk(r);
    NextProgress(q, s);
    SameCallIff(r, s);
    var (t, out) := Next(q, s);
    if out.Delivered? {
      TurnsAgree(r, State(RemoveFirst(t.data, out.msg.total), t.pending), turns - 1);
    }
  }

  /**
    Over any run in which no header with a negative length is read, the 64-bit sum makes no difference: what holds of the
    receive loop with a reader that refuses such headers holds of the loop as it is.
   */
  lemma {:induction false} ReceiveAgrees<H>(r: HeaderReader<H>, s: State<H>, chunks: seq<Bytes>)
    requires ReaderWrites(r) && WellFormed(s) && Fits(s) && |s.data| + |Flatten(chunks)| < NO_BUFFER && !RunMeets(r, s, chunks)
    ensures ReaderOk(NonNegative(r))
    ensures ReceiveAllWord(r, s, chunks) == ReceiveAll(NonNegative(r), s, chunks)
    decreases |chunks|
  {
    hide Drain, DrainWord, DrainMeets;
    NonNegativeOk(r);
    if chunks != [] {
      var q := NonNegative(r);
      var u := State(s.data + chunks[0], s.pending);
      DrainWellFormed(q, u);
      DrainAgrees(r, u, |s.data| + |chunks[0]| + 1);
      ReceiveAgrees(r, Drain(q, u).0, chunks[1..]);
    }
  }

  ghost predicate AllDelivered<H>(events: seq<Event<H>>) { forall i :: 0 <= i < |events| ==> events[i].Deliver? }

  lemma PartsDelivered<H>(a: seq<Event<H>>, b: seq<Event<H>>)
    requires AllDelivered(a + b)
    ensures AllDelivered(a) && AllDelivered(b)
  {
    forall i | 0 <= i < |a| ensures a[i].Deliver? {
      assert (a + b)[i] == a[i];
    }
    forall i | 0 <= i < |b| ensures b[i].Deliver? {
      assert (a + b)[|a| + i] == b[i];
    }
  }

  /** A loop that skips nothing met no negative length. */
  lemma {:induction false} DrainClean<H>(r: HeaderReader<H>, s: State<H>)
    requires ReaderWrites(r) && WellFormed(s) && Fits(s)
    requires ReaderOk(NonNegative(r)) && AllDelivered(Drain(NonNegative(r), s).1)
    ensures !DrainMeets(r, s)
    decreases |s.data|
  {
    hide Next, NextWord, NegativeMet;
    var q := NonNegative(r);
    NextProgress(q, s);
    SameCallIff(r, s);
    var (t, out) := Next(q, s);
    match out
    case Again =>
    case Malformed(n) => assert Drain(q, s).1[0] == Skip(n);
    case Delivered(m) =>
      var u := State(RemoveFirst(t.data, m.total), t.pending);
      assert Drain(q, s).1 == [Deliver(m)] + Drain(q, u).1;
      PartsDelivered([Deliver(m)], Drain(q, u).1);
      DrainClean(r, u);
  }

  lemma {:induction false} RunClean<H>(r: HeaderReader<H>, s: State<H>, chunks: seq<Bytes>)
    requires ReaderWrites(r) && WellFormed(s) && Fits(s) && |s.data| + |Flatten(chunks)| < NO_BUFFER
    requires ReaderOk(NonNegative(r)) && AllDelivered(ReceiveAll(NonNegative(r), s, chunks).1)
    ensures !RunMeets(r, s, chunks)
    decreases |chunks|
  {
    hide Drain, DrainWord, DrainMeets;
    if chunks != [] {
      var q := NonNegative(r);
      var u := State(s.data + chunks[0], s.pending);
      DrainWellFormed(q, u);
      var (t, events) := Drain(q, u);
      PartsDelivered(events, ReceiveAll(q, t, chunks[1..]).1);
      DrainClean(r, u);
      DrainAgrees(r, u, |s.data| + |chunks[0]| + 1);
      RunClean(r, t, chunks[1..]);
    }
  }

  /** Safely cut frames, with the reader that refuses negative lengths. */
  lemma FramesReceived<H>(r: HeaderReader<H>, raws: seq<Bytes>, msgs: seq<Message<H>>, chunks: seq<Bytes>)
    requires ReaderWrites(r) && AreFrames(r, raws, msgs)
    requires Flatten(chunks) == Flatten(raws) && SafeCuts(raws, 0, chunks)
    ensures ReaderOk(NonNegative(r)) && ReceiveAll(NonNegative(r), Idle(), chunks) == (Idle(), Delivers(msgs))
  {
    hide SafeCuts, ReceiveAll;
    var q := NonNegative(r);
    NonNegativeOk(r);
    FramesStay(r, raws, msgs);
    FragmentationIndependence(q, raws, msgs, chunks);
    CompleteFramesDelivered(q, raws, msgs, chunks);
    AllFramesWhole(q, raws, msgs);
    assert msgs[..|msgs|] == msgs;
  }

  /**
    The fragmentation theorem for the readers as they are, with the 64-bit sum: whatever else they accept, a stream of
    well-formed frames that is cut safely is delivered frame by frame and leaves the parser idle.
   */
  lemma FramesDelivered<H>(r: HeaderReader<H>, raws: seq<Bytes>, msgs: seq<Message<H>>, chunks: seq<Bytes>)
    requires ReaderWrites(r) && AreFrames(r, raws, msgs) && |Flatten(raws)| < NO_BUFFER
    requires Flatten(chunks) == Flatten(raws) && SafeCuts(raws, 0, chunks)
    ensures var (t, events) := ReceiveAllWord(r, Idle(), chunks); events == Delivers(msgs) && t == Idle()
  {
    hide SafeCuts, ReceiveAll, ReceiveAllWord, RunMeets;
    FramesReceived(r, raws, msgs, chunks);
    RunClean(r, Idle(), chunks);
    ReceiveAgrees(r, Idle(), chunks);
  }

  /** So responses arrive as responses: every frame that starts with the version, and no other, is delivered as one. */
  lemma ResponsesArrive<H>(r: HeaderReader<H>, raws: seq<Bytes>, msgs: seq<Message<H>>, chunks: seq<Bytes>)
    requires ReaderWrites(r) && AreFrames(r, raws, msgs) && |Flatten(raws)| < NO_BUFFER
    requires Flatten(chunks) == Flatten(raws) && SafeCuts(raws, 0, chunks)
    ensures ReceiveAllWord(r, Idle(), chunks) == (Idle(), Delivers(msgs))
    ensures forall i :: 0 <= i < |raws| && raws[i][0] != '$' ==> msgs[i].Text? && (msgs[i].kind == Response <==> "RTSP/1.0" <= raws[i])
  {
    hide ReceiveAllWord, SafeCuts;
    FramesDelivered(r, raws, msgs, chunks);
    forall i | 0 <= i < |raws| && raws[i] != [] && raws[i][0] != '$'
      ensures msgs[i].Text? && (msgs[i].kind == Response <==> "RTSP/1.0" <= raws[i])
    {
      assert IsFrame(r, raws[i], msgs[i]);
      FrameKind(r, raws[i], msgs[i]);
    }
  }

  lemma FrameKind<H>(r: HeaderReader<H>, raw: Bytes, msg: Message<H>)
    requires ReaderWrites(r) && IsFrame(r, raw, msg) && raw != [] && raw[0] != '$'
    ensures msg.Text? && (msg.kind == Response <==> "RTSP/1.0" <= raw)
  {
    hide FindDoubleNewline;
    if msg.Text? {
      var h := raw[..|raw| - |msg.body|];
      assert OccursAt(h, "\r\n\r\n", |h| - 4);
      VersionInHeader(h, raw);
    }
  }

  /** A text that starts with the version does so within a header that ends in CR LF CR LF. */
  lemma VersionInHeader(h: Bytes, raw: Bytes)
    requires h <= raw && |h| >= 4 && OccursAt(h, "\r\n\r\n", |h| - 4)
    ensures "RTSP/1.0" <= h <==> "RTSP/1.0" <= raw
  {
    var v: Bytes := "RTSP/1.0";
    assert v[0] == 'R' && v[1] == 'T' && v[2] == 'S' && v[3] == 'P' && v[4] == '/' && v[5] == '1' && v[6] == '.' && v[7] == '0';
    assert h[|h| - 4..|h|][0] == h[|h| - 4] == '\r';
    if v <= raw {
      assert |h| < 12 ==> |h| - 4 < 8 && raw[|h| - 4] == v[|h| - 4];
    }
  }

  lemma FramesStay<H>(r: HeaderReader<H>, raws: seq<Bytes>, msgs: seq<Message<H>>)
    requires AreFrames(r, raws, msgs)
    ensures AreFrames(NonNegative(r), raws, msgs)
  {
    forall i | 0 <= i < |raws| ensures IsFrame(NonNegative(r), raws[i], msgs[i]) {
      assert IsFrame(r, raws[i], msgs[i]);
    }
  }
}
