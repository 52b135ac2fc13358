/**
  The incremental message parser `rtsp_get_next_message` and the receive loops around it
  (src/rtsp.c:3276-3355, 3431-3546, src/rtsp_client.c:1735-1770, src/rtsp_server.c:1520-1551).

  The two header readers are a parameter, so what is proved here holds for every reader that does what
  the real ones do to the buffer: overwrite header bytes with NUL while cutting the header into tokens.
 */
module Stream {
  import opened Wrappers
  import opened Terminator

  const INTERLEAVED_MAGIC := '$'
  const RTSP_VERSION: Bytes := "RTSP/1.0"

  datatype Kind = Request | Response

  /** A delivered message; `total` is the number of bytes to cut from the front of the buffer. */
  datatype Message<H> =
    | Text(kind: Kind, header: H, body: Bytes, total: nat)
    | Interleaved(channel: char, payload: Bytes, total: nat)

  /**
    `read` gives the header and its Content-Length, or nothing for a malformed header;
    `scratch` gives the header bytes as the reader leaves them in the buffer.
   */
  datatype HeaderReader<!H> = HeaderReader(read: (Kind, Bytes) -> Option<(H, int)>, scratch: (Kind, Bytes) -> Bytes)

  predicate Scratched(before: Bytes, after: Bytes) {
    |after| == |before| && forall i | 0 <= i < |before| :: after[i] == before[i] || after[i] == '\0'
  }

  /** What the parser needs of a reader: it only writes NULs, and accepts neither '$' first nor a negative length. */
  ghost predicate ReaderOk<H>(r: HeaderReader<H>) {
    && (forall k, h :: Scratched(h, r.scratch(k, h)))
    && (forall k, h :: r.read(k, h).Some? ==> r.read(k, h).value.1 >= 0 && h != [] && h[0] != INTERLEAVED_MAGIC)
  }

  /** The parser context: a header already read, whose body is not complete yet. */
  datatype Pending<H> = Pending(kind: Kind, header: H, bodyLen: nat, headerLen: nat)

  datatype State<H> = State(data: Bytes, pending: Option<Pending<H>>)

  datatype Outcome<H> = Delivered(msg: Message<H>) | Again | Malformed(skip: nat)

  // --- interleaved packets (RFC 2326, section 10.12) ---

  datatype Packet = NotInterleaved | Incomplete | Packet(channel: char, payload: Bytes)

  function ParseInterleaved(data: Bytes): (r: Packet) {
    if |data| < 4 || data[0] != INTERLEAVED_MAGIC then NotInterleaved else
    var len := data[2] as int * 256 + data[3] as int;
    if |data| < 4 + len then Incomplete else Packet(data[1], data[4..4 + len])
  }

  /** `rtsp_build_interleaved`: nothing for an empty payload or one longer than 65531 bytes. */
  function BuildInterleaved(channel: char, payload: Bytes): (r: Option<Bytes>) {
    if channel as int > 255 || |payload| == 0 || |payload| > 0xFFFF - 4 then None
    else Some([INTERLEAVED_MAGIC, channel, (|payload| / 256) as char, (|payload| % 256) as char] + payload)
  }

  /** A built packet is parsed back, whatever follows it, and no proper prefix of it is taken for a packet. */
  lemma BuildThenParse(channel: char, payload: Bytes, rest: Bytes, cut: nat)
    requires BuildInterleaved(channel, payload).Some?
    ensures var packet := BuildInterleaved(channel, payload).value;
            && ParseInterleaved(packet + rest) == Packet(channel, payload)
            && (cut < |packet| ==> !ParseInterleaved(packet[..cut]).Packet?)
  {
    var packet := BuildInterleaved(channel, payload).value;
    assert (packet + rest)[4..4 + |payload|] == payload;
  }

  /** A packet: `$`, the channel, the length in two bytes, and the payload of 1 to 65531 bytes. */
  lemma PacketWritten(channel: char, payload: Bytes)
    ensures var packet := BuildInterleaved(channel, payload);
            && (packet.Some? <==> channel as int <= 255 && 1 <= |payload| <= 65531)
            && (packet.Some? ==>
                  packet.value == "$" + [channel] + [(|payload| / 256) as char] + [(|payload| - |payload| / 256 * 256) as char] + payload)
  {
  }

  // --- text messages ---

  function HeaderKind(header: Bytes): Kind {
    if |header| >= |RTSP_VERSION| && header[..|RTSP_VERSION|] == RTSP_VERSION then Response else Request
  }

  /** A header is one of a response exactly when it starts with the version. */
  lemma KindIs(header: Bytes)
    ensures HeaderKind(header) == Response <==> "RTSP/1.0" <= header
  {
    if "RTSP/1.0" <= header {
      assert header[..8] == "RTSP/1.0";
    }
  }

  function Complete<H>(data: Bytes, p: Pending<H>): (State<H>, Outcome<H>)
    requires p.headerLen <= |data|
  {
    var total := p.bodyLen + p.headerLen;
    if |data| < total then (State(data, Some(p)), Again)
    else (State(data, None), Delivered(Text(p.kind, p.header, data[p.headerLen..total], total)))
  }

  /** `total_len` as the C code adds it up, in unsigned 64-bit words. */
  function TotalLength(contentLength: int, headerLen: nat): nat {
    (contentLength % 0x1_0000_0000_0000_0000 + headerLen) % 0x1_0000_0000_0000_0000
  }

  /**
    Why the length must not be negative: exactly then the sum is the length of header and body. Otherwise the message
    is either cut inside its own header, or waits for more bytes than any buffer holds.
   */
  lemma TotalLengthExactIff(contentLength: int, headerLen: int)
    requires -0x8000_0000 <= contentLength < 0x8000_0000 && 2 <= headerLen < 0x8000_0000_0000_0000
    ensures TotalLength(contentLength, headerLen) >= headerLen && TotalLength(contentLength, headerLen) - headerLen < 0x8000_0000
            <==> contentLength >= 0
    ensures contentLength >= 0 ==> TotalLength(contentLength, headerLen) as int == headerLen + contentLength
    ensures -headerLen <= contentLength < 0 ==> TotalLength(contentLength, headerLen) < headerLen
    ensures contentLength < -headerLen ==> TotalLength(contentLength, headerLen) > 0x8000_0000_0000_0000
  {
    var w := 0x1_0000_0000_0000_0000;
    if contentLength < 0 {
      assert contentLength % w == contentLength + w;
      assert contentLength + headerLen >= 0 ==> (contentLength + w + headerLen) % w == contentLength + headerLen;
    }
  }

  /** A half-read message is still at the front of the buffer, which does not start with '$'. */
  ghost predicate WellFormed<H>(s: State<H>) {
    s.pending.Some? ==> 2 <= s.pending.value.headerLen <= |s.data| && s.data[0] != INTERLEAVED_MAGIC
  }

  function NextText<H>(r: HeaderReader<H>, data: Bytes): (State<H>, Outcome<H>)
    requires ReaderOk(r)
  {
    var end := FindDoubleNewline(data);
    if end.None? then (State(data, None), Again) else
    var headerLen := end.value.0 + end.value.1;
    var header := data[..headerLen];
    var kind := HeaderKind(header);
    var scratched := r.scratch(kind, header) + data[headerLen..];
    match r.read(kind, header)
    case None => (State(scratched, None), Malformed(headerLen))
    case Some((h, contentLength)) => Complete(scratched, Pending(kind, h, contentLength, headerLen))
  }

  /** One call of `rtsp_get_next_message`. */
  function Next<H>(r: HeaderReader<H>, s: State<H>): (State<H>, Outcome<H>)
    requires ReaderOk(r) && WellFormed(s)
  {
    match ParseInterleaved(s.data)
    case Packet(channel, payload) => (s, Delivered(Interleaved(channel, payload, 4 + |payload|)))
    case Incomplete => (s, Again)
    case NotInterleaved =>
      if s.pending.None? then NextText(r, s.data) else Complete(s.data, s.pending.value)
  }

  /** Cutting bytes from the front; asking for more than there is empties the buffer. */
  function RemoveFirst(data: Bytes, count: nat): Bytes {
    if count > |data| then [] else data[count..]
  }

  // --- what the bytes of the stream say, independently of the parser's state ---

  datatype Event<H> = Deliver(msg: Message<H>) | Skip(count: nat)

  ghost predicate IsHeader(h: Bytes) {
    FindDoubleNewline(h).Some? && FindDoubleNewline(h).value.0 + FindDoubleNewline(h).value.1 == |h|
  }

  /** The received bytes `raw` are what event `e` stands for. */
  ghost predicate Explains<H>(r: HeaderReader<H>, raw: Bytes, e: Event<H>) {
    match e
    case Deliver(Interleaved(channel, payload, total)) =>
      && total == |raw| == 4 + |payload|
      && raw[0] == '$' && raw[1] == channel
      && raw[2] as int * 256 + raw[3] as int == |payload|
      && raw[4..] == payload
    case Deliver(Text(kind, header, body, total)) =>
      && total == |raw| && |body| <= |raw|
      && var h := raw[..|raw| - |body|];
      && raw[|h|..] == body && IsHeader(h) && (kind == Response <==> "RTSP/1.0" <= h)
      && r.read(kind, h) == Some((header, |body|))
    case Skip(count) =>
      count == |raw| && IsHeader(raw) && r.read(if "RTSP/1.0" <= raw then Response else Request, raw).None?
  }

  /**
    `orig` is what was received and not consumed yet: the buffer holds it, except that the bytes of a
    header read already may have been overwritten, and then the context holds what that header said.
   */
  ghost predicate Represents<H>(r: HeaderReader<H>, s: State<H>, orig: Bytes) {
    match s.pending
    case None => s.data == orig
    case Some(p) =>
      && WellFormed(s) && |orig| == |s.data|
      && s.data[p.headerLen..] == orig[p.headerLen..]
      && IsHeader(orig[..p.headerLen]) && (p.kind == Response <==> "RTSP/1.0" <= orig[..p.headerLen])
      && r.read(p.kind, orig[..p.headerLen]) == Some((p.header, p.bodyLen))
  }

  /** Each call keeps the correspondence, and a delivery or a skip is explained by at least two received bytes. */
  lemma NextExplained<H>(r: HeaderReader<H>, s: State<H>, orig: Bytes)
    requires ReaderOk(r) && Represents(r, s, orig)
    ensures WellFormed(s)
    ensures var (t, out) := Next(r, s);
            && WellFormed(t) && |t.data| == |s.data|
            && match out
               case Again => Represents(r, t, orig)
               case Delivered(m) =>
                 && 2 <= m.total <= |orig| && Explains(r, orig[..m.total], Deliver(m))
                 && t.pending.None? && t.data[m.total..] == orig[m.total..]
               case Malformed(n) =>
                 && 2 <= n <= |orig| && Explains(r, orig[..n], Skip(n))
                 && t.pending.None? && t.data[n..] == orig[n..]
  {
    match ParseInterleaved(s.data)
    case Packet(channel, payload) =>
      assert s.pending.None?;
      assert orig[..4 + |payload|][4..] == payload;
    case Incomplete =>
    case NotInterleaved =>
      match s.pending
      case None => NextTextExplained(r, orig);
      case Some(p) => CompleteExplained(r, s.data, p, orig);
  }

  lemma CompleteExplained<H>(r: HeaderReader<H>, data: Bytes, p: Pending<H>, orig: Bytes)
    requires Represents(r, State(data, Some(p)), orig)
    ensures var (t, out) := Complete(data, p);
            && WellFormed(t) && t.data == data && !out.Malformed?
            && (out.Again? ==> Represents(r, t, orig))
            && (out.Delivered? ==>
                  && var m := out.msg;
                  && 2 <= m.total <= |orig| && Explains(r, orig[..m.total], Deliver(m))
                  && t.pending.None? && t.data[m.total..] == orig[m.total..])
  {
    var total := p.bodyLen + p.headerLen;
    if total <= |data| {
      var raw := orig[..total];
      assert raw[..p.headerLen] == orig[..p.headerLen];
      assert data[p.headerLen..][..p.bodyLen] == data[p.headerLen..total];
      assert orig[p.headerLen..][..p.bodyLen] == raw[p.headerLen..];
      assert data[p.headerLen..][p.bodyLen..] == data[total..];
      assert orig[p.headerLen..][p.bodyLen..] == orig[total..];
    }
  }

  lemma NextTextExplained<H>(r: HeaderReader<H>, orig: Bytes)
    requires ReaderOk(r)
    ensures var (t, out) := NextText(r, orig);
            && WellFormed(t) && |t.data| == |orig|
            && match out
               case Again => Represents(r, t, orig)
               case Delivered(m) =>
                 && 2 <= m.total <= |orig| && Explains(r, orig[..m.total], Deliver(m))
                 && t.pending.None? && t.data[m.total..] == orig[m.total..]
               case Malformed(n) =>
                 && 2 <= n <= |orig| && Explains(r, orig[..n], Skip(n))
                 && t.pending.None? && t.data[n..] == orig[n..]
  {
    var end := FindDoubleNewline(orig);
    if end.Some? {
      SecondSearchAgrees(orig);
      var headerLen := end.value.0 + end.value.1;
      var header := orig[..headerLen];
      var kind := HeaderKind(header);
      assert Scratched(header, r.scratch(kind, header));
      var scratched := r.scratch(kind, header) + orig[headerLen..];
      assert scratched[headerLen..] == orig[headerLen..];
      KindIs(header);
      assert orig[..headerLen] == header;
      if r.read(kind, header).Some? {
        var (h, contentLength) := r.read(kind, header).value;
        CompleteExplained(r, scratched, Pending(kind, h, contentLength, headerLen), orig);
      }
    }
  }

  // --- the receive loop ---

  /** Each successful call accounts for at least two of the bytes in the buffer: the loop makes progress. */
  lemma NextProgress<H>(r: HeaderReader<H>, s: State<H>)
    requires ReaderOk(r) && WellFormed(s)
    ensures var (t, out) := Next(r, s);
            && WellFormed(t) && |t.data| == |s.data|
            && (out.Delivered? ==> 2 <= out.msg.total <= |s.data| && t.pending.None?)
            && (out.Malformed? ==> 2 <= out.skip <= |s.data| && t.pending.None?)
  {
    if s.pending.None? {
      NextExplained(r, s, s.data);
    }
  }

  /** Calls `Next` until it asks for more bytes; a malformed header is cut away and ends the loop. */
  function Drain<H>(r: HeaderReader<H>, s: State<H>): (State<H>, seq<Event<H>>)
    requires ReaderOk(r) && WellFormed(s)
    decreases |s.data|
  {
    NextProgress(r, s);
    var (t, out) := Next(r, s);
    match out
    case Again => (t, [])
    case Malformed(n) => (State(RemoveFirst(t.data, n), t.pending), [Skip(n)])
    case Delivered(m) =>
      var (v, events) := Drain(r, State(RemoveFirst(t.data, m.total), t.pending));
      (v, [Deliver(m)] + events)
  }

  /** One turn of the loop, seen from the events collected so far. */
  lemma DrainStep<H>(r: HeaderReader<H>, s: State<H>, events: seq<Event<H>>)
    requires ReaderOk(r) && WellFormed(s)
    ensures var (t, out) := Next(r, s);
            && WellFormed(t) && |t.data| == |s.data|
            && (out.Delivered? ==> out.msg.total <= |s.data| && t.pending.None?)
            && (Drain(r, s).0, events + Drain(r, s).1) == match out
               case Again => (t, events)
               case Malformed(n) => (State(RemoveFirst(t.data, n), t.pending), events + [Skip(n)])
               case Delivered(m) =>
                 var u := State(RemoveFirst(t.data, m.total), t.pending);
                 (Drain(r, u).0, events + [Deliver(m)] + Drain(r, u).1)
  {
    hide FindDoubleNewline;
    NextProgress(r, s);
    var (t, out) := Next(r, s);
    assert events + [] == events;
    if out.Delivered? {
      var rest := Drain(r, State(RemoveFirst(t.data, out.msg.total), t.pending)).1;
      assert events + ([Deliver(out.msg)] + rest) == events + [Deliver(out.msg)] + rest;
    }
  }

  lemma DrainWellFormed<H>(r: HeaderReader<H>, s: State<H>)
    requires ReaderOk(r) && WellFormed(s)
    ensures WellFormed(Drain(r, s).0)
    decreases |s.data|
  {
    NextProgress(r, s);
    var (t, out) := Next(r, s);
    if out.Delivered? {
      DrainWellFormed(r, State(RemoveFirst(t.data, out.msg.total), t.pending));
    }
  }

  /** One chunk: append it to the buffer, then run the loop. */
  function Receive<H>(r: HeaderReader<H>, s: State<H>, chunk: Bytes): (State<H>, seq<Event<H>>)
    requires ReaderOk(r) && WellFormed(s)
  {
    Drain(r, State(s.data + chunk, s.pending))
  }

  lemma AppendRepresents<H>(r: HeaderReader<H>, s: State<H>, orig: Bytes, chunk: Bytes)
    requires Represents(r, s, orig)
    ensures Represents(r, State(s.data + chunk, s.pending), orig + chunk)
    ensures WellFormed(State(s.data + chunk, s.pending))
  {
    if s.pending.Some? {
      var n := s.pending.value.headerLen;
      assert (orig + chunk)[..n] == orig[..n];
      assert (orig + chunk)[n..] == orig[n..] + chunk;
      assert (s.data + chunk)[n..] == s.data[n..] + chunk;
    }
  }

  function Flatten(chunks: seq<Bytes>): Bytes {
    if chunks == [] then [] else chunks[0] + Flatten(chunks[1..])
  }

  lemma FlattenCons(first: Bytes, others: seq<Bytes>, rest: Bytes)
    ensures Flatten([first] + others) + rest == first + (Flatten(others) + rest)
  {
    assert ([first] + others)[1..] == others;
  }

  ghost predicate AllExplained<H>(r: HeaderReader<H>, pieces: seq<Bytes>, events: seq<Event<H>>) {
    |pieces| == |events| && forall i | 0 <= i < |events| :: Explains(r, pieces[i], events[i])
  }

  /** The loop cuts the stream into consecutive pieces, each explained by its event, and a rest it still holds. */
  lemma DrainExplained<H>(r: HeaderReader<H>, s: State<H>, orig: Bytes) returns (pieces: seq<Bytes>, rest: Bytes)
    requires ReaderOk(r) && Represents(r, s, orig)
    ensures var (t, events) := Drain(r, s);
            && Represents(r, t, rest)
            && Flatten(pieces) + rest == orig && AllExplained(r, pieces, events)
    decreases |s.data|
  {
    hide Next, Explains;
    NextExplained(r, s, orig);
    var (t, out) := Next(r, s);
    match out
    case Again => pieces, rest := [], orig;
    case Malformed(n) =>
      pieces, rest := [orig[..n]], orig[n..];
      FlattenCons(orig[..n], [], rest);
    case Delivered(m) =>
      var u := State(RemoveFirst(t.data, m.total), t.pending);
      var tail;
      tail, rest := DrainExplained(r, u, orig[m.total..]);
      pieces := [orig[..m.total]] + tail;
      FlattenCons(orig[..m.total], tail, rest);
      assert orig[..m.total] + orig[m.total..] == orig;
  }
}
