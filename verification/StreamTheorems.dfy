/** What holds over whole runs of the receive loop, however the stream is cut into chunks. */
module StreamTheorems {
  import opened Wrappers
  import opened Terminator
  import opened Stream

  const LF := '\n'
  const CR := '\r'

  /** All chunks in turn. */
  function ReceiveAll<H>(r: HeaderReader<H>, s: State<H>, chunks: seq<Bytes>): (State<H>, seq<Event<H>>)
    requires ReaderOk(r) && WellFormed(s)
    decreases |chunks|
  {
    if chunks == [] then (s, []) else
    DrainWellFormed(r, State(s.data + chunks[0], s.pending));
    var (t, events) := Receive(r, s, chunks[0]);
    var (u, more) := ReceiveAll(r, t, chunks[1..]);
    (u, events + more)
  }

  /** The loop on the bytes at hand, then the remaining chunks. */
  function Finish<H>(r: HeaderReader<H>, s: State<H>, chunks: seq<Bytes>): (State<H>, seq<Event<H>>)
    requires ReaderOk(r) && WellFormed(s)
  {
    DrainWellFormed(r, s);
    var (t, events) := Drain(r, s);
    var (u, more) := ReceiveAll(r, t, chunks);
    (u, events + more)
  }

  function Idle<H>(): State<H> { State([], None) }

  // --- byte conservation ---

  function Consumed<H>(events: seq<Event<H>>): nat {
    if events == [] then 0
    else (match events[0] case Deliver(m) => m.total case Skip(n) => n) + Consumed(events[1..])
  }

  lemma FlattenAppend(a: seq<Bytes>, b: seq<Bytes>)
    ensures Flatten(a + b) == Flatten(a) + Flatten(b)
  {
    if a != [] {
      assert (a + b)[1..] == a[1..] + b;
      FlattenAppend(a[1..], b);
    } else {
      assert a + b == b;
    }
  }

  /** Over any run every received byte is in exactly one delivered message, in one skipped header, or still buffered. */
  lemma {:induction false} BytesConserved<H>(r: HeaderReader<H>, s: State<H>, orig: Bytes, chunks: seq<Bytes>)
    returns (pieces: seq<Bytes>, rest: Bytes)
    requires ReaderOk(r) && Represents(r, s, orig)
    ensures var (t, events) := ReceiveAll(r, s, chunks);
            && Represents(r, t, rest)
            && Flatten(pieces) + rest == orig + Flatten(chunks) && AllExplained(r, pieces, events)
    decreases |chunks|
  {
    if chunks == [] {
      pieces, rest := [], orig;
    } else {
      AppendRepresents(r, s, orig, chunks[0]);
      var u := State(s.data + chunks[0], s.pending);
      var first, mid := DrainExplained(r, u, orig + chunks[0]);
      var others;
      others, rest := BytesConserved(r, Drain(r, u).0, mid, chunks[1..]);
      pieces := first + others;
      FlattenAppend(first, others);
      AllExplainedAppend(r, first, Drain(r, u).1, others, ReceiveAll(r, Drain(r, u).0, chunks[1..]).1);
      Regroup(Flatten(first), mid, Flatten(others), rest, orig, chunks[0], Flatten(chunks[1..]));
    }
  }

  lemma AllExplainedAppend<H>(r: HeaderReader<H>, a: seq<Bytes>, e: seq<Event<H>>, b: seq<Bytes>, f: seq<Event<H>>)
    requires AllExplained(r, a, e) && AllExplained(r, b, f)
    ensures AllExplained(r, a + b, e + f)
  {
    hide Explains;
    forall i | 0 <= i < |e + f| ensures Explains(r, (a + b)[i], (e + f)[i]) {
      if i < |e| {
        assert (a + b)[i] == a[i] && (e + f)[i] == e[i];
      } else {
        assert (a + b)[i] == b[i - |a|] && (e + f)[i] == f[i - |e|];
      }
    }
  }

  lemma Regroup(a: Bytes, mid: Bytes, b: Bytes, rest: Bytes, orig: Bytes, chunk: Bytes, later: Bytes)
    requires a + mid == orig + chunk && b + rest == mid + later
    ensures a + b + rest == orig + (chunk + later)
  {
    assert a + b + rest == a + (b + rest);
    assert a + (mid + later) == a + mid + later;
    assert orig + chunk + later == orig + (chunk + later);
  }

  /** The same as an equation on lengths, from an idle parser. */
  lemma ByteCount<H>(r: HeaderReader<H>, chunks: seq<Bytes>)
    requires ReaderOk(r)
    ensures var (t, events) := ReceiveAll(r, Idle(), chunks);
            Consumed(events) + |t.data| == |Flatten(chunks)|
  {
    var pieces, rest := BytesConserved(r, Idle(), [], chunks);
    ConsumedIsLength(r, pieces, ReceiveAll(r, Idle(), chunks).1);
    assert [] + Flatten(chunks) == Flatten(chunks);
  }

  lemma ConsumedIsLength<H>(r: HeaderReader<H>, pieces: seq<Bytes>, events: seq<Event<H>>)
    requires AllExplained(r, pieces, events)
    ensures Consumed(events) == |Flatten(pieces)|
  {
    if events != [] {
      assert Explains(r, pieces[0], events[0]);
      assert AllExplained(r, pieces[1..], events[1..]);
      ConsumedIsLength(r, pieces[1..], events[1..]);
    }
  }

  // --- fragmentation ---

  /** A header closed by CR LF CR LF in which no prefix already looks closed. */
  ghost predicate CleanHeader(h: Bytes) {
    && 4 <= |h| && h[0] != INTERLEAVED_MAGIC
    && OccursAt(h, CRLF_CRLF, |h| - 4)
    && FindDoubleNewline(h) == Some((|h| - 4, 4))
    && forall k: nat | k < |h| :: OpenAt(h, k)
  }

  /** The first `k` bytes do not look like a whole header. */
  ghost predicate OpenAt(h: Bytes, k: nat)
    requires k <= |h|
  {
    FindDoubleNewline(h[..k]).None?
  }

  /** `raw` is a well-formed frame that carries `msg`. */
  ghost predicate IsFrame<H>(r: HeaderReader<H>, raw: Bytes, msg: Message<H>) {
    Explains(r, raw, Deliver(msg)) && (msg.Text? ==> CleanHeader(raw[..|raw| - |msg.body|]))
  }

  ghost predicate AreFrames<H>(r: HeaderReader<H>, raws: seq<Bytes>, msgs: seq<Message<H>>) {
    |raws| == |msgs| && forall i | 0 <= i < |raws| :: IsFrame(r, raws[i], msgs[i])
  }

  /** The cut leaves exactly the first three bytes of a `$` packet, and the last two are both LF or both CR. */
  predicate BadHead(raw: Bytes) {
    4 <= |raw| && raw[0] == INTERLEAVED_MAGIC && raw[1] == raw[2] && (raw[1] == LF || raw[1] == CR)
  }

  /** Byte `n` of the stream of frames falls right after such three bytes. */
  predicate BadCutAt(raws: seq<Bytes>, n: nat) {
    raws != [] && if n < |raws[0]| then n == 3 && BadHead(raws[0]) else BadCutAt(raws[1..], n - |raws[0]|)
  }

  /** No chunk ends at a bad cut, `n` bytes having been received before the first of them. */
  predicate SafeCuts(raws: seq<Bytes>, n: nat, chunks: seq<Bytes>)
    decreases |chunks|
  {
    chunks != [] ==> !BadCutAt(raws, n + |chunks[0]|) && SafeCuts(raws, n + |chunks[0]|, chunks[1..])
  }

  /** The number of frames complete within the first `n` bytes. */
  function WholeFrames(raws: seq<Bytes>, n: nat): (k: nat)
    ensures k <= |raws|
  {
    if raws == [] || n < |raws[0]| then 0 else 1 + WholeFrames(raws[1..], n - |raws[0]|)
  }

  function Delivers<H>(msgs: seq<Message<H>>): (events: seq<Event<H>>)
    ensures |events| == |msgs| && forall i | 0 <= i < |msgs| :: events[i] == Deliver(msgs[i])
  {
    seq(|msgs|, i requires 0 <= i < |msgs| => Deliver(msgs[i]))
  }

  predicate SkipsBytes<H>(events: seq<Event<H>>) {
    events != [] && (events[0].Skip? || SkipsBytes(events[1..]))
  }

  lemma NewlinesInThree(s: Bytes)
    requires |s| <= 3 && (s != [] ==> s[0] == INTERLEAVED_MAGIC)
    ensures FindDoubleNewline(s).Some? <==> |s| == 3 && s[1] == s[2] && (s[1] == LF || s[1] == CR)
    ensures FindDoubleNewline(s).Some? ==> FindDoubleNewline(s) == Some((1, 2))
  {
    if |s| == 3 {
      assert s[0..2] == [s[0], s[1]] && s[1..3] == [s[1], s[2]];
      assert StrNStr(s, CRLF_CRLF).None? && StrNStr(s, LF_CRLF_CR).None?;
      assert !OccursAt(s, LF_LF, 0) && !OccursAt(s, CR_CR, 0);
      if s[1] == s[2] == LF {
        StrNStrIsFirst(s, LF_LF, 1);
      } else if s[1] == s[2] == CR {
        StrNStrIsFirst(s, CR_CR, 1);
        assert StrNStr(s, LF_LF).None?;
      }
    }
  }

  /** On a `$` packet: delivered once complete; before that nothing happens, except at a bad cut. */
  lemma NextOnPacket<H>(r: HeaderReader<H>, s: State<H>, orig: Bytes, raw: Bytes, msg: Message<H>)
    requires ReaderOk(r) && Represents(r, s, orig)
    requires IsFrame(r, raw, msg) && msg.Interleaved?
    requires raw <= orig || orig < raw
    ensures s.pending.None? || orig == []
    ensures raw <= orig ==> Next(r, s) == (s, Delivered(msg))
    ensures orig < raw && !(|orig| == 3 && BadHead(raw)) ==> Next(r, s) == (s, Again)
    ensures orig < raw && |orig| == 3 && BadHead(raw) ==> Next(r, s).1 == Malformed(3)
  {
    if orig != [] {
      assert orig[0] == raw[0];
    }
    if raw <= orig {
      assert orig[..|raw|][4..] == raw[4..];
      assert orig[2] == raw[2] && orig[3] == raw[3] && orig[1] == raw[1];
      assert orig[4..|raw|] == raw[4..];
    } else if |orig| >= 4 {
      assert orig[2] == raw[2] && orig[3] == raw[3];
    } else {
      NewlinesInThree(orig);
      if |orig| == 3 {
        assert orig[..3] == orig;
        assert orig[1] == raw[1] && orig[2] == raw[2];
      }
    }
  }

  /** On a text message: delivered once complete, with the header read from the received bytes; nothing before. */
  lemma NextOnText<H>(r: HeaderReader<H>, s: State<H>, orig: Bytes, raw: Bytes, msg: Message<H>)
    requires ReaderOk(r) && Represents(r, s, orig)
    requires IsFrame(r, raw, msg) && msg.Text?
    requires raw <= orig || orig < raw
    ensures raw <= orig ==> Next(r, s).1 == Delivered(msg)
    ensures orig < raw ==> Next(r, s).1.Again?
  {
    hide Next, IsFrame, Explains, CleanHeader, Represents, HeaderKind;
    var h := HeaderOf(r, raw, msg);
    PrefixCases(orig, raw, h);
    if |orig| < |h| {
      HeaderIncomplete(r, s, orig, h);
    } else {
      TextCompletes(r, s, orig, raw, msg, h);
    }
  }

  lemma HeaderOf<H>(r: HeaderReader<H>, raw: Bytes, msg: Message<H>) returns (h: Bytes)
    requires IsFrame(r, raw, msg) && msg.Text?
    ensures CleanHeader(h) && h <= raw && msg.total == |raw|
    ensures raw[|h|..] == msg.body && msg.kind == HeaderKind(h)
    ensures r.read(msg.kind, h) == Some((msg.header, |msg.body|))
  {
    h := raw[..|raw| - |msg.body|];
  }

  lemma PrefixCases(orig: Bytes, raw: Bytes, h: Bytes)
    requires (raw <= orig || orig < raw) && h <= raw
    ensures if |orig| < |h| then orig < h else h <= orig
  {
    if |orig| < |h| {
      assert orig == raw[..|orig|];
    } else {
      assert raw[..|h|] == orig[..|h|];
    }
  }

  lemma TextCompletes<H>(r: HeaderReader<H>, s: State<H>, orig: Bytes, raw: Bytes, msg: Message<H>, h: Bytes)
    requires ReaderOk(r) && Represents(r, s, orig)
    requires msg.Text? && CleanHeader(h) && h <= orig && h <= raw && msg.total == |raw|
    requires raw[|h|..] == msg.body && msg.kind == HeaderKind(h)
    requires r.read(msg.kind, h) == Some((msg.header, |msg.body|))
    ensures raw <= orig ==> Next(r, s).1 == Delivered(msg)
    ensures |orig| < |raw| ==> Next(r, s).1.Again?
  {
    hide Next, FindDoubleNewline;
    var data := HeaderRead(r, s, orig, h, Pending(msg.kind, msg.header, |msg.body|, |h|));
    if raw <= orig {
      BodySlice(data, orig, raw, |h|);
    }
  }

  lemma HeaderIncomplete<H>(r: HeaderReader<H>, s: State<H>, orig: Bytes, h: Bytes)
    requires ReaderOk(r) && Represents(r, s, orig)
    requires CleanHeader(h) && orig < h
    ensures Next(r, s).1.Again?
  {
    assert orig == h[..|orig|] && OpenAt(h, |orig|);
    assert forall n: nat | n <= |orig| :: orig[..n] == h[..n] && OpenAt(h, n);
  }

  /** Once the header is in, the context holds it, be it from this call or from an earlier one. */
  lemma HeaderRead<H>(r: HeaderReader<H>, s: State<H>, orig: Bytes, h: Bytes, p: Pending<H>) returns (data: Bytes)
    requires ReaderOk(r) && Represents(r, s, orig)
    requires CleanHeader(h) && h <= orig
    requires p.headerLen == |h| && p.kind == HeaderKind(h) && r.read(p.kind, h) == Some((p.header, p.bodyLen))
    ensures |data| == |orig| && data[|h|..] == orig[|h|..]
    ensures Next(r, s) == Complete(data, p)
  {
    assert orig[..|h|] == h && orig[0] == h[0];
    if s.pending.Some? {
      HeaderOfFrame(h, orig, s.pending.value.headerLen);
      data := s.data;
    } else {
      assert orig == h + orig[|h|..];
      TerminatorStable(h, orig[|h|..]);
      assert Scratched(h, r.scratch(p.kind, h));
      data := r.scratch(p.kind, h) + orig[|h|..];
    }
  }

  lemma BodySlice(data: Bytes, orig: Bytes, raw: Bytes, n: nat)
    requires n <= |raw| && raw <= orig && |data| == |orig| && data[n..] == orig[n..]
    ensures data[n..|raw|] == raw[n..]
  {
    assert data[n..|raw|] == data[n..][..|raw| - n];
    assert orig[n..][..|raw| - n] == orig[n..|raw|];
    assert raw == orig[..|raw|];
  }

  /** A header that starts with a clean header is that header. */
  lemma HeaderOfFrame(h: Bytes, orig: Bytes, n: nat)
    requires CleanHeader(h) && h <= orig && n <= |orig|
    requires IsHeader(orig[..n]) || n == |h|
    ensures n == |h|
  {
    assert forall k: nat | k < |h| :: orig[..k] == h[..k] && OpenAt(h, k);
    if n >= |h| {
      assert orig[..n] == h + orig[|h|..n];
      TerminatorStable(h, orig[|h|..n]);
    }
  }

  lemma SafeCutsShift(raws: seq<Bytes>, n: nat, chunks: seq<Bytes>)
    requires raws != [] && |raws[0]| <= n
    ensures SafeCuts(raws, n, chunks) <==> SafeCuts(raws[1..], n - |raws[0]|, chunks)
    decreases |chunks|
  {
    if chunks != [] {
      SafeCutsShift(raws, n + |chunks[0]|, chunks[1..]);
    }
  }

  /**
    With `n` bytes at hand and `chunks` to come: with safe cuts the events are the deliveries of exactly
    the frames that are complete; with an unsafe cut bytes are skipped.
   */
  ghost predicate AsPromised<H>(raws: seq<Bytes>, msgs: seq<Message<H>>, n: nat, chunks: seq<Bytes>, events: seq<Event<H>>)
    requires |msgs| == |raws|
  {
    if BadCutAt(raws, n) || !SafeCuts(raws, n, chunks) then SkipsBytes(events)
    else events == Delivers(msgs[..WholeFrames(raws, n + |Flatten(chunks)|)])
  }

  lemma PromiseStep<H>(raws: seq<Bytes>, msgs: seq<Message<H>>, n: nat, chunks: seq<Bytes>, events: seq<Event<H>>)
    requires |msgs| == |raws| > 0 && |raws[0]| <= n
    requires AsPromised(raws[1..], msgs[1..], n - |raws[0]|, chunks, events)
    ensures AsPromised(raws, msgs, n, chunks, [Deliver(msgs[0])] + events)
  {
    SafeCutsShift(raws, n, chunks);
    assert ([Deliver(msgs[0])] + events)[1..] == events;
    var k := WholeFrames(raws[1..], n - |raws[0]| + |Flatten(chunks)|);
    assert msgs[..1 + k] == [msgs[0]] + msgs[1..][..k];
    assert WholeFrames(raws, n + |Flatten(chunks)|) == 1 + k;
  }

  /**
    The run from the middle of a stream of frames: with safe cuts it delivers exactly the frames that
    are complete; with an unsafe cut it skips bytes.
   */
  lemma {:induction false} RunOnFrames<H>(r: HeaderReader<H>, s: State<H>, orig: Bytes,
                                          raws: seq<Bytes>, msgs: seq<Message<H>>, chunks: seq<Bytes>)
    requires ReaderOk(r) && Represents(r, s, orig)
    requires AreFrames(r, raws, msgs) && orig + Flatten(chunks) <= Flatten(raws)
    ensures AsPromised(raws, msgs, |orig|, chunks, Finish(r, s, chunks).1)
    decreases |chunks|, |raws|
  {
    hide Next, Finish, AsPromised, Explains;
    var stream := orig + Flatten(chunks);
    assert orig <= stream;
    if raws == [] {
      assert orig == [] && Flatten(chunks) == [];
      EmptyAgain(r, s);
      RunContinues(r, s, orig, raws, msgs, chunks);
    } else {
      var raw, msg := raws[0], msgs[0];
      assert IsFrame(r, raw, msg);
      HeadOfStream(raw, raws[1..], orig, Flatten(chunks));
      if msg.Interleaved? {
        NextOnPacket(r, s, orig, raw, msg);
      } else {
        NextOnText(r, s, orig, raw, msg);
      }
      if raw <= orig {
        RunDelivers(r, s, orig, raws, msgs, chunks);
      } else if |orig| == 3 && BadHead(raw) {
        RunSkips(r, s, orig, raws, msgs, chunks);
      } else {
        RunContinues(r, s, orig, raws, msgs, chunks);
      }
    }
  }

  lemma EmptyAgain<H>(r: HeaderReader<H>, s: State<H>)
    requires ReaderOk(r) && Represents(r, s, [])
    ensures Next(r, s).1.Again?
  {
  }

  lemma HeadOfStream(raw: Bytes, others: seq<Bytes>, orig: Bytes, later: Bytes)
    requires orig + later <= raw + Flatten(others)
    ensures raw <= orig || orig < raw
  {
    var all := raw + Flatten(others);
    assert orig == all[..|orig|] && raw == all[..|raw|];
  }

  lemma RunSkips<H>(r: HeaderReader<H>, s: State<H>, orig: Bytes,
                    raws: seq<Bytes>, msgs: seq<Message<H>>, chunks: seq<Bytes>)
    requires ReaderOk(r) && Represents(r, s, orig)
    requires |raws| == |msgs| > 0 && IsFrame(r, raws[0], msgs[0])
    requires orig < raws[0] && |orig| == 3 && BadHead(raws[0])
    ensures AsPromised(raws, msgs, |orig|, chunks, Finish(r, s, chunks).1)
  {
    hide FindDoubleNewline, NextText, Complete, ParseInterleaved, CleanHeader;
    BadHeadIsPacket(r, raws[0], msgs[0]);
    NextOnPacket(r, s, orig, raws[0], msgs[0]);
    NextProgress(r, s);
    assert Drain(r, s).1 == [Skip(3)];
    assert Finish(r, s, chunks).1[0].Skip?;
  }

  lemma BadHeadIsPacket<H>(r: HeaderReader<H>, raw: Bytes, msg: Message<H>)
    requires IsFrame(r, raw, msg) && BadHead(raw)
    ensures msg.Interleaved?
  {
  }

  lemma {:induction false} RunDelivers<H>(r: HeaderReader<H>, s: State<H>, orig: Bytes,
                                          raws: seq<Bytes>, msgs: seq<Message<H>>, chunks: seq<Bytes>)
    requires ReaderOk(r) && Represents(r, s, orig)
    requires AreFrames(r, raws, msgs) && orig + Flatten(chunks) <= Flatten(raws)
    requires raws != [] && raws[0] <= orig && Next(r, s).1 == Delivered(msgs[0])
    ensures AsPromised(raws, msgs, |orig|, chunks, Finish(r, s, chunks).1)
    decreases |chunks|, |raws|, 0
  {
    hide FindDoubleNewline, Drain, NextText, Complete, ParseInterleaved;
    var raw, msg := raws[0], msgs[0];
    assert IsFrame(r, raw, msg) && msg.total == |raw|;
    NextExplained(r, s, orig);
    var u := State(RemoveFirst(Next(r, s).0.data, msg.total), None);
    PrefixShift(raw, raws[1..], orig, Flatten(chunks));
    RunOnFrames(r, u, orig[|raw|..], raws[1..], msgs[1..], chunks);
    FinishDelivers(r, s, chunks, msg);
    PromiseStep(raws, msgs, |orig|, chunks, Finish(r, u, chunks).1);
  }

  lemma PrefixShift(raw: Bytes, others: seq<Bytes>, orig: Bytes, later: Bytes)
    requires raw <= orig && orig + later <= raw + Flatten(others)
    ensures orig[|raw|..] + later <= Flatten(others)
  {
    assert orig[|raw|..] + later == (orig + later)[|raw|..];
    assert Flatten(others) == (raw + Flatten(others))[|raw|..];
  }

  lemma FinishDelivers<H>(r: HeaderReader<H>, s: State<H>, chunks: seq<Bytes>, msg: Message<H>)
    requires ReaderOk(r) && WellFormed(s) && Next(r, s).1 == Delivered(msg)
    ensures var u := State(RemoveFirst(Next(r, s).0.data, msg.total), None);
            WellFormed(u) && Finish(r, s, chunks).1 == [Deliver(msg)] + Finish(r, u, chunks).1
  {
    hide FindDoubleNewline, NextText, Complete, ParseInterleaved;
    NextProgress(r, s);
    var u := State(RemoveFirst(Next(r, s).0.data, msg.total), None);
    DrainWellFormed(r, u);
    var d := Drain(r, u);
    assert Drain(r, s) == (d.0, [Deliver(msg)] + d.1);
    var tail := ReceiveAll(r, d.0, chunks).1;
    assert [Deliver(msg)] + d.1 + tail == [Deliver(msg)] + (d.1 + tail);
  }

  lemma {:induction false} RunContinues<H>(r: HeaderReader<H>, s: State<H>, orig: Bytes,
                                           raws: seq<Bytes>, msgs: seq<Message<H>>, chunks: seq<Bytes>)
    requires ReaderOk(r) && Represents(r, s, orig)
    requires AreFrames(r, raws, msgs) && orig + Flatten(chunks) <= Flatten(raws)
    requires Next(r, s).1.Again? && (raws != [] ==> |orig| < |raws[0]| && !(|orig| == 3 && BadHead(raws[0])))
    ensures AsPromised(raws, msgs, |orig|, chunks, Finish(r, s, chunks).1)
    decreases |chunks|, |raws|, 0
  {
    hide Next, Finish, Represents, AsPromised, BadHead, IsFrame;
    NextExplained(r, s, orig);
    var t := Next(r, s).0;
    FinishAgain(r, s, chunks);
    if chunks != [] {
      AppendRepresents(r, t, orig, chunks[0]);
      var u := State(t.data + chunks[0], t.pending);
      ThreeParts(orig, chunks[0], Flatten(chunks[1..]));
      RunOnFrames(r, u, orig + chunks[0], raws, msgs, chunks[1..]);
    }
    PromiseWait(raws, msgs, |orig|, chunks, Finish(r, s, chunks).1);
  }

  lemma ThreeParts(a: Bytes, b: Bytes, c: Bytes)
    ensures a + b + c == a + (b + c)
  {
  }

  lemma PromiseWait<H>(raws: seq<Bytes>, msgs: seq<Message<H>>, n: nat, chunks: seq<Bytes>, events: seq<Event<H>>)
    requires |msgs| == |raws|
    requires raws != [] ==> n < |raws[0]| && !(n == 3 && BadHead(raws[0]))
    requires if chunks == [] then events == [] else AsPromised(raws, msgs, n + |chunks[0]|, chunks[1..], events)
    ensures AsPromised(raws, msgs, n, chunks, events)
  {
  }

  lemma FinishAgain<H>(r: HeaderReader<H>, s: State<H>, chunks: seq<Bytes>)
    requires ReaderOk(r) && WellFormed(s) && Next(r, s).1.Again?
    ensures WellFormed(Next(r, s).0)
    ensures Finish(r, s, chunks).1 == if chunks == [] then [] else
              (var t := Next(r, s).0; Finish(r, State(t.data + chunks[0], t.pending), chunks[1..]).1)
  {
    NextProgress(r, s);
    assert Drain(r, s) == (Next(r, s).0, []);
  }

  /** For any prefix of a stream of frames, cut safely, the frames delivered are the complete ones, in order. */
  lemma CompleteFramesDelivered<H>(r: HeaderReader<H>, raws: seq<Bytes>, msgs: seq<Message<H>>, chunks: seq<Bytes>)
    requires ReaderOk(r) && AreFrames(r, raws, msgs)
    requires Flatten(chunks) <= Flatten(raws) && SafeCuts(raws, 0, chunks)
    ensures var (t, events) := ReceiveAll(r, Idle(), chunks);
            events == Delivers(msgs[..WholeFrames(raws, |Flatten(chunks)|)])
  {
    if chunks == [] {
      assert WholeFrames(raws, 0) == 0 by {
        if raws != [] {
          assert IsFrame(r, raws[0], msgs[0]);
        }
      }
    } else {
      RunFromIdle(r, raws, msgs, chunks);
    }
  }

  lemma RunFromIdle<H>(r: HeaderReader<H>, raws: seq<Bytes>, msgs: seq<Message<H>>, chunks: seq<Bytes>)
    requires ReaderOk(r) && AreFrames(r, raws, msgs)
    requires Flatten(chunks) <= Flatten(raws) && chunks != []
    ensures var (t, events) := ReceiveAll(r, Idle(), chunks);
            if SafeCuts(raws, 0, chunks) then events == Delivers(msgs[..WholeFrames(raws, |Flatten(chunks)|)])
            else SkipsBytes(events)
  {
    hide Next, Drain, IsFrame;
    AppendRepresents(r, Idle(), [], chunks[0]);
    assert [] + chunks[0] == chunks[0];
    RunOnFrames(r, State(chunks[0], None), chunks[0], raws, msgs, chunks[1..]);
    assert Idle<H>().data + chunks[0] == chunks[0];
  }

  lemma AllFramesWhole<H>(r: HeaderReader<H>, raws: seq<Bytes>, msgs: seq<Message<H>>)
    requires AreFrames(r, raws, msgs)
    ensures WholeFrames(raws, |Flatten(raws)|) == |raws|
    ensures Consumed(Delivers(msgs)) == |Flatten(raws)|
  {
    assert AllExplained(r, raws, Delivers(msgs)) by {
      forall i | 0 <= i < |raws| ensures Explains(r, raws[i], Delivers(msgs)[i]) {
        assert IsFrame(r, raws[i], msgs[i]);
      }
    }
    ConsumedIsLength(r, raws, Delivers(msgs));
    if raws != [] {
      assert AreFrames(r, raws[1..], msgs[1..]);
      AllFramesWhole(r, raws[1..], msgs[1..]);
    }
  }

  function Deliveries<H>(events: seq<Event<H>>): seq<Message<H>> {
    if events == [] then []
    else (match events[0] case Deliver(m) => [m] case Skip(_) => []) + Deliveries(events[1..])
  }

  lemma DeliveriesOfDelivers<H>(msgs: seq<Message<H>>)
    ensures Deliveries(Delivers(msgs)) == msgs
  {
    if msgs != [] {
      assert Delivers(msgs)[1..] == Delivers(msgs[1..]);
      DeliveriesOfDelivers(msgs[1..]);
    }
  }

  /** Skipping costs bytes that no delivered message accounts for. */
  lemma SkipsCost<H>(r: HeaderReader<H>, pieces: seq<Bytes>, events: seq<Event<H>>)
    requires AllExplained(r, pieces, events)
    ensures Consumed(events) >= Consumed(Delivers(Deliveries(events))) + if SkipsBytes(events) then 2 else 0
  {
    if events != [] {
      assert Explains(r, pieces[0], events[0]);
      assert AllExplained(r, pieces[1..], events[1..]);
      SkipsCost(r, pieces[1..], events[1..]);
      if events[0].Deliver? {
        DeliversCons(events[0].msg, Deliveries(events[1..]));
      } else {
        assert Deliveries(events) == Deliveries(events[1..]);
      }
    }
  }

  lemma DeliversCons<H>(msg: Message<H>, msgs: seq<Message<H>>)
    ensures Consumed(Delivers([msg] + msgs)) == msg.total + Consumed(Delivers(msgs))
  {
    assert Delivers([msg] + msgs)[1..] == Delivers(msgs);
  }

  /**
    Fragmentation does not matter, exactly when no chunk ends at a bad cut: for a stream of well-formed
    frames the loop delivers exactly those frames and ends idle iff the cuts are safe.
   */
  lemma FragmentationIndependence<H>(r: HeaderReader<H>, raws: seq<Bytes>, msgs: seq<Message<H>>, chunks: seq<Bytes>)
    requires ReaderOk(r) && AreFrames(r, raws, msgs)
    requires Flatten(chunks) == Flatten(raws)
    ensures var (t, events) := ReceiveAll(r, Idle(), chunks);
            Deliveries(events) == msgs && t == Idle() <==> SafeCuts(raws, 0, chunks)
  {
    var (t, events) := ReceiveAll(r, Idle(), chunks);
    var pieces, rest := BytesConserved(r, Idle(), [], chunks);
    AllFramesWhole(r, raws, msgs);
    ByteCount(r, chunks);
    if SafeCuts(raws, 0, chunks) {
      CompleteFramesDelivered(r, raws, msgs, chunks);
      assert msgs[..|msgs|] == msgs;
      DeliveriesOfDelivers(msgs);
    } else {
      RunFromIdle(r, raws, msgs, chunks);
      SkipsCost(r, pieces, events);
    }
  }

  /**
    Why frames must end in CR LF CR LF: a header closed by two equal newlines only is swallowed into a
    longer one as soon as a CR LF CR LF follows anywhere, so what is found depends on where chunks end.
   */
  lemma OtherTerminatorsUnstable(h: Bytes)
    requires forall k | 0 <= k < |h| :: h[k] != '\0'
    requires FindDoubleNewline(h).Some? && FindDoubleNewline(h).value.1 == 2
    ensures var later := FindDoubleNewline(h + CRLF_CRLF);
            && later.Some? && later.value.1 == 4
            && later.value.0 + 4 > |h|
  {
    var s := h + CRLF_CRLF;
    assert OccursAt(s, CRLF_CRLF, |h|);
    SearchPrefix(s, |h|, CRLF_CRLF);
    assert s[..|h|] == h;
  }
}
