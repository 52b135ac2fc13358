/** The receive buffer and parser context of a connection, updated in place by each call. */
module MessageStream {
  import opened Wrappers
  import opened Terminator
  import S = Stream
  import L = StreamLengths

  class MessageStream<H> {
    const reader: S.HeaderReader<H>
    var data: Bytes
    var pending: Option<S.Pending<H>>
    /** The received bytes not yet consumed, as they were received. */
    ghost var unconsumed: Bytes

    ghost function Value(): S.State<H>
      reads this
    {
      S.State(data, pending)
    }

    ghost predicate Valid()
      reads this
    {
      L.ReaderWrites(reader) && S.WellFormed(Value())
    }

    /** The buffer stands for the received bytes, no negative length having been met. */
    ghost predicate Tracked()
      reads this
    {
      L.Fits(Value()) && S.Represents(L.NonNegative(reader), Value(), unconsumed)
    }

    constructor (reader: S.HeaderReader<H>)
      requires L.ReaderWrites(reader)
      ensures Valid() && Tracked() && Value() == S.State([], None) && unconsumed == [] && this.reader == reader
    {
      this.reader := reader;
      data, pending, unconsumed := [], None, [];
    }

    /**
      `rtsp_get_next_message`: the context is filled by a first call and may complete in a later one. The lengths are
      added up in an unsigned 64-bit word.
     */
    method GetNextMessage() returns (out: S.Outcome<H>)
      requires Valid()
      modifies this`data, this`pending
      ensures (Value(), out) == L.NextWord(reader, old(Value()))
      ensures Valid()
    {
      hide FindDoubleNewline;
      L.NextWordKeepsForm(reader, Value());
      match S.ParseInterleaved(data) {
        case Packet(channel, payload) =>
          return S.Delivered(S.Interleaved(channel, payload, 4 + |payload|));
        case Incomplete =>
          return S.Again;
        case NotInterleaved =>
      }
      if pending.None? {
        var end := FindHeaderEnd(data);
        if end.None? {
          return S.Again;
        }
        var headerLen := end.value.0 + end.value.1;
        var header := data[..headerLen];
        var kind := S.HeaderKind(header);
        assert S.Scratched(header, reader.scratch(kind, header));
        data := reader.scratch(kind, header) + data[headerLen..];
        match reader.read(kind, header) {
          case None =>
            return S.Malformed(headerLen);
          case Some((h, contentLength)) =>
            pending := Some(S.Pending(kind, h, contentLength % L.WORD, headerLen));
        }
      }
      var p := pending.value;
      var total := (p.bodyLen + p.headerLen) % L.WORD;
      if |data| < total {
        return S.Again;
      }
      pending := None;
      return S.Delivered(S.Text(p.kind, p.header, if p.headerLen <= total then data[p.headerLen..total] else [], total));
    }

    /** `rtsp_buffer_remove_first_bytes`: never more than there is. */
    method RemoveFirstBytes(count: nat)
      modifies this`data
      ensures data == S.RemoveFirst(old(data), count)
    {
      if count == 0 {
        return;
      }
      var rem := |data| - count;
      if rem < 0 {
        rem := 0;
      }
      data := data[|data| - rem..];
    }

    /**
      The receive loops: append the chunk, deliver what is complete, cut a malformed header away and stop. Unless a
      negative length is met, what was received is what was delivered or skipped and what is left.
     */
    method Receive(chunk: Bytes, ghost turns: nat) returns (events: seq<S.Event<H>>, ghost pieces: seq<Bytes>)
      requires Valid() && L.EndsWithin(reader, S.State(data + chunk, pending), turns)
      modifies this
      ensures Valid()
      ensures (Value(), events) == L.DrainWord(reader, S.State(old(data) + chunk, old(pending)), turns)
      ensures S.ReaderOk(L.NonNegative(reader))
      ensures old(Tracked()) && |old(data)| + |chunk| < L.NO_BUFFER && !L.DrainMeets(reader, S.State(old(data) + chunk, old(pending))) ==>
                && Tracked() && (Value(), events) == S.Receive(L.NonNegative(reader), old(Value()), chunk)
                && S.Flatten(pieces) + unconsumed == old(unconsumed) + chunk
                && S.AllExplained(L.NonNegative(reader), pieces, events)
    {
      hide L.NextWord, S.Next, S.Represents, S.Drain, L.DrainWord, L.EndsWithin, L.DrainMeets, FindDoubleNewline;
      L.NonNegativeOk(reader);
      ghost var start := S.State(data + chunk, pending);
      pieces := [];
      ghost var rest := unconsumed;
      if Tracked() && |data| + |chunk| < L.NO_BUFFER && !L.DrainMeets(reader, start) {
        S.AppendRepresents(L.NonNegative(reader), Value(), unconsumed, chunk);
        pieces, rest := S.DrainExplained(L.NonNegative(reader), start, unconsumed + chunk);
        L.TurnsAgree(reader, start, turns);
      }
      data := data + chunk;
      events := [];
      ghost var left := turns;
      assert events + L.DrainWord(reader, start, turns).1 == L.DrainWord(reader, start, turns).1;
      while true
        invariant S.WellFormed(Value()) && L.EndsWithin(reader, Value(), left)
        invariant L.DrainWord(reader, start, turns)
                  == (L.DrainWord(reader, Value(), left).0, events + L.DrainWord(reader, Value(), left).1)
        decreases left
      {
        L.TurnWord(reader, Value(), events, left);
        L.TurnsLeft(reader, Value(), left);
        var out := GetNextMessage();
        match out {
          case Again =>
            break;
          case Malformed(n) =>
            RemoveFirstBytes(n);
            events := events + [S.Skip(n)];
            break;
          case Delivered(m) =>
            RemoveFirstBytes(m.total);
            events := events + [S.Deliver(m)];
            left := left - 1;
        }
      }
      unconsumed := rest;
    }
  }
}
