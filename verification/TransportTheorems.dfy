/** What was written comes back: a list of transports, in order, in normal form. */
module TransportTheorems {
  import opened Wrappers
  import opened Text
  import opened Tokens
  import opened Transport

  // --- the characters of an entry ---

  /** A piece of an entry: not empty, and free of the separators of entries and parameters. */
  ghost predicate Piece(s: string) { s != "" && ',' !in s && ';' !in s }

  ghost predicate Pieces(l: seq<string>) { forall s :: s in l ==> Piece(s) }

  lemma DecPiece(n: nat)
    ensures Piece(Dec(n))
  {
  }

  lemma KeyPiece(k: Key)
    requires k != NoKey
    ensures Piece(KeyText(k))
  {
  }

  lemma PortsPieces(key: Key, stream: nat, control: nat)
    requires key != NoKey
    ensures Pieces(Ports(key, stream, control))
  {
    hide KeyText, Dec;
    KeyPiece(key);
    DecPiece(stream);
    DecPiece(Control(stream, control));
  }

  lemma SettingPieces(key: Key, val: Option<string>)
    requires key != NoKey && Free(val)
    ensures Pieces(Setting(key, val))
  {
    hide KeyText;
    KeyPiece(key);
  }

  lemma NumberPieces(key: Key, n: nat)
    requires key != NoKey
    ensures Pieces(Number(key, n))
  {
    hide KeyText, Dec;
    KeyPiece(key);
    DecPiece(n);
  }

  lemma KeyedPiece(key: Key, val: string)
    requires key != NoKey && Piece(val)
    ensures Piece(KeyText(key) + "=" + val)
  {
    hide KeyText;
    KeyPiece(key);
  }

  lemma PortParamsPieces(t: Transport)
    ensures Pieces(PortParams(t))
  {
    hide Ports;
    PortsPieces(ClientPortKey, t.dstStream, t.dstControl);
    PortsPieces(ServerPortKey, t.srcStream, t.srcControl);
    PortsPieces(PortKey, t.dstStream, t.dstControl);
  }

  lemma LastPieces(t: Transport)
    requires Writable(t)
    ensures t.interleaved != [] ==> Piece(KeyText(InterleavedKey) + "=" + PairsText(t.interleaved))
    ensures t.ssrc.Some? ==> Piece(KeyText(SsrcKey) + "=" + Hex(t.ssrc.value, 8, true))
    ensures t.mode != NoMode ==> Piece(KeyText(ModeKey) + "=" + ModeText(t.mode))
  {
    hide KeyText, Dec, Hex;
    if t.interleaved != [] {
      DecPiece(t.interleaved[0].rtp);
      DecPiece(t.interleaved[0].rtcp);
      KeyedPiece(InterleavedKey, PairsText(t.interleaved));
    }
    if t.ssrc.Some? {
      assert Piece(Hex(t.ssrc.value, 8, true));
      KeyedPiece(SsrcKey, Hex(t.ssrc.value, 8, true));
    }
    KeyedPiece(ModeKey, ModeText(t.mode));
  }

  lemma ParamsPieces(t: Transport)
    requires Writable(t)
    ensures Pieces(Params(t)) && Params(t) != []
  {
    hide KeyText, Setting, Number, PortParams, Hex, PairsText, ModeText;
    KeyPiece(if t.delivery == Unicast then UnicastKey else MulticastKey);
    SettingPieces(DestinationKey, t.destination);
    SettingPieces(SourceKey, t.source);
    KeyPiece(AppendKey);
    NumberPieces(TtlKey, t.ttl);
    NumberPieces(LayersKey, t.layers);
    PortParamsPieces(t);
    LastPieces(t);
  }

  lemma {:induction false} JoinKeeps(l: seq<string>, sep: string, c: char)
    requires c !in sep && forall s :: s in l ==> c !in s
    ensures c !in Join(l, sep)
    decreases |l|
  {
    if |l| > 1 {
      JoinKeeps(l[1..], sep, c);
    }
  }

  lemma {:induction false} JoinNotEmpty(l: seq<string>, sep: string)
    requires l != [] && l[0] != ""
    ensures Join(l, sep) != ""
  {
  }

  // --- one entry ---

  lemma HeadRead(t: Transport)
    requires t.protocol == "RTP" && t.profile == "AVP"
    ensures Piece(Head(t)) && ReadHead(Head(t)) == Some(Empty(t.protocol, t.profile, t.lower))
  {
    var l := ["RTP", "AVP", LowerText(t.lower)];
    assert Head(t) == Join(l, "/") by {
      assert Join(l[2..], "/") == LowerText(t.lower);
      assert l[1..][1..] == l[2..];
      assert Join(l[1..], "/") == "AVP" + "/" + LowerText(t.lower);
    }
    LowerPlain(t.lower);
    AllJoined(l, "/", "/");
  }

  lemma LowerPlain(l: Lower)
    ensures Plain(LowerText(l), "/") && Piece(LowerText(l))
    ensures (LowerText(l) == "UDP") == (l == Udp) && (LowerText(l) == "TCP") == (l == Tcp)
  {
    assert "UDP"[0] == 'U' && "TCP"[0] == 'T' && "MUX"[0] == 'M';
  }

  lemma PortParamsRead(s: Transport, t: Transport)
    requires Writable(t)
    ensures var n := Normal(t);
            ReadParams(s, PortParams(t))
            == s.(dstStream := if t.dstStream == 0 then s.dstStream else n.dstStream,
                  dstControl := if t.dstStream == 0 then s.dstControl else n.dstControl,
                  srcStream := if n.srcStream == 0 then s.srcStream else n.srcStream,
                  srcControl := if n.srcStream == 0 then s.srcControl else n.srcControl)
  {
    hide Ports, Control, ReadParams;
    if t.delivery == Unicast {
      var a := Ports(ClientPortKey, t.dstStream, t.dstControl);
      ReadParamsAppend(s, a, Ports(ServerPortKey, t.srcStream, t.srcControl));
      PortsSet(s, ClientPortKey, t.dstStream, t.dstControl);
      PortsSet(ReadParams(s, a), ServerPortKey, t.srcStream, t.srcControl);
    } else {
      PortsSet(s, PortKey, t.dstStream, t.dstControl);
    }
  }

  /** The parameters before the ports, read into an empty entry. */
  lemma FirstParamsRead(t: Transport)
    requires Writable(t)
    ensures var p := [DeliveryText(t.delivery)] + Setting(DestinationKey, t.destination) + Setting(SourceKey, t.source)
                     + (if t.append then [KeyText(AppendKey)] else []) + Number(TtlKey, t.ttl) + Number(LayersKey, t.layers);
            ReadParams(Empty(t.protocol, t.profile, t.lower), p)
            == Empty(t.protocol, t.profile, t.lower).(delivery := t.delivery, destination := NonEmpty(t.destination),
                 source := NonEmpty(t.source), append := t.append, ttl := t.ttl, layers := t.layers)
  {
    hide KeyText, DeliveryText, Setting, Number, ReadParams;
    var s0 := Empty(t.protocol, t.profile, t.lower);
    var p1 := [DeliveryText(t.delivery)];
    DeliveryRead(s0, t.delivery);
    var s1 := s0.(delivery := t.delivery);
    var q2 := Setting(DestinationKey, t.destination);
    ReadParamsAppend(s0, p1, q2);
    SettingRead(s1, DestinationKey, t.destination);
    var s2 := s1.(destination := NonEmpty(t.destination));
    var q3 := Setting(SourceKey, t.source);
    ReadParamsAppend(s0, p1 + q2, q3);
    SettingRead(s2, SourceKey, t.source);
    var s3 := s2.(source := NonEmpty(t.source));
    var q4 := if t.append then [KeyText(AppendKey)] else [];
    ReadParamsAppend(s0, p1 + q2 + q3, q4);
    AppendRead(s3, t.append);
    var s4 := s3.(append := t.append);
    ReadParamsAppend(s0, p1 + q2 + q3 + q4, Number(TtlKey, t.ttl));
    NumberRead(s4, TtlKey, t.ttl);
    var s5 := s4.(ttl := t.ttl);
    ReadParamsAppend(s0, p1 + q2 + q3 + q4 + Number(TtlKey, t.ttl), Number(LayersKey, t.layers));
    NumberRead(s5, LayersKey, t.layers);
  }

  /** The parameters after the ports. */
  lemma LastParamsRead(s: Transport, t: Transport)
    requires Writable(t) && s.interleaved == [] && s.ssrc.None? && s.mode == NoMode
    ensures var q1 := if t.lower == Tcp && t.interleaved != [] then [KeyText(InterleavedKey) + "=" + PairsText(t.interleaved)] else [];
            var q2 := if t.ssrc.Some? then [KeyText(SsrcKey) + "=" + Hex(t.ssrc.value, 8, true)] else [];
            var q3 := if t.mode != NoMode then [KeyText(ModeKey) + "=" + ModeText(t.mode)] else [];
            ReadParams(ReadParams(ReadParams(s, q1), q2), q3)
            == s.(interleaved := Normal(t).interleaved, ssrc := t.ssrc, mode := t.mode)
  {
    hide KeyText, PairsText, Hex, ModeText, ReadParam, Dec;
    var s1 := s.(interleaved := Normal(t).interleaved);
    if t.lower == Tcp && t.interleaved != [] {
      InterleavedRead(s, t.interleaved);
    }
    if t.ssrc.Some? {
      SsrcRead(s1, t.ssrc.value);
    }
    if t.mode != NoMode {
      ModeRead(s1.(ssrc := t.ssrc), t.mode);
    }
  }

  lemma ParamsRead(t: Transport)
    requires Writable(t)
    ensures ReadParams(Empty(t.protocol, t.profile, t.lower), Params(t)) == Normal(t)
  {
    hide KeyText, DeliveryText, Setting, Number, PortParams, ReadParams, PairsText, Hex, ModeText, Control;
    var s0 := Empty(t.protocol, t.profile, t.lower);
    var p := [DeliveryText(t.delivery)] + Setting(DestinationKey, t.destination) + Setting(SourceKey, t.source)
             + (if t.append then [KeyText(AppendKey)] else []) + Number(TtlKey, t.ttl) + Number(LayersKey, t.layers);
    FirstParamsRead(t);
    var s1 := ReadParams(s0, p);
    ReadParamsAppend(s0, p, PortParams(t));
    PortParamsRead(s1, t);
    var s2 := ReadParams(s1, PortParams(t));
    var q1 := if t.lower == Tcp && t.interleaved != [] then [KeyText(InterleavedKey) + "=" + PairsText(t.interleaved)] else [];
    var q2 := if t.ssrc.Some? then [KeyText(SsrcKey) + "=" + Hex(t.ssrc.value, 8, true)] else [];
    var q3 := if t.mode != NoMode then [KeyText(ModeKey) + "=" + ModeText(t.mode)] else [];
    ReadParamsAppend(s0, p + PortParams(t), q1);
    ReadParamsAppend(s0, p + PortParams(t) + q1, q2);
    ReadParamsAppend(s0, p + PortParams(t) + q1 + q2, q3);
    assert Params(t) == p + PortParams(t) + q1 + q2 + q3;
    LastParamsRead(s2, t);
  }

  lemma EntryRead(t: Transport)
    requires Writable(t)
    ensures Plain(Entry(t), ",") && All(Entry(t), ";") == [Head(t)] + Params(t)
    ensures ReadEntry([Head(t)] + Params(t)) == Some(Normal(t))
  {
    hide Head, Params, ReadHead, ReadParams, Normal, All;
    HeadRead(t);
    ParamsPieces(t);
    ParamsRead(t);
    var parts := [Head(t)] + Params(t);
    assert Pieces(parts);
    JoinKeeps(parts, ";", ',');
    JoinNotEmpty(parts, ";");
    AllJoined(parts, ";", ";");
    assert parts[1..] == Params(t);
  }

  // --- lists of entries ---

  function Normals(l: seq<Transport>): seq<Transport> { seq(|l|, i requires 0 <= i < |l| => Normal(l[i])) }

  function Min(a: nat, b: nat): nat { if a < b then a else b }

  lemma NoEntries(max: nat)
    ensures Read("", max) == ([], 0)
  {
    assert Next("", ",") == None;
  }

  /**
    Reading what was written gives the same entries back, in order and in normal form; of more entries than the
    reader takes, the first ones.
   */
  lemma {:induction false} ListRoundTrip(l: seq<Transport>, max: nat)
    requires forall t :: t in l ==> Writable(t)
    ensures Read(Entries(l), max) == (Normals(l)[..Min(|l|, max)], 0)
    decreases |l|
  {
    hide Entry, Normal, ReadEntry, Writable, Next;
    if l == [] {
      NoEntries(max);
    } else {
      var t := l[0];
      EntryRead(t);
      WritableNamed(t);
      var n := l[1..];
      ListRoundTrip(n, if max == 0 then 0 else max - 1);
      if |l| == 1 {
        assert Entries(l) == Entry(t) by {
          assert Entries([]) == "" && n == [];
          assert Entry(t) + "" + "" == Entry(t);
        }
        NextEnd(Entry(t), ",");
        NoEntries(if max == 0 then 0 else max - 1);
      } else {
        assert Entries(l) == Entry(t) + "," + Entries(n);
        NextAt(Entry(t), ",", Entries(n), ",");
        assert ","[1..] + Entries(n) == Entries(n);
      }
      ReadStep(l, max);
    }
  }

  lemma WritableNamed(t: Transport)
    requires Writable(t)
    ensures t.protocol != "" && t.profile != ""
  {
  }

  lemma ReadStep(l: seq<Transport>, max: nat)
    requires l != [] && Writable(l[0]) && Next(Entries(l), ",") == Some((Entry(l[0]), Entries(l[1..])))
    requires var m := if max == 0 then 0 else max - 1; Read(Entries(l[1..]), m) == (Normals(l[1..])[..Min(|l| - 1, m)], 0)
    ensures Read(Entries(l), max) == (Normals(l)[..Min(|l|, max)], 0)
  {
    hide Entry, Normal, ReadEntry, Writable, Entries, All, Head, Params;
    EntryRead(l[0]);
    if max > 0 {
      assert Normals(l)[..Min(|l|, max)] == [Normal(l[0])] + Normals(l[1..])[..Min(|l| - 1, max - 1)];
    }
  }

  ghost predicate WellFormed(t: Transport) {
    && Writable(t) && t.destination != Some("") && t.source != Some("")
    && (t.dstStream == 0 <==> t.dstControl == 0) && (t.srcStream == 0 <==> t.srcControl == 0)
    && (t.delivery == Multicast ==> t.srcStream == 0) && (t.lower != Tcp ==> t.interleaved == [])
  }

  /** A list of one to five well-formed entries comes back unchanged. */
  lemma WellFormedRoundTrip(l: seq<Transport>)
    requires 1 <= |l| <= MAX_COUNT && forall t :: t in l ==> WellFormed(t)
    ensures Read(Entries(l), MAX_COUNT) == (l, 0)
  {
    hide Read, Entries;
    ListRoundTrip(l, MAX_COUNT);
    forall i | 0 <= i < |l| ensures Normal(l[i]) == l[i] {
      assert WellFormed(l[i]);
    }
    assert Normals(l) == l && l[..|l|] == l;
  }

  /** An entry comes back unchanged exactly when it is in normal form; the only exception is a port of 65535. */
  lemma UnchangedIff(t: Transport)
    requires Writable(t)
    ensures Read(Entries([t]), MAX_COUNT) == ([t], 0) <==> Normal(t) == t
    ensures WellFormed(t) ==> Normal(t) == t
    ensures Normal(t) == t && t.dstStream != 65535 && t.srcStream != 65535 ==> WellFormed(t)
  {
    hide Read, Entries;
    ListRoundTrip([t], MAX_COUNT);
    assert Normals([t]) == [Normal(t)] && [Normal(t)][..1] == [Normal(t)];
    assert [Normal(t)][0] == Normal(t) && [t][0] == t;
  }

  // --- the loops ---

  /** `rtsp_transport_header_write`: one entry after the other is appended. */
  method WriteLoop(l: seq<Transport>) returns (s: string)
    ensures s == Write(l)
  {
    hide Entry;
    s := "Transport: ";
    assert l[0..] == l;
    for i := 0 to |l|
      invariant s + Entries(l[i..]) == "Transport: " + Entries(l)
    {
      assert l[i..][1..] == l[i + 1..];
      if l[i].protocol == "" || l[i].profile == "" {
        continue;
      }
      ghost var was := s;
      s := s + Entry(l[i]);
      if i != |l| - 1 {
        s := s + ",";
      }
      assert s + Entries(l[i + 1..]) == was + Entries(l[i..]);
    }
    assert Entries([]) == "" && s + "" == s;
    s := s + "\r\n";
  }

  /** The inner loop of the reader: the parameters of one entry. */
  method ReadParamsLoop(start: Transport, entry: string, from: nat) returns (t: Transport)
    requires from <= |entry|
    ensures t == ReadParams(start, All(entry[from..], ";"))
  {
    hide ReadParam, Next;
    t := start;
    var param, pos := StrTok(entry, from, ";");
    while param.Some?
      invariant pos <= |entry|
      invariant ReadParams(start, All(entry[from..], ";"))
                == ReadParams(t, if param.None? then [] else [param.value] + All(entry[pos..], ";"))
      decreases |entry| - pos, param.Some?
    {
      ghost var rest := All(entry[pos..], ";");
      assert ([param.value] + rest)[1..] == rest;
      t := ReadParam(t, param.value);
      param, pos := StrTok(entry, pos, ";");
    }
  }

  /** `rtsp_transport_header_read` */
  method ReadLoop(s: string, max: nat) returns (l: seq<Transport>, ret: int)
    ensures (l, ret) == Read(s, max)
  {
    hide ReadHead, ReadParams, Next;
    l := [];
    var token, pos := StrTok(s, 0, ",");
    assert s[0..] == s;
    ghost var before := s;
    assert [] + Read(s, max).0 == Read(s, max).0;
    while token.Some? && |l| < max
      invariant pos <= |s| && |l| <= max
      invariant match Next(before, ",") case None => token.None? case Some(n) => token == Some(n.0) && s[pos..] == n.1
      invariant var r := Read(before, max - |l|); Read(s, max) == (l + r.0, r.1)
      decreases |s| - pos, token.Some?
    {
      ghost var params := All(token.value, ";");
      var param, next := StrTok(token.value, 0, ";");
      assert token.value[0..] == token.value;
      ghost var rest := s[pos..];
      if param.None? {
        assert Read(before, max - |l|) == Read(rest, max - |l|);
        before := rest;
        token, pos := StrTok(s, pos, ",");
        continue;
      }
      assert params == [param.value] + All(token.value[next..], ";") && params[1..] == All(token.value[next..], ";");
      var head := ReadHead(param.value);
      if head.None? {
        assert Read(before, max - |l|) == ([], EPROTO) && l + [] == l;
        return l, EPROTO;
      }
      var t := ReadParamsLoop(head.value, token.value, next);
      ghost var r := Read(rest, max - |l| - 1);
      assert Read(before, max - |l|) == ([t] + r.0, r.1);
      assert l + ([t] + r.0) == (l + [t]) + r.0;
      l := l + [t];
      before := rest;
      token, pos := StrTok(s, pos, ",");
    }
    assert Read(before, max - |l|) == ([], 0) && l + [] == l;
    return l, 0;
  }
}
