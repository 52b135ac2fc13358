/** The words of the Transport header: what each of them sets when a peer sends it, and where the writer puts them. */
module TransportFields {
  import opened Wrappers
  import opened Text
  import opened Tokens
  import opened Transport
  import Channels
  import RequestFields

  // --- the head of an entry ---

  /** An entry without parameters; only the lower transport depends on the head. */
  function Fresh(lower: Lower): Transport {
    Transport("RTP", "AVP", lower, Multicast, None, None, false, 0, 0, 0, 0, 0, 0, [], None, NoMode)
  }

  /** RTP over AVP: UDP unless the head names another lower transport; any other head is refused. */
  lemma HeadWords(head: string, parts: seq<string>)
    requires parts == All(head, "/")
    ensures ReadHead(head) == if parts == ["RTP", "AVP"] || (|parts| > 2 && parts[..3] == ["RTP", "AVP", "UDP"]) then Some(Fresh(Udp))
                              else if |parts| > 2 && parts[..3] == ["RTP", "AVP", "TCP"] then Some(Fresh(Tcp))
                              else if |parts| > 2 && parts[..3] == ["RTP", "AVP", "MUX"] then Some(Fresh(Mux))
                              else None
  {
    hide All;
    assert "UDP"[0] == 'U' && "TCP"[0] == 'T' && "MUX"[0] == 'M';
    if |parts| == 2 {
      assert parts == [parts[0], parts[1]];
    } else if |parts| > 2 {
      assert parts[..3] == [parts[0], parts[1], parts[2]];
    }
  }

  /** The five heads there are. */
  lemma Heads()
    ensures ReadHead("RTP/AVP") == Some(Fresh(Udp)) && ReadHead("RTP/AVP/UDP") == Some(Fresh(Udp))
    ensures ReadHead("RTP/AVP/TCP") == Some(Fresh(Tcp)) && ReadHead("RTP/AVP/MUX") == Some(Fresh(Mux))
    ensures ReadHead("RTP") == None
  {
    hide ReadHead, All;
    ShortHeads();
    LowerHeads();
  }

  lemma ShortHeads()
    ensures ReadHead("RTP/AVP") == Some(Fresh(Udp)) && ReadHead("RTP") == None
  {
    hide ReadHead, All;
    TwoParts();
    HeadWords("RTP/AVP", ["RTP", "AVP"]);
    NextEnd("RTP", "/");
    HeadWords("RTP", ["RTP"]);
  }

  lemma LowerHeads()
    ensures ReadHead("RTP/AVP/UDP") == Some(Fresh(Udp))
    ensures ReadHead("RTP/AVP/TCP") == Some(Fresh(Tcp)) && ReadHead("RTP/AVP/MUX") == Some(Fresh(Mux))
  {
    hide ReadHead, All;
    ThreeWords("RTP/AVP/UDP", "UDP");
    ThreeWords("RTP/AVP/TCP", "TCP");
    ThreeWords("RTP/AVP/MUX", "MUX");
    assert "UDP"[0] == 'U' && "TCP"[0] == 'T' && "MUX"[0] == 'M';
  }

  lemma ThreeWords(head: string, lower: string)
    requires head == "RTP/AVP" + "/" + lower && lower in {"UDP", "TCP", "MUX"}
    ensures ReadHead(head) == Some(Fresh(if lower == "UDP" then Udp else if lower == "TCP" then Tcp else Mux))
  {
    hide ReadHead, All;
    assert "UDP"[0] == 'U' && "TCP"[0] == 'T' && "MUX"[0] == 'M';
    ThreeParts(lower);
    HeadWords(head, ["RTP", "AVP", lower]);
    assert ["RTP", "AVP", lower][..3] == ["RTP", "AVP", lower];
  }

  lemma TwoParts()
    ensures All("RTP/AVP", "/") == ["RTP", "AVP"]
  {
    NextEnd("AVP", "/");
    NextAt("RTP", "/", "AVP", "/");
    assert "RTP" + "/" + "AVP" == "RTP/AVP";
  }

  lemma ThreeParts(lower: string)
    requires Plain(lower, "/")
    ensures All("RTP/AVP" + "/" + lower, "/") == ["RTP", "AVP", lower]
  {
    NextEnd(lower, "/");
    NextAt("AVP", "/", lower, "/");
    NextAt("RTP", "/", "AVP" + "/" + lower, "/");
    assert "RTP" + "/" + ("AVP" + "/" + lower) == "RTP/AVP" + "/" + lower;
  }

  // --- the parameters of an entry ---

  lemma KeyWord(t: Transport, k: Key, v: string)
    requires k != NoKey && v != ""
    ensures ReadParam(t, KeyText(k) + "=" + v) == Process(t, k, Some(v)) && ReadParam(t, KeyText(k)) == Process(t, k, None)
  {
    hide KeyText, KeyOf, Process, KeyValue;
    KeyOfText(k);
    KeyValueAt(KeyText(k), v);
    KeyAlone(KeyText(k));
  }

  /** The three words without a value. */
  lemma FlagWords(t: Transport)
    ensures ReadParam(t, "unicast") == t.(delivery := Unicast) && ReadParam(t, "multicast") == t.(delivery := Multicast)
    ensures ReadParam(t, "append") == t.(append := true)
  {
    hide ReadParam;
    KeyWord(t, UnicastKey, "1");
    KeyWord(t, MulticastKey, "1");
    KeyWord(t, AppendKey, "1");
  }

  lemma AddressWords(t: Transport, v: string)
    requires v != ""
    ensures ReadParam(t, "destination=" + v) == t.(destination := Some(v)) && ReadParam(t, "source=" + v) == t.(source := Some(v))
  {
    hide ReadParam;
    KeyWord(t, DestinationKey, v);
    KeyWord(t, SourceKey, v);
    assert "destination" + "=" + v == "destination=" + v && "source" + "=" + v == "source=" + v;
  }

  lemma NumberWords(t: Transport, digits: string)
    requires AllDigits(digits) && digits != ""
    ensures ReadParam(t, "ttl=" + digits) == t.(ttl := Value(digits, 0) % 0x1_0000_0000)
    ensures ReadParam(t, "layers=" + digits) == t.(layers := Value(digits, 0) % 0x1_0000_0000)
  {
    hide ReadParam, Value, StrToL;
    DigitsRead(digits, "");
    assert digits + "" == digits;
    KeyWord(t, TtlKey, digits);
    KeyWord(t, LayersKey, digits);
    assert "ttl" + "=" + digits == "ttl=" + digits && "layers" + "=" + digits == "layers=" + digits;
  }

  /** Two ports with a dash, or one port and the next one. */
  lemma PortValues(a: string, b: string)
    requires AllDigits(a) && a != "" && AllDigits(b) && b != ""
    ensures ReadPorts(a + "-" + b) == (Value(a, 0) % 0x1_0000, Value(b, 0) % 0x1_0000)
    ensures ReadPorts(a) == (Value(a, 0) % 0x1_0000, (Value(a, 0) % 0x1_0000 + 1) % 0x1_0000)
  {
    hide Value, StrToL, Cut;
    DigitsRead(a, "-" + b);
    DigitsRead(a, "");
    DigitsRead(b, "");
    assert a + ("-" + b) == a + "-" + b && a + "" == a && b + "" == b;
    assert a + ['-'] + b == a + "-" + b;
    CutAt(a, '-', b);
    CutNone(a, '-');
  }

  /** The ports of the client in `port` and `client_port`, those of the server in `server_port`. */
  lemma PortWords(t: Transport, v: string)
    requires v != ""
    ensures var (stream, control) := ReadPorts(v);
            && ReadParam(t, "port=" + v) == t.(dstStream := stream, dstControl := control)
            && ReadParam(t, "client_port=" + v) == t.(dstStream := stream, dstControl := control)
            && ReadParam(t, "server_port=" + v) == t.(srcStream := stream, srcControl := control)
  {
    hide ReadParam, ReadPorts;
    KeyWord(t, PortKey, v);
    KeyWord(t, ClientPortKey, v);
    KeyWord(t, ServerPortKey, v);
    assert "port" + "=" + v == "port=" + v && "client_port" + "=" + v == "client_port=" + v && "server_port" + "=" + v == "server_port=" + v;
  }

  /** Eight hexadecimal digits of either case. */
  lemma SsrcWords(t: Transport, n: nat, upper: bool)
    requires n < 0x1_0000_0000
    ensures ReadParam(t, "ssrc=" + Hex(n, 8, upper)) == t.(ssrc := Some(n))
  {
    hide ReadParam, Hex;
    var v := Hex(n, 8, upper);
    assert Pow16(8) == 0x1_0000_0000;
    HexReadBack(n, 8, upper);
    assert v[0] in v && v[1] in v;
    assert SkipSpaces(v) == v;
    KeyWord(t, SsrcKey, v);
    assert "ssrc" + "=" + v == "ssrc=" + v;
  }

  /** The mode is PLAY or RECORD in any case, whatever follows the word; any other text leaves it. */
  lemma ModeWords(t: Transport, v: string)
    requires v != ""
    ensures ReadParam(t, "mode=" + v) == if RequestFields.Begins(v, "PLAY") then t.(mode := Play)
                                         else if RequestFields.Begins(v, "RECORD") then t.(mode := Record) else t
  {
    hide ReadParam, StartsWithNoCase, RequestFields.Begins;
    KeyWord(t, ModeKey, v);
    assert "mode" + "=" + v == "mode=" + v;
    BeginsAlike(v, "PLAY");
    BeginsAlike(v, "RECORD");
  }

  lemma BeginsAlike(s: string, p: string)
    requires forall i :: 0 <= i < |p| ==> 'A' <= p[i] <= 'Z'
    ensures StartsWithNoCase(s, p) <==> RequestFields.Begins(s, p)
  {
    forall i | 0 <= i < |p| && i < |s| ensures RequestFields.SameLetter(s[i], p[i]) <==> ToUpper(s[i]) == ToUpper(p[i]) {
      RequestFields.SameUpper(s[i], p[i]);
    }
  }

  /** A pair of channels, each taken modulo 256. */
  lemma InterleavedWords(t: Transport, a: string, b: string)
    requires AllDigits(a) && a != "" && AllDigits(b) && b != ""
    ensures ReadParam(t, "interleaved=" + (a + "-" + b)) == t.(interleaved := [Channels.Pair(Value(a, 0) % 256, Value(b, 0) % 256)])
  {
    hide ReadParam, Value, StrToL, ReadPair;
    var v := a + "-" + b;
    PairWords(a, b);
    assert ',' !in v;
    NextEnd(v, ",");
    KeyWord(t, InterleavedKey, v);
    assert [v][1..] == [];
    assert ReadPairs([v], 10) == [ReadPair(v).value];
    assert "interleaved" + "=" + v == "interleaved=" + v;
  }

  lemma PairWords(a: string, b: string)
    requires AllDigits(a) && a != "" && AllDigits(b) && b != ""
    ensures ReadPair(a + "-" + b) == Some(Channels.Pair(Value(a, 0) % 256, Value(b, 0) % 256))
  {
    hide Value, StrToL;
    DigitsRead(a, "-" + b);
    DigitsRead(b, "");
    assert a + ("-" + b) == a + "-" + b && b + "" == b && ("-" + b)[1..] == b;
  }

  /** Every other word is passed over, and so is a word that lacks its value. */
  lemma OtherWords(t: Transport, key: string, v: string)
    requires Plain(key, "=") && v != ""
    requires key !in {"unicast", "multicast", "append", "destination", "source", "ttl", "layers", "port", "client_port", "server_port",
                      "ssrc", "mode", "interleaved"}
    ensures ReadParam(t, key + "=" + v) == t && ReadParam(t, key) == t
    ensures ReadParam(t, "destination") == ReadParam(t, "client_port") == ReadParam(t, "interleaved") == ReadParam(t, "mode") == t
  {
    hide KeyValue, KeyOf;
    KeyValueAt(key, v);
    KeyAlone(key);
    NotAKey(key);
    KeyWord(t, DestinationKey, v);
    KeyWord(t, ClientPortKey, v);
    KeyWord(t, InterleavedKey, v);
    KeyWord(t, ModeKey, v);
  }

  lemma NotAKey(key: string)
    requires key !in {"unicast", "multicast", "append", "destination", "source", "ttl", "layers", "port", "client_port", "server_port",
                      "ssrc", "mode", "interleaved"}
    ensures KeyOf(key) == NoKey
  {
  }

  /** An entry a peer may send, which the writer never sends: two parts in the head, so UDP. */
  lemma PeerEntry(a: string, b: string, max: nat)
    requires AllDigits(a) && a != "" && AllDigits(b) && b != "" && max > 0
    ensures Read("RTP/AVP;unicast;client_port=" + a + "-" + b, max)
            == ([Fresh(Udp).(delivery := Unicast, dstStream := Value(a, 0) % 0x1_0000, dstControl := Value(b, 0) % 0x1_0000)], 0)
  {
    hide ReadParam, ReadHead, Value, ReadPorts, All;
    var last := "client_port=" + (a + "-" + b);
    var entry := "RTP/AVP;unicast;client_port=" + a + "-" + b;
    Heads();
    FlagWords(Fresh(Udp));
    PortValues(a, b);
    PortWords(Fresh(Udp).(delivery := Unicast), a + "-" + b);
    EntryParts(a, b);
    EntryPlain(a, b);
    NextEnd(entry, ",");
    var params := ["RTP/AVP", "unicast", last];
    assert params[1..] == ["unicast", last];
    ReadTwo(Fresh(Udp), "unicast", last);
    ReadsOne(entry, params, max);
  }

  lemma ReadTwo(t: Transport, p: string, q: string)
    ensures ReadParams(t, [p, q]) == ReadParam(ReadParam(t, p), q)
  {
    hide ReadParam;
    assert [p, q][1..] == [q];
    ReadOne(ReadParam(t, p), q);
  }

  lemma ReadsOne(entry: string, params: seq<string>, max: nat)
    requires Next(entry, ",") == Some((entry, "")) && params == All(entry, ";") && params != [] && ReadEntry(params).Some? && max > 0
    ensures Read(entry, max) == ([ReadEntry(params).value], 0)
  {
    hide ReadEntry, All, Next;
    assert Next("", ",") == None by { NothingLeft(); }
    assert Read("", max - 1) == ([], 0);
    assert [ReadEntry(params).value] + [] == [ReadEntry(params).value];
  }

  lemma NothingLeft()
    ensures Next("", ",") == None
  {
  }

  lemma EntryPlain(a: string, b: string)
    requires AllDigits(a) && AllDigits(b)
    ensures Plain("RTP/AVP;unicast;client_port=" + a + "-" + b, ",")
  {
    assert ',' !in "RTP/AVP;unicast;client_port=";
    assert ',' !in "-";
    assert forall c :: c in "," ==> c == ',';
  }

  lemma EntryParts(a: string, b: string)
    requires AllDigits(a) && AllDigits(b)
    ensures All("RTP/AVP;unicast;client_port=" + a + "-" + b, ";") == ["RTP/AVP", "unicast", "client_port=" + (a + "-" + b)]
  {
    hide All;
    var last := "client_port=" + (a + "-" + b);
    NextEnd(last, ";");
    NextAt("unicast", ";", last, ";");
    NextAt("RTP/AVP", ";", "unicast" + ";" + last, ";");
    EntryText(a + "-" + b);
    assert "RTP/AVP;unicast;client_port=" + a + "-" + b == "RTP/AVP;unicast;client_port=" + (a + "-" + b);
  }

  lemma EntryText(ports: string)
    ensures "RTP/AVP" + ";" + ("unicast" + ";" + ("client_port=" + ports)) == "RTP/AVP;unicast;client_port=" + ports
  {
    assert "RTP/AVP;unicast;client_port=" == "RTP/AVP" + ";" + "unicast" + ";" + "client_port=";
  }

  // --- the writer ---

  /** Two ports, the second of which is the next one when it is not given. */
  function PortsText(stream: nat, control: nat): string {
    Dec(stream) + "-" + Dec(if control == 0 then (stream + 1) % 0x1_0000 else control)
  }

  function When(b: bool, s: string): seq<string> { if b then [s] else [] }

  /** The parameters of an entry, each of which is left out when it is not given, in their order. */
  lemma EntryWords(t: Transport)
    ensures Entry(t) == Join(
      [t.protocol + "/" + t.profile + "/" + (match t.lower case Udp => "UDP" case Tcp => "TCP" case Mux => "MUX")]
      + ([if t.delivery == Unicast then "unicast" else "multicast"]
      + When(t.destination.Some?, "destination=" + t.destination.UnwrapOr(""))
      + When(t.source.Some?, "source=" + t.source.UnwrapOr(""))
      + When(t.append, "append")
      + When(t.ttl != 0, "ttl=" + Dec(t.ttl))
      + When(t.layers != 0, "layers=" + Dec(t.layers))
      + (When(t.dstStream != 0, (if t.delivery == Unicast then "client_port=" else "port=") + PortsText(t.dstStream, t.dstControl))
         + When(t.delivery == Unicast && t.srcStream != 0, "server_port=" + PortsText(t.srcStream, t.srcControl)))
      + When(t.lower == Tcp && t.interleaved != [], "interleaved=" + PairsText(t.interleaved))
      + When(t.ssrc.Some?, "ssrc=" + Hex(t.ssrc.UnwrapOr(0), 8, true))
      + When(t.mode != NoMode, if t.mode == Record then "mode=RECORD" else "mode=PLAY")), ";")
  {
    hide Join, Dec, Hex, PairsText, PortParams;
    PortsAre(t);
    KeyedTexts(t);
  }

  lemma KeyedTexts(t: Transport)
    ensures Setting(DestinationKey, t.destination) == When(t.destination.Some?, "destination=" + t.destination.UnwrapOr(""))
    ensures Setting(SourceKey, t.source) == When(t.source.Some?, "source=" + t.source.UnwrapOr(""))
    ensures Number(TtlKey, t.ttl) == When(t.ttl != 0, "ttl=" + Dec(t.ttl))
    ensures Number(LayersKey, t.layers) == When(t.layers != 0, "layers=" + Dec(t.layers))
    ensures forall s :: KeyText(InterleavedKey) + "=" + s == "interleaved=" + s
    ensures forall s :: KeyText(SsrcKey) + "=" + s == "ssrc=" + s
    ensures t.mode != NoMode ==> KeyText(ModeKey) + "=" + ModeText(t.mode) == if t.mode == Record then "mode=RECORD" else "mode=PLAY"
  {
    hide Dec;
    assert "destination" + "=" == "destination=" && "source" + "=" == "source=" && "ttl" + "=" == "ttl=" && "layers" + "=" == "layers=";
    assert "interleaved" + "=" == "interleaved=" && "ssrc" + "=" == "ssrc=";
    assert "mode" + "=" + "RECORD" == "mode=RECORD" && "mode" + "=" + "PLAY" == "mode=PLAY";
  }

  lemma PortsAre(t: Transport)
    ensures PortParams(t)
            == When(t.dstStream != 0, (if t.delivery == Unicast then "client_port=" else "port=") + PortsText(t.dstStream, t.dstControl))
               + When(t.delivery == Unicast && t.srcStream != 0, "server_port=" + PortsText(t.srcStream, t.srcControl))
  {
    hide Dec;
    assert "client_port" + "=" == "client_port=" && "server_port" + "=" == "server_port=" && "port" + "=" == "port=";
  }

  /** The first pair comes with a dash, the others after commas. */
  lemma PairsWords(a: nat, b: nat, l: seq<Channels.Pair>)
    requires a < 256 && b < 256
    ensures PairsText([Channels.Pair(a, b)] + l) == Dec(a) + "-" + Dec(b) + (if l == [] then "" else "," + PairsText(l))
  {
    hide Dec;
    assert ([Channels.Pair(a, b)] + l)[1..] == l;
  }

  /** The whole field: entries after commas, and the end of the line. */
  lemma FieldWords(t: Transport, l: seq<Transport>)
    requires t.protocol != "" && t.profile != ""
    ensures Write([t]) == "Transport: " + Entry(t) + "\r\n"
    ensures l != [] ==> Entries([t] + l) == Entry(t) + "," + Entries(l)
  {
    hide Entry;
    assert ([t] + l)[1..] == l && [t][1..] == [];
    assert Entries([]) == "";
    assert Entries([t]) == Entry(t) + "" + "";
    assert Entry(t) + "" + "" == Entry(t);
  }
}
