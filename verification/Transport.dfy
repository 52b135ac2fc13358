/** The Transport header: its writer and its reader undo each other (src/rtsp.c:1291-1769; section 12.39 of RFC 2326). */
module Transport {
  import opened Wrappers
  import opened Text
  import opened Tokens
  import opened Channels

  const MAX_COUNT := 5
  const MAX_INTERLEAVED := 10
  const EPROTO := -71

  datatype Lower = Udp | Tcp | Mux

  datatype Delivery = Multicast | Unicast

  datatype Mode = NoMode | Play | Record

  datatype Transport = Transport(
    protocol: string, profile: string, lower: Lower, delivery: Delivery, destination: Option<string>, source: Option<string>,
    append: bool, ttl: nat, layers: nat, dstStream: nat, dstControl: nat, srcStream: nat, srcControl: nat,
    interleaved: seq<Pair>, ssrc: Option<nat>, mode: Mode)

  function Empty(protocol: string, profile: string, lower: Lower): Transport {
    Transport(protocol, profile, lower, Multicast, None, None, false, 0, 0, 0, 0, 0, 0, [], None, NoMode)
  }

  function LowerText(l: Lower): string { match l case Udp => "UDP" case Tcp => "TCP" case Mux => "MUX" }

  function DeliveryText(d: Delivery): string { KeyText(if d == Unicast then UnicastKey else MulticastKey) }

  function ModeText(m: Mode): string { if m == Record then "RECORD" else "PLAY" }

  function U16(x: int): nat { x % 0x1_0000 }

  function U32(x: int): nat { x % 0x1_0000_0000 }

  // --- the writer ---

  /** A control port that is not given is the one after the stream port. */
  function Control(stream: nat, control: nat): nat { if control == 0 then U16(stream + 1) else control }

  function Ports(key: Key, stream: nat, control: nat): seq<string> {
    if stream == 0 then [] else [KeyText(key) + "=" + (Dec(stream) + "-" + Dec(Control(stream, control)))]
  }

  function Setting(key: Key, val: Option<string>): seq<string> {
    if val.None? then [] else [KeyText(key) + "=" + val.value]
  }

  function Number(key: Key, n: nat): seq<string> { if n == 0 then [] else [KeyText(key) + "=" + Dec(n)] }

  function PairText(p: Pair): string { Dec(p.rtp) + "-" + Dec(p.rtcp) }

  function PairsText(l: seq<Pair>): string {
    if l == [] then "" else if |l| == 1 then PairText(l[0]) else PairText(l[0]) + "," + PairsText(l[1..])
  }

  /** The parameters after the first one, in the order they are written. */
  function Params(t: Transport): seq<string> {
    [DeliveryText(t.delivery)]
    + Setting(DestinationKey, t.destination)
    + Setting(SourceKey, t.source)
    + (if t.append then [KeyText(AppendKey)] else [])
    + Number(TtlKey, t.ttl)
    + Number(LayersKey, t.layers)
    + PortParams(t)
    + (if t.lower == Tcp && t.interleaved != [] then [KeyText(InterleavedKey) + "=" + PairsText(t.interleaved)] else [])
    + (if t.ssrc.Some? then [KeyText(SsrcKey) + "=" + Hex(t.ssrc.value, 8, true)] else [])
    + (if t.mode != NoMode then [KeyText(ModeKey) + "=" + ModeText(t.mode)] else [])
  }

  function PortParams(t: Transport): seq<string> {
    if t.delivery == Unicast then
      Ports(ClientPortKey, t.dstStream, t.dstControl) + Ports(ServerPortKey, t.srcStream, t.srcControl)
    else Ports(PortKey, t.dstStream, t.dstControl)
  }

  function Head(t: Transport): string { t.protocol + "/" + t.profile + "/" + LowerText(t.lower) }

  function Entry(t: Transport): string { Join([Head(t)] + Params(t), ";") }

  /** An entry without protocol or profile is passed over, and its separator with it. */
  function Entries(l: seq<Transport>): string {
    if l == [] then ""
    else if l[0].protocol == "" || l[0].profile == "" then Entries(l[1..])
    else Entry(l[0]) + (if |l| > 1 then "," else "") + Entries(l[1..])
  }

  /** `rtsp_transport_header_write` */
  function Write(l: seq<Transport>): string { "Transport: " + Entries(l) + "\r\n" }

  // --- the reader ---

  function Atoi(s: string): int { StrToL(s).0 }

  predicate StartsWithNumber(s: string) { StrToL(s).1 != s }

  /** A port, and the one after the dash or else the next. */
  function ReadPorts(val: string): (nat, nat) {
    var stream := U16(Atoi(val));
    var dash := Cut(val, '-').1;
    (stream, if dash.None? then U16(stream + 1) else U16(Atoi(dash.value)))
  }

  /** `sscanf` with `%u-%u` */
  function ReadPair(s: string): Option<Pair> {
    var (rtp, rest) := StrToL(s);
    if !StartsWithNumber(s) || rest == "" || rest[0] != '-' || !StartsWithNumber(rest[1..]) then None
    else Some(Pair(rtp % 256, Atoi(rest[1..]) % 256))
  }

  function ReadPairs(l: seq<string>, room: nat): seq<Pair> {
    if l == [] || room == 0 || ReadPair(l[0]).None? then [] else [ReadPair(l[0]).value] + ReadPairs(l[1..], room - 1)
  }

  predicate HexPrefix(s: string) { |s| >= 2 && s[0] == '0' && (s[1] == 'x' || s[1] == 'X') }

  /** `sscanf` with `%08X`: at most eight characters, of which a sign and a prefix are the first. */
  function ReadHex(val: string): Option<nat> {
    var t := SkipSpaces(val);
    var signed := t != "" && (t[0] == '-' || t[0] == '+');
    var u := if signed then t[1..] else t;
    var width := if signed then 7 else 8;
    if !HexPrefix(u) && (u == "" || !IsHexDigit(u[0])) then None
    else
      var v := if HexPrefix(u) then HexDigits(u[2..], width - 2, 0).0 else HexDigits(u, width, 0).0;
      Some(if signed && t[0] == '-' then U32(-v) else v)
  }

  /** `strncasecmp` with the length of `p` */
  predicate StartsWithNoCase(s: string, p: string) {
    |p| <= |s| && forall i :: 0 <= i < |p| ==> ToUpper(s[i]) == ToUpper(p[i])
  }

  datatype Key = NoKey | UnicastKey | MulticastKey | AppendKey | DestinationKey | SourceKey | TtlKey | LayersKey
               | PortKey | ClientPortKey | ServerPortKey | SsrcKey | ModeKey | InterleavedKey

  function KeyText(k: Key): string {
    match k
    case NoKey => ""
    case UnicastKey => "unicast"
    case MulticastKey => "multicast"
    case AppendKey => "append"
    case DestinationKey => "destination"
    case SourceKey => "source"
    case TtlKey => "ttl"
    case LayersKey => "layers"
    case PortKey => "port"
    case ClientPortKey => "client_port"
    case ServerPortKey => "server_port"
    case SsrcKey => "ssrc"
    case ModeKey => "mode"
    case InterleavedKey => "interleaved"
  }

  /** The comparisons of `process_transport_key_val`, in their order. */
  function KeyOf(s: string): Key {
    if s == "unicast" then UnicastKey
    else if s == "multicast" then MulticastKey
    else if s == "destination" then DestinationKey
    else if s == "source" then SourceKey
    else if s == "append" then AppendKey
    else if s == "ttl" then TtlKey
    else if s == "layers" then LayersKey
    else if s == "port" then PortKey
    else if s == "client_port" then ClientPortKey
    else if s == "server_port" then ServerPortKey
    else if s == "ssrc" then SsrcKey
    else if s == "mode" then ModeKey
    else if s == "interleaved" then InterleavedKey
    else NoKey
  }

  lemma KeyOfText(k: Key)
    requires k != NoKey
    ensures KeyOf(KeyText(k)) == k && Plain(KeyText(k), "=")
  {
    assert KeyText(k)[0] in "umdsatlpci";
    assert |"unicast"| == 7 && |"multicast"| == 9 && |"append"| == 6 && |"destination"| == 11 && |"source"| == 6 && |"ttl"| == 3
           && |"layers"| == 6 && |"port"| == 4 && |"client_port"| == 11 && |"server_port"| == 11 && |"ssrc"| == 4 && |"mode"| == 4;
    assert "append"[0] != "source"[0] && "append"[0] != "layers"[0] && "source"[0] != "layers"[0];
    assert "destination"[0] == 'd' && "client_port"[0] == 'c' && "server_port"[0] == 's' && "interleaved"[0] == 'i';
    assert "port"[0] == 'p' && "ssrc"[0] == 's' && "mode"[0] == 'm';
  }

  /** What a parameter with a value sets. */
  function Assign(t: Transport, key: Key, v: string): Transport {
    match key
    case DestinationKey => t.(destination := Some(v))
    case SourceKey => t.(source := Some(v))
    case TtlKey => t.(ttl := U32(Atoi(v)))
    case LayersKey => t.(layers := U32(Atoi(v)))
    case PortKey => t.(dstStream := ReadPorts(v).0, dstControl := ReadPorts(v).1)
    case ClientPortKey => t.(dstStream := ReadPorts(v).0, dstControl := ReadPorts(v).1)
    case ServerPortKey => t.(srcStream := ReadPorts(v).0, srcControl := ReadPorts(v).1)
    case SsrcKey => if ReadHex(v).Some? then t.(ssrc := ReadHex(v)) else t
    case ModeKey =>
      if StartsWithNoCase(v, "PLAY") then t.(mode := Play) else if StartsWithNoCase(v, "RECORD") then t.(mode := Record) else t
    case InterleavedKey =>
      var pairs := ReadPairs(All(v, ","), MAX_INTERLEAVED);
      if pairs != [] then t.(interleaved := pairs) else t
    case _ => t
  }

  /** `process_transport_key_val` */
  function Process(t: Transport, key: Key, val: Option<string>): Transport {
    match key
    case UnicastKey => t.(delivery := Unicast)
    case MulticastKey => t.(delivery := Multicast)
    case AppendKey => t.(append := true)
    case _ => if val.None? then t else Assign(t, key, val.value)
  }

  function ReadParam(t: Transport, param: string): Transport {
    var kv := KeyValue(param);
    if kv.None? then t else Process(t, KeyOf(kv.value.0), kv.value.1)
  }

  function ReadParams(t: Transport, params: seq<string>): Transport
    decreases |params|
  {
    if params == [] then t else ReadParams(ReadParam(t, params[0]), params[1..])
  }

  /** The protocol, profile and lower transport. */
  function ReadHead(head: string): Option<Transport> {
    var l := All(head, "/");
    if |l| < 2 || l[0] != "RTP" || l[1] != "AVP" then None
    else if |l| == 2 || l[2] == "UDP" then Some(Empty(l[0], l[1], Udp))
    else if l[2] == "TCP" then Some(Empty(l[0], l[1], Tcp))
    else if l[2] == "MUX" then Some(Empty(l[0], l[1], Mux))
    else None
  }

  function ReadEntry(params: seq<string>): Option<Transport>
    requires params != []
  {
    var t := ReadHead(params[0]);
    if t.None? then None else Some(ReadParams(t.value, params[1..]))
  }

  /** `rtsp_transport_header_read`: at most `max` entries, up to the first bad one. */
  function Read(s: string, max: nat): (seq<Transport>, int)
    decreases |s|
  {
    var n := Next(s, ",");
    if n.None? || max == 0 then ([], 0)
    else
      var params := All(n.value.0, ";");
      if params == [] then Read(n.value.1, max)
      else
        var t := ReadEntry(params);
        if t.None? then ([], EPROTO)
        else
          var (l, ret) := Read(n.value.1, max - 1);
          ([t.value] + l, ret)
  }

  // --- what is read back ---

  /** An entry as it comes back: what the writer leaves out is unset, and a missing control port is filled in. */
  function Normal(t: Transport): Transport {
    t.(destination := NonEmpty(t.destination), source := NonEmpty(t.source),
       dstControl := if t.dstStream == 0 then 0 else Control(t.dstStream, t.dstControl),
       srcStream := if t.delivery == Unicast then t.srcStream else 0,
       srcControl := if t.delivery != Unicast || t.srcStream == 0 then 0 else Control(t.srcStream, t.srcControl),
       interleaved := if t.lower == Tcp then t.interleaved else [])
  }

  function NonEmpty(s: Option<string>): Option<string> { if s == Some("") then None else s }

  ghost predicate Free(s: Option<string>) { s.Some? ==> ',' !in s.value && ';' !in s.value }

  /** RTP/AVP entries with numbers in range, addresses without separators, and at most one interleaved pair. */
  ghost predicate Writable(t: Transport) {
    && t.protocol == "RTP" && t.profile == "AVP" && Free(t.destination) && Free(t.source)
    && t.ttl < 0x8000_0000 && t.layers < 0x8000_0000
    && t.dstStream < 0x1_0000 && t.dstControl < 0x1_0000 && t.srcStream < 0x1_0000 && t.srcControl < 0x1_0000
    && |t.interleaved| <= 1 && (t.ssrc.Some? ==> t.ssrc.value < 0x1_0000_0000)
  }

  // --- each parameter ---

  lemma ReadParamsAppend(t: Transport, a: seq<string>, b: seq<string>)
    ensures ReadParams(t, a + b) == ReadParams(ReadParams(t, a), b)
    decreases |a|
  {
    hide ReadParam;
    if a == [] {
      assert a + b == b;
    } else {
      assert (a + b)[1..] == a[1..] + b;
      ReadParamsAppend(ReadParam(t, a[0]), a[1..], b);
    }
  }

  lemma ReadOne(t: Transport, param: string)
    ensures ReadParams(t, [param]) == ReadParam(t, param)
  {
    assert [param][1..] == [];
  }

  lemma AtoiDec(n: nat, rest: string)
    requires rest != "" ==> !IsDigit(rest[0])
    ensures StrToL(Dec(n) + rest) == (n, rest)
  {
    var s := Dec(n) + rest;
    DecReadBack(n, rest);
    assert s[0] == Dec(n)[0] && IsDigit(s[0]);
    assert SkipSpaces(s) == s;
  }

  lemma AtoiDecAlone(n: nat)
    ensures Atoi(Dec(n)) == n && StartsWithNumber(Dec(n))
  {
    AtoiDec(n, "");
    assert Dec(n) + "" == Dec(n);
  }

  lemma DashCut(a: nat, b: nat)
    ensures var s := Dec(a) + "-" + Dec(b); Cut(s, '-') == (Dec(a), Some(Dec(b))) && StrToL(s) == (a, "-" + Dec(b))
  {
    hide StrToL;
    assert Dec(a) + "-" + Dec(b) == Dec(a) + ("-" + Dec(b));
    AtoiDec(a, "-" + Dec(b));
    assert '-' !in Dec(a);
    CutAt(Dec(a), '-', Dec(b));
  }

  lemma PortsRead(stream: nat, control: nat)
    requires stream < 0x1_0000 && control < 0x1_0000
    ensures ReadPorts(Dec(stream) + "-" + Dec(control)) == (stream, control)
  {
    hide StrToL, Cut, Dec;
    DashCut(stream, control);
    AtoiDecAlone(control);
  }

  lemma PairRead(p: Pair)
    ensures ReadPair(PairText(p)) == Some(p)
  {
    hide StrToL, Dec;
    DashCut(p.rtp, p.rtcp);
    AtoiDecAlone(p.rtcp);
    var rest := "-" + Dec(p.rtcp);
    assert rest[1..] == Dec(p.rtcp);
    assert |rest| < |PairText(p)|;
  }

  lemma KeyedRead(t: Transport, key: Key, val: string)
    requires key != NoKey && val != ""
    ensures ReadParams(t, [KeyText(key) + "=" + val]) == Process(t, key, Some(val))
  {
    hide Process, KeyText, KeyOf, KeyValue;
    KeyOfText(key);
    KeyValueAt(KeyText(key), val);
    ReadOne(t, KeyText(key) + "=" + val);
  }

  lemma WordRead(t: Transport, key: Key)
    requires key != NoKey
    ensures ReadParams(t, [KeyText(key)]) == Process(t, key, None)
  {
    hide Process, KeyText, KeyOf, KeyValue;
    KeyOfText(key);
    KeyAlone(KeyText(key));
    ReadOne(t, KeyText(key));
  }

  lemma SettingRead(t: Transport, key: Key, val: Option<string>)
    requires key == DestinationKey || key == SourceKey
    ensures ReadParams(t, Setting(key, val))
            == if NonEmpty(val).None? then t else if key == DestinationKey then t.(destination := val) else t.(source := val)
  {
    hide KeyText, KeyOf, KeyValue;
    if val == Some("") {
      EmptyValue(t, key);
    } else if val.Some? {
      KeyedRead(t, key, val.value);
    }
  }

  lemma EmptyValue(t: Transport, key: Key)
    requires key == DestinationKey || key == SourceKey
    ensures ReadParams(t, [KeyText(key) + "=" + ""]) == t
  {
    hide KeyText, KeyOf;
    KeyOfText(key);
    NextAt(KeyText(key), "=", "", "=");
    ReadOne(t, KeyText(key) + "=" + "");
  }

  lemma NumberRead(t: Transport, key: Key, n: nat)
    requires (key == TtlKey || key == LayersKey) && n < 0x8000_0000
    ensures ReadParams(t, Number(key, n)) == if n == 0 then t else if key == TtlKey then t.(ttl := n) else t.(layers := n)
  {
    hide KeyText, KeyOf, KeyValue, Dec, Atoi;
    if n != 0 {
      KeyedRead(t, key, Dec(n));
      AtoiDecAlone(n);
    }
  }

  lemma PortsSet(t: Transport, key: Key, stream: nat, control: nat)
    requires (key == PortKey || key == ClientPortKey || key == ServerPortKey) && stream < 0x1_0000 && control < 0x1_0000
    ensures var c := Control(stream, control);
            ReadParams(t, Ports(key, stream, control))
            == if stream == 0 then t else if key == ServerPortKey then t.(srcStream := stream, srcControl := c)
               else t.(dstStream := stream, dstControl := c)
  {
    hide KeyText, KeyOf, KeyValue, Dec, ReadPorts;
    if stream != 0 {
      var c := Control(stream, control);
      KeyedRead(t, key, Dec(stream) + "-" + Dec(c));
      PortsRead(stream, c);
    }
  }

  lemma InterleavedRead(t: Transport, l: seq<Pair>)
    requires |l| == 1
    ensures ReadParams(t, [KeyText(InterleavedKey) + "=" + PairsText(l)]) == t.(interleaved := l)
  {
    hide KeyText, KeyOf, KeyValue, ReadPair, All;
    var text := PairText(l[0]);
    assert text != "" && Plain(text, ",");
    KeyedRead(t, InterleavedKey, text);
    NextEnd(text, ",");
    PairRead(l[0]);
    OnePair(text, l[0]);
    assert l == [l[0]];
  }

  lemma OnePair(text: string, p: Pair)
    requires ReadPair(text) == Some(p)
    ensures ReadPairs([text], MAX_INTERLEAVED) == [p]
  {
    hide ReadPair;
    assert [text][1..] == [];
    assert ReadPairs([], MAX_INTERLEAVED - 1) == [];
  }

  lemma HexRead(v: nat)
    requires v < 0x1_0000_0000
    ensures var h := Hex(v, 8, true); h != "" && ReadHex(h) == Some(v)
  {
    var h := Hex(v, 8, true);
    assert Pow16(8) == 0x1_0000_0000 by {
      assert Pow16(4) == 0x1_0000;
    }
    HexReadBack(v, 8, true);
    assert IsHexDigit(h[0]) && IsHexDigit(h[1]);
    assert SkipSpaces(h) == h;
  }

  lemma SsrcRead(t: Transport, v: nat)
    requires v < 0x1_0000_0000
    ensures ReadParams(t, [KeyText(SsrcKey) + "=" + Hex(v, 8, true)]) == t.(ssrc := Some(v))
  {
    hide KeyText, KeyOf, KeyValue, ReadHex, Hex;
    HexRead(v);
    KeyedRead(t, SsrcKey, Hex(v, 8, true));
  }

  lemma ModeMatch(m: Mode)
    requires m != NoMode
    ensures StartsWithNoCase(ModeText(m), "PLAY") <==> m == Play
    ensures m == Record ==> StartsWithNoCase(ModeText(m), "RECORD")
  {
    assert "RECORD"[0] != "PLAY"[0];
  }

  lemma ModeRead(t: Transport, m: Mode)
    requires m != NoMode
    ensures ReadParams(t, [KeyText(ModeKey) + "=" + ModeText(m)]) == t.(mode := m)
  {
    hide KeyText, KeyOf, KeyValue, StartsWithNoCase, ReadParams;
    ModeMatch(m);
    assert ModeText(m) != "";
    KeyedRead(t, ModeKey, ModeText(m));
  }

  lemma AppendRead(t: Transport, on: bool)
    ensures ReadParams(t, if on then [KeyText(AppendKey)] else []) == if on then t.(append := true) else t
  {
    hide KeyText, KeyOf, KeyValue;
    if on {
      WordRead(t, AppendKey);
    }
  }

  lemma DeliveryRead(t: Transport, d: Delivery)
    ensures ReadParams(t, [DeliveryText(d)]) == t.(delivery := d)
  {
    hide KeyText, KeyOf, KeyValue;
    WordRead(t, if d == Unicast then UnicastKey else MulticastKey);
  }
}
