/**
  The Authorization header: its writer and its reader undo each other
  (src/rtsp.c:1910-2224; section 3.2.2 of RFC 2617).
 */
module Authorization {
  import opened Wrappers
  import opened Text
  import opened Tokens

  const PATH_MAX := 4096
  const EPROTO := -71

  datatype Kind = Basic | Digest

  datatype Algorithm = NoAlgorithm | OtherAlgorithm | Md5 | Md5Sess

  datatype Qop = NoQop | OtherQop | Auth | AuthInt

  /** `struct rtsp_authorization_header`; `token` is the field the standard calls opaque. */
  datatype Authorization = Authorization(
    kind: Kind, algorithm: Algorithm, username: Option<string>, uri: Option<string>, response: Option<string>,
    cnonce: Option<string>, nc: nat, credentials: Option<string>, realm: Option<string>, nonce: Option<string>,
    token: Option<string>, qop: Qop)

  function Empty(kind: Kind): Authorization {
    Authorization(kind, NoAlgorithm, None, None, None, None, 0, None, None, None, None, NoQop)
  }

  datatype Key = NoKey | UsernameKey | RealmKey | NonceKey | UriKey | ResponseKey | AlgorithmKey | TokenKey | QopKey
               | CnonceKey | NcKey

  function KeyText(k: Key): string {
    match k
    case NoKey => ""
    case UsernameKey => "username"
    case RealmKey => "realm"
    case NonceKey => "nonce"
    case UriKey => "uri"
    case ResponseKey => "response"
    case AlgorithmKey => "algorithm"
    case TokenKey => "opaque"
    case QopKey => "qop"
    case CnonceKey => "cnonce"
    case NcKey => "nc"
  }

  function KeyOf(s: string): Key {
    if s == "username" then UsernameKey
    else if s == "realm" then RealmKey
    else if s == "nonce" then NonceKey
    else if s == "uri" then UriKey
    else if s == "response" then ResponseKey
    else if s == "algorithm" then AlgorithmKey
    else if s == "opaque" then TokenKey
    else if s == "qop" then QopKey
    else if s == "cnonce" then CnonceKey
    else if s == "nc" then NcKey
    else NoKey
  }

  function AlgorithmText(a: Algorithm): string { if a == Md5Sess then "MD5-sess" else "MD5" }

  function QopText(q: Qop): string { if q == AuthInt then "auth-int" else "auth" }

  // --- the writer ---

  type Field = (Key, string)

  function Given(key: Key, val: Option<string>): seq<Field> { if val.None? then [] else [(key, val.value)] }

  /** The fields in the order they are written. */
  function Fields(a: Authorization): seq<Field> {
    Given(UsernameKey, a.username) + Given(RealmKey, a.realm) + Given(NonceKey, a.nonce) + Given(UriKey, a.uri)
    + Given(ResponseKey, a.response)
    + (if a.algorithm == NoAlgorithm || a.algorithm == OtherAlgorithm then [] else [(AlgorithmKey, AlgorithmText(a.algorithm))])
    + Given(TokenKey, if a.token == Some("") then None else a.token)
    + QopFields(a)
  }

  function QopFields(a: Authorization): seq<Field> {
    if a.qop == NoQop || a.qop == OtherQop then []
    else [(QopKey, QopText(a.qop))] + Given(CnonceKey, a.cnonce) + [(NcKey, Hex(a.nc, 8, false))]
  }

  function Quoted(f: Field): string { KeyText(f.0) + "=" + ("\"" + f.1 + "\"") }

  /** Every field but the first comes after a comma and a space. */
  function FieldTexts(l: seq<Field>, first: bool): seq<string> {
    if l == [] then [] else [(if first then "" else " ") + Quoted(l[0])] + FieldTexts(l[1..], false)
  }

  /** The value of the header; a Digest without a response stops after the field name. */
  function WriteValue(a: Authorization): Result<string, int> {
    match a.kind
    case Basic =>
      if a.credentials.UnwrapOr("") == "" then Failure(EPROTO) else Success("Basic " + a.credentials.value)
    case Digest =>
      if a.response.UnwrapOr("") == "" then Success("") else Success("Digest " + Join(FieldTexts(Fields(a), true), ","))
  }

  // --- the reader ---

  function SkipBlanks(s: string): (r: string)
    ensures |r| <= |s|
  {
    if s != "" && s[0] == ' ' then SkipBlanks(s[1..]) else s
  }

  /** `strip_quotes`: None for a string that is too long. */
  function StripQuotes(s: string): Option<string> {
    if |s| >= PATH_MAX then None
    else if |s| >= 2 && s[0] == '"' && s[|s| - 1] == '"' then Some(s[1..|s| - 1])
    else Some(s)
  }

  /** `strcasecmp` */
  predicate SameNoCase(s: string, p: string) {
    |s| == |p| && forall i :: 0 <= i < |p| ==> ToUpper(s[i]) == ToUpper(p[i])
  }

  function AlgorithmOf(s: Option<string>): Algorithm {
    if s.UnwrapOr("") == "" then NoAlgorithm
    else if SameNoCase(s.value, "MD5") then Md5
    else if SameNoCase(s.value, "MD5-sess") then Md5Sess
    else OtherAlgorithm
  }

  function QopOf(s: Option<string>): Qop {
    if s.UnwrapOr("") == "" then NoQop
    else if SameNoCase(s.value, "auth") then Auth
    else if SameNoCase(s.value, "auth-int") then AuthInt
    else OtherQop
  }

  /** `strtoul` in base 16 of a whole string, as far as it fits 32 bits; a minus sign wraps around at 64 bits. */
  function ReadCount(s: string): Option<nat> {
    var t := SkipSpaces(s);
    var negative := t != "" && t[0] == '-';
    var u := if t != "" && (t[0] == '-' || t[0] == '+') then t[1..] else t;
    var prefixed := |u| >= 3 && u[0] == '0' && (u[1] == 'x' || u[1] == 'X') && IsHexDigit(u[2]);
    var d := if prefixed then u[2..] else u;
    var (v, rest) := HexDigits(d, |d|, 0);
    var value := if negative && v > 0 then 0x1_0000_0000_0000_0000 - v else v;
    if d == "" || rest != "" || v >= 0x1_0000_0000_0000_0000 || value >= 0x1_0000_0000 then None else Some(value)
  }

  /** What a key and its unquoted value set. */
  function Assign(a: Authorization, key: Key, v: Option<string>): Authorization {
    match key
    case NoKey => a
    case UsernameKey => a.(username := v)
    case RealmKey => a.(realm := v)
    case NonceKey => a.(nonce := v)
    case UriKey => a.(uri := v)
    case ResponseKey => a.(response := v)
    case AlgorithmKey => a.(algorithm := AlgorithmOf(v))
    case TokenKey => a.(token := v)
    case QopKey => a.(qop := QopOf(v))
    case CnonceKey => a.(cnonce := v)
    case NcKey => if v.None? || ReadCount(v.value).None? then a else a.(nc := ReadCount(v.value).value)
  }

  /** `process_authorization_key_val` */
  function Process(a: Authorization, key: string, val: Option<string>): Authorization {
    Assign(a, KeyOf(key), if val.None? then None else StripQuotes(val.value))
  }

  /** `parse_digest_auth_param` */
  function ReadParam(a: Authorization, param: string): Authorization {
    var kv := KeyValue(param);
    if kv.None? then a
    else Process(a, SkipBlanks(kv.value.0), if kv.value.1.None? then None else Some(SkipBlanks(kv.value.1.value)))
  }

  function ReadParams(a: Authorization, params: seq<string>): Authorization
    decreases |params|
  {
    if params == [] then a else ReadParams(ReadParam(a, params[0]), params[1..])
  }

  predicate IsChallenge(param: string) { |param| >= 6 && SameNoCase(param[..6], "realm=") }

  /** `rtsp_authorization_header_read` */
  function Read(s: string): Result<Authorization, int> {
    var n := Next(s, " ");
    if n.None? then Failure(EPROTO)
    else if SameNoCase(n.value.0, "Basic") then
      var p := Next(n.value.1, " ");
      if p.None? then Failure(EPROTO)
      else if IsChallenge(p.value.0) then
        var kv := KeyValue(p.value.0);
        Success(if kv.None? then Empty(Basic) else Process(Empty(Basic), kv.value.0, kv.value.1))
      else Success(Empty(Basic).(credentials := Some(p.value.0)))
    else if SameNoCase(n.value.0, "Digest") then Success(ReadParams(Empty(Digest), All(n.value.1, ",")))
    else Failure(EPROTO)
  }

  /** The loop over the parameters of a Digest. */
  method ReadParamsLoop(start: Authorization, s: string) returns (a: Authorization)
    ensures a == ReadParams(start, All(s, ","))
  {
    hide ReadParam, Next;
    a := start;
    var param, pos := StrTok(s, 0, ",");
    assert s[0..] == s;
    while param.Some?
      invariant pos <= |s|
      invariant ReadParams(start, All(s, ","))
                == ReadParams(a, if param.None? then [] else [param.value] + All(s[pos..], ","))
      decreases |s| - pos, param.Some?
    {
      ghost var rest := All(s[pos..], ",");
      assert ([param.value] + rest)[1..] == rest;
      a := ReadParam(a, param.value);
      param, pos := StrTok(s, pos, ",");
    }
  }

  // --- the round trip ---

  /** What comes back: everything the writer leaves out is unset. */
  function Normal(a: Authorization): Authorization {
    var asked := a.qop == Auth || a.qop == AuthInt;
    a.(algorithm := if a.algorithm == OtherAlgorithm then NoAlgorithm else a.algorithm,
       qop := if asked then a.qop else NoQop, cnonce := if asked then a.cnonce else None, nc := if asked then a.nc else 0,
       token := if a.token == Some("") then None else a.token, credentials := None)
  }

  /** Quoted values must not hold a comma nor be too long for the reader. */
  ghost predicate Fits(s: Option<string>) { s.Some? ==> ',' !in s.value && |s.value| + 2 < PATH_MAX }

  ghost predicate Writable(a: Authorization) {
    && a.kind == Digest && a.response.UnwrapOr("") != "" && a.nc < 0x1_0000_0000
    && Fits(a.username) && Fits(a.uri) && Fits(a.response) && Fits(a.cnonce) && Fits(a.realm) && Fits(a.nonce) && Fits(a.token)
  }

  ghost predicate FieldsOk(l: seq<Field>) { forall f :: f in l ==> f.0 != NoKey && Fits(Some(f.1)) }

  /** Setting one field after the other. */
  function AssignAll(a: Authorization, l: seq<Field>): Authorization
    decreases |l|
  {
    if l == [] then a else AssignAll(Assign(a, l[0].0, Some(l[0].1)), l[1..])
  }

  lemma KeyOfText(k: Key)
    requires k != NoKey
    ensures KeyOf(KeyText(k)) == k && Plain(KeyText(k), "= ,")
  {
    assert "username"[0] == 'u' && "realm"[0] == 'r' && "nonce"[0] == 'n' && "uri"[1] == 'r' && "response"[0] == 'r';
    assert "algorithm"[0] == 'a' && "opaque"[0] == 'o' && "qop"[0] == 'q' && "cnonce"[0] == 'c' && "nc"[0] == 'n';
    assert |"username"| == 8 && |"realm"| == 5 && |"nonce"| == 5 && |"uri"| == 3 && |"response"| == 8 && |"algorithm"| == 9
           && |"opaque"| == 6 && |"qop"| == 3 && |"cnonce"| == 6 && |"nc"| == 2;
  }

  lemma StripQuoted(v: string)
    requires |v| + 2 < PATH_MAX
    ensures var s := "\"" + v + "\""; SkipBlanks(s) == s && StripQuotes(s) == Some(v)
  {
    var s := "\"" + v + "\"";
    assert s[0] == '"' && s[|s| - 1] == '"' && s[1..|s| - 1] == v;
  }

  lemma FieldRead(a: Authorization, f: Field, first: bool)
    requires f.0 != NoKey && Fits(Some(f.1))
    ensures ReadParam(a, (if first then "" else " ") + Quoted(f)) == Assign(a, f.0, Some(f.1))
  {
    hide Assign, KeyOf, KeyText, StripQuotes, KeyValue;
    var blank := if first then "" else " ";
    var key, val := blank + KeyText(f.0), "\"" + f.1 + "\"";
    KeyOfText(f.0);
    assert blank + Quoted(f) == key + "=" + val;
    assert Plain(key, "=");
    KeyValueAt(key, val);
    StripQuoted(f.1);
    assert SkipBlanks(key) == KeyText(f.0) by {
      assert !first ==> key[1..] == KeyText(f.0);
      assert "= ,"[1] == ' ';
      assert KeyText(f.0)[0] in KeyText(f.0);
    }
  }

  lemma {:induction false} FieldsRead(a: Authorization, l: seq<Field>, first: bool)
    requires FieldsOk(l)
    ensures ReadParams(a, FieldTexts(l, first)) == AssignAll(a, l)
    decreases |l|
  {
    hide Assign, ReadParam, Quoted;
    if l != [] {
      FieldRead(a, l[0], first);
      FieldsRead(Assign(a, l[0].0, Some(l[0].1)), l[1..], false);
      assert FieldTexts(l, first)[1..] == FieldTexts(l[1..], false);
    }
  }

  lemma {:induction false} FieldTextsPlain(l: seq<Field>, first: bool)
    requires FieldsOk(l)
    ensures forall p :: p in FieldTexts(l, first) ==> Plain(p, ",")
    decreases |l|
  {
    hide KeyText;
    if l != [] {
      KeyOfText(l[0].0);
      FieldTextsPlain(l[1..], false);
    }
  }

  lemma {:induction false} AssignAppend(a: Authorization, l: seq<Field>, m: seq<Field>)
    ensures AssignAll(a, l + m) == AssignAll(AssignAll(a, l), m)
    decreases |l|
  {
    hide Assign;
    if l == [] {
      assert l + m == m;
    } else {
      assert (l + m)[1..] == l[1..] + m;
      AssignAppend(Assign(a, l[0].0, Some(l[0].1)), l[1..], m);
    }
  }

  lemma AssignOne(a: Authorization, f: Field)
    ensures AssignAll(a, [f]) == Assign(a, f.0, Some(f.1))
  {
    assert [f][1..] == [];
  }

  lemma AssignGiven(a: Authorization, key: Key, val: Option<string>)
    ensures AssignAll(a, Given(key, val)) == if val.None? then a else Assign(a, key, val)
  {
    if val.Some? {
      AssignOne(a, (key, val.value));
    }
  }

  lemma NamesRead()
    ensures AlgorithmOf(Some(AlgorithmText(Md5))) == Md5 && AlgorithmOf(Some(AlgorithmText(Md5Sess))) == Md5Sess
    ensures QopOf(Some(QopText(Auth))) == Auth && QopOf(Some(QopText(AuthInt))) == AuthInt
  {
  }

  lemma CountRead(nc: nat)
    requires nc < 0x1_0000_0000
    ensures ReadCount(Hex(nc, 8, false)) == Some(nc)
  {
    var h := Hex(nc, 8, false);
    assert Pow16(8) == 0x1_0000_0000 by {
      assert Pow16(4) == 0x1_0000;
    }
    HexReadBack(nc, 8, false);
    assert IsHexDigit(h[0]) && IsHexDigit(h[1]);
    assert SkipSpaces(h) == h;
  }

  lemma QopAssigned(a: Authorization, b: Authorization)
    requires b.nc < 0x1_0000_0000 && a.qop == NoQop && a.cnonce.None? && a.nc == 0
    ensures var n := Normal(b); AssignAll(a, QopFields(b)) == a.(qop := n.qop, cnonce := n.cnonce, nc := n.nc)
  {
    hide QopText, QopOf, Hex, ReadCount;
    NamesRead();
    CountRead(b.nc);
    if b.qop == Auth || b.qop == AuthInt {
      var q, c := [(QopKey, QopText(b.qop))], Given(CnonceKey, b.cnonce);
      AssignOne(a, q[0]);
      var a1 := a.(qop := b.qop);
      AssignAppend(a, q, c);
      AssignGiven(a1, CnonceKey, b.cnonce);
      var n := [(NcKey, Hex(b.nc, 8, false))];
      AssignAppend(a, q + c, n);
      AssignOne(a1.(cnonce := b.cnonce), n[0]);
    }
  }

  /** The writer's fields, set one after the other, make up the header. */
  lemma FieldsAssigned(a: Authorization)
    requires Writable(a)
    ensures AssignAll(Empty(Digest), Fields(a)) == Normal(a)
  {
    hide AssignAll, Given, QopFields, AlgorithmText, AlgorithmOf;
    NamesRead();
    var s0 := Empty(Digest);
    var f1, f2, f3 := Given(UsernameKey, a.username), Given(RealmKey, a.realm), Given(NonceKey, a.nonce);
    var f4, f5 := Given(UriKey, a.uri), Given(ResponseKey, a.response);
    var f6 := if a.algorithm == NoAlgorithm || a.algorithm == OtherAlgorithm then [] else [(AlgorithmKey, AlgorithmText(a.algorithm))];
    var f7 := Given(TokenKey, if a.token == Some("") then None else a.token);
    AssignGiven(s0, UsernameKey, a.username);
    var s1 := s0.(username := a.username);
    AssignAppend(s0, f1, f2);
    AssignGiven(s1, RealmKey, a.realm);
    var s2 := s1.(realm := a.realm);
    AssignAppend(s0, f1 + f2, f3);
    AssignGiven(s2, NonceKey, a.nonce);
    var s3 := s2.(nonce := a.nonce);
    AssignAppend(s0, f1 + f2 + f3, f4);
    AssignGiven(s3, UriKey, a.uri);
    var s4 := s3.(uri := a.uri);
    AssignAppend(s0, f1 + f2 + f3 + f4, f5);
    AssignGiven(s4, ResponseKey, a.response);
    var s5 := s4.(response := a.response);
    AssignAppend(s0, f1 + f2 + f3 + f4 + f5, f6);
    var s6 := s5.(algorithm := Normal(a).algorithm);
    AlgorithmAssigned(s5, a.algorithm);
    AssignAppend(s0, f1 + f2 + f3 + f4 + f5 + f6, f7);
    AssignGiven(s6, TokenKey, if a.token == Some("") then None else a.token);
    var s7 := s6.(token := Normal(a).token);
    AssignAppend(s0, f1 + f2 + f3 + f4 + f5 + f6 + f7, QopFields(a));
    QopAssigned(s7, a);
  }

  lemma AlgorithmAssigned(s: Authorization, x: Algorithm)
    requires s.algorithm == NoAlgorithm
    ensures var f := if x == NoAlgorithm || x == OtherAlgorithm then [] else [(AlgorithmKey, AlgorithmText(x))];
            AssignAll(s, f) == s.(algorithm := if x == OtherAlgorithm then NoAlgorithm else x)
  {
    hide AlgorithmText, AlgorithmOf;
    NamesRead();
    if x != NoAlgorithm && x != OtherAlgorithm {
      AssignOne(s, (AlgorithmKey, AlgorithmText(x)));
    }
  }

  lemma FieldsFit(a: Authorization)
    requires Writable(a)
    ensures FieldsOk(Fields(a)) && Fields(a) != []
  {
    hide QopFields;
    QopFieldsFit(a);
    assert Fits(Some(AlgorithmText(a.algorithm)));
    assert |Given(ResponseKey, a.response)| == 1;
  }

  lemma QopFieldsFit(a: Authorization)
    requires Fits(a.cnonce)
    ensures FieldsOk(QopFields(a))
  {
    hide Hex;
    assert Fits(Some(Hex(a.nc, 8, false))) && Fits(Some(QopText(a.qop)));
  }

  lemma KindRead(kind: Kind)
    ensures SameNoCase(if kind == Basic then "Basic" else "Digest", "Basic") <==> kind == Basic
    ensures kind == Digest ==> SameNoCase("Digest", "Digest")
  {
  }

  /** Reading a written Digest header gives its fields back, in normal form. */
  lemma DigestRoundTrip(a: Authorization)
    requires Writable(a)
    ensures WriteValue(a).Success? && Read(WriteValue(a).value) == Success(Normal(a))
  {
    hide Fields, ReadParam, AssignAll, Normal, FieldTexts, SameNoCase;
    var texts := FieldTexts(Fields(a), true);
    FieldsFit(a);
    FieldTextsPlain(Fields(a), true);
    AllJoined(texts, ",", ",");
    FieldsRead(Empty(Digest), Fields(a), true);
    FieldsAssigned(a);
    KindRead(Digest);
    var rest := Join(texts, ",");
    assert WriteValue(a).value == "Digest" + " " + rest;
    NextAt("Digest", " ", rest, " ");
    assert " "[1..] + rest == rest;
  }

  /** The header comes back unchanged exactly when it holds nothing the writer leaves out. */
  lemma UnchangedIff(a: Authorization)
    requires Writable(a)
    ensures Read(WriteValue(a).value) == Success(a) <==>
              && a.algorithm != OtherAlgorithm && a.qop != OtherQop && (a.qop == NoQop ==> a.cnonce.None? && a.nc == 0)
              && a.token != Some("") && a.credentials.None?
  {
    hide Read, WriteValue;
    DigestRoundTrip(a);
  }

  lemma BasicRoundTrip(a: Authorization)
    requires a.kind == Basic && a.credentials.Some? && Plain(a.credentials.value, " ") && !IsChallenge(a.credentials.value)
    ensures WriteValue(a).Success? && Read(WriteValue(a).value) == Success(Empty(Basic).(credentials := a.credentials))
  {
    hide SameNoCase;
    KindRead(Basic);
    var c := a.credentials.value;
    assert WriteValue(a).value == "Basic" + " " + c;
    NextAt("Basic", " ", c, " ");
    assert " "[1..] + c == c;
    NextEnd(c, " ");
  }
}
