/** The words of the Authorization header: what each of them sets when a peer sends it, and what the writer writes. */
module AuthorizationFields {
  import opened Wrappers
  import opened Text
  import opened Tokens
  import opened Authorization
  import RequestFields

  // --- the parameters of a Digest ---

  /** A value without quotes: it neither starts with a blank nor stands between quotes. */
  predicate Bare(v: string) { v != "" && |v| < 4096 && v[0] != ' ' && v[0] != '"' }

  lemma KeyWord(a: Authorization, k: Key, v: string)
    requires k != NoKey && |v| < 4000
    ensures (',' !in v ==> ReadParam(a, KeyText(k) + "=\"" + v + "\"") == Assign(a, k, Some(v)))
    ensures (',' !in v ==> ReadParam(a, " " + (KeyText(k) + "=\"" + v + "\"")) == Assign(a, k, Some(v)))
    ensures Bare(v) ==> ReadParam(a, KeyText(k) + "=" + v) == Assign(a, k, Some(v))
  {
    hide Assign, KeyText, KeyOf, ReadParam;
    if ',' !in v {
      FieldRead(a, (k, v), true);
      FieldRead(a, (k, v), false);
      QuotesJoined(KeyText(k), v);
    }
    if Bare(v) {
      BareRead(a, k, v);
    }
  }

  lemma QuotesJoined(key: string, v: string)
    ensures "" + (key + "=" + ("\"" + v + "\"")) == key + "=\"" + v + "\"" && " " + (key + "=" + ("\"" + v + "\"")) == " " + (key + "=\"" + v + "\"")
  {
    assert key + "=" + ("\"" + v + "\"") == key + "=\"" + v + "\"";
  }

  lemma BareRead(a: Authorization, k: Key, v: string)
    requires k != NoKey && Bare(v)
    ensures ReadParam(a, KeyText(k) + "=" + v) == Assign(a, k, Some(v))
  {
    hide Assign, KeyText, KeyOf;
    KeyOfText(k);
    assert Plain(KeyText(k), "=") by { assert "= ,"[0] == '='; }
    KeyValueAt(KeyText(k), v);
    assert SkipBlanks(v) == v;
    assert SkipBlanks(KeyText(k)) == KeyText(k) by {
      assert KeyText(k)[0] in KeyText(k) && "= ,"[1] == ' ';
    }
  }

  /** A parameter as a peer writes it, with quotes or without. */
  ghost predicate Sets(a: Authorization, key: string, v: string, b: Authorization) {
    && (',' !in v ==> ReadParam(a, key + "=\"" + v + "\"") == b && ReadParam(a, " " + (key + "=\"" + v + "\"")) == b)
    && (Bare(v) ==> ReadParam(a, key + "=" + v) == b)
  }

  lemma TextWords(a: Authorization, v: string)
    requires |v| < 4000
    ensures Sets(a, "username", v, a.(username := Some(v))) && Sets(a, "realm", v, a.(realm := Some(v)))
    ensures Sets(a, "nonce", v, a.(nonce := Some(v))) && Sets(a, "uri", v, a.(uri := Some(v)))
    ensures Sets(a, "response", v, a.(response := Some(v))) && Sets(a, "opaque", v, a.(token := Some(v)))
    ensures Sets(a, "cnonce", v, a.(cnonce := Some(v)))
  {
    hide ReadParam;
    KeyWord(a, UsernameKey, v);
    KeyWord(a, RealmKey, v);
    KeyWord(a, NonceKey, v);
    KeyWord(a, UriKey, v);
    KeyWord(a, ResponseKey, v);
    KeyWord(a, TokenKey, v);
    KeyWord(a, CnonceKey, v);
  }

  /** The same word in any case of its letters. */
  predicate Alike(s: string, word: string) { |s| == |word| && RequestFields.Begins(s, word) }

  lemma AlikeNoCase(s: string, word: string)
    requires forall i :: 0 <= i < |word| ==> 'A' <= word[i] <= 'Z' || 'a' <= word[i] <= 'z' || '0' <= word[i] <= '9' || word[i] == '-'
    ensures SameNoCase(s, word) <==> Alike(s, word)
  {
    forall i | 0 <= i < |word| && i < |s| ensures RequestFields.SameLetter(s[i], word[i]) <==> ToUpper(s[i]) == ToUpper(word[i]) {
      RequestFields.SameUpper(s[i], word[i]);
    }
  }

  /** The algorithms and qualities there are names for; others are kept apart from none. */
  lemma ChoiceWords(a: Authorization, v: string)
    requires |v| < 4000 && v != ""
    ensures Sets(a, "algorithm", v, a.(algorithm := if Alike(v, "MD5") then Md5 else if Alike(v, "MD5-sess") then Md5Sess else OtherAlgorithm))
    ensures Sets(a, "qop", v, a.(qop := if Alike(v, "auth") then Auth else if Alike(v, "auth-int") then AuthInt else OtherQop))
  {
    hide ReadParam, SameNoCase, Alike;
    KeyWord(a, AlgorithmKey, v);
    KeyWord(a, QopKey, v);
    AlikeNoCase(v, "MD5");
    AlikeNoCase(v, "MD5-sess");
    AlikeNoCase(v, "auth");
    AlikeNoCase(v, "auth-int");
  }

  /** The count is a number of eight hexadecimal digits. */
  lemma CountWords(a: Authorization, n: nat)
    requires n < 0x1_0000_0000
    ensures Sets(a, "nc", Hex(n, 8, false), a.(nc := n))
  {
    hide ReadParam, Hex, ReadCount;
    CountRead(n);
    KeyWord(a, NcKey, Hex(n, 8, false));
  }

  lemma OtherWords(a: Authorization, key: string, v: string)
    requires Plain(key, "=") && key[0] != ' ' && v != ""
    requires key !in {"username", "realm", "nonce", "uri", "response", "algorithm", "opaque", "qop", "cnonce", "nc"}
    ensures ReadParam(a, key + "=" + v) == a
  {
    hide KeyValue;
    KeyValueAt(key, v);
    assert SkipBlanks(key) == key;
  }

  // --- the header ---

  /** The first word says what follows: credentials, or parameters between commas; other words are refused. */
  lemma SchemeWords(scheme: string, rest: string)
    requires Plain(scheme, " ")
    ensures Alike(scheme, "Basic") && Plain(rest, " ") && !IsChallenge(rest) ==>
              Read(scheme + " " + rest) == Success(Empty(Basic).(credentials := Some(rest)))
    ensures Alike(scheme, "Digest") ==> Read(scheme + " " + rest) == Success(ReadParams(Empty(Digest), All(rest, ",")))
    ensures !Alike(scheme, "Basic") && !Alike(scheme, "Digest") ==> Read(scheme + " " + rest) == Failure(-71)
  {
    hide SameNoCase, ReadParams, All;
    AlikeNoCase(scheme, "Basic");
    AlikeNoCase(scheme, "Digest");
    NextAt(scheme, " ", rest, " ");
    assert " "[1..] + rest == rest;
    if Plain(rest, " ") {
      NextEnd(rest, " ");
    }
  }

  // --- the writer ---

  function When(b: bool, s: string): seq<string> { if b then [s] else [] }

  function InQuotes(key: string, v: string): string { key + "=" + ("\"" + v + "\"") }

  function Param(key: string, v: Option<string>): seq<string> { When(v.Some?, InQuotes(key, v.UnwrapOr(""))) }

  /** The parameters of a Digest, in their order. */
  function Words(a: Authorization): seq<string> {
    Param("username", a.username) + Param("realm", a.realm) + Param("nonce", a.nonce) + Param("uri", a.uri) + Param("response", a.response)
    + When(a.algorithm == Md5 || a.algorithm == Md5Sess, InQuotes("algorithm", if a.algorithm == Md5 then "MD5" else "MD5-sess"))
    + When(a.token.UnwrapOr("") != "", InQuotes("opaque", a.token.UnwrapOr("")))
    + (if a.qop == Auth || a.qop == AuthInt then
         [InQuotes("qop", if a.qop == Auth then "auth" else "auth-int")] + Param("cnonce", a.cnonce) + [InQuotes("nc", Hex(a.nc, 8, false))]
       else [])
  }

  /** What is written: `Basic` with the credentials, or `Digest` with its parameters after commas and blanks. */
  lemma HeaderWords(a: Authorization)
    ensures a.kind == Basic && a.credentials.UnwrapOr("") != "" ==> WriteValue(a) == Success("Basic " + a.credentials.value)
    ensures a.kind == Basic && a.credentials.UnwrapOr("") == "" ==> WriteValue(a) == Failure(-71)
    ensures a.kind == Digest && a.response.UnwrapOr("") != "" ==> WriteValue(a) == Success("Digest " + Join(Words(a), ", "))
    ensures a.kind == Digest && a.response.UnwrapOr("") == "" ==> WriteValue(a) == Success("")
  {
    hide Fields, Words, FieldTexts, Join;
    FieldsAreWords(a);
    Spaced(Fields(a));
  }

  function Texts(l: seq<Field>): seq<string> {
    if l == [] then [] else [Quoted(l[0])] + Texts(l[1..])
  }

  lemma {:induction false} TextsAppend(a: seq<Field>, b: seq<Field>)
    ensures Texts(a + b) == Texts(a) + Texts(b)
    decreases |a|
  {
    hide Quoted;
    if a == [] {
      assert a + b == b;
    } else {
      assert (a + b)[1..] == a[1..] + b;
      TextsAppend(a[1..], b);
    }
  }

  lemma OneText(f: Field)
    ensures Texts([f]) == [Quoted(f)]
  {
    assert [f][1..] == [];
  }

  lemma GivenTexts(key: Key, word: string, v: Option<string>)
    requires KeyText(key) == word
    ensures Texts(Given(key, v)) == Param(word, v)
  {
    hide KeyText;
    if v.Some? {
      OneText((key, v.value));
    }
  }

  lemma FieldsAreWords(a: Authorization)
    ensures Texts(Fields(a)) == Words(a)
  {
    hide Texts, Given, QopFields, Hex;
    var f1, f2, f3 := Given(UsernameKey, a.username), Given(RealmKey, a.realm), Given(NonceKey, a.nonce);
    var f4, f5 := Given(UriKey, a.uri), Given(ResponseKey, a.response);
    var f6 := if a.algorithm == NoAlgorithm || a.algorithm == OtherAlgorithm then [] else [(AlgorithmKey, AlgorithmText(a.algorithm))];
    var f7 := Given(TokenKey, if a.token == Some("") then None else a.token);
    GivenTexts(UsernameKey, "username", a.username);
    GivenTexts(RealmKey, "realm", a.realm);
    GivenTexts(NonceKey, "nonce", a.nonce);
    GivenTexts(UriKey, "uri", a.uri);
    GivenTexts(ResponseKey, "response", a.response);
    GivenTexts(TokenKey, "opaque", if a.token == Some("") then None else a.token);
    AlgorithmTexts(a.algorithm, f6);
    QopTexts(a);
    TextsAppend(f1, f2);
    TextsAppend(f1 + f2, f3);
    TextsAppend(f1 + f2 + f3, f4);
    TextsAppend(f1 + f2 + f3 + f4, f5);
    TextsAppend(f1 + f2 + f3 + f4 + f5, f6);
    TextsAppend(f1 + f2 + f3 + f4 + f5 + f6, f7);
    TextsAppend(f1 + f2 + f3 + f4 + f5 + f6 + f7, QopFields(a));
  }

  lemma AlgorithmTexts(x: Algorithm, f: seq<Field>)
    requires f == if x == NoAlgorithm || x == OtherAlgorithm then [] else [(AlgorithmKey, AlgorithmText(x))]
    ensures Texts(f) == When(x == Md5 || x == Md5Sess, InQuotes("algorithm", if x == Md5 then "MD5" else "MD5-sess"))
  {
    if f != [] {
      OneText(f[0]);
    }
  }

  lemma QopTexts(a: Authorization)
    ensures Texts(QopFields(a)) ==
            if a.qop == Auth || a.qop == AuthInt then
              [InQuotes("qop", if a.qop == Auth then "auth" else "auth-int")] + Param("cnonce", a.cnonce) + [InQuotes("nc", Hex(a.nc, 8, false))]
            else []
  {
    hide Texts, Given, Hex;
    if a.qop == Auth || a.qop == AuthInt {
      var q, n := (QopKey, QopText(a.qop)), (NcKey, Hex(a.nc, 8, false));
      OneText(q);
      OneText(n);
      GivenTexts(CnonceKey, "cnonce", a.cnonce);
      TextsAppend([q], Given(CnonceKey, a.cnonce));
      TextsAppend([q] + Given(CnonceKey, a.cnonce), [n]);
    } else {
      assert Texts([]) == [] by { NoTexts(); }
    }
  }

  lemma NoTexts()
    ensures Texts([]) == []
  {
  }

  /** The blank that the writer puts before each parameter but the first stands after the comma. */
  lemma {:induction false} Spaced(l: seq<Field>)
    ensures Join(FieldTexts(l, true), ",") == Join(Texts(l), ", ")
  {
    hide Quoted;
    if l != [] {
      SpacedRest(l);
      assert "" + Quoted(l[0]) == Quoted(l[0]);
      assert FieldTexts(l, true)[1..] == FieldTexts(l[1..], false) && Texts(l)[1..] == Texts(l[1..]);
    }
  }

  lemma {:induction false} SpacedRest(l: seq<Field>)
    requires l != []
    ensures |FieldTexts(l[1..], false)| == |Texts(l[1..])| == |l| - 1
    ensures l[1..] != [] ==> Join(FieldTexts(l[1..], false), ",") == " " + Join(Texts(l[1..]), ", ")
    decreases |l|
  {
    hide Quoted;
    var m := l[1..];
    if m != [] {
      SpacedRest(m);
      var f, t := FieldTexts(m, false), Texts(m);
      assert f[1..] == FieldTexts(m[1..], false) && t[1..] == Texts(m[1..]);
      assert f[0] == " " + Quoted(m[0]) && t[0] == Quoted(m[0]);
      if |m| > 1 {
        SpacedStep(Quoted(m[0]), Join(Texts(m[1..]), ", "));
      }
    }
  }

  lemma SpacedStep(a: string, b: string)
    ensures (" " + a) + "," + (" " + b) == " " + (a + ", " + b)
  {
    assert ", " == "," + " ";
  }
}
