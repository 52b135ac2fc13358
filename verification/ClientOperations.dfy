/** What the client's operations leave behind: sessions, medias and channels after each answer and each call. */
module ClientOperations {
  import opened Wrappers
  import opened Lists
  import opened Channels
  import opened ClientState
  import opened ClientOnce
  import ClientChannels
  import Url

  /** An event that completes the pending request; the user's own disconnection, which removes every session, is set aside. */
  predicate Completing(c: Client, e: Event) {
    (e.Response? || e.ResponseTimeout? || e.Cancel? || e.Down?) && Completion(c, e).Some?
  }

  /** A successful answer: one of the 2xx class that bears the number of the request. */
  predicate Succeeds(c: Client, e: Event) { e.Response? && e.cseq == c.header.cseq && 200 <= e.reply.code <= 299 }

  /** The session that the completion is about, when the client knows it. */
  predicate About(c: Client, e: Event, sid: Id)
    requires Completing(c, e)
  {
    Named(c, Completion(c, e).value.0) == Some(sid)
  }

  ghost predicate OthersSame(c: Client, t: Client, sid: Id) { forall k :: k != sid ==> Find(t.sessions, k) == Find(c.sessions, k) }

  /** Of the session `s` these medias are left, or nothing when there is none; these channels and no others are freed. */
  ghost predicate Leaves(c: Client, t: Client, sid: Id, s: Session, kept: seq<Media>, freed: set<Channel>) {
    && OthersSame(c, t, sid) && t.used == c.used - freed
    && Find(t.sessions, sid) == if kept == [] then None else Some(s.(medias := kept, mediaCount := |kept|))
  }

  ghost predicate Counted(s: Session) {
    s.mediaCount == |s.medias| && forall i, j :: 0 <= i < j < |s.medias| ==> s.medias[i].path != s.medias[j].path
  }

  predicate Names(uri: string, path: string) { Url.Parse(uri).Success? && Url.Parse(uri).value.path == Some(path) }

  /** Two URLs with the same path, or both without one. */
  predicate SamePath(uri: string, base: string) {
    && Url.Parse(uri).Success? && Url.Parse(base).Success?
    && Url.Parse(uri).value.path.UnwrapOr("") == Url.Parse(base).value.path.UnwrapOr("")
  }

  function Others(l: seq<Media>, i: nat): seq<Media>
    requires i < |l|
  {
    l[..i] + l[i + 1..]
  }

  /** The channels of all these medias. */
  ghost function ChannelsOf(l: seq<Media>): set<Channel> { set m, ch | m in l && ch in Both(m.pair) :: ch }

  lemma {:induction false} ChannelsOfAll(l: seq<Media>)
    ensures MediaChannels(l) == ChannelsOf(l)
  {
    if l != [] {
      ChannelsOfAll(l[1..]);
      assert l == [l[0]] + l[1..];
    }
  }

  // --- a completing event settles the request ---

  function EnvOf(e: Event): Env
    requires e.Response? || e.ResponseTimeout? || e.Cancel? || e.Down?
  {
    e.env
  }

  lemma {:induction false} StepSettles(c: Client, e: Event)
    requires Taken(c) && Enabled(c, e) && Completing(c, e)
    ensures var (r, status) := Completion(c, e).value;
            var t, u := Step(c, e).0, Settle(c, r, status, EnvOf(e));
            t.sessions == u.sessions && t.used == u.used && t.allowed == u.allowed
  {
    hide Settle, Delivers, AnyKeepAlive, Deliver;
    var (r, status) := Completion(c, e).value;
    SettleReporting(c, r, status, EnvOf(e));
    if e.ResponseTimeout? {
      DisarmedSettles(c, r, status, e.env);
    }
  }

  lemma DisarmedSettles(c: Client, r: Reply, status: Status, env: Env)
    ensures Settle(c.(armed := false), r, status, env) == Settle(c, r, status, env)
  {
    hide Deliver, Touch, RemoveSession;
  }

  /** The state in which the outcome is delivered. */
  function Idle(c: Client): Client { c.(header := NO_HEADER, userdata := 0, pending := false, armed := false) }

  /** The content base of the session, which a session without one gets from the SETUP in preparation. */
  function BaseOf(c: Client, s: Session): Option<string> { if s.base.Some? then s.base else c.base }

  lemma TouchKnown(c: Client, verb: Verb, sid: Id)
    requires Find(c.sessions, sid).Some?
    ensures var s := Find(c.sessions, sid).value; var t := Touch(c, verb, Some(sid));
            && t.sessions == Put(c.sessions, sid, s.(keepAlive := false, base := BaseOf(c, s))) && t.used == c.used
            && Find(t.sessions, sid) == Some(s.(keepAlive := false, base := BaseOf(c, s))) && OthersSame(c, t, sid)
  {
    var s := Find(c.sessions, sid).value.(keepAlive := false, base := BaseOf(c, Find(c.sessions, sid).value));
    forall k ensures Find(Put(c.sessions, sid, s), k) == if k == sid then Some(s) else Find(c.sessions, k) {
      FindPut(c.sessions, sid, s, k);
    }
  }

  // --- TEARDOWN ---

  lemma FirstNamed(l: seq<Media>, i: nat)
    requires i < |l| && forall j, k :: 0 <= j < k < |l| ==> l[j].path != l[k].path
    ensures FindMedia(l, l[i].path) == Some(i)
  {
  }

  lemma RemoveLeaves(c: Client, sid: Id, s: Session)
    requires Find(c.sessions, sid) == Some(s) && Distinct(c.sessions)
    ensures Leaves(c, RemoveSession(c, sid), sid, s, [], ChannelsOf(s.medias))
  {
    ChannelsOfAll(s.medias);
    RemoveAll(c.sessions, sid);
  }

  lemma ReleaseLeaves(c: Client, sid: Id, s: Session, i: nat)
    requires Find(c.sessions, sid) == Some(s) && Distinct(c.sessions) && i < |s.medias| && Counted(s)
    ensures var t := ReleaseMedia(c, sid, s, i);
            && Distinct(t.sessions)
            && if |s.medias| == 1 then Leaves(c, RemoveSession(t, sid), sid, s, [], Both(s.medias[i].pair))
               else Leaves(c, t, sid, s, Others(s.medias, i), Both(s.medias[i].pair))
  {
    hide RemoveSession, ReleaseMedia;
    var z, t := DropMedia(s, i), ReleaseMedia(c, sid, s, i);
    Released(c, sid, s, i);
    if |s.medias| == 1 {
      RemoveLeaves(t, sid, z);
      assert ChannelsOf([]) == {};
    }
  }

  lemma Released(c: Client, sid: Id, s: Session, i: nat)
    requires Find(c.sessions, sid) == Some(s) && Distinct(c.sessions) && i < |s.medias| && s.mediaCount == |s.medias|
    ensures var t := ReleaseMedia(c, sid, s, i);
            && Distinct(t.sessions) && OthersSame(c, t, sid) && t.used == c.used - Both(s.medias[i].pair)
            && Find(t.sessions, sid) == Some(DropMedia(s, i))
    ensures DropMedia(s, i) == s.(medias := Others(s.medias, i), mediaCount := |s.medias| - 1) && |Others(s.medias, i)| == |s.medias| - 1
  {
    PutAll(c.sessions, sid, DropMedia(s, i));
  }

  lemma SettleTeardown(c: Client, r: Reply, status: Status, env: Env, sid: Id, s: Session)
    requires c.header.verb == Teardown && Named(c, r) == Some(sid) && Find(c.sessions, sid) == Some(s)
    requires Distinct(c.sessions) && BaseOf(c, s).Some? && Url.Parse(BaseOf(c, s).value).Success? && Counted(s)
    ensures var t, y := Settle(c, r, status, env), s.(keepAlive := false, base := BaseOf(c, s));
            && (forall i :: 0 <= i < |s.medias| && Names(c.header.uri, s.medias[i].path) ==>
                  Leaves(c, t, sid, y, Others(s.medias, i), Both(s.medias[i].pair)))
            && ((forall m :: m in s.medias ==> !Names(c.header.uri, m.path)) && SamePath(c.header.uri, y.base.value) ==>
                  Leaves(c, t, sid, y, [], ChannelsOf(s.medias)))
  {
    hide Url.Parse, ReleaseMedia, RemoveSession, Touch;
    var h, d, y := c.header, Idle(c), s.(keepAlive := false, base := BaseOf(c, s));
    TouchKnown(d, Teardown, sid);
    var u := Touch(d, Teardown, Some(sid));
    PutDistinct(c.sessions, sid, y);
    TouchRest(d, Teardown, Some(sid));
    forall i | 0 <= i < |s.medias| && Names(h.uri, s.medias[i].path)
      ensures Leaves(c, Settle(c, r, status, env), sid, y, Others(s.medias, i), Both(s.medias[i].pair))
    {
      FirstNamed(s.medias, i);
      MediaGone(c, u, r, status, env, sid, y, i);
    }
    if (forall m :: m in s.medias ==> !Names(h.uri, m.path)) && SamePath(h.uri, y.base.value) {
      SessionGone(c, u, r, status, env, sid, y);
    }
  }

  lemma TouchRest(c: Client, verb: Verb, sid: Option<Id>)
    ensures var t := Touch(c, verb, sid); t == c.(sessions := t.sessions, base := t.base)
  {
  }

  /** The session as a TEARDOWN's completion finds it. */
  ghost predicate Found(c: Client, u: Client, r: Reply, sid: Id, y: Session) {
    && c.header.verb == Teardown && Named(c, r) == Some(sid) && u == Touch(Idle(c), Teardown, Some(sid))
    && u == Idle(c).(sessions := u.sessions, base := u.base)
    && Distinct(u.sessions) && Find(u.sessions, sid) == Some(y) && OthersSame(c, u, sid) && Counted(y)
    && y.base.Some? && Url.Parse(y.base.value).Success?
  }

  lemma MediaGone(c: Client, u: Client, r: Reply, status: Status, env: Env, sid: Id, y: Session, i: nat)
    requires Found(c, u, r, sid, y) && i < |y.medias| && Names(c.header.uri, y.medias[i].path)
    ensures Leaves(c, Settle(c, r, status, env), sid, y, Others(y.medias, i), Both(y.medias[i].pair))
  {
    hide Url.Parse, ReleaseMedia, RemoveSession, Touch;
    var h, final := c.header, FinalStatus(status, r.code);
    FirstNamed(y.medias, i);
    var d := if y.internalTeardown then u else Report(u, h, c.userdata, final).(isInternal := false);
    assert Deliver(u, h, c.userdata, Some(sid), r, final, env) == (ReleaseMedia(d, sid, y, i), y.mediaCount - 1 == 0);
    ReleaseLeaves(d, sid, y, i);
  }

  lemma SessionGone(c: Client, u: Client, r: Reply, status: Status, env: Env, sid: Id, y: Session)
    requires Found(c, u, r, sid, y) && (forall m :: m in y.medias ==> !Names(c.header.uri, m.path)) && SamePath(c.header.uri, y.base.value)
    ensures Leaves(c, Settle(c, r, status, env), sid, y, [], ChannelsOf(y.medias))
  {
    hide Url.Parse, RemoveSession, Touch, ReleaseMedia;
    var h, final := c.header, FinalStatus(status, r.code);
    var d := if y.internalTeardown then u else Report(u, h, c.userdata, final).(isInternal := false);
    NotNamed(y.medias, h.uri);
    assert Deliver(u, h, c.userdata, Some(sid), r, final, env) == (d, true);
    RemoveLeaves(d, sid, y);
  }

  lemma NotNamed(l: seq<Media>, uri: string)
    requires Url.Parse(uri).Success? && forall m :: m in l ==> !Names(uri, m.path)
    ensures Url.Parse(uri).value.path.Some? ==> FindMedia(l, Url.Parse(uri).value.path.value).None?
  {
    hide Url.Parse;
    forall i | 0 <= i < |l| ensures Url.Parse(uri).value.path != Some(l[i].path) {
      assert l[i] in l;
    }
  }

  /**
    A TEARDOWN that is completed, by an answer or without one, whether the user or the library sent it. If its URL names
    a media, that media goes and its channels are free again, and the session goes with its last media; if it names the
    session, all of it goes.
   */
  lemma TeardownLeaves(c: Client, e: Event, sid: Id)
    requires c.pending && c.header.verb == Teardown && Enabled(c, e) && Completing(c, e) && About(c, e, sid)
    requires Distinct(c.sessions) && Find(c.sessions, sid).Some?
    requires var s := Find(c.sessions, sid).value; BaseOf(c, s).Some? && Url.Parse(BaseOf(c, s).value).Success? && Counted(s)
    ensures var s, uri := Find(c.sessions, sid).value, c.header.uri;
            var t, y := Step(c, e).0, s.(keepAlive := false, base := BaseOf(c, s));
            && (forall i :: 0 <= i < |s.medias| && Names(uri, s.medias[i].path) ==>
                  Leaves(c, t, sid, y, Others(s.medias, i), Both(s.medias[i].pair)))
            && ((forall m :: m in s.medias ==> !Names(uri, m.path)) && SamePath(uri, y.base.value) ==>
                  Leaves(c, t, sid, y, [], ChannelsOf(s.medias)))
  {
    hide Settle, Step, Enabled, Completion, Url.Parse, Counted;
    StepSettles(c, e);
    var (r, status) := Completion(c, e).value;
    SettleTeardown(c, r, status, EnvOf(e), sid, Find(c.sessions, sid).value);
  }

  /** After every run with an honest server the client is in such a state, but for a session without a content base. */
  lemma TeardownReady(events: seq<Event>, sid: Id)
    requires ClientChannels.HonestRun(Initial(), events)
    ensures Run(Initial(), events)
    ensures var c := After(Initial(), events); var s := Find(c.sessions, sid);
            Distinct(c.sessions)
            && (s.Some? ==> Counted(s.value) && (BaseOf(c, s.value).Some? ==> Url.Parse(BaseOf(c, s.value).value).Success?))
  {
    hide Url.Parse, ClientChannels.OwnedAt;
    ClientChannels.InitialInv(false);
    ClientChannels.HonestRunKeeps(false, Initial(), events);
    var c := After(Initial(), events);
    ClientChannels.InvDistinct(c);
    ClientChannels.InvBase(false, c);
    if Find(c.sessions, sid).Some? {
      ClientChannels.InvFound(false, c, sid);
    }
  }

  /** A TEARDOWN whose URL names neither a media of the session nor the session itself takes nothing, unless the server answers 454. */
  lemma TeardownMisses(c: Client, e: Event, sid: Id)
    requires c.pending && c.header.verb == Teardown && Enabled(c, e) && Completing(c, e) && About(c, e, sid)
    requires Find(c.sessions, sid).Some? && Completion(c, e).value.0.code != 454
    requires var s := Find(c.sessions, sid).value;
             && (forall m :: m in s.medias ==> !Names(c.header.uri, m.path))
             && (BaseOf(c, s).Some? ==> !SamePath(c.header.uri, BaseOf(c, s).value))
    ensures var t, s := Step(c, e).0, Find(c.sessions, sid).value;
            OthersSame(c, t, sid) && t.used == c.used && Find(t.sessions, sid) == Some(s.(keepAlive := false, base := BaseOf(c, s)))
  {
    hide Settle, Step, Enabled, Completion, Url.Parse, Touch;
    StepSettles(c, e);
    var (r, status) := Completion(c, e).value;
    TouchKnown(Idle(c), Teardown, sid);
    TouchRest(Idle(c), Teardown, Some(sid));
    SettleMisses(c, r, status, EnvOf(e), sid, Find(c.sessions, sid).value);
  }

  lemma SettleMisses(c: Client, r: Reply, status: Status, env: Env, sid: Id, s: Session)
    requires c.header.verb == Teardown && Named(c, r) == Some(sid) && r.code != 454
    requires var u := Touch(Idle(c), Teardown, Some(sid)); Find(u.sessions, sid) == Some(s.(keepAlive := false, base := BaseOf(c, s)))
    requires forall m :: m in s.medias ==> !Names(c.header.uri, m.path)
    requires BaseOf(c, s).Some? ==> !SamePath(c.header.uri, BaseOf(c, s).value)
    ensures Settle(c, r, status, env) == Touch(Idle(c), Teardown, Some(sid))
  {
    hide Url.Parse, Touch;
    NotNamedUnless(s.medias, c.header.uri);
  }

  // --- a TEARDOWN from the server ---

  /** It takes the media it names, or else the whole session; it is refused when the session is not known or the URL has no path. */
  lemma ServerTeardownLeaves(c: Client, sid: Id, uri: string)
    requires Distinct(c.sessions) && (Find(c.sessions, sid).Some? ==> Counted(Find(c.sessions, sid).value))
    ensures var (t, res) := Step(c, TeardownFromServer(sid, uri));
            match Find(c.sessions, sid)
            case None => t == c && res == -2
            case Some(s) =>
              if !Url.Parse(uri).Success? || Url.Parse(uri).value.path.None? then t == c && res == -22
              else
                && res == 0
                && (forall i :: 0 <= i < |s.medias| && Names(uri, s.medias[i].path) && s.base != Some(uri) ==>
                      Leaves(c, t, sid, s, Others(s.medias, i), Both(s.medias[i].pair)))
                && (s.base == Some(uri) || (forall m :: m in s.medias ==> !Names(uri, m.path)) ==>
                      Leaves(c, t, sid, s, [], ChannelsOf(s.medias)))
  {
    hide Url.Parse, ReleaseMedia, RemoveSession;
    if Find(c.sessions, sid).Some? && Url.Parse(uri).Success? && Url.Parse(uri).value.path.Some? {
      var s := Find(c.sessions, sid).value;
      RemoveLeaves(c, sid, s);
      NotNamedUnless(s.medias, uri);
      forall i | 0 <= i < |s.medias| && Names(uri, s.medias[i].path) && s.base != Some(uri)
        ensures Leaves(c, ServerTeardown(c, sid, uri).0, sid, s, Others(s.medias, i), Both(s.medias[i].pair))
      {
        FirstNamed(s.medias, i);
        ReleaseLeaves(c, sid, s, i);
      }
    }
  }

  lemma NotNamedUnless(l: seq<Media>, uri: string)
    ensures (forall m :: m in l ==> !Names(uri, m.path)) ==>
              Url.Parse(uri).Success? && Url.Parse(uri).value.path.Some? ==> FindMedia(l, Url.Parse(uri).value.path.value).None?
  {
    hide Url.Parse;
    if Url.Parse(uri).Success? && forall m :: m in l ==> !Names(uri, m.path) {
      NotNamed(l, uri);
    }
  }

  // --- SETUP ---

  /** What a SETUP adds to these medias: one at the path of its URL, unless there is one or the URL has no path. */
  ghost predicate Added(uri: string, before: seq<Media>, pair: Pair, after: seq<Media>) {
    var u := Url.Parse(uri);
    if u.Success? && u.value.path.Some? && (forall m :: m in before ==> m.path != u.value.path.value) then
      after == before + [Media(u.value.path.value, pair)]
    else after == before
  }

  lemma PutSession(l: List<Session>, sid: Id, s: Session)
    requires Find(l, sid).Some?
    ensures forall k :: Find(Put(l, sid, s), k) == if k == sid then Some(s) else Find(l, k)
  {
    forall k ensures Find(Put(l, sid, s), k) == if k == sid then Some(s) else Find(l, k) {
      FindPut(l, sid, s, k);
    }
  }

  lemma MediaSetUpAdds(c: Client, sid: Id, s: Session, uri: string, pair: Pair)
    requires Find(c.sessions, sid) == Some(s)
    ensures var t := MediaSetUp(c, Some(sid), uri, pair);
            && OthersSame(c, t, sid) && t.used == c.used && Find(t.sessions, sid).Some?
            && var y := Find(t.sessions, sid).value;
            && Added(uri, s.medias, pair, y.medias)
            && y == s.(medias := y.medias, mediaCount := s.mediaCount + |y.medias| - |s.medias|)
  {
    hide Url.Parse, MediaSetUp, FindMedia;
    MediaSetUpCases(c, sid, s, uri, pair);
    if Url.Parse(uri).Success? && Url.Parse(uri).value.path.Some? {
      PutSession(c.sessions, sid, AddMedia(s, Media(Url.Parse(uri).value.path.value, pair)));
    }
  }

  lemma MediaSetUpCases(c: Client, sid: Id, s: Session, uri: string, pair: Pair)
    requires Find(c.sessions, sid) == Some(s)
    ensures var u := Url.Parse(uri);
            MediaSetUp(c, Some(sid), uri, pair)
            == if u.Success? && u.value.path.Some? && (forall m :: m in s.medias ==> m.path != u.value.path.value) then
                 SetSession(c, sid, AddMedia(s, Media(u.value.path.value, pair)))
               else c
  {
    hide Url.Parse, FindMedia;
    if Url.Parse(uri).Success? && Url.Parse(uri).value.path.Some? {
      FreshPath(s.medias, Url.Parse(uri).value.path.value);
    }
  }

  lemma FreshPath(l: seq<Media>, path: string)
    ensures FindMedia(l, path).None? <==> forall m :: m in l ==> m.path != path
  {
    var at := FindMedia(l, path);
    assert at.Some? ==> l[at.value] in l;
  }

  /** The session as the answer to a SETUP finds it: new, or known with its medias. */
  function Opened(c: Client, sid: Id): Session {
    match Find(c.sessions, sid)
    case None => Session(0, false, false, c.base, 0, [])
    case Some(s) => s.(keepAlive := false, base := BaseOf(c, s))
  }

  lemma SetupTouches(c: Client, sid: Id)
    ensures var t := Touch(c, Setup, Some(sid));
            Find(t.sessions, sid) == Some(Opened(c, sid)) && OthersSame(c, t, sid) && t.used == c.used
  {
    if Find(c.sessions, sid).Some? {
      TouchKnown(c, Setup, sid);
    } else {
      var l := c.sessions + [Node(sid, NewSession())];
      forall k ensures Find(Put(l, sid, Opened(c, sid)), k) == if k == sid then Some(Opened(c, sid)) else Find(c.sessions, k) {
        FindAppend(c.sessions, Node(sid, NewSession()), k);
        FindPut(l, sid, Opened(c, sid), k);
      }
    }
  }

  lemma SettleSetup(c: Client, r: Reply, env: Env, sid: Id)
    requires c.header.verb == Setup && Named(c, r) == Some(sid) && 200 <= r.code <= 299
    ensures var t, s := Settle(c, r, Ok, env), Opened(c, sid);
            && OthersSame(c, t, sid) && Find(t.sessions, sid).Some?
            && var y := Find(t.sessions, sid).value;
            && Added(c.header.uri, s.medias, if r.tcp then r.pair else Pair(0, 0), y.medias)
            && y == s.(medias := y.medias, mediaCount := s.mediaCount + |y.medias| - |s.medias|)
            && t.used == if !r.tcp then c.used else (if c.header.pair == r.pair then c.used else c.used - Both(c.header.pair)) + Both(r.pair)
  {
    hide MediaSetUp, Touch, RemoveSession, Added;
    var h, u := c.header, Touch(Idle(c), Setup, Some(sid));
    SetupTouches(Idle(c), sid);
    TouchRest(Idle(c), Setup, Some(sid));
    assert Opened(Idle(c), sid) == Opened(c, sid);
    var used := if !r.tcp then c.used else (if h.pair == r.pair then c.used else c.used - Both(h.pair)) + Both(r.pair);
    var v := Report(u.(used := used), h, c.userdata, Ok);
    assert Deliver(u, h, c.userdata, Some(sid), r, Ok, env) == (MediaSetUp(v, Some(sid), h.uri, if r.tcp then r.pair else Pair(0, 0)), false);
    MediaSetUpAdds(v, sid, Opened(c, sid), h.uri, if r.tcp then r.pair else Pair(0, 0));
  }

  /**
    A SETUP that is answered with success: the session of the answer exists afterwards and has a media at the path
    of the request's URL, with the channels of the answer over TCP and none over UDP. The medias it had stay, and none
    is added when the path was known or missing.
   */
  lemma SetupAdds(c: Client, e: Event, sid: Id)
    requires c.pending && c.header.verb == Setup && Enabled(c, e) && Succeeds(c, e) && About(c, e, sid)
    ensures var (t, r, h) := (Step(c, e).0, e.reply, c.header);
            && OthersSame(c, t, sid) && Find(t.sessions, sid).Some?
            && var s, y := Opened(c, sid), Find(t.sessions, sid).value;
            && Added(h.uri, s.medias, if r.tcp then r.pair else Pair(0, 0), y.medias)
            && y == s.(medias := y.medias, mediaCount := s.mediaCount + |y.medias| - |s.medias|)
            && t.used == if !r.tcp then c.used else (if h.pair == r.pair then c.used else c.used - Both(h.pair)) + Both(r.pair)
  {
    hide Settle, Step, Enabled, Added;
    StepSettles(c, e);
    SettleSetup(c, e.reply, e.env, sid);
  }

  /** A SETUP that fails, or is answered without a session: its channels are free again and no media is added. */
  lemma SetupAddsNothing(c: Client, e: Event)
    requires c.pending && c.header.verb == Setup && Enabled(c, e) && Completing(c, e)
    requires var r := Completion(c, e).value.0; r.code != 454 && (Named(c, r).None? || !Succeeds(c, e))
    ensures var t := Step(c, e).0;
            && (!Succeeds(c, e) ==> t.used == c.used - Both(c.header.pair))
            && forall k :: Find(c.sessions, k).Some? ==>
                 Find(t.sessions, k).Some? && Find(t.sessions, k).value.medias == Find(c.sessions, k).value.medias
  {
    hide Settle, Step, Enabled, Touch;
    StepSettles(c, e);
    var (r, status) := Completion(c, e).value;
    var sid := Named(c, r);
    FailedIff(c, e);
    if sid.Some? {
      SetupTouches(Idle(c), sid.value);
    }
    TouchRest(Idle(c), Setup, sid);
    NothingSettled(c, r, status, EnvOf(e));
  }

  lemma FailedIff(c: Client, e: Event)
    requires Completing(c, e)
    ensures var (r, status) := Completion(c, e).value; FinalStatus(status, r.code) == Ok <==> Succeeds(c, e)
  {
  }

  lemma NothingSettled(c: Client, r: Reply, status: Status, env: Env)
    requires c.header.verb == Setup && r.code != 454
    ensures var t, u := Settle(c, r, status, env), Touch(Idle(c), Setup, Named(c, r));
            && (FinalStatus(status, r.code) != Ok ==> t.used == u.used - Both(c.header.pair) && t.sessions == u.sessions)
            && (Named(c, r).None? ==> t.sessions == u.sessions == c.sessions)
  {
    hide MediaSetUp;
    var used := if !r.tcp then c.used else (if c.header.pair == r.pair then c.used else c.used - Both(c.header.pair)) + Both(r.pair);
    NoSession(c, c.header.uri, r.pair);
  }

  lemma NoSession(c: Client, uri: string, pair: Pair)
    ensures forall d: Client, p :: MediaSetUp(d, None, uri, p) == d
  {
  }
}
