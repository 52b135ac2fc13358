/**
  A request of the user that is accepted while no keep-alive is outstanding: it keeps the only slot until it is
  completed, and it is completed once.
 */
module ClientOnce {
  import opened Wrappers
  import opened Lists
  import opened ClientState
  import opened ClientRuns
  import Channels
  import Url

  /** The request `h` of the user is pending, and no keep-alive is outstanding. */
  ghost predicate Held(c: Client, h: Header, userdata: int) {
    && c.pending && c.header == h && c.userdata == userdata && !AnyKeepAlive(c.sessions)
    && 0 < h.cseq < c.cseq && h.verb != NoVerb && h.verb != GetParameter
    && (h.verb == Teardown ==> AskedByUser(c, h))
  }

  /** A TEARDOWN of the user: neither the request nor its session is marked as torn down by the library itself. */
  predicate AskedByUser(c: Client, h: Header) { !c.isInternal && h.sid.Some? && Clear(c.sessions, h.sid.value) }

  predicate Clear(l: List<Session>, sid: Id) {
    forall i :: 0 <= i < |l| && l[i].id == sid ==> !l[i].val.internalTeardown
  }

  /** No session gets the mark. */
  ghost predicate StaysClear(a: List<Session>, b: List<Session>) { forall sid :: Clear(a, sid) ==> Clear(b, sid) }

  /** Nothing is pending or outstanding: the next request of the user finds the slot free. */
  ghost predicate Free(c: Client) { !c.pending && !AnyKeepAlive(c.sessions) }

  ghost predicate OnlyRemovals(a: seq<Entry>, b: seq<Entry>) {
    a <= b && forall i :: |a| <= i < |b| ==> b[i].Removed?
  }

  /** Sessions may go, nothing else happens to the slot. */
  ghost predicate Quiet(c: Client, t: Client) {
    && t.pending == c.pending && t.header == c.header && t.userdata == c.userdata && t.cseq == c.cseq && t.armed == c.armed
    && OnlyRemovals(c.log, t.log) && (!AnyKeepAlive(c.sessions) ==> !AnyKeepAlive(t.sessions))
    && t.isInternal == c.isInternal && StaysClear(c.sessions, t.sessions)
  }

  lemma QuietThen(c: Client, d: Client, t: Client)
    requires Quiet(c, d) && Quiet(d, t)
    ensures Quiet(c, t)
  {
  }

  // --- sessions without a keep-alive ---

  lemma NoneFlagged(l: List<Session>, sid: Id)
    requires !AnyKeepAlive(l)
    ensures Find(l, sid).Some? ==> !Find(l, sid).value.keepAlive
  {
  }

  lemma PutUnflagged(l: List<Session>, sid: Id, s: Session)
    requires !AnyKeepAlive(l) && !s.keepAlive
    ensures !AnyKeepAlive(Put(l, sid, s))
  {
  }

  lemma RemoveUnflagged(l: List<Session>, sid: Id)
    requires !AnyKeepAlive(l)
    ensures !AnyKeepAlive(Remove(l, sid))
  {
    forall i | 0 <= i < |Remove(l, sid)| ensures !Remove(l, sid)[i].val.keepAlive {
      RemoveKeeps(l, sid, i);
    }
  }

  lemma PutClear(l: List<Session>, sid: Id, s: Session)
    requires Clear(l, sid) ==> !s.internalTeardown
    ensures StaysClear(l, Put(l, sid, s))
  {
  }

  lemma RemoveClear(l: List<Session>, sid: Id)
    ensures StaysClear(l, Remove(l, sid))
  {
    forall k | Clear(l, k) ensures Clear(Remove(l, sid), k) {
      forall i | 0 <= i < |Remove(l, sid)| && Remove(l, sid)[i].id == k ensures !Remove(l, sid)[i].val.internalTeardown {
        RemoveKeeps(l, sid, i);
      }
    }
  }

  /** A session found under its id, with the mark unchanged. */
  lemma FoundClear(l: List<Session>, sid: Id)
    requires Find(l, sid).Some? && Clear(l, sid)
    ensures !Find(l, sid).value.internalTeardown
  {
  }

  lemma PutQuiet(c: Client, sid: Id, s: Session)
    requires !s.keepAlive && Find(c.sessions, sid).Some? && s.internalTeardown == Find(c.sessions, sid).value.internalTeardown
    ensures Quiet(c, SetSession(c, sid, s))
  {
    hide Clear, AnyKeepAlive;
    if Clear(c.sessions, sid) {
      FoundClear(c.sessions, sid);
    }
    PutClear(c.sessions, sid, s);
    if !AnyKeepAlive(c.sessions) {
      PutUnflagged(c.sessions, sid, s);
    }
  }

  lemma ReleaseQuiet(c: Client, sid: Id, s: Session, i: nat)
    requires i < |s.medias| && !s.keepAlive && Find(c.sessions, sid) == Some(s)
    ensures Quiet(c, ReleaseMedia(c, sid, s, i))
  {
    PutQuiet(c, sid, DropMedia(s, i));
  }

  lemma RemoveQuiet(c: Client, sid: Id)
    ensures Quiet(c, RemoveSession(c, sid))
  {
    hide Clear;
    RemoveClear(c.sessions, sid);
    if !AnyKeepAlive(c.sessions) {
      RemoveUnflagged(c.sessions, sid);
    }
  }

  lemma {:induction false} RemoveSessionsQuiet(c: Client, l: List<Session>)
    ensures Quiet(c, RemoveSessions(c, l))
    decreases |l|
  {
    if l != [] {
      RemoveQuiet(c, l[0].id);
      RemoveSessionsQuiet(RemoveSession(c, l[0].id), l[1..]);
      QuietThen(c, RemoveSession(c, l[0].id), RemoveSessions(c, l));
    }
  }

  // --- while the slot is taken ---

  /** No keep-alive is sent while a request is pending. */
  lemma KeepAliveQuiet(c: Client, sid: Id, out: Outcome)
    requires c.pending && !AnyKeepAlive(c.sessions)
    ensures Quiet(c, KeepAlive(c, sid, out).0)
  {
    hide RemoveSession;
    NoneFlagged(c.sessions, sid);
    if Find(c.sessions, sid).Some? {
      var s := Find(c.sessions, sid).value;
      var d := SetSession(c, sid, s.(failed := s.failed + 1));
      PutQuiet(c, sid, s.(failed := s.failed + 1));
      RemoveQuiet(d, sid);
      QuietThen(c, d, RemoveSession(d, sid));
    }
  }

  lemma {:induction false} ProbeQuiet(c: Client, l: List<Session>, outs: seq<Outcome>)
    requires c.pending && !AnyKeepAlive(c.sessions)
    ensures Quiet(c, Probe(c, l, outs))
    decreases |l|
  {
    hide KeepAlive;
    if l != [] {
      var out := if outs == [] then Written else outs[0];
      var d := KeepAlive(c, l[0].id, out).0;
      KeepAliveQuiet(c, l[0].id, out);
      ProbeQuiet(d, l[1..], if outs == [] then [] else outs[1..]);
      QuietThen(c, d, Probe(c, l, outs));
    }
  }

  lemma ServerTeardownQuiet(c: Client, sid: Id, uri: string)
    requires !AnyKeepAlive(c.sessions)
    ensures Quiet(c, ServerTeardown(c, sid, uri).0)
  {
    hide PathOf, RemoveSession, ReleaseMedia;
    NoneFlagged(c.sessions, sid);
    RemoveQuiet(c, sid);
    if Find(c.sessions, sid).Some? {
      var s := Find(c.sessions, sid).value;
      var media := if PathOf(uri).Some? && PathOf(uri).value.Some? then FindMedia(s.medias, PathOf(uri).value.value) else None;
      if media.Some? {
        ReleaseQuiet(c, sid, s, media.value);
        var d := ReleaseMedia(c, sid, s, media.value);
        RemoveQuiet(d, sid);
        QuietThen(c, d, RemoveSession(d, sid));
      }
    }
  }

  /**
    Every other request of the user is refused and leaves no trace: with -EBUSY exactly when the connection is up, the
    server is not known to refuse the method, and for a SETUP the ports are usable.
   */
  lemma OthersRefused(c: Client, e: Event)
    requires c.pending && !AnyKeepAlive(c.sessions) && IsRequest(e) && Enabled(c, e)
    ensures var (t, res) := Step(c, e);
            && t == c && res < 0
            && (res == EBUSY <==>
                && c.conn == Connected && (e.SetupRequest? ==> PortsOk(e.transport))
                && (c.allowed == {} || VerbOf(e) == Options || VerbOf(e) in c.allowed))
  {
  }

  // --- completion ---

  /** Whether the completion runs the callback: always, but for some TEARDOWNs. */
  predicate Delivers(c: Client, r: Reply) {
    var sid := if r.sid.Some? then r.sid else c.header.sid;
    c.header.verb == Teardown ==>
      var sessions := Touch(c, Teardown, sid).sessions;
      if sid.None? || Find(sessions, sid.value).None? then !c.isInternal
      else
        var s := Find(sessions, sid.value).value;
        !s.internalTeardown && TeardownTarget(s, c.header.uri).Some?
  }

  /** The session a completion is about: the one the reply names, or else that of the request. */
  function Named(c: Client, r: Reply): Option<Id> { if r.sid.Some? then r.sid else c.header.sid }

  predicate Known(c: Client, sid: Option<Id>) { sid.Some? && Find(c.sessions, sid.value).Some? }

  /** A TEARDOWN whose URL names neither a media of that session nor the session itself. */
  predicate Unmatched(c: Client, r: Reply) {
    Known(c, Named(c, r)) && TeardownTarget(Touched(c, Named(c, r).value), c.header.uri).None?
  }

  /** The reply names another session than the request, one that the library is tearing down itself. */
  predicate Misdirected(c: Client, r: Reply) {
    r.sid != c.header.sid && Known(c, r.sid) && Find(c.sessions, r.sid.value).value.internalTeardown
  }

  /** For a request of the user the callback is left out in just these two cases. */
  lemma DeliversIff(c: Client, r: Reply)
    requires Held(c, c.header, c.userdata)
    ensures Delivers(c, r) <==> !(c.header.verb == Teardown && (Unmatched(c, r) || Misdirected(c, r)))
  {
    hide TeardownTarget, AnyKeepAlive, Clear;
    var sid := Named(c, r);
    if c.header.verb == Teardown && Known(c, sid) {
      FindPut(c.sessions, sid.value, Touched(c, sid.value), sid.value);
      if sid == c.header.sid {
        FoundClear(c.sessions, sid.value);
      }
    }
  }

  function Reported(c: Client, r: Reply, status: Status): seq<Entry> {
    if Delivers(c, r) then [Completed(c.header.verb, c.header.cseq, c.userdata, FinalStatus(status, r.code))] else []
  }

  lemma TouchUnflagged(c: Client, verb: Verb, sid: Option<Id>)
    ensures var t := Touch(c, verb, sid);
            t == c.(sessions := t.sessions, base := t.base) && (!AnyKeepAlive(c.sessions) ==> !AnyKeepAlive(t.sessions))
  {
    if !AnyKeepAlive(c.sessions) && sid.Some? && (Find(c.sessions, sid.value).Some? || verb == Setup) {
      var l := if Find(c.sessions, sid.value).None? then c.sessions + [Node(sid.value, NewSession())] else c.sessions;
      assert !AnyKeepAlive(l);
      PutUnflagged(l, sid.value, Touched(c, sid.value));
    }
  }

  /** What delivering does, apart from sessions and channels: it adds `report`. */
  ghost predicate Reporting(c: Client, t: Client, report: seq<Entry>) {
    && t.pending == c.pending && t.header == c.header && t.cseq == c.cseq && t.conn == c.conn && t.log == c.log + report
    && (!AnyKeepAlive(c.sessions) ==> !AnyKeepAlive(t.sessions))
  }

  lemma MediaSetUpReporting(c: Client, sid: Option<Id>, uri: string, pair: Channels.Pair)
    ensures Reporting(c, MediaSetUp(c, sid, uri, pair), [])
  {
    hide PathOf;
    if sid.Some? && Find(c.sessions, sid.value).Some? && !AnyKeepAlive(c.sessions) {
      NoneFlagged(c.sessions, sid.value);
      var s := Find(c.sessions, sid.value).value;
      if PathOf(uri).Some? && PathOf(uri).value.Some? {
        PutUnflagged(c.sessions, sid.value, AddMedia(s, Media(PathOf(uri).value.value, pair)));
      }
    }
  }

  lemma SetupReporting(c: Client, h: Header, userdata: int, sid: Option<Id>, r: Reply, status: Status)
    ensures Reporting(c, SetupCompleted(c, h, userdata, sid, r, status), [Completed(h.verb, h.cseq, userdata, status)])
  {
    hide MediaSetUp, AnyKeepAlive;
    var d := Report(c, h, userdata, status);
    MediaSetUpReporting(d, sid, h.uri, Channels.NO_PAIR);
    var kept := if h.pair != r.pair then c.used - Channels.Both(h.pair) else c.used;
    MediaSetUpReporting(Report(c.(used := kept + Channels.Both(r.pair)), h, userdata, status), sid, h.uri, r.pair);
  }

  lemma ReleaseReporting(c: Client, sid: Id, s: Session, i: nat)
    requires i < |s.medias| && (!AnyKeepAlive(c.sessions) ==> !s.keepAlive)
    ensures var t := ReleaseMedia(c, sid, s, i);
            t == c.(sessions := t.sessions, used := t.used) && (!AnyKeepAlive(c.sessions) ==> !AnyKeepAlive(t.sessions))
  {
    if !s.keepAlive && !AnyKeepAlive(c.sessions) {
      PutUnflagged(c.sessions, sid, DropMedia(s, i));
    }
  }

  lemma TeardownReporting(c: Client, h: Header, userdata: int, sid: Option<Id>, status: Status, gone: bool)
    ensures var delivers := if sid.None? || Find(c.sessions, sid.value).None? then !c.isInternal
                            else var s := Find(c.sessions, sid.value).value; !s.internalTeardown && TeardownTarget(s, h.uri).Some?;
            Reporting(c, TeardownCompleted(c, h, userdata, sid, status, gone).0,
                      if delivers then [Completed(h.verb, h.cseq, userdata, status)] else [])
  {
    hide TeardownTarget, ReleaseMedia, AnyKeepAlive;
    if sid.Some? && Find(c.sessions, sid.value).Some? {
      if !AnyKeepAlive(c.sessions) {
        NoneFlagged(c.sessions, sid.value);
      }
      var s := Find(c.sessions, sid.value).value;
      var media := TeardownTarget(s, h.uri);
      if media.Some? && media.value.Some? {
        var d := if s.internalTeardown then c else Report(c, h, userdata, status).(isInternal := false);
        ReleaseReporting(d, sid.value, s, media.value.value);
      }
    }
  }

  lemma DeliverReporting(c: Client, h: Header, userdata: int, sid: Option<Id>, r: Reply, status: Status, env: Env)
    requires h.verb != NoVerb && h.verb != GetParameter
    ensures var delivers := h.verb == Teardown ==>
                              if sid.None? || Find(c.sessions, sid.value).None? then !c.isInternal
                              else var s := Find(c.sessions, sid.value).value;
                                   !s.internalTeardown && TeardownTarget(s, h.uri).Some?;
            Reporting(c, Deliver(c, h, userdata, sid, r, status, env).0,
                      if delivers then [Completed(h.verb, h.cseq, userdata, status)] else [])
  {
    hide SetupCompleted, TeardownCompleted, KeepAliveCompleted, AnyKeepAlive, TeardownTarget;
    SetupReporting(c, h, userdata, sid, r, status);
    TeardownReporting(c, h, userdata, sid, status, r.code == STATUS_SESSION_NOT_FOUND);
  }

  /** The pending request is one of the user. */
  predicate Taken(c: Client) { c.pending && c.header.verb != NoVerb && c.header.verb != GetParameter }

  lemma SettleReporting(c: Client, r: Reply, status: Status, env: Env)
    requires Taken(c)
    ensures Completes(c, Settle(c, r, status, env), r, status) && Settle(c, r, status, env).conn == c.conn
  {
    hide Deliver, AnyKeepAlive, TeardownTarget, RemoveSession, Touch;
    var sid := if r.sid.Some? then r.sid else c.header.sid;
    var d := c.(header := NO_HEADER, userdata := 0, pending := false, armed := false);
    TouchUnflagged(d, c.header.verb, sid);
    TouchSessions(c, d, c.header.verb, sid);
    var touched := Touch(d, c.header.verb, sid);
    DeliverReporting(touched, c.header, c.userdata, sid, r, FinalStatus(status, r.code), env);
    var e := Deliver(touched, c.header, c.userdata, sid, r, FinalStatus(status, r.code), env).0;
    assert e.log == c.log + Reported(c, r, status);
    if sid.Some? {
      RemoveQuiet(e, sid.value);
      RemoveKeepsConn(e, sid.value);
    }
  }

  lemma TouchSessions(c: Client, d: Client, verb: Verb, sid: Option<Id>)
    requires c.sessions == d.sessions && c.base == d.base
    ensures Touch(c, verb, sid).sessions == Touch(d, verb, sid).sessions
  {
  }

  lemma RemoveKeepsConn(c: Client, sid: Id)
    ensures RemoveSession(c, sid).conn == c.conn
  {
  }

  /** From `c` to `t` the pending request is completed. */
  ghost predicate Done(c: Client, t: Client, r: Reply, status: Status) {
    Free(t) && t.cseq == c.cseq && OnlyRemovals(c.log + Reported(c, r, status), t.log)
  }

  /** The same, whether or not keep-alives are outstanding. */
  ghost predicate Completes(c: Client, t: Client, r: Reply, status: Status) {
    && !t.pending && t.cseq == c.cseq && OnlyRemovals(c.log + Reported(c, r, status), t.log)
    && (!AnyKeepAlive(c.sessions) ==> !AnyKeepAlive(t.sessions))
  }

  lemma AbortDone(c: Client, env: Env)
    requires Taken(c)
    ensures Completes(c, Abort(c, env), NoReply(c.header.sid, Aborted), Aborted)
  {
    hide Settle, Delivers;
    SettleReporting(c, NoReply(c.header.sid, Aborted), Aborted, env);
  }

  lemma CompleteDone(c: Client, r: Reply, status: Status, env: Env)
    requires Taken(c)
    ensures Completes(c, Complete(c, r, status, env), r, status)
  {
    hide Settle, Delivers;
    SettleReporting(c, r, status, env);
  }

  /** What a completing event completes the pending request with. */
  function Completion(c: Client, e: Event): Option<(Reply, Status)> {
    match e
    case Response(cseq, r, _) => if cseq == c.header.cseq then Some((r, Ok)) else None
    case ResponseTimeout(_) => Some((NoReply(c.header.sid, TimedOut), TimedOut))
    case Cancel(_) => Some((NoReply(c.header.sid, Canceled), Canceled))
    case Down(_) => if c.conn in {Connected, Disconnecting} then Some((NoReply(c.header.sid, Aborted), Aborted)) else None
    case DisconnectCall(env) =>
      if c.conn == Connecting || (c.conn == Connected && env.stopFires) then Some((NoReply(c.header.sid, Aborted), Aborted)) else None
    case _ => None
  }

  lemma DisconnectStep(c: Client, env: Env)
    requires Taken(c)
    ensures var t, end := Disconnect(c, env).0, Completion(c, DisconnectCall(env));
            if end.Some? then Completes(c, t, end.value.0, end.value.1) else Quiet(c, t)
  {
    hide Abort, RemoveSessions, Delivers, AnyKeepAlive;
    var closing := c.(conn := Disconnecting);
    AbortDone(closing, env);
    SameDelivery(c, closing, NoReply(c.header.sid, Aborted));
    var d := Abort(closing, env).(conn := Disconnected);
    RemoveSessionsQuiet(d, d.sessions);
    RemoveSessionsQuiet(closing, closing.sessions);
  }

  lemma SameDelivery(c: Client, d: Client, r: Reply)
    requires c.sessions == d.sessions && c.header == d.header && c.isInternal == d.isInternal && c.base == d.base
    ensures Delivers(c, r) == Delivers(d, r)
  {
    hide TeardownTarget, Touch;
    TouchSessions(c, d, Teardown, if r.sid.Some? then r.sid else c.header.sid);
  }

  lemma TimeoutStep(c: Client, env: Env)
    requires Taken(c)
    ensures Completes(c, Complete(c.(armed := false), NoReply(c.header.sid, TimedOut), TimedOut, env), NoReply(c.header.sid, TimedOut), TimedOut)
  {
    hide Complete, Delivers, AnyKeepAlive;
    CompleteDone(c.(armed := false), NoReply(c.header.sid, TimedOut), TimedOut, env);
    SameDelivery(c, c.(armed := false), NoReply(c.header.sid, TimedOut));
  }

  lemma DownStep(c: Client, env: Env)
    requires Taken(c)
    ensures var t, end := ConnectionLost(c, env), Completion(c, Down(env));
            if end.Some? then Completes(c, t, end.value.0, end.value.1) else Quiet(c, t)
  {
    hide Abort, Delivers, AnyKeepAlive;
    AbortDone(c, env);
  }

  lemma ResponseStep(c: Client, cseq: nat, r: Reply, env: Env)
    requires Taken(c)
    ensures var t, end := Respond(c, cseq, r, env).0, Completion(c, Response(cseq, r, env));
            if end.Some? then Completes(c, t, end.value.0, end.value.1) else Quiet(c, t)
  {
    hide Complete, Delivers, AnyKeepAlive;
    CompleteDone(c, r, Ok, env);
  }

  lemma UpStep(c: Client, outs: seq<Outcome>, h: Header, userdata: int)
    requires Held(c, h, userdata)
    ensures Quiet(c, Probe(c.(conn := Connected), c.sessions, outs))
  {
    hide Probe, AnyKeepAlive;
    ProbeQuiet(c.(conn := Connected), c.sessions, outs);
  }

  /** One step: the request stays as it is and nothing is sent or completed, or it is completed. */
  lemma HeldStep(c: Client, e: Event, h: Header, userdata: int)
    requires Held(c, h, userdata) && Enabled(c, e)
    ensures var t, end := Step(c, e).0, Completion(c, e);
            if end.Some? then Done(c, t, end.value.0, end.value.1) else Quiet(c, t)
  {
    hide Ask, AskTeardown, AskSetup, KeepAlive, Probe, Complete, ConnectionLost, Disconnect, RemoveSession, Respond,
         ServerTeardown, NoReply, Delivers, AnyKeepAlive;
    match e
    case Up(outs) => UpStep(c, outs, h, userdata);
    case Down(env) => DownStep(c, env);
    case DisconnectCall(env) => DisconnectStep(c, env);
    case Request(_, _, _, _, _, _) => OthersRefused(c, e);
    case SetupRequest(_, _, _, _, _, _, _) => OthersRefused(c, e);
    case TeardownRequest(_, _, _, _, _) => OthersRefused(c, e);
    case KeepAliveTimer(sid, out) => KeepAliveQuiet(c, sid, out);
    case ResponseTimeout(env) => TimeoutStep(c, env);
    case Response(cseq, r, env) => ResponseStep(c, cseq, r, env);
    case TeardownFromServer(sid, uri) => ServerTeardownQuiet(c, sid, uri);
    case RemoveCall(sid) => RemoveQuiet(c, sid);
    case Cancel(env) => CompleteDone(c, NoReply(c.header.sid, Canceled), Canceled, env);
    case _ =>
  }

  // --- whole runs ---

  /** The position of the first completing event. */
  function FirstCompletion(c: Client, events: seq<Event>): (r: Option<nat>)
    requires Run(c, events)
    ensures r.Some? ==> r.value < |events|
    decreases |events|
  {
    if events == [] then None
    else if Completion(c, events[0]).Some? then Some(0)
    else
      var r := FirstCompletion(Step(c, events[0]).0, events[1..]);
      if r.None? then None else Some(r.value + 1)
  }

  lemma {:induction false} RunPrefix(c: Client, events: seq<Event>, n: nat)
    requires Run(c, events) && n <= |events|
    ensures Run(c, events[..n]) && Run(After(c, events[..n]), events[n..])
    ensures After(After(c, events[..n]), events[n..]) == After(c, events)
    decreases n
  {
    hide Step, Enabled;
    if n == 0 {
      assert events[0..] == events;
    } else {
      var d := Step(c, events[0]).0;
      RunPrefix(d, events[1..], n - 1);
      assert events[..n][1..] == events[1..][..n - 1] && events[1..][n - 1..] == events[n..];
    }
  }

  lemma {:induction false} QuietUntil(c: Client, events: seq<Event>, h: Header, userdata: int, n: nat)
    requires Held(c, h, userdata) && Run(c, events) && n <= |events|
    requires var f := FirstCompletion(c, events); f.None? || n <= f.value
    ensures Run(c, events[..n]) && Quiet(c, After(c, events[..n])) && Held(After(c, events[..n]), h, userdata)
    ensures var f := FirstCompletion(c, events); f.Some? && n == f.value ==> Completion(After(c, events[..n]), events[n]).Some?
    decreases n
  {
    hide Step, Enabled, AnyKeepAlive;
    if n > 0 {
      HeldStep(c, events[0], h, userdata);
      var d := Step(c, events[0]).0;
      QuietUntil(d, events[1..], h, userdata, n - 1);
      assert events[..n][1..] == events[1..][..n - 1];
      QuietThen(c, d, After(c, events[..n]));
    }
  }

  lemma CountReported(c: Client, log: seq<Entry>, r: Reply, status: Status)
    requires OnlyRemovals(c.log + Reported(c, r, status), log)
    ensures Count(log, c.header.cseq) == Count(c.log, c.header.cseq) + if Delivers(c, r) then 1 else 0
  {
    hide Delivers;
    CountAppend(c.log, Completed(c.header.verb, c.header.cseq, c.userdata, FinalStatus(status, r.code)), c.header.cseq);
    assert c.log + [] == c.log;
    CountQuiet(c.log + Reported(c, r, status), log, c.header.cseq);
  }

  lemma {:induction false} CountQuiet(a: seq<Entry>, b: seq<Entry>, k: nat)
    requires OnlyRemovals(a, b)
    ensures Count(a, k) == Count(b, k)
    decreases |b|
  {
    if |a| < |b| {
      CountQuiet(a, b[..|b| - 1], k);
    } else {
      assert a == b;
    }
  }

  /**
    Over a whole run, a held request either stays held, nothing being sent or completed meanwhile, or the first
    completing event completes it with its own method and user data: exactly once, or never for a TEARDOWN that names
    neither a media nor the session, or whose reply names another session that the library is tearing down.
   */
  lemma CompletedExactlyOnce(c: Client, events: seq<Event>, h: Header, userdata: int)
    requires Held(c, h, userdata) && Run(c, events)
    ensures match FirstCompletion(c, events)
            case None => Held(After(c, events), h, userdata) && Quiet(c, After(c, events))
            case Some(i) =>
              && Run(c, events[..i])
              && var m := After(c, events[..i]);
              && Held(m, h, userdata) && Quiet(c, m) && Enabled(m, events[i]) && Completion(m, events[i]).Some?
              && var (r, status) := Completion(m, events[i]).value;
              && Done(m, Step(m, events[i]).0, r, status)
              && Count(After(c, events).log, h.cseq)
                 == Count(c.log, h.cseq) + if h.verb == Teardown && (Unmatched(m, r) || Misdirected(m, r)) then 0 else 1
  {
    hide Step, Enabled, AnyKeepAlive, Delivers, Unmatched, Misdirected, AskedByUser, StaysClear;
    var f := FirstCompletion(c, events);
    if f.None? {
      QuietUntil(c, events, h, userdata, |events|);
      assert events[..|events|] == events;
    } else {
      QuietUntil(c, events, h, userdata, f.value);
      RunPrefix(c, events, f.value);
      var m := After(c, events[..f.value]);
      CompletionCounts(c, m, events[f.value..], h, userdata);
      DeliversIff(m, Completion(m, events[f.value]).value.0);
    }
  }

  lemma CompletionCounts(c: Client, m: Client, events: seq<Event>, h: Header, userdata: int)
    requires Held(m, h, userdata) && Quiet(c, m) && events != [] && Run(m, events) && Completion(m, events[0]).Some?
    ensures var (r, status) := Completion(m, events[0]).value;
            && Done(m, Step(m, events[0]).0, r, status)
            && Count(After(m, events).log, h.cseq) == Count(c.log, h.cseq) + if Delivers(m, r) then 1 else 0
  {
    hide Step, Enabled, AnyKeepAlive, Delivers;
    var (r, status) := Completion(m, events[0]).value;
    HeldStep(m, events[0], h, userdata);
    var t := Step(m, events[0]).0;
    CountReported(m, t.log, r, status);
    CountQuiet(c.log, m.log, h.cseq);
    RunNoMore(t, events[1..], h.cseq);
    CountGrows(t.log, After(t, events[1..]).log, h.cseq);
  }

  // --- acceptance, and what goes wrong while a keep-alive is outstanding ---

  function UserdataOf(e: Event): int
    requires IsRequest(e)
  {
    e.userdata
  }

  /** The request `e` of the user is accepted. */
  predicate Accepts(c: Client, e: Event) { IsRequest(e) && Enabled(c, e) && Step(c, e).1 == OK }

  lemma TeardownAccepted(c: Client, e: Event)
    requires e.TeardownRequest? && Accepts(c, e)
    ensures var t := Step(c, e).0;
            && t.pending && t.header.verb == Teardown && t.header.cseq == c.cseq && t.cseq == c.cseq + 1
            && t.userdata == UserdataOf(e) && (e.timeout > 0 ==> t.armed) && t.log == c.log + [Issued(Teardown, c.cseq)]
            && (!AnyKeepAlive(c.sessions) ==> !AnyKeepAlive(t.sessions)) && AskedByUser(t, t.header) && t.header.sid == Some(e.sid)
  {
    hide FormatUri, IsAbsolute;
    var s := Find(c.sessions, e.sid).value;
    if !AnyKeepAlive(c.sessions) {
      NoneFlagged(c.sessions, e.sid);
      PutUnflagged(c.sessions, e.sid, s.(internalTeardown := false));
    }
  }

  /** What accepting a request does to the slot. */
  ghost predicate TakesSlot(c: Client, t: Client, verb: Verb, userdata: int, timeout: nat) {
    && t.pending && t.header.verb == verb && t.header.cseq == c.cseq && t.cseq == c.cseq + 1 && t.userdata == userdata
    && (timeout > 0 ==> t.armed) && t.log == c.log + [Issued(verb, c.cseq)] && t.sessions == c.sessions
  }

  lemma AskAccepted(c: Client, e: Event)
    requires e.Request? && Accepts(c, e)
    ensures TakesSlot(c, Step(c, e).0, e.verb, e.userdata, e.timeout)
    ensures e.verb != NoVerb && e.verb != GetParameter && e.verb != Teardown
  {
    hide AnyKeepAlive;
  }

  lemma SetupAccepted(c: Client, e: Event)
    requires e.SetupRequest? && Accepts(c, e)
    ensures TakesSlot(c, Step(c, e).0, Setup, e.userdata, e.timeout)
  {
    hide FormatUri, IsAbsolute, Url.StripCredentials, SendSetup, AnyKeepAlive;
    var d := ClearTimer(c);
    var stripped := Url.StripCredentials(e.base);
    var h := Header(Setup, d.cseq, FormatUri(stripped.value, e.resource), e.known, Channels.NO_PAIR);
    SendSetupAccepted(d.(base := Some(stripped.value)), h, e.transport, e.userdata, e.timeout, e.out);
  }

  lemma SendSetupAccepted(c: Client, h: Header, t: Transport, userdata: int, timeout: nat, out: Outcome)
    requires SearchEnds(c, t) && SendSetup(c, h, t, userdata, timeout, out).1 == OK && h.verb == Setup && h.cseq == c.cseq
    ensures TakesSlot(c, SendSetup(c, h, t, userdata, timeout, out).0, Setup, userdata, timeout)
  {
    hide Channels.Allocate;
  }

  /**
    A request accepted while nothing is outstanding is held, with its own method, number and user data, and timed; a
    TEARDOWN with its own session and no mark of the library.
   */
  lemma AcceptedIsHeld(c: Client, e: Event)
    requires Accepts(c, e) && !AnyKeepAlive(c.sessions) && c.cseq > 0
    ensures var t := Step(c, e).0;
            && !c.pending && Held(t, t.header, UserdataOf(e)) && t.header.verb == VerbOf(e) && t.header.cseq == c.cseq
            && t.log == c.log + [Issued(VerbOf(e), c.cseq)] && (e.timeout > 0 ==> t.armed)
            && (e.TeardownRequest? ==> t.header.sid == Some(e.sid) && AskedByUser(t, t.header))
  {
    hide Step, Enabled, AnyKeepAlive, AskedByUser;
    if c.pending {
      OthersRefused(c, e);
      assert false;
    }
    if e.TeardownRequest? {
      TeardownAccepted(c, e);
    } else if e.Request? {
      AskAccepted(c, e);
    } else {
      SetupAccepted(c, e);
    }
  }

  lemma AcceptedTakesNumber(c: Client, e: Event)
    requires Accepts(c, e)
    ensures var t := Step(c, e).0;
            t.pending && t.header.cseq == c.cseq && t.cseq == c.cseq + 1 && t.log == c.log + [Issued(VerbOf(e), c.cseq)]
  {
    hide Step, Enabled, AnyKeepAlive;
    if e.TeardownRequest? {
      TeardownAccepted(c, e);
    } else if e.Request? {
      AskAccepted(c, e);
    } else {
      SetupAccepted(c, e);
    }
  }

  /** A pending request can be overtaken by another one of the user exactly while some keep-alive is outstanding. */
  lemma OvertakenIffKeepAlive(c: Client)
    requires c.pending && c.conn == Connected
    ensures (exists e :: Accepts(c, e)) <==> AnyKeepAlive(c.sessions)
  {
    if AnyKeepAlive(c.sessions) {
      assert Accepts(c, Request(Options, "*", 0, 0, 0, Written));
    } else {
      forall e | IsRequest(e) && Enabled(c, e) ensures !Accepts(c, e) {
        OthersRefused(c, e);
      }
    }
  }

  /** The overtaken request is lost: no run completes it any more. */
  lemma OvertakenIsLost(c: Client, e: Event, events: seq<Event>)
    requires c.pending && 0 < c.header.cseq < c.cseq && Accepts(c, e) && Run(Step(c, e).0, events)
    ensures Count(After(Step(c, e).0, events).log, c.header.cseq) == Count(c.log, c.header.cseq)
  {
    hide Step, Enabled, AnyKeepAlive;
    var k := c.header.cseq;
    var t := Step(c, e).0;
    AcceptedTakesNumber(c, e);
    CountAppend(c.log, Issued(VerbOf(e), c.cseq), k);
    RunNoMore(t, events, k);
    CountGrows(t.log, After(t, events).log, k);
  }

  /** What a request does to the slot and the log, by whether it replaces the header and whether it is sent. */
  ghost predicate Outcomes(c: Client, e: Event, t: Client, res: int)
    requires IsRequest(e)
  {
    && (Replaces(c, e) ==> t.header.verb == VerbOf(e) && t.userdata == UserdataOf(e))
    && (!Replaces(c, e) ==> t.header == c.header && t.userdata == c.userdata && res != OK)
    && t.pending == (c.pending || res == OK) && t.log == c.log + if res == OK then [Issued(VerbOf(e), c.cseq)] else []
  }

  /** A request takes the header exactly when it gets that far, and the slot only when it is sent. */
  lemma ReplacedIff(c: Client, e: Event)
    requires IsRequest(e) && Enabled(c, e)
    ensures Outcomes(c, e, Step(c, e).0, Step(c, e).1)
  {
    hide Ask, AskTeardown, AskSetup, Outcomes;
    match e
    case Request(verb, uri, sid, userdata, timeout, out) => AskOutcomes(c, e);
    case TeardownRequest(resource, sid, userdata, timeout, out) => TeardownOutcomes(c, e);
    case SetupRequest(base, resource, sid, transport, userdata, timeout, out) => SetupOutcomes(c, e);
  }

  lemma AskOutcomes(c: Client, e: Event)
    requires e.Request?
    ensures var (t, res) := Ask(c, e.verb, e.uri, e.sid, e.userdata, e.timeout, e.out); Outcomes(c, e, t, res)
  {
    hide AnyKeepAlive, Send, Refusal;
    var d := ClearTimer(c);
    SendOutcome(d, Header(e.verb, d.cseq, e.uri, None, Channels.NO_PAIR), e.userdata, e.timeout, e.out);
    var base := Find(d.sessions, e.sid).UnwrapOr(NewSession()).base.UnwrapOr("");
    SendOutcome(d, Header(e.verb, d.cseq, base, Some(e.sid), Channels.NO_PAIR), e.userdata, e.timeout, e.out);
  }

  lemma TeardownOutcomes(c: Client, e: Event)
    requires e.TeardownRequest?
    ensures var (t, res) := AskTeardown(c, e.resource, e.sid, e.userdata, e.timeout, e.out, false); Outcomes(c, e, t, res)
  {
    hide FormatUri, IsAbsolute, AnyKeepAlive, Send, Refusal;
    var d := ClearTimer(c);
    var base := Find(d.sessions, e.sid).UnwrapOr(NewSession()).base.UnwrapOr("");
    var uri := if e.resource == "" then base else FormatUri(base, e.resource);
    SendOutcome(d, Header(Teardown, d.cseq, uri, Some(e.sid), Channels.NO_PAIR), e.userdata, e.timeout, e.out);
  }

  lemma SetupOutcomes(c: Client, e: Event)
    requires e.SetupRequest? && SearchEnds(c, e.transport)
    ensures var (t, res) := AskSetup(c, e.base, e.resource, e.known, e.transport, e.userdata, e.timeout, e.out); Outcomes(c, e, t, res)
  {
    hide FormatUri, Url.StripCredentials, SendSetup, AnyKeepAlive, Refusal, Channels.FirstFree;
    var d := ClearTimer(c);
    var stripped := Url.StripCredentials(e.base);
    if stripped.Success? {
      var h := Header(Setup, d.cseq, FormatUri(stripped.value, e.resource), e.known, Channels.NO_PAIR);
      SendSetupOutcome(d.(base := Some(stripped.value)), h, e.transport, e.userdata, e.timeout, e.out);
    }
  }

  lemma SendOutcome(c: Client, h: Header, userdata: int, timeout: nat, out: Outcome)
    ensures var (t, res) := Send(c, h, userdata, timeout, out);
            && t.pending == (c.pending || res == OK) && t.log == c.log + (if res == OK then [Issued(h.verb, h.cseq)] else [])
            && t.header.verb == h.verb && t.header.cseq == h.cseq && t.userdata == userdata
  {
  }

  lemma SendSetupOutcome(c: Client, h: Header, transport: Transport, userdata: int, timeout: nat, out: Outcome)
    requires SearchEnds(c, transport)
    ensures var (t, res) := SendSetup(c, h, transport, userdata, timeout, out);
            && t.pending == (c.pending || res == OK) && t.log == c.log + (if res == OK then [Issued(h.verb, h.cseq)] else [])
            && t.header.verb == h.verb && t.userdata == userdata
  {
    hide Channels.Allocate, Channels.FirstFree;
  }

  /**
    A request that fails after it replaced the header, although the call reports the failure: if a keep-alive was
    pending, the next completing event, whichever it is, is reported as the end of the failed request; otherwise no
    completing event reports anything.
   */
  lemma RefusedYetCompleted(c: Client, e: Event, f: Event)
    requires IsRequest(e) && Enabled(c, e) && Replaces(c, e) && Step(c, e).1 != OK
    requires Enabled(Step(c, e).0, f) && Completion(Step(c, e).0, f).Some?
    ensures var t := Step(c, e).0; var u := Step(t, f).0; var (r, status) := Completion(t, f).value;
            && t.log == c.log && t.header.verb == VerbOf(e) && t.userdata == UserdataOf(e)
            && (c.pending ==> Completes(t, u, r, status)) && (!c.pending ==> OnlyRemovals(c.log, u.log))
  {
    hide Step, Enabled, Replaces, AnyKeepAlive;
    ReplacedIff(c, e);
    var t := Step(c, e).0;
    assert t.log == c.log + [] && c.log + [] == c.log;
    if c.pending {
      UserVerb(c, e);
      CompletingStep(t, f);
    } else {
      IdleStep(t, f);
    }
  }

  lemma UserVerb(c: Client, e: Event)
    requires IsRequest(e) && Enabled(c, e)
    ensures VerbOf(e) != NoVerb && VerbOf(e) != GetParameter
  {
  }

  lemma CompletingStep(c: Client, f: Event)
    requires Taken(c) && Enabled(c, f) && Completion(c, f).Some?
    ensures var (r, status) := Completion(c, f).value; Completes(c, Step(c, f).0, r, status)
  {
    hide Complete, ConnectionLost, Disconnect, Respond, NoReply, Delivers, AnyKeepAlive, Reported;
    match f
    case Down(env) => DownStep(c, env);
    case DisconnectCall(env) => DisconnectStep(c, env);
    case ResponseTimeout(env) => TimeoutStep(c, env);
    case Response(cseq, r, env) => ResponseStep(c, cseq, r, env);
    case Cancel(env) => CompleteDone(c, NoReply(c.header.sid, Canceled), Canceled, env);
  }

  lemma IdleStep(c: Client, f: Event)
    requires !c.pending && Enabled(c, f) && Completion(c, f).Some?
    ensures OnlyRemovals(c.log, Step(c, f).0.log)
  {
    hide RemoveSessions;
    if f.DisconnectCall? {
      var d := c.(conn := Disconnected);
      RemoveSessionsQuiet(d, d.sessions);
    }
  }
}
