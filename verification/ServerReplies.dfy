/** How the answers of the application for the medias of one request become one response. */
module ServerReplies {
  import opened Wrappers
  import opened Lists
  import opened ServerState
  import opened ServerInvariant
  import opened ServerRuns

  // --- events that have nothing to do with a request and its session ---

  /** The request and the range of its session read the same, and no response was sent to it. */
  ghost predicate Untouched(s: Server, t: Server, r: Id, x: Id) {
    && Find(t.pending, r) == Find(s.pending, r) && t.next >= s.next
    && Count(t.log, r) == Count(s.log, r)
    && SessionStays(s, t, x)
    && (s.frame.Some? ==> t.frame == s.frame || s.frame.value.request != r)
  }

  ghost predicate SessionStays(s: Server, t: Server, x: Id) {
    Find(s.sessions, x).Some? ==>
      && Find(t.sessions, x).Some?
      && Find(t.sessions, x).value.range == Find(s.sessions, x).value.range
      && Find(t.sessions, x).value.scale == Find(s.sessions, x).value.scale
  }

  /** The same session, or none in both. */
  ghost predicate SessionSame(s: Server, t: Server, x: Id) { Find(t.sessions, x) == Find(s.sessions, x) }

  /** Any event but a reply to `r`, its own return or timeout, its disconnection, and replies or removals in session `x`. */
  predicate Unrelated(s: Server, e: Event, r: Id, x: Id) {
    match e
    case Returned =>
      && s.frame.Some? && s.frame.value.request != r
      && if s.frame.value.Frame? then s.frame.value.session != Some(x) else !Overdue(s, r, s.frame.value.now)
    case SingleReply(req, _, _, _) => req != r
    case SetupReply(req, sess, _, _, _) => req != r && sess != x
    case MediaReply(req, a, _) => req != r && a.session != x
    case TimerTick(now, _) => !Overdue(s, r, now)
    case Disconnected(conn) => Find(s.pending, r).Some? ==> Find(s.pending, r).value.conn != Some(conn)
    case SessionTimeout(sess) => sess != x
    case IdleRemoval(sess) => sess != x
    case Forced(sid, _) => FindSid(s.sessions, sid) != Some(x)
    case _ => true
  }

  lemma SetOpStays(s: Server, sess: Option<Id>, op: Verb, x: Id)
    requires Structure(s)
    ensures SessionStays(s, SetOp(s, sess, op), x) && (sess != Some(x) ==> SessionSame(s, SetOp(s, sess, op), x))
  {
    if sess.Some? && Find(s.sessions, sess.value).Some? {
      PutAll(s.sessions, sess.value, Find(s.sessions, sess.value).value.(op := op));
    }
  }

  lemma RemoveMarkedStays(s: Server, sess: Id, x: Id)
    requires Structure(s) && sess != x
    ensures SessionSame(s, RemoveMarked(s, sess), x)
  {
    if Find(s.sessions, sess).Some? {
      var y := Find(s.sessions, sess).value;
      var kept := Unmarked(y.medias);
      var z := y.(medias := kept, mediaCount := y.mediaCount - (|y.medias| - |kept|));
      PutAll(s.sessions, sess, z);
      RemoveAll(Put(s.sessions, sess, z), sess);
    }
  }

  lemma ConcludeStays(s: Server, verb: Verb, req: Id, sess: Option<Id>, x: Id)
    requires Structure(s) && sess != Some(x)
    ensures SessionSame(s, Conclude(s, verb, req, sess), x)
  {
    hide Structure;
    SetOpStays(s, sess, Unknown, x);
    SetOpKeeps(s, sess, Unknown);
    RemoveRequestKeeps(SetOp(s, sess, Unknown), req);
    if sess.Some? {
      RemoveMarkedStays(RemoveRequest(SetOp(s, sess, Unknown), req), sess.value, x);
    }
  }

  lemma FinishStays(s: Server, t: Server, verb: Verb, req: Id, sess: Option<Id>, x: Id)
    requires Structure(t) && sess != Some(x) && SessionSame(s, t, x)
    ensures SessionSame(s, Finish(t, verb, req, sess), x)
  {
    hide Structure, Conclude;
    if Find(t.pending, req).Some? {
      RequestIsOk(t, req);
      SetRequestKeeps(t, req, Find(t.pending, req).value.(replied := true));
      ConcludeStays(SetRequest(t, req, Find(t.pending, req).value.(replied := true)), verb, req, sess, x);
    }
  }

  lemma AnswerStays(s: Server, req: Id, status: int, sent: bool, verb: Verb, sess: Option<Id>, x: Id)
    requires Structure(s) && sess != Some(x)
    ensures SessionSame(s, Finish(Sent(s, req, status, sent), verb, req, sess), x)
    ensures sess.Some? ==> SessionSame(s, Finish(SetupFailed(Sent(s, req, status, sent), sess.value), verb, req, sess), x)
  {
    hide Structure, Finish;
    SentKeeps(s, req, status, sent);
    FinishStays(s, Sent(s, req, status, sent), verb, req, sess, x);
    if sess.Some? {
      SetupFailedKeeps(Sent(s, req, status, sent), sess.value);
      FinishStays(s, SetupFailed(Sent(s, req, status, sent), sess.value), verb, req, sess, x);
    }
  }

  lemma RepliesStay(s: Server, req: Id, sess: Id, status: int, flag: bool, env: Env, x: Id)
    requires Structure(s) && sess != x
    ensures SessionSame(s, ReplySingle(s, req, status, flag, env).0, x)
    ensures SessionSame(s, ReplySetup(s, req, sess, status, flag, env).0, x)
  {
    hide Structure, Finish, SessionSame, SetupFailed;
    SameStays(s, x);
    if Find(s.pending, req).Some? {
      var verb := Find(s.pending, req).value.verb;
      FinishStays(s, s, verb, req, None, x);
      AnswerStays(s, req, status, env.errorSent, verb, None, x);
      AnswerStays(s, req, status, env.sent, verb, None, x);
      AnswerStays(s, req, STATUS_INTERNAL_SERVER_ERROR, env.errorSent, verb, None, x);
      AnswerStays(s, req, status, true, Setup, Some(sess), x);
      AnswerStays(s, req, status, false, Setup, Some(sess), x);
      AnswerStays(s, req, status, env.errorSent, Setup, Some(sess), x);
      AnswerStays(s, req, STATUS_INTERNAL_SERVER_ERROR, env.errorSent, Setup, Some(sess), x);
    }
  }

  lemma SameStays(s: Server, x: Id)
    ensures SessionSame(s, s, x)
  {
  }

  lemma RejectStays(s: Server, t: Server, req: Id, a: Answer, status: int, env: Env, x: Id)
    requires Structure(t) && a.session != x && SessionSame(s, t, x)
    ensures SessionSame(s, Reject(t, req, a, status, env), x)
  {
    hide Structure, Finish;
    SentKeeps(t, req, status, true);
    FinishStays(s, ErrorResponse(t, req, status, env), a.kind, req, Some(a.session), x);
  }

  lemma AcceptStays(s: Server, t: Server, req: Id, q: Request, y: Session, a: Answer, env: Env, x: Id)
    requires Structure(t) && a.session != x && SessionSame(s, t, x)
    requires Find(t.pending, req) == Some(q) && Find(t.sessions, a.session) == Some(y)
    ensures SessionSame(s, Accept(t, req, q, y, a, env).0, x)
  {
    hide Structure, Finish, Reject;
    var p := q.(medias := Put(q.medias, a.media, true));
    AnsweredOk(t, req, q, a.media);
    SetRequestKeeps(t, req, p);
    var u := SetRequest(t, req, p);
    PlayingKeeps(u, a.session, y, a.kind);
    var v := u.(sessions := Put(u.sessions, a.session, SetPlaying(y, a.kind)));
    FindPut(u.sessions, a.session, SetPlaying(y, a.kind), x);
    RejectStays(s, v, req, a, STATUS_INTERNAL_SERVER_ERROR, env, x);
    SentKeeps(v, req, a.status, env.sent);
    FinishStays(s, Sent(v, req, a.status, env.sent), a.kind, req, Some(a.session), x);
  }

  lemma MediaReplyStays(s: Server, req: Id, a: Answer, env: Env, x: Id)
    requires Structure(s) && a.session != x
    ensures SessionSame(s, ReplyMedia(s, req, a, env).0, x)
  {
    hide Structure, Finish, Reject, Accept, Taken;
    match (Find(s.pending, req), Find(s.sessions, a.session))
    case (None, _) =>
    case (_, None) =>
    case (Some(q), Some(y)) =>
      FinishStays(s, s, a.kind, req, Some(a.session), x);
      RejectStays(s, s, req, a, a.status, env, x);
      RejectStays(s, s, req, a, STATUS_INTERNAL_SERVER_ERROR, env, x);
      TakenKeeps(s, req, q, y, a);
      var t := Taken(s, req, q, y, a);
      RejectStays(s, t, req, a, STATUS_INTERNAL_SERVER_ERROR, env, x);
      AcceptStays(s, t, req, NotFirst(q, a), TakeRange(q, y, a), a, env, x);
  }

  lemma FailStays(s: Server, req: Id, status: int, env: Env)
    ensures Fail(s, req, status, env).sessions == s.sessions
  {
  }

  lemma SetupStays(s: Server, conn: Id, deadline: nat, sid: Option<string>, newSid: string, path: string, env: Env, x: Id)
    requires Structure(s) && (sid.None? ==> FindSid(s.sessions, newSid).None?)
    ensures SessionStays(s, BeginSetup(s, conn, deadline, sid, newSid, path, env), x)
  {
    hide Structure, EnterCallback, AddSession, AddMedia, SetOp;
    var a := AddRequest(s, conn, Setup, deadline);
    AddRequestKeeps(s, conn, Setup, deadline);
    var sess := if sid.None? then Some(a.next) else FindSid(a.sessions, sid.value);
    if sess.Some? {
      var u := if sid.None? then AddSession(a, newSid) else a;
      if sid.None? {
        AddSessionKeeps(a, newSid);
        NewIsFresh(a);
      }
      SetupTargetStays(s, u, sess.value, path, s.next, env, x);
    }
  }

  lemma NewIsFresh(s: Server)
    requires Structure(s)
    ensures Find(s.sessions, s.next).None?
  {
  }

  lemma SetupTargetStays(s: Server, u: Server, sess: Id, path: string, req: Id, env: Env, x: Id)
    requires Structure(u) && SessionStays(s, u, x)
    ensures SessionStays(s, Fail(u, req, EPROTO, env), x)
    ensures Find(u.sessions, sess).Some? && FindPath(Find(u.sessions, sess).value.medias, path).None? ==>
              SessionStays(s, EnterCallback(SetOp(AddMedia(u, sess, path), Some(sess), Setup), req, [], Some(sess)), x)
  {
    hide Structure;
    FailStays(u, req, EPROTO, env);
    if Find(u.sessions, sess).Some? && FindPath(Find(u.sessions, sess).value.medias, path).None? {
      AddMediaKeeps(u, sess, path);
      AddMediaStays(u, sess, path, x);
      SetOpStays(AddMedia(u, sess, path), Some(sess), Setup, x);
      EnterSessions(SetOp(AddMedia(u, sess, path), Some(sess), Setup), req, [], Some(sess));
    }
  }

  lemma AddMediaStays(s: Server, sess: Id, path: string, x: Id)
    requires Structure(s)
    ensures SessionStays(s, AddMedia(s, sess, path), x)
  {
    if Find(s.sessions, sess).Some? {
      var y := Find(s.sessions, sess).value;
      FindPut(s.sessions, sess, y.(medias := y.medias + [Node(s.next, Media(path, false))], mediaCount := y.mediaCount + 1), x);
    }
  }

  lemma EnterSessions(s: Server, req: Id, medias: List<bool>, sess: Option<Id>)
    ensures EnterCallback(s, req, medias, sess).sessions == s.sessions
  {
  }

  lemma AggregateStays(s: Server, conn: Id, verb: Verb, deadline: nat, sid: string, env: Env, x: Id)
    requires Structure(s)
    ensures SessionStays(s, BeginAggregate(s, conn, verb, deadline, sid, env), x)
  {
    hide Structure, SetOp, EnterCallback, Fail;
    var a := AddRequest(s, conn, verb, deadline);
    FailStays(a, s.next, STATUS_SESSION_NOT_FOUND, env);
    var sess := Target(a, sid);
    if sess.Some? {
      AddRequestKeeps(s, conn, verb, deadline);
      SetOpStays(a, sess, verb, x);
      EnterSessions(SetOp(a, sess, verb), s.next, AllMedias(Find(s.sessions, sess.value).value.medias), sess);
    }
  }

  lemma TeardownStays(s: Server, conn: Id, deadline: nat, sid: string, path: Option<string>, env: Env, x: Id)
    ensures SessionStays(s, BeginTeardown(s, conn, deadline, sid, path, env), x)
  {
    hide EnterCallback, Fail;
    var a := AddRequest(s, conn, Teardown, deadline);
    FailStays(a, s.next, STATUS_SESSION_NOT_FOUND, env);
    var sess := Target(a, sid);
    if sess.Some? {
      var y := Find(s.sessions, sess.value).value;
      var fan := FanOut(y.medias, y.medias, path);
      var z := y.(op := Teardown, medias := Mark(y.medias, y.medias, path));
      FindPut(s.sessions, sess.value, z, x);
      var u := a.(sessions := Put(a.sessions, sess.value, z));
      FailStays(u, s.next, ENOENT, env);
      EnterSessions(u, s.next, fan, sess);
    }
  }

  lemma SweepUntouched(s: Server, walk: seq<Id>, now: nat, unsendable: set<Id>, r: Id)
    requires !Overdue(s, r, now)
    ensures var t := Sweep(s, walk, now, unsendable);
            t.pending == s.pending && Count(t.log, r) == Count(s.log, r) && t.sessions == s.sessions && t.next == s.next
  {
    hide Count;
    if walk != [] {
      if Overdue(s, walk[0], now) {
        var u := ErrorResponse(s, walk[0], STATUS_INTERNAL_SERVER_ERROR, Env(true, true, walk[0] !in unsendable));
        CountResponds(s.log, u.log, walk[0], r);
      } else {
        SweepUntouched(s, walk[1..], now, unsendable, r);
      }
    }
  }

  lemma EffectUntouched(s: Server, t: Server, req: Id, r: Id, x: Id)
    requires ReplyEffect(s, t, req) && req != r && SessionSame(s, t, x)
    ensures Untouched(s, t, r, x)
  {
    assert Responds(s.log, t.log, req);
    CountResponds(s.log, t.log, req, r);
  }

  lemma BeginUntouched(s: Server, t: Server, r: Id, x: Id)
    requires BeginEffect(s, t) && r != s.next && SessionStays(s, t, x)
    ensures Untouched(s, t, r, x)
  {
    assert Responds(s.log, t.log, s.next);
    CountResponds(s.log, t.log, s.next, r);
  }

  lemma ReturnedUntouched(s: Server, r: Id, x: Id)
    requires Invariant(s) && Unrelated(s, Returned, r, x)
    ensures Untouched(s, CallbackReturned(s), r, x)
  {
    hide Structure;
    match s.frame.value
    case Frame(req, sess) => HandlerReturnedUntouched(s, req, sess, r, x);
    case TimingOut(req, rest, now, unsendable) =>
      RemoveRequestKeeps(s, req);
      SweepUntouched(RemoveRequest(s, req), rest, now, unsendable, r);
  }

  lemma HandlerReturnedUntouched(s: Server, req: Id, sess: Option<Id>, r: Id, x: Id)
    requires Invariant(s) && s.frame == Some(Frame(req, sess)) && req != r && sess != Some(x)
    ensures Untouched(s, HandlerReturned(s, req, sess), r, x)
  {
    hide Structure, Conclude;
    var t := s.(frame := None);
    FrameFree(s, None);
    RequestIsOk(t, req);
    var q := Find(t.pending, req).value;
    var p := q.(inCallback := false, firstReply := q.firstReply || q.verb in {Play, Pause, Record});
    SetRequestKeeps(t, req, p);
    if q.replied {
      ConcludeKeeps(SetRequest(t, req, p), q.verb, req, sess);
      ConcludeStays(SetRequest(t, req, p), q.verb, req, sess, x);
    }
  }

  lemma ForcedUntouched(s: Server, sid: string, path: Option<string>, r: Id, x: Id)
    requires Structure(s) && FindSid(s.sessions, sid) != Some(x)
    ensures Untouched(s, ForceTeardown(s, sid, path).0, r, x)
  {
    hide Structure, RemoveMedia;
    ForcedKeeps(s, sid, path);
    var sess := FindSid(s.sessions, sid);
    if sess.Some? {
      RemoveSessionKeeps(s, sess.value);
      var y := Find(s.sessions, sess.value);
      if y.Some? && path.Some? && FindPath(y.value.medias, path.value).Some? {
        RemoveMediaStays(s, sess.value, FindPath(y.value.medias, path.value).value, x);
      }
    }
  }

  lemma RemoveMediaStays(s: Server, sess: Id, m: Id, x: Id)
    requires sess != x
    ensures SessionSame(s, RemoveMedia(s, sess, m), x)
  {
    hide SessionSame, Find, Has, Remove;
    SameStays(s, x);
    if Find(s.sessions, sess).Some? {
      var y := Find(s.sessions, sess).value;
      PutStays(s, sess, y, y.(medias := Remove(y.medias, m), mediaCount := y.mediaCount - 1), x);
    }
  }

  lemma PutStays(s: Server, sess: Id, y: Session, z: Session, x: Id)
    requires Find(s.sessions, sess) == Some(y) && sess != x
    ensures SessionSame(s, s.(sessions := Put(s.sessions, sess, z)), x)
  {
    FindPut(s.sessions, sess, z, x);
  }

  lemma UnrelatedUntouched(s: Server, e: Event, r: Id, x: Id)
    requires Invariant(s) && Enabled(s, e) && Unrelated(s, e, r, x) && r < s.next
    ensures Untouched(s, Step(s, e), r, x)
  {
    hide Structure, CallbackOk, ReplyEffect, BeginEffect, AddRequest, Fail, Immediate, BeginSingle, BeginSetup, BeginAggregate, BeginTeardown, CallbackReturned, ReplySingle, ReplySetup, ReplyMedia, Sweep, Disconnect, RemoveSession, ForceTeardown, SessionStays, SessionSame, Untouched;
    var t := Step(s, e);
    match e
    case Ignored(conn, verb, deadline) =>
      IgnoredEffect(s, conn, verb, deadline);
      PlainStays(s, conn, verb, deadline, OK, Env(true, true, true), x);
      BeginUntouched(s, t, r, x);
    case Rejected(conn, verb, deadline, status, env) =>
      AddRequestKeeps(s, conn, verb, deadline);
      NewFields(s, conn, verb, deadline);
      RefusedKeeps(s, conn, verb, deadline, AddRequest(s, conn, verb, deadline), status, env);
      PlainStays(s, conn, verb, deadline, status, env, x);
      BeginUntouched(s, t, r, x);
    case Answered(conn, verb, deadline, env) =>
      AnsweredKeeps(s, conn, verb, deadline, env);
      PlainStays(s, conn, verb, deadline, OK, env, x);
      BeginUntouched(s, t, r, x);
    case SingleRequest(conn, verb, deadline) =>
      SingleKeeps(s, conn, verb, deadline);
      PlainStays(s, conn, verb, deadline, OK, Env(true, true, true), x);
      BeginUntouched(s, t, r, x);
    case SetupRequest(conn, deadline, known, newSid, target, env) =>
      SetupKeeps(s, conn, deadline, known, newSid, target, env);
      SetupStays(s, conn, deadline, known, newSid, target, env, x);
      BeginUntouched(s, t, r, x);
    case AggregateRequest(conn, verb, deadline, sid, env) =>
      AggregateKeeps(s, conn, verb, deadline, sid, env);
      AggregateStays(s, conn, verb, deadline, sid, env, x);
      BeginUntouched(s, t, r, x);
    case TeardownRequest(conn, deadline, sid, path, env) =>
      TeardownKeeps(s, conn, deadline, sid, path, env);
      TeardownStays(s, conn, deadline, sid, path, env, x);
      BeginUntouched(s, t, r, x);
    case Returned =>
      ReturnedUntouched(s, r, x);
    case SingleReply(req, status, valid, env) =>
      SingleReplyKeeps(s, req, status, valid, env);
      RepliesStay(s, req, x + 1, status, valid, env, x);
      EffectUntouched(s, t, req, r, x);
    case SetupReply(req, sess, status, ports, env) =>
      SetupReplyKeeps(s, req, sess, status, ports, env);
      RepliesStay(s, req, sess, status, ports, env, x);
      EffectUntouched(s, t, req, r, x);
    case MediaReply(req, a, env) =>
      MediaReplyKeeps(s, req, a, env);
      MediaReplyStays(s, req, a, env, x);
      EffectUntouched(s, t, req, r, x);
    case TimerTick(now, unsendable) =>
      TickUntouched(s, now, unsendable, r, x);
    case Disconnected(conn) =>
      DisconnectUntouched(s, conn, r, x);
    case SessionTimeout(sess) =>
      RemovalUntouched(s, sess, r, x);
    case IdleRemoval(sess) =>
      RemovalUntouched(s, sess, r, x);
    case Forced(sid, path) =>
      ForcedUntouched(s, sid, path, r, x);
  }

  lemma PlainStays(s: Server, conn: Id, verb: Verb, deadline: nat, status: int, env: Env, x: Id)
    ensures SessionStays(s, AddRequest(s, conn, verb, deadline), x)
    ensures SessionStays(s, Fail(AddRequest(s, conn, verb, deadline), s.next, status, env), x)
    ensures SessionStays(s, Immediate(s, conn, verb, deadline, env), x)
    ensures SessionStays(s, BeginSingle(s, conn, verb, deadline), x)
  {
  }

  lemma TickUntouched(s: Server, now: nat, unsendable: set<Id>, r: Id, x: Id)
    requires s.frame.None? && !Overdue(s, r, now)
    ensures Untouched(s, Sweep(s, Order(s.pending), now, unsendable), r, x)
  {
    SweepUntouched(s, Order(s.pending), now, unsendable, r);
  }

  lemma DisconnectUntouched(s: Server, conn: Id, r: Id, x: Id)
    requires Find(s.pending, r).Some? ==> Find(s.pending, r).value.conn != Some(conn)
    ensures Untouched(s, s.(pending := Disconnect(s.pending, conn)), r, x)
  {
    DisconnectFind(s.pending, conn, r);
  }

  lemma RemovalUntouched(s: Server, sess: Id, r: Id, x: Id)
    requires Structure(s) && sess != x
    ensures Untouched(s, RemoveSession(s, sess), r, x)
  {
    RemoveSessionKeeps(s, sess);
  }

  // --- gathering the answers ---

  /** What the answers of one request have in common. */
  datatype Gather = Gather(req: Id, session: Id, kind: Verb, medias: set<Id>, range: Range, scale: real)

  /** `left` are the medias of the request still to be answered; the session can still take the common range. */
  ghost predicate Gathering(s: Server, g: Gather, left: set<Id>, inCallback: bool) {
    && Invariant(s) && g.req < s.next && left <= g.medias && left != {}
    && g.kind in {Play, Pause, Record, Teardown}
    && Find(s.pending, g.req).Some?
    && (var q := Find(s.pending, g.req).value;
        && q.verb == g.kind && q.conn.Some? && !q.replied && q.inCallback == inCallback
        && MarksLeft(q.medias, g.medias, left)
        && Find(s.sessions, g.session).Some?
        && (g.kind == Teardown || q.firstReply || RangeFits(Find(s.sessions, g.session).value, g)))
    && (inCallback ==> s.frame == Some(Frame(g.req, Some(g.session))))
  }

  /** The list is that of `medias`, and those of `left` are not answered yet. */
  ghost predicate MarksLeft(l: List<bool>, medias: set<Id>, left: set<Id>) {
    && (forall k :: Find(l, k).Some? <==> k in medias)
    && (forall k :: Find(l, k).Some? ==> (Find(l, k).value <==> k !in left))
  }

  predicate RangeFits(y: Session, g: Gather) {
    y.range == g.range && (g.kind == Play ==> y.scale == g.scale)
  }

  predicate IsAnswer(e: Event, g: Gather) {
    && e.MediaReply? && e.req == g.req && !IsError(e.answer.status) && e.env.built && e.env.sent
    && e.answer.kind == g.kind && e.answer.session == g.session
    && e.answer.range == Some(g.range) && (g.kind == Play ==> e.answer.scale == g.scale)
  }

  /**
    A run in which each media of `left` but those of `end` is answered once, successfully, with the common
    range and scale, in any order, before or after the callbacks return, among any unrelated events.
   */
  ghost predicate AnswerRun(s: Server, events: seq<Event>, g: Gather, left: set<Id>, inCallback: bool, end: set<Id>, endCallback: bool)
    decreases |events|
  {
    if events == [] then left == end && inCallback == endCallback else
    && Enabled(s, events[0])
    && var t := Step(s, events[0]);
       if IsAnswer(events[0], g) then
         events[0].answer.media in left && AnswerRun(t, events[1..], g, left - {events[0].answer.media}, inCallback, end, endCallback)
       else if events[0].Returned? && s.frame.Some? && s.frame.value.request == g.req then
         inCallback && AnswerRun(t, events[1..], g, left, false, end, endCallback)
       else Unrelated(s, events[0], g.req, g.session) && AnswerRun(t, events[1..], g, left, inCallback, end, endCallback)
  }

  lemma CountAllAnswered(l: List<bool>)
    ensures CountAnswered(l) <= |l|
    ensures CountAnswered(l) == |l| <==> forall i :: 0 <= i < |l| ==> l[i].val
  {
    if l != [] {
      CountAllAnswered(l[1..]);
      assert forall i :: 0 <= i < |l[1..]| ==> l[1..][i] == l[i + 1];
      assert (forall i :: 0 <= i < |l| ==> l[i].val) <==> l[0].val && forall i :: 0 <= i < |l[1..]| ==> l[1..][i].val;
    }
  }

  lemma CountAll(l: List<bool>)
    requires Distinct(l)
    ensures CountAnswered(l) == |l| <==> forall k :: Find(l, k).Some? ==> Find(l, k).value
  {
    CountAllAnswered(l);
    if CountAnswered(l) != |l| {
      var i :| 0 <= i < |l| && !l[i].val;
      FindAt(l, i);
    }
  }

  /** A first answer of a media, in range, is taken up. */
  lemma AnswerAccepted(s: Server, g: Gather, left: set<Id>, inCallback: bool, a: Answer, env: Env)
    requires Gathering(s, g, left, inCallback) && a.media in left && IsAnswer(MediaReply(g.req, a, env), g)
    ensures var (q, y) := (Find(s.pending, g.req).value, Find(s.sessions, g.session).value);
            && ReplyMedia(s, g.req, a, env) == Accept(Taken(s, g.req, q, y, a), g.req, NotFirst(q, a), TakeRange(q, y, a), a, env)
            && (g.kind != Teardown ==> RangeFits(TakeRange(q, y, a), g))
  {
    hide Structure, Accept, Taken, Finish, CallbackOk;
    var q, y := Find(s.pending, g.req).value, Find(s.sessions, g.session).value;
    assert Find(q.medias, a.media).Some?;
  }

  /** An answer that is not the last is only counted; the last one is the response. */
  lemma AnswerCounted(s: Server, g: Gather, left: set<Id>, inCallback: bool, a: Answer, env: Env)
    requires Gathering(s, g, left, inCallback) && a.media in left && IsAnswer(MediaReply(g.req, a, env), g)
    ensures var t := ReplyMedia(s, g.req, a, env).0;
            if left == {a.media} then
              && Find(t.pending, g.req).Some? == inCallback && (inCallback ==> Settled(t, g.req))
              && t.log == s.log + [Response(g.req, a.status)]
            else
              Gathering(t, g, left - {a.media}, inCallback) && t.log == s.log
  {
    hide Structure, Accept, Taken, CallbackOk, ReplyMedia, ReplyEffect;
    var q, y := Find(s.pending, g.req).value, Find(s.sessions, g.session).value;
    AnswerAccepted(s, g, left, inCallback, a, env);
    TakenKeeps(s, g.req, q, y, a);
    var t := Taken(s, g.req, q, y, a);
    var p, z := NotFirst(q, a), TakeRange(q, y, a);
    LastOrNot(t, g, left, p, a);
    AcceptOutcome(t, g, left, inCallback, p, z, a, env);
    if left != {a.media} {
      MediaReplyKeeps(s, g.req, a, env);
      EffectKeepsCallbacks(s, ReplyMedia(s, g.req, a, env).0, g.req);
      EffectFields(s, ReplyMedia(s, g.req, a, env).0, g.req);
      assert left - {a.media} == {} ==> left == {a.media};
    }
  }

  lemma EffectFields(s: Server, t: Server, req: Id)
    requires ReplyEffect(s, t, req)
    ensures t.frame == s.frame && t.next == s.next
  {
  }

  lemma MarksAfter(l: List<bool>, medias: set<Id>, left: set<Id>, m: Id)
    requires Distinct(l) && MarksLeft(l, medias, left) && m in left && left <= medias
    ensures Distinct(Put(l, m, true)) && MarksLeft(Put(l, m, true), medias, left - {m})
  {
    PutAll(l, m, true);
  }

  lemma AllAnswered(l: List<bool>, medias: set<Id>, left: set<Id>)
    requires Distinct(l) && MarksLeft(l, medias, left) && left <= medias
    ensures CountAnswered(l) == |l| <==> left == {}
  {
    CountAll(l);
    if CountAnswered(l) == |l| {
      forall k ensures k !in left {
        assert k in medias ==> Find(l, k).Some?;
      }
      assert left == {};
    }
  }

  lemma LastOrNot(t: Server, g: Gather, left: set<Id>, p: Request, a: Answer)
    requires Structure(t) && Find(t.pending, g.req) == Some(p) && a.media in left && left <= g.medias
    requires MarksLeft(p.medias, g.medias, left)
    ensures var after := Put(p.medias, a.media, true);
            && MarksLeft(after, g.medias, left - {a.media})
            && (CountAnswered(after) == p.mediaCount <==> left == {a.media})
  {
    hide Structure, MarksLeft;
    RequestIsOk(t, g.req);
    MarksAfter(p.medias, g.medias, left, a.media);
    AllAnswered(Put(p.medias, a.media, true), g.medias, left - {a.media});
    assert left == left - {a.media} + {a.media};
  }

  lemma AcceptOutcome(t: Server, g: Gather, left: set<Id>, inCallback: bool, p: Request, z: Session, a: Answer, env: Env)
    requires Structure(t) && Find(t.pending, g.req) == Some(p) && Find(t.sessions, g.session) == Some(z)
    requires p.inCallback == inCallback && env.built && env.sent && a.kind == g.kind && a.session == g.session
    requires var after := Put(p.medias, a.media, true); CountAnswered(after) == p.mediaCount <==> left == {a.media}
    ensures var u := Accept(t, g.req, p, z, a, env).0;
            if left == {a.media} then
              && Find(u.pending, g.req).Some? == inCallback && (inCallback ==> Settled(u, g.req))
              && u.log == t.log + [Response(g.req, a.status)]
            else u.sessions == t.sessions && u.log == t.log
                 && Find(u.pending, g.req) == Some(p.(medias := Put(p.medias, a.media, true)))
  {
    hide Structure, Conclude;
    var o := p.(medias := Put(p.medias, a.media, true));
    AnsweredOk(t, g.req, p, a.media);
    SetRequestKeeps(t, g.req, o);
    var u := SetRequest(t, g.req, o);
    if left == {a.media} {
      PlayingKeeps(u, g.session, z, a.kind);
      var v := Sent(u.(sessions := Put(u.sessions, g.session, SetPlaying(z, a.kind))), g.req, a.status, true);
      SentKeeps(u.(sessions := Put(u.sessions, g.session, SetPlaying(z, a.kind))), g.req, a.status, true);
      RequestIsOk(v, g.req);
      SetRequestKeeps(v, g.req, o.(replied := true));
      ConcludeKeeps(SetRequest(v, g.req, o.(replied := true)), a.kind, g.req, Some(g.session));
    }
  }

  lemma ReturnGathers(s: Server, g: Gather, left: set<Id>)
    requires Gathering(s, g, left, true)
    ensures var t := CallbackReturned(s); Gathering(t, g, left, false) && t.log == s.log
  {
    hide Structure;
    ReturnedKeeps(s);
    var t := s.(frame := None);
    FrameFree(s, None);
    RequestIsOk(t, g.req);
    var q := Find(t.pending, g.req).value;
    SetRequestKeeps(t, g.req, q.(inCallback := false, firstReply := q.firstReply || q.verb in {Play, Pause, Record}));
  }

  lemma OthersGather(s: Server, t: Server, g: Gather, left: set<Id>, inCallback: bool)
    requires Gathering(s, g, left, inCallback) && Invariant(t) && Untouched(s, t, g.req, g.session)
    ensures Gathering(t, g, left, inCallback)
  {
  }

  /** Until the last media is answered, no response is sent and the request stays pending. */
  lemma {:induction false} NothingBeforeTheLast(s: Server, events: seq<Event>, g: Gather, left: set<Id>, inCallback: bool,
                                                end: set<Id>, endCallback: bool)
    requires Gathering(s, g, left, inCallback) && AnswerRun(s, events, g, left, inCallback, end, endCallback) && end != {}
    ensures var t := After(s, events); Gathering(t, g, end, endCallback) && Count(t.log, g.req) == Count(s.log, g.req)
    decreases |events|
  {
    if events != [] {
      var e, t := events[0], Step(s, events[0]);
      if IsAnswer(e, g) {
        AnswersShrink(t, events[1..], g, left - {e.answer.media}, inCallback, end, endCallback);
        AnswerCounted(s, g, left, inCallback, e.answer, e.env);
        NothingBeforeTheLast(t, events[1..], g, left - {e.answer.media}, inCallback, end, endCallback);
      } else if e.Returned? && s.frame.Some? && s.frame.value.request == g.req {
        ReturnGathers(s, g, left);
        NothingBeforeTheLast(t, events[1..], g, left, false, end, endCallback);
      } else {
        StepKeeps(s, e);
        UnrelatedUntouched(s, e, g.req, g.session);
        OthersGather(s, t, g, left, inCallback);
        NothingBeforeTheLast(t, events[1..], g, left, inCallback, end, endCallback);
      }
    }
  }

  lemma AnswersShrink(s: Server, events: seq<Event>, g: Gather, left: set<Id>, inCallback: bool, end: set<Id>, endCallback: bool)
    requires AnswerRun(s, events, g, left, inCallback, end, endCallback)
    ensures end <= left
    decreases |events|
  {
    if events != [] {
      var e, t := events[0], Step(s, events[0]);
      var rest := if IsAnswer(e, g) then left - {e.answer.media} else left;
      var cb := if !IsAnswer(e, g) && e.Returned? && s.frame.Some? && s.frame.value.request == g.req then false else inCallback;
      AnswersShrink(t, events[1..], g, rest, cb, end, endCallback);
    }
  }

  /** All medias answered: settled, and pending only while the callbacks still run. */
  ghost predicate Done(s: Server, g: Gather, inCallback: bool) {
    && Invariant(s) && g.req < s.next
    && (if inCallback then Settled(s, g.req) && s.frame == Some(Frame(g.req, Some(g.session)))
        else Find(s.pending, g.req).None?)
  }

  lemma ReturnDone(s: Server, g: Gather)
    requires Done(s, g, true)
    ensures Done(CallbackReturned(s), g, false) && CallbackReturned(s).log == s.log
  {
    hide Structure, Conclude;
    ReturnedKeeps(s);
    var t := s.(frame := None);
    FrameFree(s, None);
    RequestIsOk(t, g.req);
    var q := Find(t.pending, g.req).value;
    var p := q.(inCallback := false, firstReply := q.firstReply || q.verb in {Play, Pause, Record});
    SetRequestKeeps(t, g.req, p);
    ConcludeKeeps(SetRequest(t, g.req, p), q.verb, g.req, Some(g.session));
  }

  lemma {:induction false} NothingAfterTheLast(s: Server, events: seq<Event>, g: Gather, inCallback: bool, endCallback: bool)
    requires Done(s, g, inCallback) && AnswerRun(s, events, g, {}, inCallback, {}, endCallback)
    ensures var t := After(s, events); Done(t, g, endCallback) && Count(t.log, g.req) == Count(s.log, g.req)
    decreases |events|
  {
    hide Structure, CallbackOk, Untouched, Settled;
    if events != [] {
      var e, t := events[0], Step(s, events[0]);
      StepKeeps(s, e);
      if e.Returned? && s.frame.Some? && s.frame.value.request == g.req {
        ReturnDone(s, g);
        NothingAfterTheLast(t, events[1..], g, false, endCallback);
      } else {
        UnrelatedUntouched(s, e, g.req, g.session);
        DoneStays(s, e, g, inCallback);
        TouchedNot(s, t, g.req, g.session);
        NothingAfterTheLast(t, events[1..], g, inCallback, endCallback);
      }
    }
  }

  lemma DoneStays(s: Server, e: Event, g: Gather, inCallback: bool)
    requires Done(s, g, inCallback) && Invariant(Step(s, e)) && Untouched(s, Step(s, e), g.req, g.session)
    ensures Done(Step(s, e), g, inCallback)
  {
  }

  lemma TouchedNot(s: Server, t: Server, r: Id, x: Id)
    requires Untouched(s, t, r, x)
    ensures Count(t.log, r) == Count(s.log, r)
  {
  }

  /**
    Reply aggregation: in any such run that answers every media once, exactly one response is sent to the
    request, at the last answer, and the request has left the pending list once the callbacks are over.
   */
  lemma {:induction false} OneResponseAtTheLast(s: Server, events: seq<Event>, g: Gather, left: set<Id>, inCallback: bool, endCallback: bool)
    requires Gathering(s, g, left, inCallback) && AnswerRun(s, events, g, left, inCallback, {}, endCallback)
    ensures var t := After(s, events); Done(t, g, endCallback) && Count(t.log, g.req) == Count(s.log, g.req) + 1
    decreases |events|
  {
    var e, t := events[0], Step(s, events[0]);
    StepKeeps(s, e);
    if IsAnswer(e, g) {
      AnswerCounted(s, g, left, inCallback, e.answer, e.env);
      if left == {e.answer.media} {
        CountResponds(s.log, t.log, g.req, g.req);
        MediaReplyKeeps(s, g.req, e.answer, e.env);
        assert left - {e.answer.media} == {};
        NothingAfterTheLast(t, events[1..], g, inCallback, endCallback);
      } else {
        OneResponseAtTheLast(t, events[1..], g, left - {e.answer.media}, inCallback, endCallback);
      }
    } else if e.Returned? && s.frame.Some? && s.frame.value.request == g.req {
      ReturnGathers(s, g, left);
      OneResponseAtTheLast(t, events[1..], g, left, false, endCallback);
    } else {
      UnrelatedUntouched(s, e, g.req, g.session);
      OthersGather(s, t, g, left, inCallback);
      OneResponseAtTheLast(t, events[1..], g, left, inCallback, endCallback);
    }
  }

  // --- several error answers inside one callback ---

  function ErrorReplies(req: Id, answers: seq<Answer>): seq<Event> {
    seq(|answers|, i requires 0 <= i < |answers| => MediaReply(req, answers[i], Env(true, true, true)))
  }

  /**
    Inside its callback every error answer sends a response of its own. A server without a RECORD callback
    gives such an answer itself for each media, so a RECORD over n medias gets n responses.
   */
  lemma {:induction false} EachErrorResponds(s: Server, req: Id, answers: seq<Answer>)
    requires Invariant(s) && Find(s.pending, req).Some? && Find(s.pending, req).value.inCallback
    requires Find(s.pending, req).value.conn.Some?
    requires forall i :: 0 <= i < |answers| ==> IsError(answers[i].status) && Find(s.sessions, answers[i].session).Some?
    ensures Count(After(s, ErrorReplies(req, answers)).log, req) == Count(s.log, req) + |answers|
    decreases |answers|
  {
    if answers != [] {
      hide ReplyMedia, Structure, CallbackOk, ReplyEffect, ErrorReplies, Count;
      var t := ReplyMedia(s, req, answers[0], Env(true, true, true)).0;
      MediaReplyKeeps(s, req, answers[0], Env(true, true, true));
      EffectKeepsCallbacks(s, t, req);
      ErrorSent(s, req, answers[0], Env(true, true, true));
      NextErrorReply(s, req, answers);
      EachErrorResponds(t, req, answers[1..]);
    } else {
      assert ErrorReplies(req, answers) == [];
    }
  }

  lemma NextErrorReply(s: Server, req: Id, answers: seq<Answer>)
    requires answers != []
    ensures After(s, ErrorReplies(req, answers)) ==
            After(ReplyMedia(s, req, answers[0], Env(true, true, true)).0, ErrorReplies(req, answers[1..]))
  {
    hide ReplyMedia;
    assert ErrorReplies(req, answers)[0] == MediaReply(req, answers[0], Env(true, true, true));
    assert ErrorReplies(req, answers)[1..] == ErrorReplies(req, answers[1..]);
  }

  lemma ErrorSent(s: Server, req: Id, a: Answer, env: Env)
    requires Structure(s) && Find(s.pending, req).Some? && Find(s.pending, req).value.inCallback
    requires Find(s.pending, req).value.conn.Some? && env.errorSent
    requires IsError(a.status) && Find(s.sessions, a.session).Some?
    ensures var t := ReplyMedia(s, req, a, env).0;
            && Find(t.pending, req).Some? && Find(t.pending, req).value.conn.Some? && t.sessions == s.sessions
            && Find(t.pending, req).value.inCallback && Count(t.log, req) == Count(s.log, req) + 1
  {
    var u := ErrorResponse(s, req, a.status, env);
    CountResponds(s.log, u.log, req, req);
    FindPut(u.pending, req, Find(u.pending, req).value.(replied := true), req);
  }
}
