/** What the server's calls and events answer: statuses, return codes, and what is removed. */
module ServerCalls {
  import opened Wrappers
  import opened Lists
  import opened ServerState
  import opened ServerInvariant
  import opened ServerRuns
  import opened ServerReplies

  /** Session ids are the same when their first eight characters are. */
  predicate SameId(a: string, b: string) {
    (if |a| <= 8 then a else a[..8]) == (if |b| <= 8 then b else b[..8])
  }

  /** The session a request is for: no other one in the list has such an id. */
  lemma SessionBySid(s: Server, sid: string)
    requires Structure(s)
    ensures match FindSid(s.sessions, sid)
            case None => forall k :: Find(s.sessions, k).Some? ==> !SameId(Find(s.sessions, k).value.sid, sid)
            case Some(x) =>
              && Find(s.sessions, x).Some? && SameId(Find(s.sessions, x).value.sid, sid)
              && forall k :: Find(s.sessions, k).Some? && k != x ==> !SameId(Find(s.sessions, k).value.sid, sid)
  {
    FindSidCorrect(s.sessions, sid);
  }

  // --- replies ---

  /** What comes into the log: the status of the answer, an internal error, or nothing. */
  function Logged(s: Server, req: Id, status: int, sent: bool): seq<Response> {
    if sent then s.log + [Response(req, status)] else s.log
  }

  /** The request has its answer: it is gone, or waits for its callbacks to return. */
  predicate Over(s: Server, t: Server, req: Id) {
    && Find(s.pending, req).Some?
    && var q := Find(s.pending, req).value;
       Find(t.pending, req) == if q.inCallback then Some(q.(replied := true)) else None
  }

  lemma FinishRest(s: Server, verb: Verb, req: Id, sess: Option<Id>)
    requires Structure(s) && Find(s.pending, req).Some?
    ensures var t := Finish(s, verb, req, sess);
            t.log == s.log && Over(s, t, req) && (verb != Teardown ==> t.idle == s.idle)
  {
    hide Structure;
    var q := Find(s.pending, req).value.(replied := true);
    RequestIsOk(s, req);
    SetRequestKeeps(s, req, q);
    ConcludeKeeps(SetRequest(s, req, q), verb, req, sess);
  }

  /** An answer with `status`, sent or not, after which the request is over. */
  lemma Responded(s: Server, req: Id, status: int, sent: bool, verb: Verb, sess: Option<Id>)
    requires Structure(s) && Find(s.pending, req).Some?
    ensures var t := Finish(Sent(s, req, status, sent), verb, req, sess);
            t.log == Logged(s, req, status, sent) && Over(s, t, req) && (verb != Teardown ==> t.idle == s.idle)
    ensures sess.Some? && verb != Teardown ==>
              var t := Finish(SetupFailed(Sent(s, req, status, sent), sess.value), verb, req, sess);
              && t.log == Logged(s, req, status, sent) && Over(s, t, req)
              && t.idle == s.idle + if OnlyMedia(s, sess.value) then {sess.value} else {}
  {
    hide Structure, Finish;
    var u := Sent(s, req, status, sent);
    SentKeeps(s, req, status, sent);
    FinishRest(u, verb, req, sess);
    if sess.Some? && verb != Teardown {
      SetupFailedKeeps(u, sess.value);
      FinishRest(SetupFailed(u, sess.value), verb, req, sess);
      FailedIdle(s, u, sess.value);
    }
  }

  /** The session is known and has exactly one media. */
  predicate OnlyMedia(s: Server, x: Id) { Find(s.sessions, x).Some? && |Find(s.sessions, x).value.medias| == 1 }

  lemma FailedIdle(s: Server, u: Server, x: Id)
    requires Structure(s) && u.sessions == s.sessions && u.idle == s.idle
    ensures SetupFailed(u, x).idle == s.idle + if OnlyMedia(s, x) then {x} else {}
  {
    if Find(s.sessions, x).Some? {
      SessionIsOk(s, x);
    }
  }

  /** The answer to a DESCRIBE or ANNOUNCE. */
  lemma SingleAnswered(s: Server, req: Id, status: int, valid: bool, env: Env)
    requires Structure(s)
    ensures var (t, ret) := ReplySingle(s, req, status, valid, env);
            match Find(s.pending, req)
            case None => t == s && ret == Code(-2)
            case Some(q) =>
              && Over(s, t, req) && t.idle == s.idle
              && if q.conn.None? then t.log == s.log && ret == Code(-104)
              else if status < 0 || status >= 300 then t.log == Logged(s, req, status, env.errorSent) && ret == Code(0)
              else if !valid then t.log == Logged(s, req, 500, env.errorSent) && ret == Code(-22)
              else if !env.built then t.log == Logged(s, req, 500, env.errorSent) && ret == Code(-71)
              else t.log == Logged(s, req, status, env.sent) && (ret == Code(0) <==> env.sent)
  {
    hide Structure, Finish;
    if Find(s.pending, req).Some? {
      var verb := Find(s.pending, req).value.verb;
      RespondedPlain(s, req, status, false, verb);
      RespondedPlain(s, req, status, env.errorSent, verb);
      RespondedPlain(s, req, 500, env.errorSent, verb);
      RespondedPlain(s, req, status, env.sent, verb);
    }
  }

  lemma RespondedPlain(s: Server, req: Id, status: int, sent: bool, verb: Verb)
    requires Structure(s) && Find(s.pending, req).Some?
    ensures var t := Finish(Sent(s, req, status, sent), verb, req, None);
            t.log == Logged(s, req, status, sent) && Over(s, t, req) && t.idle == s.idle
  {
    hide Structure;
    SentKeeps(s, req, status, sent);
    var u := Sent(s, req, status, sent);
    var q := Find(u.pending, req).value.(replied := true);
    RequestIsOk(u, req);
    SetRequestKeeps(u, req, q);
    ConcludeKeeps(SetRequest(u, req, q), verb, req, None);
  }

  /**
    The answer to a SETUP. When it fails, in whatever way, and the session has no other media than the one it set up, the
    removal of the session is queued; that happens in no other case.
   */
  lemma SetupAnswered(s: Server, req: Id, sess: Id, status: int, ports: bool, env: Env)
    requires Structure(s)
    ensures var (t, ret) := ReplySetup(s, req, sess, status, ports, env);
            match Find(s.pending, req)
            case None => t == s && ret == Code(-2)
            case Some(q) =>
              && Over(s, t, req)
              && t.idle == (if q.conn.Some? && 0 <= status < 300 && ports && env.built && env.sent then s.idle
                            else s.idle + if OnlyMedia(s, sess) then {sess} else {})
              && if q.conn.None? then t.log == s.log && ret == Code(-104)
              else if status < 0 || status >= 300 then t.log == Logged(s, req, status, env.errorSent) && ret == Code(0)
              else if !ports then t.log == Logged(s, req, 500, env.errorSent) && ret == Code(-22)
              else if !env.built then t.log == Logged(s, req, 500, env.errorSent) && ret == Code(-71)
              else t.log == Logged(s, req, status, env.sent) && (ret == Code(0) <==> env.sent)
  {
    hide Structure, Finish, SetupFailed;
    if Find(s.pending, req).Some? {
      Responded(s, req, status, false, Setup, Some(sess));
      Responded(s, req, status, true, Setup, Some(sess));
      Responded(s, req, status, env.errorSent, Setup, Some(sess));
      Responded(s, req, 500, env.errorSent, Setup, Some(sess));
    }
  }

  /** The answer for one media: what it sends and returns when it does not fit, when others are missing, and when it is the last. */
  lemma MediaAnswered(s: Server, req: Id, a: Answer, env: Env)
    requires Structure(s)
    ensures var (t, ret) := ReplyMedia(s, req, a, env);
            match (Find(s.pending, req), Find(s.sessions, a.session))
            case (None, _) => t == s && ret == if a.kind == Record then NullDereference else Code(-2)
            case (_, None) => t == s && ret == Code(-22)
            case (Some(q), Some(x)) =>
              if q.conn.None? then t.log == s.log && ret == Code(-104)
              else if a.status < 0 || a.status >= 300 then t.log == Logged(s, req, a.status, env.errorSent) && ret == Code(0)
              else if a.kind != Teardown && a.range.None? then t.log == Logged(s, req, 500, env.errorSent) && ret == Code(-22)
              else if Find(q.medias, a.media).None? then t.log == Logged(s, req, 500, env.errorSent) && ret == Code(-2)
              else if a.kind != Teardown && !q.firstReply && (a.range.value != x.range || (a.kind == Play && a.scale != x.scale)) then
                t.log == Logged(s, req, 500, env.errorSent) && ret == Code(-71)
              else if OthersMissing(q, a.media) then t.log == s.log && ret == Code(0)
              else if !env.built then t.log == Logged(s, req, 500, env.errorSent) && ret == Code(-71)
              else t.log == Logged(s, req, a.status, env.sent) && (ret == Code(0) <==> env.sent)
  {
    hide Structure, Finish, Reject, Counts;
    match (Find(s.pending, req), Find(s.sessions, a.session))
    case (None, _) =>
    case (_, None) =>
    case (Some(q), Some(x)) =>
      FinishLog(s, a.kind, req, Some(a.session));
      RejectLog(s, req, a, a.status, env);
      RejectLog(s, req, a, 500, env);
      if Find(q.medias, a.media).Some? && q.conn.Some? && 0 <= a.status < 300 && (a.kind == Teardown || a.range.Some?) {
        CountsLog(s, req, q, x, a, env);
      }
  }

  /** Some other media of the request has not answered. */
  ghost predicate OthersMissing(q: Request, media: Id) { exists k :: k != media && Find(q.medias, k) == Some(false) }

  lemma RejectLog(s: Server, req: Id, a: Answer, status: int, env: Env)
    requires Structure(s)
    ensures Find(s.pending, req).Some? && Find(s.pending, req).value.conn.Some? ==>
              Reject(s, req, a, status, env).log == Logged(s, req, status, env.errorSent)
  {
    hide Structure, Finish;
    SentKeeps(s, req, status, true);
    FinishLog(ErrorResponse(s, req, status, env), a.kind, req, Some(a.session));
  }

  lemma CountsLog(s: Server, req: Id, q: Request, x: Session, a: Answer, env: Env)
    requires Structure(s) && Find(s.pending, req) == Some(q) && Find(s.sessions, a.session) == Some(x) && q.conn.Some?
    requires Find(q.medias, a.media).Some? && (a.kind == Teardown || a.range.Some?)
    ensures var (t, ret) := Counts(s, req, q, x, a, env);
            if a.kind != Teardown && !q.firstReply && (a.range.value != x.range || (a.kind == Play && a.scale != x.scale)) then
              t.log == Logged(s, req, 500, env.errorSent) && ret == Code(-71)
            else if OthersMissing(q, a.media) then t.log == s.log && ret == Code(0)
            else if !env.built then t.log == Logged(s, req, 500, env.errorSent) && ret == Code(-71)
            else t.log == Logged(s, req, a.status, env.sent) && (ret == Code(0) <==> env.sent)
  {
    hide Structure, Finish, Reject, Accept, Taken;
    TakenKeeps(s, req, q, x, a);
    var t := Taken(s, req, q, x, a);
    RejectLog(t, req, a, 500, env);
    AcceptLog(t, req, NotFirst(q, a), TakeRange(q, x, a), a, env);
  }

  lemma AcceptLog(s: Server, req: Id, q: Request, y: Session, a: Answer, env: Env)
    requires Structure(s) && Find(s.pending, req) == Some(q) && Find(s.sessions, a.session) == Some(y) && q.conn.Some?
    requires Find(q.medias, a.media).Some?
    ensures var (t, ret) := Accept(s, req, q, y, a, env);
            if OthersMissing(q, a.media) then t.log == s.log && ret == Code(0)
            else if !env.built then t.log == Logged(s, req, 500, env.errorSent) && ret == Code(-71)
            else t.log == Logged(s, req, a.status, env.sent) && (ret == Code(0) <==> env.sent)
  {
    hide Structure, Finish, Reject, Accept, OthersMissing;
    var p := q.(medias := Put(q.medias, a.media, true));
    RequestIsOk(s, req);
    AnsweredOk(s, req, q, a.media);
    SetRequestKeeps(s, req, p);
    LastCountedIff(q, a);
    var u := SetRequest(s, req, p);
    PlayingKeeps(u, a.session, y, a.kind);
    var v := u.(sessions := Put(u.sessions, a.session, SetPlaying(y, a.kind)));
    RejectLog(v, req, a, 500, env);
    SentKeeps(v, req, a.status, env.sent);
    FinishLog(Sent(v, req, a.status, env.sent), a.kind, req, Some(a.session));
    AcceptCases(s, req, q, y, a, env, u, v);
  }

  lemma AcceptCases(s: Server, req: Id, q: Request, y: Session, a: Answer, env: Env, u: Server, v: Server)
    requires u == SetRequest(s, req, q.(medias := Put(q.medias, a.media, true)))
    requires v == u.(sessions := Put(u.sessions, a.session, SetPlaying(y, a.kind)))
    ensures var (t, ret) := Accept(s, req, q, y, a, env);
            if CountAnswered(Put(q.medias, a.media, true)) != q.mediaCount then t == u && ret == Code(0)
            else if !env.built then t == Reject(v, req, a, 500, env) && ret == Code(-71)
            else t == Finish(Sent(v, req, a.status, env.sent), a.kind, req, Some(a.session)) && (ret == Code(0) <==> env.sent)
  {
    hide Finish, Reject, Put, Sent;
  }

  lemma LastCountedIff(q: Request, a: Answer)
    requires RequestOk(q) && Find(q.medias, a.media).Some?
    ensures CountAnswered(Put(q.medias, a.media, true)) == q.mediaCount
            <==> !OthersMissing(q, a.media)
  {
    var l := Put(q.medias, a.media, true);
    PutAll(q.medias, a.media, true);
    CountAll(l);
    if CountAnswered(l) != |l| {
      var k :| Find(l, k).Some? && !Find(l, k).value;
      assert k != a.media && Find(q.medias, k) == Some(false);
    } else {
      forall k ensures k == a.media || Find(q.medias, k) != Some(false) {
        assert Find(l, k).Some? ==> Find(l, k).value;
      }
    }
  }

  /**
    An answer that is counted while others are missing: it marks its media, and the first one of a PLAY, PAUSE or RECORD
    fixes the range, for PLAY the scale too, that the later ones must have.
   */
  lemma MediaCounted(s: Server, req: Id, a: Answer, env: Env)
    requires Structure(s) && Find(s.pending, req).Some? && Find(s.sessions, a.session).Some? && Find(s.pending, req).value.conn.Some?
    requires 0 <= a.status < 300 && Find(Find(s.pending, req).value.medias, a.media).Some?
    requires OthersMissing(Find(s.pending, req).value, a.media)
    requires var (q, x) := (Find(s.pending, req).value, Find(s.sessions, a.session).value);
             a.kind == Teardown || (a.range.Some? && (q.firstReply || (a.range.value == x.range && (a.kind == Play ==> a.scale == x.scale))))
    ensures var (q, x) := (Find(s.pending, req).value, Find(s.sessions, a.session).value);
            var t := ReplyMedia(s, req, a, env).0;
            && Find(t.pending, req) == Some(q.(firstReply := q.firstReply && a.kind == Teardown, medias := Put(q.medias, a.media, true)))
            && Find(t.sessions, a.session) == Some(InRange(x, a))
  {
    hide Structure, Finish, Reject, Counts, OthersMissing;
    var q, x := Find(s.pending, req).value, Find(s.sessions, a.session).value;
    CountsOne(s, req, q, x, a, env);
  }

  /** The session with the range of the answer, and for PLAY its scale. */
  function InRange(x: Session, a: Answer): Session
    requires a.kind != Teardown ==> a.range.Some?
  {
    if a.kind == Teardown then x
    else if a.kind == Play then x.(range := a.range.value, scale := a.scale)
    else x.(range := a.range.value)
  }

  lemma CountsOne(s: Server, req: Id, q: Request, x: Session, a: Answer, env: Env)
    requires Structure(s) && Find(s.pending, req) == Some(q) && Find(s.sessions, a.session) == Some(x) && OthersMissing(q, a.media)
    requires Find(q.medias, a.media).Some?
    requires a.kind == Teardown || (a.range.Some? && (q.firstReply || (a.range.value == x.range && (a.kind == Play ==> a.scale == x.scale))))
    ensures var t := Counts(s, req, q, x, a, env).0;
            && Find(t.pending, req) == Some(q.(firstReply := q.firstReply && a.kind == Teardown, medias := Put(q.medias, a.media, true)))
            && Find(t.sessions, a.session) == Some(InRange(x, a))
  {
    hide Structure, Finish, Reject, Accept, Taken, OthersMissing, Put;
    TakenKeeps(s, req, q, x, a);
    var p := NotFirst(q, a);
    SameMissing(q, p, a.media);
    CountedOn(Taken(s, req, q, x, a), req, p, TakeRange(q, x, a), a, env);
    RangeTaken(q, x, a);
  }

  lemma RangeTaken(q: Request, x: Session, a: Answer)
    requires a.kind == Teardown || (a.range.Some? && (q.firstReply || (a.range.value == x.range && (a.kind == Play ==> a.scale == x.scale))))
    ensures TakeRange(q, x, a) == InRange(x, a)
  {
  }

  lemma CountedOn(t: Server, req: Id, p: Request, y: Session, a: Answer, env: Env)
    requires Structure(t) && Find(t.pending, req) == Some(p) && Find(t.sessions, a.session) == Some(y) && OthersMissing(p, a.media)
    requires Find(p.medias, a.media).Some?
    ensures var u := Accept(t, req, p, y, a, env).0;
            Find(u.pending, req) == Some(p.(medias := Put(p.medias, a.media, true))) && u.sessions == t.sessions
  {
    hide Structure, Finish, Reject, OthersMissing, Put, SetPlaying;
    RequestIsOk(t, req);
    LastCountedIff(p, a);
    AnsweredOk(t, req, p, a.media);
    SetRequestKeeps(t, req, p.(medias := Put(p.medias, a.media, true)));
  }

  lemma SameMissing(q: Request, p: Request, media: Id)
    requires p.medias == q.medias && p.mediaCount == q.mediaCount
    ensures OthersMissing(p, media) <==> OthersMissing(q, media)
    ensures RequestOk(p) <==> RequestOk(q)
  {
  }

  /** The callbacks return before the request has its answer: it goes on waiting, and the next answer of a PLAY, PAUSE or RECORD counts as a first one. */
  lemma ReturnedWaits(s: Server, req: Id, sess: Option<Id>)
    requires Structure(s) && s.frame == Some(Frame(req, sess)) && Find(s.pending, req).Some? && !Find(s.pending, req).value.replied
    ensures var q, t := Find(s.pending, req).value, Step(s, Returned);
            && t.frame.None? && t.sessions == s.sessions && t.log == s.log
            && Find(t.pending, req) == Some(q.(inCallback := false, firstReply := q.firstReply || q.verb in {Play, Pause, Record}))
  {
    FindPut(s.pending, req, Find(s.pending, req).value.(inCallback := false, firstReply := Find(s.pending, req).value.firstReply || Find(s.pending, req).value.verb in {Play, Pause, Record}), req);
  }

  // --- requests that are answered at once ---

  /** The request got this error, if it could be sent, and is not pending; sessions stay as they are. */
  ghost predicate Refused(s: Server, t: Server, status: int, env: Env) {
    && t.log == Logged(s, s.next, status, env.errorSent) && t.sessions == s.sessions && t.frame == s.frame
    && forall k :: Find(t.pending, k) == Find(s.pending, k)
  }

  lemma FailRefuses(s: Server, conn: Id, verb: Verb, deadline: nat, status: int, env: Env)
    requires Structure(s)
    ensures Refused(s, Fail(AddRequest(s, conn, verb, deadline), s.next, status, env), status, env)
  {
    hide Structure;
    var a := AddRequest(s, conn, verb, deadline);
    AddRequestKeeps(s, conn, verb, deadline);
    SentKeeps(a, s.next, status, true);
    RemoveRequestKeeps(ErrorResponse(a, s.next, status, env), s.next);
    NotPending(s);
    FindAppend(s.pending, Node(s.next, Request(Some(conn), verb, deadline, true, false, false, 0, [])), s.next);
  }

  lemma NotPending(s: Server)
    requires Structure(s)
    ensures Find(s.pending, s.next).None?
  {
  }

  /** OPTIONS and GET_PARAMETER get a 200 at once, or an error when it cannot be built or sent. */
  lemma AnsweredAtOnce(s: Server, conn: Id, verb: Verb, deadline: nat, env: Env)
    requires Structure(s)
    ensures var t := Step(s, Answered(conn, verb, deadline, env));
            && t.sessions == s.sessions && (forall k :: Find(t.pending, k) == Find(s.pending, k))
            && (env.built && env.sent ==> t.log == s.log + [Response(s.next, 200)])
  {
    hide Structure, Fail;
    FailRefuses(s, conn, verb, deadline, EPROTO, env);
    var a := AddRequest(s, conn, verb, deadline);
    AddRequestKeeps(s, conn, verb, deadline);
    SentKeeps(a, s.next, 200, true);
    RemoveRequestKeeps(Sent(a, s.next, 200, true), s.next);
    NotPending(s);
  }

  /** A request that is refused by its handler gets the error; one that is passed over stays pending for its timeout. */
  lemma RejectedOrIgnored(s: Server, conn: Id, verb: Verb, deadline: nat, status: int, env: Env)
    requires Structure(s)
    ensures Refused(s, Step(s, Rejected(conn, verb, deadline, status, env)), status, env)
    ensures var t := Step(s, Ignored(conn, verb, deadline));
            && t.sessions == s.sessions && t.log == s.log
            && Find(t.pending, s.next) == Some(Request(Some(conn), verb, deadline, true, false, false, 0, []))
  {
    hide Structure, Fail;
    FailRefuses(s, conn, verb, deadline, status, env);
    NotPending(s);
    FindAppend(s.pending, Node(s.next, Request(Some(conn), verb, deadline, true, false, false, 0, [])), s.next);
  }

  /** DESCRIBE and ANNOUNCE run their callback with the request pending. */
  lemma SingleBegins(s: Server, conn: Id, verb: Verb, deadline: nat)
    requires Structure(s)
    ensures var t := Step(s, SingleRequest(conn, verb, deadline));
            && t.sessions == s.sessions && t.log == s.log && t.frame == Some(Frame(s.next, None))
            && Find(t.pending, s.next) == Some(Request(Some(conn), verb, deadline, true, true, false, 0, []))
  {
    hide Structure;
    NotPending(s);
    var q := Request(Some(conn), verb, deadline, true, false, false, 0, []);
    FindAppend(s.pending, Node(s.next, q), s.next);
    FindPut(s.pending + [Node(s.next, q)], s.next, q.(inCallback := true), s.next);
  }

  /** A request for a session that is not known, or one without medias but for SETUP, gets a 454. */
  lemma UnknownSession(s: Server, conn: Id, verb: Verb, deadline: nat, sid: string, path: Option<string>, newSid: string, target: string, env: Env)
    requires Structure(s)
    ensures (forall k :: Find(s.sessions, k).Some? && SameId(Find(s.sessions, k).value.sid, sid) ==> Find(s.sessions, k).value.medias == []) ==>
              && Refused(s, Step(s, AggregateRequest(conn, verb, deadline, sid, env)), 454, env)
              && Refused(s, Step(s, TeardownRequest(conn, deadline, sid, path, env)), 454, env)
    ensures (forall k :: Find(s.sessions, k).Some? ==> !SameId(Find(s.sessions, k).value.sid, sid)) ==>
              Refused(s, Step(s, SetupRequest(conn, deadline, Some(sid), newSid, target, env)), 454, env)
  {
    hide Structure, Fail, FindSid;
    SessionBySid(s, sid);
    FailRefuses(s, conn, verb, deadline, 454, env);
    FailRefuses(s, conn, Teardown, deadline, 454, env);
    FailRefuses(s, conn, Setup, deadline, 454, env);
    if FindSid(s.sessions, sid).Some? {
      SessionIsOk(s, FindSid(s.sessions, sid).value);
    }
  }

  // --- SETUP ---

  /** The handler runs: the new request is pending and in its callback. */
  ghost predicate InHandler(s: Server, t: Server, conn: Id, verb: Verb, deadline: nat, sess: Id) {
    && t.frame == Some(Frame(s.next, Some(sess))) && t.log == s.log
    && Find(t.pending, s.next) == Some(Request(Some(conn), verb, deadline, true, true, false, 0, []))
    && forall k :: k != s.next ==> Find(t.pending, k) == Find(s.pending, k)
  }

  /** The session is as it was but for one more media, which has this path and is not marked. */
  ghost predicate OneMore(y: Session, z: Session, path: string) {
    && |z.medias| == |y.medias| + 1 && z.medias[..|y.medias|] == y.medias && z.medias[|y.medias|].val == Media(path, false)
    && z == y.(op := Setup, medias := z.medias, mediaCount := y.mediaCount + 1)
  }

  ghost predicate HasPath(y: Session, path: string) {
    exists k :: Find(y.medias, k).Some? && Find(y.medias, k).value.path == path
  }

  /** A SETUP for a known session adds a media to it, unless it has one with that path. */
  lemma SetupKnown(s: Server, conn: Id, deadline: nat, sid: string, x: Id, newSid: string, path: string, env: Env)
    requires Structure(s) && s.frame.None? && FindSid(s.sessions, sid) == Some(x)
    ensures var t := Step(s, SetupRequest(conn, deadline, Some(sid), newSid, path, env));
            && Find(s.sessions, x).Some?
            && var y := Find(s.sessions, x).value;
            && (HasPath(y, path) ==> Refused(s, t, -71, env))
            && (!HasPath(y, path) ==>
                  && InHandler(s, t, conn, Setup, deadline, x) && Find(t.sessions, x).Some? && OneMore(y, Find(t.sessions, x).value, path)
                  && forall k :: k != x ==> Find(t.sessions, k) == Find(s.sessions, k))
  {
    hide Structure, Fail, FindSid, SetOp, AddMedia, EnterCallback, BeginSetup, Refused, InHandler, OneMore, HasPath;
    SessionBySid(s, sid);
    FailRefuses(s, conn, Setup, deadline, -71, env);
    var y := Find(s.sessions, x).value;
    SessionIsOk(s, x);
    FindPathIn(y, s.next, path);
    var a := AddRequest(s, conn, Setup, deadline);
    AddRequestKeeps(s, conn, Setup, deadline);
    KnownCases(s, a, conn, deadline, sid, x, newSid, path, env, y);
    if FindPath(y.medias, path).None? {
      MediaEntered(s, a, a, conn, deadline, x, y, path);
    }
  }

  lemma KnownCases(s: Server, a: Server, conn: Id, deadline: nat, sid: string, x: Id, newSid: string, path: string, env: Env, y: Session)
    requires a == AddRequest(s, conn, Setup, deadline) && FindSid(s.sessions, sid) == Some(x) && Find(s.sessions, x) == Some(y)
    ensures BeginSetup(s, conn, deadline, Some(sid), newSid, path, env) ==
            if FindPath(y.medias, path).Some? then Fail(a, s.next, -71, env)
            else EnterCallback(SetOp(AddMedia(a, x, path), Some(x), Setup), s.next, [], Some(x))
  {
    hide Fail, FindSid, SetOp, AddMedia, EnterCallback, Find, FindPath;
  }

  lemma FindPathIn(y: Session, next: Id, path: string)
    requires SessionOk(y, next)
    ensures FindPath(y.medias, path).Some? <==> HasPath(y, path)
  {
    FindPathCorrect(y.medias, path);
  }

  /** `u` is `a`, the server with the new request, perhaps with a new session. */
  lemma MediaEntered(s: Server, a: Server, u: Server, conn: Id, deadline: nat, x: Id, y: Session, path: string)
    requires Structure(s) && Structure(u) && a == AddRequest(s, conn, Setup, deadline) && s.frame.None?
    requires u.pending == a.pending && u.log == s.log && Find(u.sessions, x) == Some(y) && FindPath(y.medias, path).None?
    ensures var t := EnterCallback(SetOp(AddMedia(u, x, path), Some(x), Setup), s.next, [], Some(x));
            && InHandler(s, t, conn, Setup, deadline, x) && Find(t.sessions, x).Some? && OneMore(y, Find(t.sessions, x).value, path)
            && forall k :: k != x ==> Find(t.sessions, k) == Find(u.sessions, k)
  {
    hide Structure, EnterCallback;
    SessionsEntered(u, x, y, path);
    var w := SetOp(AddMedia(u, x, path), Some(x), Setup);
    EnterSessions(w, s.next, [], Some(x));
    AddRequestKeeps(s, conn, Setup, deadline);
    NotPending(s);
    RequestEntered(s, w, conn, deadline, x);
  }

  lemma RequestEntered(s: Server, w: Server, conn: Id, deadline: nat, x: Id)
    requires Structure(s) && w.pending == AddRequest(s, conn, Setup, deadline).pending && w.log == s.log
    ensures InHandler(s, EnterCallback(w, s.next, [], Some(x)), conn, Setup, deadline, x)
  {
    hide Structure;
    NotPending(s);
    var q := Request(Some(conn), Setup, deadline, true, false, false, 0, []);
    AddRequestKeeps(s, conn, Setup, deadline);
    AppendAll(s.pending, Node(s.next, q)) by { PendingDistinct(s); }
    PutAll(w.pending, s.next, q.(inCallback := true));
  }

  lemma PendingDistinct(s: Server)
    requires Structure(s)
    ensures Distinct(s.pending)
  {
  }

  lemma SessionsEntered(u: Server, x: Id, y: Session, path: string)
    requires Find(u.sessions, x) == Some(y)
    ensures var w := SetOp(AddMedia(u, x, path), Some(x), Setup);
            && w.pending == u.pending && w.log == u.log
            && Find(w.sessions, x).Some? && OneMore(y, Find(w.sessions, x).value, path)
            && forall k :: k != x ==> Find(w.sessions, k) == Find(u.sessions, k)
  {
    hide Find, Put, Has;
    var z := y.(medias := y.medias + [Node(u.next, Media(path, false))], mediaCount := y.mediaCount + 1);
    var v := AddMedia(u, x, path);
    PutOne(u.sessions, x, z);
    assert v.sessions == Put(u.sessions, x, z);
    PutOne(v.sessions, x, z.(op := Setup));
    assert SetOp(v, Some(x), Setup).sessions == Put(v.sessions, x, z.(op := Setup));
    MediaAppended(y, z, Node(u.next, Media(path, false)));
  }

  lemma MediaAppended(y: Session, z: Session, n: Node<Media>)
    requires z == y.(medias := y.medias + [n], mediaCount := y.mediaCount + 1)
    ensures |z.medias| == |y.medias| + 1 && z.medias[..|y.medias|] == y.medias && z.medias[|y.medias|] == n
  {
  }

  lemma PutOne(l: List<Session>, x: Id, z: Session)
    requires Find(l, x).Some?
    ensures forall k :: Find(Put(l, x, z), k) == if k == x then Some(z) else Find(l, k)
  {
    forall k ensures Find(Put(l, x, z), k) == if k == x then Some(z) else Find(l, k) {
      FindPut(l, x, z, k);
    }
  }

  /** A SETUP without a session id makes a new session, idle but for this operation, with the one media. */
  lemma SetupNew(s: Server, conn: Id, deadline: nat, newSid: string, path: string, env: Env)
    requires Structure(s) && s.frame.None? && FindSid(s.sessions, newSid).None?
    ensures var t := Step(s, SetupRequest(conn, deadline, None, newSid, path, env)); var x := s.next + 1;
            && InHandler(s, t, conn, Setup, deadline, x) && Find(s.sessions, x).None? && x in t.timers
            && (forall k :: k != x ==> Find(t.sessions, k) == Find(s.sessions, k))
            && Find(t.sessions, x).Some?
            && OneMore(Session(newSid, false, false, Range(NoTime, NoTime, 0), 0.0, Unknown, 0, []), Find(t.sessions, x).value, path)
  {
    hide Structure, Fail, FindSid, SetOp, AddMedia, EnterCallback, AddSession;
    var a := AddRequest(s, conn, Setup, deadline);
    AddRequestKeeps(s, conn, Setup, deadline);
    AddSessionKeeps(a, newSid);
    NewIsFresh(a);
    var u := AddSession(a, newSid);
    AddedRest(a, newSid);
    MediaEntered(s, a, u, conn, deadline, a.next, NewSession(newSid), path);
    EnteredTimers(u, a.next, path, s.next);
  }

  lemma AddedRest(a: Server, sid: string)
    ensures var u := AddSession(a, sid); u.pending == a.pending && u.log == a.log && a.next in u.timers
  {
  }

  lemma EnteredTimers(u: Server, x: Id, path: string, req: Id)
    ensures EnterCallback(SetOp(AddMedia(u, x, path), Some(x), Setup), req, [], Some(x)).timers == u.timers
  {
  }

  // --- time, connections and force ---

  /** A session is removed by its timer, by its queued removal and by force; nothing else goes with it. */
  lemma SessionGoes(s: Server, x: Id)
    requires Structure(s)
    ensures Step(s, SessionTimeout(x)) == Step(s, IdleRemoval(x))
    ensures var t := Step(s, SessionTimeout(x));
            && Find(t.sessions, x).None? && x !in t.timers && x !in t.idle && t.pending == s.pending && t.log == s.log
            && forall k :: k != x ==> Find(t.sessions, k) == Find(s.sessions, k) && (k in t.timers <==> k in s.timers) && (k in t.idle <==> k in s.idle)
  {
    hide Structure;
    RemoveSessionKeeps(s, x);
    Untimed(s, x);
  }

  lemma Untimed(s: Server, x: Id)
    requires Structure(s)
    ensures Find(s.sessions, x).None? ==> x !in s.timers && x !in s.idle
  {
  }

  /** A lost connection takes no request with it: those that came over it stay pending without one. */
  lemma ConnectionGoes(s: Server, conn: Id, k: Id)
    ensures var t := Step(s, Disconnected(conn));
            && t.sessions == s.sessions && t.log == s.log
            && Find(t.pending, k) == match Find(s.pending, k)
                                     case None => None
                                     case Some(q) => Some(if q.conn == Some(conn) then q.(conn := None) else q)
  {
    DisconnectedAt(s.pending, conn, k);
  }

  lemma {:induction false} DisconnectedAt(l: List<Request>, conn: Id, k: Id)
    ensures Find(Disconnect(l, conn), k) == match Find(l, k)
                                            case None => None
                                            case Some(q) => Some(if q.conn == Some(conn) then q.(conn := None) else q)
  {
    if l != [] {
      assert Disconnect(l, conn)[1..] == Disconnect(l[1..], conn);
      DisconnectedAt(l[1..], conn, k);
    }
  }

  /**
    The periodic timer: the first request whose deadline is set and lies in the past gets a 500, if it has a connection
    to send it on, and its callback runs while the later ones wait; without such a request nothing happens.
   */
  lemma TimerFires(s: Server, now: nat, unsendable: set<Id>, i: nat)
    requires Distinct(s.pending) && i <= |s.pending|
    requires forall j :: 0 <= j < i ==> s.pending[j].val.deadline == 0 || now <= s.pending[j].val.deadline
    requires i < |s.pending| ==> 0 < s.pending[i].val.deadline < now
    ensures var t := Step(s, TimerTick(now, unsendable));
            && t.pending == s.pending && t.sessions == s.sessions
            && if i == |s.pending| then t == s.(frame := None)
               else
                 var n := s.pending[i];
                 && t.log == Logged(s, n.id, 500, n.val.conn.Some? && n.id !in unsendable)
                 && t.frame.Some? && t.frame.value.TimingOut? && t.frame == Some(TimingOut(n.id, t.frame.value.rest, now, unsendable))
                 && |t.frame.value.rest| == |s.pending| - i - 1
                 && forall j :: i < j < |s.pending| ==> t.frame.value.rest[j - i - 1] == s.pending[j].id
  {
    hide Sweep;
    var ids := Order(s.pending);
    SweepFrom(s, ids, now, unsendable, 0, i);
    assert ids[0..] == ids;
  }

  lemma {:induction false} SweepFrom(s: Server, ids: seq<Id>, now: nat, unsendable: set<Id>, from: nat, i: nat)
    requires Distinct(s.pending) && ids == Order(s.pending) && from <= i <= |s.pending|
    requires forall j :: from <= j < i ==> s.pending[j].val.deadline == 0 || now <= s.pending[j].val.deadline
    requires i < |s.pending| ==> 0 < s.pending[i].val.deadline < now
    ensures Sweep(s, ids[from..], now, unsendable) ==
            if i == |s.pending| then s.(frame := None)
            else ErrorResponse(s, ids[i], 500, Env(true, true, ids[i] !in unsendable)).(frame := Some(TimingOut(ids[i], ids[i + 1..], now, unsendable)))
    ensures i < |s.pending| ==> Find(s.pending, s.pending[i].id) == Some(s.pending[i].val)
    decreases i - from
  {
    if from < |s.pending| {
      FindAt(s.pending, from);
      assert ids[from..][0] == ids[from] && ids[from..][1..] == ids[from + 1..];
      if from < i {
        SweepFrom(s, ids, now, unsendable, from + 1, i);
      }
    }
  }

  /** A teardown by force: refused while an operation is in progress; one media by its path, or the whole session. */
  lemma ForcedOutcome(s: Server, sid: string, path: Option<string>)
    requires Structure(s)
    ensures var (t, ret) := ForceTeardown(s, sid, path);
            match FindSid(s.sessions, sid)
            case None => t == s && ret == Code(-2)
            case Some(x) =>
              && Find(s.sessions, x).Some?
              && var y := Find(s.sessions, x).value;
                 if path.Some? && !HasPath(y, path.value) then t == s && ret == Code(-2)
                 else if y.op == Teardown then t == s && ret == Code(-114)
                 else if y.op != Unknown then t == s && ret == Code(-16)
                 else
                   && ret == Code(0) && (forall k :: k != x ==> Find(t.sessions, k) == Find(s.sessions, k))
                   && (path.None? ==> Find(t.sessions, x).None?)
                   && (path.Some? ==> Find(t.sessions, x).Some? && Without(y, Find(t.sessions, x).value, path.value))
  {
    hide Structure, RemoveMedia, RemoveSession, FindSid, SessionOk, FindPath, Find, ForceTeardown, Without, HasPath;
    SessionBySid(s, sid);
    ForcedCases(s, sid, path);
    if FindSid(s.sessions, sid).Some? {
      var x := FindSid(s.sessions, sid).value;
      var y := Find(s.sessions, x).value;
      SessionIsOk(s, x);
      RemoveSessionKeeps(s, x);
      if path.Some? {
        FindPathIn(y, s.next, path.value);
        if FindPath(y.medias, path.value).Some? {
          MediaDropped(s, x, y, path.value);
        }
      }
    }
  }

  lemma ForcedCases(s: Server, sid: string, path: Option<string>)
    ensures ForceTeardown(s, sid, path) ==
            if FindSid(s.sessions, sid).None? || Find(s.sessions, FindSid(s.sessions, sid).value).None? then (s, Code(-2))
            else
              var x := FindSid(s.sessions, sid).value;
              var y := Find(s.sessions, x).value;
              if path.Some? && FindPath(y.medias, path.value).None? then (s, Code(-2))
              else if y.op == Teardown then (s, Code(-114))
              else if y.op != Unknown then (s, Code(-16))
              else (if path.Some? then RemoveMedia(s, x, FindPath(y.medias, path.value).value) else RemoveSession(s, x), Code(0))
  {
    hide RemoveMedia, RemoveSession, FindSid, FindPath, Find;
  }

  /** All medias but those with this path, and everything else as it was. */
  ghost predicate Without(y: Session, z: Session, path: string) {
    && (forall k :: Find(z.medias, k) == (var m := Find(y.medias, k); if m.Some? && m.value.path == path then None else m))
    && z == y.(medias := z.medias, mediaCount := y.mediaCount - 1)
  }

  lemma MediaDropped(s: Server, x: Id, y: Session, path: string)
    requires Structure(s) && Find(s.sessions, x) == Some(y) && SessionOk(y, s.next) && FindPath(y.medias, path).Some?
    ensures var t := RemoveMedia(s, x, FindPath(y.medias, path).value);
            && (forall k :: k != x ==> Find(t.sessions, k) == Find(s.sessions, k))
            && Find(t.sessions, x).Some? && Without(y, Find(t.sessions, x).value, path)
  {
    FindPathCorrect(y.medias, path);
    var m := FindPath(y.medias, path).value;
    RemoveAll(y.medias, m);
    PutAll(s.sessions, x, y.(medias := Remove(y.medias, m), mediaCount := y.mediaCount - 1));
  }
}
