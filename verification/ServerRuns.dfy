/** What holds in every run of the server: its structure, and at most one response to each request. */
module ServerRuns {
  import opened Wrappers
  import opened Lists
  import opened ServerState
  import opened ServerInvariant

  ghost predicate Invariant(s: Server) {
    Structure(s) && CallbackOk(s)
  }

  /** The responses sent to a request. */
  function Count(log: seq<Response>, id: Id): nat {
    if log == [] then 0 else Count(log[..|log| - 1], id) + if log[|log| - 1].request == id then 1 else 0
  }

  /** No request was answered twice, and a request still waiting for its answer was not answered. */
  ghost predicate AnsweredOnce(s: Server) {
    forall id :: Count(s.log, id) <= 1 && (Waiting(s, id) || id >= s.next ==> Count(s.log, id) == 0)
  }

  /** Pending, without an answer of its own, and not in the callback of its timeout. */
  predicate Waiting(s: Server, id: Id) {
    Find(s.pending, id).Some? && !Find(s.pending, id).value.replied && !TimesOut(s, id)
  }

  predicate TimesOut(s: Server, id: Id) { s.frame.Some? && s.frame.value.TimingOut? && s.frame.value.request == id }

  /** Still pending although it was settled: inside its own callback, or inside the callback of its timeout. */
  predicate Settled(s: Server, req: Id) {
    Find(s.pending, req).Some? && (Find(s.pending, req).value.replied || TimesOut(s, req))
  }

  // --- which replies send a response ---

  predicate SingleSends(s: Server, req: Id, status: int, valid: bool, env: Env) {
    && Find(s.pending, req).Some? && Find(s.pending, req).value.conn.Some?
    && if IsError(status) || !valid || !env.built then env.errorSent else env.sent
  }

  /** An answer for a media that cannot be counted: an error, or one that does not fit the request or its session. */
  predicate Refused(q: Request, x: Session, a: Answer) {
    || IsError(a.status) || !Has(q.medias, a.media)
    || (a.kind != Teardown && (a.range.None? || !FitsSession(q, x, a)))
  }

  /** The first answer sets the range and for PLAY the scale, the others must agree with them. */
  predicate FitsSession(q: Request, x: Session, a: Answer) {
    q.firstReply || (a.range == Some(x.range) && (a.kind == Play ==> a.scale == x.scale))
  }

  predicate LastCounted(q: Request, a: Answer) { CountAnswered(Put(q.medias, a.media, true)) == q.mediaCount }

  predicate MediaSends(s: Server, req: Id, a: Answer, env: Env) {
    && Find(s.pending, req).Some? && Find(s.sessions, a.session).Some? && Find(s.pending, req).value.conn.Some?
    && var (q, x) := (Find(s.pending, req).value, Find(s.sessions, a.session).value);
       if Refused(q, x, a) then env.errorSent
       else LastCounted(q, a) && if env.built then env.sent else env.errorSent
  }

  predicate IsReply(e: Event) { e.SingleReply? || e.SetupReply? || e.MediaReply? }

  /** The reply sends a response: what the caller can tell from the request, its answer and the fate of the send. */
  predicate Sends(s: Server, e: Event): (r: bool)
    ensures r ==> IsReply(e)
  {
    match e
    case SingleReply(req, status, valid, env) => SingleSends(s, req, status, valid, env)
    case SetupReply(req, _, status, ports, env) => SingleSends(s, req, status, ports, env)
    case MediaReply(req, a, env) => MediaSends(s, req, a, env)
    case _ => false
  }

  /** Not a reply that sends, to a request settled already that has its response. */
  predicate Careful(s: Server, e: Event) {
    !Sends(s, e) || !Settled(s, e.req) || Count(s.log, e.req) != 1
  }

  predicate CarefulRun(s: Server, events: seq<Event>)
    decreases |events|
  {
    events != [] ==> Careful(s, events[0]) && CarefulRun(Step(s, events[0]), events[1..])
  }

  lemma FinishLog(s: Server, verb: Verb, req: Id, sess: Option<Id>)
    requires Structure(s)
    ensures Finish(s, verb, req, sess).log == s.log
  {
    hide Structure, Conclude;
    if Find(s.pending, req).Some? {
      RequestIsOk(s, req);
      SetRequestKeeps(s, req, Find(s.pending, req).value.(replied := true));
      ConcludeKeeps(SetRequest(s, req, Find(s.pending, req).value.(replied := true)), verb, req, sess);
    }
  }

  lemma SentThenFinished(s: Server, req: Id, status: int, sent: bool, verb: Verb, sess: Option<Id>)
    requires Structure(s)
    ensures |Finish(Sent(s, req, status, sent), verb, req, sess).log| == |s.log| + if sent then 1 else 0
    ensures sess.Some? ==>
              |Finish(SetupFailed(Sent(s, req, status, sent), sess.value), verb, req, sess).log| == |s.log| + if sent then 1 else 0
  {
    hide Structure, Finish;
    SentKeeps(s, req, status, sent);
    FinishLog(Sent(s, req, status, sent), verb, req, sess);
    if sess.Some? {
      SetupFailedKeeps(Sent(s, req, status, sent), sess.value);
      FinishLog(SetupFailed(Sent(s, req, status, sent), sess.value), verb, req, sess);
    }
  }

  lemma SingleSendsExactly(s: Server, req: Id, sess: Id, status: int, flag: bool, env: Env)
    requires Structure(s)
    ensures |ReplySingle(s, req, status, flag, env).0.log| == |s.log| + if SingleSends(s, req, status, flag, env) then 1 else 0
    ensures |ReplySetup(s, req, sess, status, flag, env).0.log| == |s.log| + if SingleSends(s, req, status, flag, env) then 1 else 0
  {
    hide Structure, Finish, SetupFailed;
    if Find(s.pending, req).Some? {
      var verb := Find(s.pending, req).value.verb;
      FinishLog(s, verb, req, None);
      SentThenFinished(s, req, status, env.errorSent, verb, None);
      SentThenFinished(s, req, status, env.sent, verb, None);
      SentThenFinished(s, req, STATUS_INTERNAL_SERVER_ERROR, env.errorSent, verb, None);
      SentThenFinished(s, req, status, true, Setup, Some(sess));
      SentThenFinished(s, req, status, false, Setup, Some(sess));
      SentThenFinished(s, req, status, env.errorSent, Setup, Some(sess));
      SentThenFinished(s, req, STATUS_INTERNAL_SERVER_ERROR, env.errorSent, Setup, Some(sess));
    }
  }

  lemma RejectLog(s: Server, req: Id, a: Answer, status: int, env: Env)
    requires Structure(s) && Find(s.pending, req).Some?
    ensures |Reject(s, req, a, status, env).log| == |s.log| + if Find(s.pending, req).value.conn.Some? && env.errorSent then 1 else 0
  {
    hide Structure, Finish;
    SentThenFinished(s, req, status, true, a.kind, Some(a.session));
    SentThenFinished(s, req, status, false, a.kind, Some(a.session));
  }

  lemma AcceptLog(s: Server, req: Id, q: Request, x: Session, a: Answer, env: Env)
    requires Structure(s) && Find(s.pending, req) == Some(q) && Find(s.sessions, a.session) == Some(x) && q.conn.Some?
    ensures |Accept(s, req, q, x, a, env).0.log| ==
            |s.log| + if LastCounted(q, a) && (if env.built then env.sent else env.errorSent) then 1 else 0
  {
    hide Structure, Finish, Reject;
    var p := q.(medias := Put(q.medias, a.media, true));
    AnsweredOk(s, req, q, a.media);
    SetRequestKeeps(s, req, p);
    var u := SetRequest(s, req, p);
    PlayingKeeps(u, a.session, x, a.kind);
    var v := u.(sessions := Put(u.sessions, a.session, SetPlaying(x, a.kind)));
    RejectLog(v, req, a, STATUS_INTERNAL_SERVER_ERROR, env);
    SentThenFinished(v, req, a.status, env.sent, a.kind, Some(a.session));
  }

  lemma CountsLog(s: Server, req: Id, q: Request, x: Session, a: Answer, env: Env)
    requires Structure(s) && Find(s.pending, req) == Some(q) && Find(s.sessions, a.session) == Some(x) && q.conn.Some?
    requires !IsError(a.status) && Has(q.medias, a.media) && (a.kind != Teardown ==> a.range.Some?)
    ensures |Counts(s, req, q, x, a, env).0.log| == |s.log| + if MediaSends(s, req, a, env) then 1 else 0
  {
    hide Structure, Accept, Reject, Taken;
    TakenKeeps(s, req, q, x, a);
    var t := Taken(s, req, q, x, a);
    RejectLog(t, req, a, STATUS_INTERNAL_SERVER_ERROR, env);
    AcceptLog(t, req, NotFirst(q, a), TakeRange(q, x, a), a, env);
  }

  lemma MediaSendsExactly(s: Server, req: Id, a: Answer, env: Env)
    requires Structure(s)
    ensures |ReplyMedia(s, req, a, env).0.log| == |s.log| + if MediaSends(s, req, a, env) then 1 else 0
  {
    hide Structure, Counts, Reject, Finish, FitsSession;
    match (Find(s.pending, req), Find(s.sessions, a.session))
    case (None, _) =>
    case (_, None) =>
    case (Some(q), Some(x)) =>
      FinishLog(s, a.kind, req, Some(a.session));
      RejectLog(s, req, a, a.status, env);
      RejectLog(s, req, a, STATUS_INTERNAL_SERVER_ERROR, env);
      if q.conn.Some? && !IsError(a.status) && (a.kind == Teardown || a.range.Some?) && Has(q.medias, a.media) {
        CountsLog(s, req, q, x, a, env);
      }
  }

  lemma CountResponds(l: seq<Response>, r: seq<Response>, req: Id, id: Id)
    requires Responds(l, r, req)
    ensures Count(r, id) == Count(l, id) + if |r| > |l| && id == req then 1 else 0
  {
    if r != l {
      assert r[..|r| - 1] == l;
    }
  }

  // --- replies ---

  lemma EffectKeepsCallbacks(s: Server, t: Server, req: Id)
    requires CallbackOk(s) && ReplyEffect(s, t, req)
    ensures CallbackOk(t)
  {
  }

  lemma EffectAnswersOnce(s: Server, t: Server, req: Id)
    requires Structure(s) && ReplyEffect(s, t, req) && AnsweredOnce(s)
    requires t.log != s.log && Settled(s, req) ==> Count(s.log, req) == 0
    ensures AnsweredOnce(t)
  {
    assert Responds(s.log, t.log, req);
    forall id ensures Count(t.log, id) <= 1 && (Waiting(t, id) || id >= t.next ==> Count(t.log, id) == 0) {
      CountResponds(s.log, t.log, req, id);
      assert Count(s.log, id) <= 1;
      if id == req && t.log != s.log {
        assert Waiting(s, req) ==> Count(s.log, req) == 0;
      } else if id != req {
        assert Waiting(t, id) ==> Waiting(s, id);
      }
    }
  }

  // --- new requests ---

  /** A new request either waits for its callbacks, or was refused with at most one response. */
  ghost predicate BeginEffect(s: Server, t: Server) {
    && s.frame.None? && t.next > s.next
    && (forall k :: k != s.next ==> Find(t.pending, k) == Find(s.pending, k))
    && match Find(t.pending, s.next)
       case None => t.frame.None? && Responds(s.log, t.log, s.next)
       case Some(q) =>
         && t.log == s.log && !q.replied && (q.inCallback <==> t.frame.Some?)
         && (t.frame.Some? ==> t.frame.value.Frame? && t.frame.value.request == s.next)
  }

  lemma BeginKeepsCallbacks(s: Server, t: Server)
    requires Structure(s) && CallbackOk(s) && BeginEffect(s, t)
    ensures CallbackOk(t)
  {
  }

  lemma BeginAnswersOnce(s: Server, t: Server)
    requires Structure(s) && AnsweredOnce(s) && BeginEffect(s, t)
    ensures AnsweredOnce(t)
  {
    assert Responds(s.log, t.log, s.next);
    forall id ensures Count(t.log, id) <= 1 && (Waiting(t, id) || id >= t.next ==> Count(t.log, id) == 0) {
      CountResponds(s.log, t.log, s.next, id);
      assert Count(s.log, id) <= 1 && Count(s.log, s.next) == 0;
      assert id != s.next && Waiting(t, id) ==> Waiting(s, id);
    }
  }

  lemma RefusedKeeps(s: Server, conn: Id, verb: Verb, deadline: nat, t: Server, status: int, env: Env)
    requires Structure(s) && s.frame.None? && Structure(t)
    requires var a := AddRequest(s, conn, verb, deadline);
             t.pending == a.pending && t.log == s.log && t.frame.None? && t.next > s.next
    ensures var u := Fail(t, s.next, status, env); Structure(u) && BeginEffect(s, u)
  {
    AddRequestKeeps(s, conn, verb, deadline);
    FailKeeps(t, s.next, status, env);
  }

  lemma AnsweredKeeps(s: Server, conn: Id, verb: Verb, deadline: nat, env: Env)
    requires Structure(s) && s.frame.None?
    ensures var t := Immediate(s, conn, verb, deadline, env); Structure(t) && BeginEffect(s, t)
  {
    var a := AddRequest(s, conn, verb, deadline);
    AddRequestKeeps(s, conn, verb, deadline);
    SentKeeps(a, s.next, 200, true);
    RemoveRequestKeeps(Sent(a, s.next, 200, true), s.next);
    RefusedKeeps(s, conn, verb, deadline, a, EPROTO, env);
  }

  lemma EnterKeeps(s: Server, conn: Id, verb: Verb, deadline: nat, t: Server, medias: List<bool>, sess: Option<Id>)
    requires Structure(s) && s.frame.None? && Structure(t) && Distinct(medias)
    requires var a := AddRequest(s, conn, verb, deadline);
             t.pending == a.pending && t.log == s.log && t.frame.None? && t.next > s.next
    ensures var u := EnterCallback(t, s.next, medias, sess); Structure(u) && BeginEffect(s, u)
  {
    AddRequestKeeps(s, conn, verb, deadline);
    var q := Find(t.pending, s.next).value.(inCallback := true, medias := medias, mediaCount := |medias|);
    SetRequestKeeps(t, s.next, q);
  }

  lemma SetupKeeps(s: Server, conn: Id, deadline: nat, sid: Option<string>, newSid: string, path: string, env: Env)
    requires Structure(s) && s.frame.None? && (sid.None? ==> FindSid(s.sessions, newSid).None?)
    ensures var t := BeginSetup(s, conn, deadline, sid, newSid, path, env); Structure(t) && BeginEffect(s, t)
  {
    hide Structure, BeginEffect, Fail, EnterCallback, SetOp, AddMedia;
    var a := AddRequest(s, conn, Setup, deadline);
    AddRequestKeeps(s, conn, Setup, deadline);
    RefusedKeeps(s, conn, Setup, deadline, a, STATUS_SESSION_NOT_FOUND, env);
    var sess := if sid.None? then Some(a.next) else FindSid(a.sessions, sid.value);
    if sess.Some? {
      var u := if sid.None? then AddSession(a, newSid) else a;
      if sid.None? {
        AddSessionKeeps(a, newSid);
      }
      SetupTargets(s, conn, deadline, u, sess.value, path, env);
    }
  }

  lemma SetupTargets(s: Server, conn: Id, deadline: nat, u: Server, sess: Id, path: string, env: Env)
    requires Structure(s) && s.frame.None? && Structure(u)
    requires var a := AddRequest(s, conn, Setup, deadline); u.pending == a.pending && u.log == a.log && u.frame == a.frame && u.next > s.next
    ensures var t := match Find(u.sessions, sess)
                     case None => Fail(u, s.next, EPROTO, env)
                     case Some(x) =>
                       if FindPath(x.medias, path).Some? then Fail(u, s.next, EPROTO, env)
                       else EnterCallback(SetOp(AddMedia(u, sess, path), Some(sess), Setup), s.next, [], Some(sess));
            Structure(t) && BeginEffect(s, t)
  {
    hide Structure, BeginEffect, Fail, EnterCallback;
    RefusedKeeps(s, conn, Setup, deadline, u, EPROTO, env);
    if Find(u.sessions, sess).Some? && FindPath(Find(u.sessions, sess).value.medias, path).None? {
      AddMediaKeeps(u, sess, path);
      SetOpKeeps(AddMedia(u, sess, path), Some(sess), Setup);
      EnterKeeps(s, conn, Setup, deadline, SetOp(AddMedia(u, sess, path), Some(sess), Setup), [], Some(sess));
    }
  }

  lemma FanOutDistinct(all: List<Media>, l: List<Media>, path: Option<string>)
    requires Distinct(l)
    ensures Distinct(FanOut(all, l, path))
    ensures forall i :: 0 <= i < |FanOut(all, l, path)| ==> Has(l, FanOut(all, l, path)[i].id)
  {
    if l != [] {
      var tail, r := l[1..], FanOut(all, l[1..], path);
      assert forall i :: 0 <= i < |tail| ==> tail[i] == l[i + 1];
      FanOutDistinct(all, tail, path);
      forall i | 0 <= i < |r| ensures Has(l, r[i].id) && r[i].id != l[0].id {
        assert Has(tail, r[i].id);
        var j :| 0 <= j < |tail| && tail[j].id == r[i].id;
        assert l[j + 1].id == r[i].id;
      }
      assert l[0].id == l[0].id && Has(l, l[0].id);
    }
  }

  lemma AggregateKeeps(s: Server, conn: Id, verb: Verb, deadline: nat, sid: string, env: Env)
    requires Structure(s) && s.frame.None?
    ensures var t := BeginAggregate(s, conn, verb, deadline, sid, env); Structure(t) && BeginEffect(s, t)
  {
    hide Structure, BeginEffect, Fail, EnterCallback, SessionOk;
    var a := AddRequest(s, conn, verb, deadline);
    AddRequestKeeps(s, conn, verb, deadline);
    RefusedKeeps(s, conn, verb, deadline, a, STATUS_SESSION_NOT_FOUND, env);
    var sess := Target(a, sid);
    if sess.Some? {
      SessionIsOk(s, sess.value);
      MediasDistinct(Find(s.sessions, sess.value).value, s.next);
      SetOpKeeps(a, sess, verb);
      EnterKeeps(s, conn, verb, deadline, SetOp(a, sess, verb), AllMedias(Find(s.sessions, sess.value).value.medias), sess);
    }
  }

  lemma MarkKeeps(x: Session, next: Id, path: Option<string>)
    requires SessionOk(x, next)
    ensures SessionOk(x.(op := Teardown, medias := Mark(x.medias, x.medias, path)), next)
  {
    MarkFind(x.medias, x.medias, path);
  }

  /** The marks newly set are those of the selected medias. */
  lemma MarkFind(all: List<Media>, l: List<Media>, path: Option<string>)
    requires Distinct(l)
    ensures Distinct(Mark(all, l, path))
    ensures forall k :: Find(Mark(all, l, path), k) ==
                        (var m := Find(l, k); if m.Some? && Selected(all, path, m.value) then Some(m.value.(tearingDown := true)) else m)
  {
    var r := Mark(all, l, path);
    forall i, j | 0 <= i < j < |r| ensures r[i].id != r[j].id {
      assert r[i].id == l[i].id && r[j].id == l[j].id;
    }
    forall k ensures Find(r, k) ==
                     (var m := Find(l, k); if m.Some? && Selected(all, path, m.value) then Some(m.value.(tearingDown := true)) else m)
    {
      MarkFindOne(all, l, path, k);
    }
  }

  lemma MarkFindOne(all: List<Media>, l: List<Media>, path: Option<string>, k: Id)
    ensures Find(Mark(all, l, path), k) ==
            (var m := Find(l, k); if m.Some? && Selected(all, path, m.value) then Some(m.value.(tearingDown := true)) else m)
  {
    if l != [] {
      assert Mark(all, l, path)[1..] == Mark(all, l[1..], path);
      MarkFindOne(all, l[1..], path, k);
    }
  }

  lemma TeardownKeeps(s: Server, conn: Id, deadline: nat, sid: string, path: Option<string>, env: Env)
    requires Structure(s) && s.frame.None?
    ensures var t := BeginTeardown(s, conn, deadline, sid, path, env); Structure(t) && BeginEffect(s, t)
  {
    hide Structure, BeginEffect, Fail, EnterCallback, SessionOk;
    var a := AddRequest(s, conn, Teardown, deadline);
    AddRequestKeeps(s, conn, Teardown, deadline);
    RefusedKeeps(s, conn, Teardown, deadline, a, STATUS_SESSION_NOT_FOUND, env);
    var sess := Target(a, sid);
    if sess.Some? {
      var x := Find(s.sessions, sess.value).value;
      SessionIsOk(a, sess.value);
      MarkKeeps(x, a.next, path);
      var y := x.(op := Teardown, medias := Mark(x.medias, x.medias, path));
      PutSessionKeeps(a, sess.value, x, y);
      var u := a.(sessions := Put(a.sessions, sess.value, y));
      MediasDistinct(x, a.next);
      FanOutDistinct(x.medias, x.medias, path);
      RefusedKeeps(s, conn, Teardown, deadline, u, ENOENT, env);
      EnterKeeps(s, conn, Teardown, deadline, u, FanOut(x.medias, x.medias, path), sess);
    }
  }

  lemma MediasDistinct(x: Session, next: Id)
    requires SessionOk(x, next)
    ensures Distinct(x.medias)
  {
  }

  // --- the end of a handler, and the events of the loop ---

  lemma ReturnedKeeps(s: Server)
    requires Invariant(s) && s.frame.Some?
    ensures Invariant(CallbackReturned(s)) && (AnsweredOnce(s) ==> AnsweredOnce(CallbackReturned(s)))
  {
    match s.frame.value
    case Frame(req, sess) => HandlerReturnedKeeps(s, req, sess);
    case TimingOut(req, rest, now, unsendable) =>
      TimeoutRemoved(s, req);
      SweepKeeps(RemoveRequest(s, req), rest, now, unsendable);
  }

  lemma HandlerReturnedKeeps(s: Server, req: Id, sess: Option<Id>)
    requires Invariant(s) && s.frame == Some(Frame(req, sess))
    ensures var t := HandlerReturned(s, req, sess); Invariant(t) && (AnsweredOnce(s) ==> AnsweredOnce(t))
  {
    hide Structure, Conclude, AnsweredOnce;
    var t := s.(frame := None);
    FrameFree(s, None);
    RequestIsOk(t, req);
    var q := Find(t.pending, req).value;
    var p := q.(inCallback := false, firstReply := q.firstReply || q.verb in {Play, Pause, Record});
    SetRequestKeeps(t, req, p);
    if q.replied {
      ConcludeKeeps(SetRequest(t, req, p), q.verb, req, sess);
    }
    FewerWaiting(s, HandlerReturned(s, req, sess));
  }

  lemma FewerWaiting(s: Server, t: Server)
    requires t.log == s.log && t.next == s.next && forall id :: Waiting(t, id) ==> Waiting(s, id)
    ensures AnsweredOnce(s) ==> AnsweredOnce(t)
  {
  }

  lemma FrameFree(s: Server, frame: Option<Frame>)
    requires Structure(s)
    ensures Structure(s.(frame := frame))
  {
  }

  /** Removing the request that timed out leaves a state in which the walk can go on. */
  lemma TimeoutRemoved(s: Server, req: Id)
    requires Invariant(s) && TimesOut(s, req)
    ensures var t := RemoveRequest(s, req); Walking(t) && (AnsweredOnce(s) ==> AnsweredOnce(t.(frame := None)))
  {
    RemoveRequestKeeps(s, req);
    FewerWaiting(s, RemoveRequest(s, req).(frame := None));
  }

  /** Between two callbacks of the timer: no request is in a callback, and none is settled. */
  ghost predicate Walking(s: Server) { Structure(s) && CallbackOk(s.(frame := None)) }

  lemma SweepKeeps(s: Server, walk: seq<Id>, now: nat, unsendable: set<Id>)
    requires Walking(s)
    ensures var t := Sweep(s, walk, now, unsendable);
            Invariant(t) && t.next == s.next && (AnsweredOnce(s.(frame := None)) ==> AnsweredOnce(t))
  {
    hide Structure;
    FrameFree(s, None);
    if walk != [] {
      if Overdue(s, walk[0], now) {
        TimeoutEntered(s, walk[0], Env(true, true, walk[0] !in unsendable), TimingOut(walk[0], walk[1..], now, unsendable));
      } else {
        SweepKeeps(s, walk[1..], now, unsendable);
      }
    }
  }

  lemma TimeoutEntered(s: Server, req: Id, env: Env, f: Frame)
    requires Walking(s) && Find(s.pending, req).Some? && f.TimingOut? && f.request == req
    ensures var t := ErrorResponse(s, req, STATUS_INTERNAL_SERVER_ERROR, env).(frame := Some(f));
            Invariant(t) && (AnsweredOnce(s.(frame := None)) ==> AnsweredOnce(t))
  {
    hide Structure;
    var u := ErrorResponse(s, req, STATUS_INTERNAL_SERVER_ERROR, env);
    SentKeeps(s, req, STATUS_INTERNAL_SERVER_ERROR, true);
    FrameFree(u, Some(f));
    if AnsweredOnce(s.(frame := None)) {
      TimeoutAnswersOnce(s, u, req, f);
    }
  }

  lemma TimeoutAnswersOnce(s: Server, u: Server, req: Id, f: Frame)
    requires Walking(s) && Find(s.pending, req).Some? && f.TimingOut? && f.request == req
    requires u.pending == s.pending && u.next == s.next && Responds(s.log, u.log, req) && AnsweredOnce(s.(frame := None))
    ensures AnsweredOnce(u.(frame := Some(f)))
  {
    var c, t := s.(frame := None), u.(frame := Some(f));
    assert Waiting(c, req);
    forall id ensures Count(t.log, id) <= 1 && (Waiting(t, id) || id >= t.next ==> Count(t.log, id) == 0) {
      CountResponds(s.log, u.log, req, id);
      assert Count(c.log, id) <= 1 && (Waiting(c, id) || id >= c.next ==> Count(c.log, id) == 0);
      assert Waiting(t, id) ==> Waiting(c, id);
    }
  }

  /** The walk stops at the first expired request that is still pending, or there is none. */
  lemma {:induction false} SweepStopsAtFirst(s: Server, walk: seq<Id>, now: nat, unsendable: set<Id>)
    ensures match Sweep(s, walk, now, unsendable).frame
            case None => forall i :: 0 <= i < |walk| ==> !Overdue(s, walk[i], now)
            case Some(f) =>
              && f.TimingOut? && Overdue(s, f.request, now) && |f.rest| < |walk|
              && var at := |walk| - |f.rest| - 1;
                 && walk[at] == f.request && walk[at + 1..] == f.rest && f.now == now
                 && forall i :: 0 <= i < at ==> !Overdue(s, walk[i], now)
  {
    if walk != [] && !Overdue(s, walk[0], now) {
      SweepStopsAtFirst(s, walk[1..], now, unsendable);
      assert forall i :: 1 <= i < |walk| ==> walk[i] == walk[1..][i - 1];
    }
  }

  lemma DisconnectFind(l: List<Request>, conn: Id, k: Id)
    ensures Find(Disconnect(l, conn), k) ==
            (var q := Find(l, k); if q.Some? && q.value.conn == Some(conn) then Some(q.value.(conn := None)) else q)
  {
    if l != [] {
      assert Disconnect(l, conn)[1..] == Disconnect(l[1..], conn);
      DisconnectFind(l[1..], conn, k);
    }
  }

  lemma DisconnectKeeps(s: Server, conn: Id)
    requires Invariant(s)
    ensures var t := s.(pending := Disconnect(s.pending, conn)); Invariant(t) && (AnsweredOnce(s) ==> AnsweredOnce(t))
  {
    hide Structure;
    var t := s.(pending := Disconnect(s.pending, conn));
    PendingDistinct(s);
    DisconnectAll(s.pending, conn);
    DisconnectStructure(s, conn);
  }

  lemma DisconnectAll(l: List<Request>, conn: Id)
    requires Distinct(l)
    ensures Distinct(Disconnect(l, conn))
    ensures forall k :: Find(Disconnect(l, conn), k) ==
                        (var q := Find(l, k); if q.Some? && q.value.conn == Some(conn) then Some(q.value.(conn := None)) else q)
  {
    var r := Disconnect(l, conn);
    forall i, j | 0 <= i < j < |r| ensures r[i].id != r[j].id {
      assert r[i].id == l[i].id && r[j].id == l[j].id;
    }
    forall k ensures Find(r, k) ==
                     (var q := Find(l, k); if q.Some? && q.value.conn == Some(conn) then Some(q.value.(conn := None)) else q)
    {
      DisconnectFind(l, conn, k);
    }
  }

  lemma PendingDistinct(s: Server)
    requires Structure(s)
    ensures Distinct(s.pending)
  {
  }

  lemma DisconnectStructure(s: Server, conn: Id)
    requires Structure(s)
    ensures Structure(s.(pending := Disconnect(s.pending, conn)))
  {
    DisconnectAll(s.pending, conn);
  }

  lemma ForcedKeeps(s: Server, sid: string, path: Option<string>)
    requires Structure(s)
    ensures var t := ForceTeardown(s, sid, path).0;
            Structure(t) && t.pending == s.pending && t.log == s.log && t.frame == s.frame && t.next == s.next
  {
    hide Structure;
    var sess := FindSid(s.sessions, sid);
    if sess.Some? {
      RemoveSessionKeeps(s, sess.value);
      var x := Find(s.sessions, sess.value);
      if x.Some? && path.Some? && FindPath(x.value.medias, path.value).Some? {
        RemoveMediaKeeps(s, sess.value, FindPath(x.value.medias, path.value).value);
      }
    }
  }

  lemma SessionEventKeeps(s: Server, t: Server)
    requires CallbackOk(s) && t.pending == s.pending && t.log == s.log && t.frame == s.frame && t.next == s.next
    ensures CallbackOk(t) && (AnsweredOnce(s) ==> AnsweredOnce(t))
  {
  }

  /** A reply that sends to a settled request that has its response is the one way to answer twice. */
  lemma ReplyKeeps(s: Server, t: Server, req: Id)
    requires Invariant(s) && Structure(t) && ReplyEffect(s, t, req)
    ensures Invariant(t)
    ensures AnsweredOnce(s) ==> (AnsweredOnce(t) <==> !(t.log != s.log && Settled(s, req) && Count(s.log, req) == 1))
  {
    EffectKeepsCallbacks(s, t, req);
    if AnsweredOnce(s) {
      assert Count(s.log, req) <= 1;
      if t.log != s.log && Settled(s, req) && Count(s.log, req) == 1 {
        assert Responds(s.log, t.log, req);
        CountResponds(s.log, t.log, req, req);
        assert Count(t.log, req) == 2;
      } else {
        EffectAnswersOnce(s, t, req);
      }
    }
  }

  lemma BeginKeeps(s: Server, t: Server)
    requires Invariant(s) && Structure(t) && BeginEffect(s, t)
    ensures Invariant(t) && (AnsweredOnce(s) ==> AnsweredOnce(t))
  {
    BeginKeepsCallbacks(s, t);
    if AnsweredOnce(s) {
      BeginAnswersOnce(s, t);
    }
  }

  /** Every event keeps the structure, and exactly the careful ones answer no request twice. */
  lemma StepKeeps(s: Server, e: Event)
    requires Invariant(s) && Enabled(s, e)
    ensures Invariant(Step(s, e))
    ensures AnsweredOnce(s) ==> (AnsweredOnce(Step(s, e)) <==> Careful(s, e))
  {
    hide Structure, CallbackOk, AnsweredOnce, Settled, SingleSends, MediaSends, Count,  ReplyEffect, BeginEffect, AddRequest, Fail, Immediate, BeginSingle, BeginSetup, BeginAggregate, BeginTeardown, CallbackReturned, ReplySingle, ReplySetup, ReplyMedia, Sweep, Disconnect, RemoveSession, ForceTeardown;
    var t := Step(s, e);
    match e
    case Ignored(conn, verb, deadline) =>
      AddRequestKeeps(s, conn, verb, deadline);
      IgnoredEffect(s, conn, verb, deadline);
      BeginKeeps(s, t);
    case Rejected(conn, verb, deadline, status, env) =>
      AddRequestKeeps(s, conn, verb, deadline);
      NewFields(s, conn, verb, deadline);
      RefusedKeeps(s, conn, verb, deadline, AddRequest(s, conn, verb, deadline), status, env);
      BeginKeeps(s, t);
    case Answered(conn, verb, deadline, env) =>
      AnsweredKeeps(s, conn, verb, deadline, env);
      BeginKeeps(s, t);
    case SingleRequest(conn, verb, deadline) =>
      SingleKeeps(s, conn, verb, deadline);
      BeginKeeps(s, t);
    case SetupRequest(conn, deadline, known, newSid, target, env) =>
      SetupKeeps(s, conn, deadline, known, newSid, target, env);
      BeginKeeps(s, t);
    case AggregateRequest(conn, verb, deadline, sid, env) =>
      AggregateKeeps(s, conn, verb, deadline, sid, env);
      BeginKeeps(s, t);
    case TeardownRequest(conn, deadline, sid, path, env) =>
      TeardownKeeps(s, conn, deadline, sid, path, env);
      BeginKeeps(s, t);
    case Returned =>
      ReturnedKeeps(s);
    case SingleReply(req, status, valid, env) =>
      SingleReplyKeeps(s, req, status, valid, env);
      SingleSendsExactly(s, req, 0, status, valid, env);
      EffectLog(s, t, req);
      ReplyKeeps(s, t, req);
    case SetupReply(req, sess, status, ports, env) =>
      SetupReplyKeeps(s, req, sess, status, ports, env);
      SingleSendsExactly(s, req, sess, status, ports, env);
      EffectLog(s, t, req);
      ReplyKeeps(s, t, req);
    case MediaReply(req, a, env) =>
      MediaReplyKeeps(s, req, a, env);
      MediaSendsExactly(s, req, a, env);
      EffectLog(s, t, req);
      ReplyKeeps(s, t, req);
    case TimerTick(now, unsendable) =>
      TickKeeps(s, now, unsendable);
    case Disconnected(conn) =>
      DisconnectKeeps(s, conn);
    case SessionTimeout(sess) =>
      RemovalFields(s, sess);
      SessionEventKeeps(s, t);
    case IdleRemoval(sess) =>
      RemovalFields(s, sess);
      SessionEventKeeps(s, t);
    case Forced(sid, path) =>
      ForcedKeeps(s, sid, path);
      SessionEventKeeps(s, t);
  }

  lemma EffectLog(s: Server, t: Server, req: Id)
    requires ReplyEffect(s, t, req)
    ensures t.log != s.log <==> |t.log| == |s.log| + 1
  {
    assert Responds(s.log, t.log, req);
  }

  lemma TickKeeps(s: Server, now: nat, unsendable: set<Id>)
    requires Invariant(s) && s.frame.None?
    ensures var t := Sweep(s, Order(s.pending), now, unsendable); Invariant(t) && (AnsweredOnce(s) ==> AnsweredOnce(t))
  {
    assert s.(frame := None) == s;
    SweepKeeps(s, Order(s.pending), now, unsendable);
  }

  lemma IgnoredEffect(s: Server, conn: Id, verb: Verb, deadline: nat)
    requires Structure(s) && s.frame.None?
    ensures BeginEffect(s, AddRequest(s, conn, verb, deadline))
  {
    AddRequestKeeps(s, conn, verb, deadline);
  }

  lemma NewFields(s: Server, conn: Id, verb: Verb, deadline: nat)
    ensures var a := AddRequest(s, conn, verb, deadline); a.log == s.log && a.frame == s.frame && a.next == s.next + 1
  {
  }

  lemma SingleKeeps(s: Server, conn: Id, verb: Verb, deadline: nat)
    requires Structure(s) && s.frame.None?
    ensures var t := BeginSingle(s, conn, verb, deadline); Structure(t) && BeginEffect(s, t)
  {
    AddRequestKeeps(s, conn, verb, deadline);
    EnterKeeps(s, conn, verb, deadline, AddRequest(s, conn, verb, deadline), [], None);
  }

  lemma RemovalFields(s: Server, sess: Id)
    requires Structure(s)
    ensures var t := RemoveSession(s, sess);
            Structure(t) && t.pending == s.pending && t.log == s.log && t.frame == s.frame && t.next == s.next
  {
    RemoveSessionKeeps(s, sess);
  }

  /** The structure holds in every reachable state. */
  lemma {:induction false} StructureInEveryRun(s: Server, events: seq<Event>)
    requires Invariant(s) && Run(s, events)
    ensures Invariant(After(s, events))
    decreases |events|
  {
    if events != [] {
      StepKeeps(s, events[0]);
      StructureInEveryRun(Step(s, events[0]), events[1..]);
    }
  }

  /** Nothing is taken back from the log. */
  lemma {:induction false} LogGrows(s: Server, events: seq<Event>, req: Id)
    requires Invariant(s) && Run(s, events)
    ensures Count(After(s, events).log, req) >= Count(s.log, req)
    decreases |events|
  {
    hide Step, Count, Structure, CallbackOk;
    if events != [] {
      StepKeeps(s, events[0]);
      StepLog(s, events[0], req);
      LogGrows(Step(s, events[0]), events[1..], req);
    }
  }

  lemma StepLog(s: Server, e: Event, req: Id)
    requires Invariant(s) && Enabled(s, e)
    ensures Count(Step(s, e).log, req) >= Count(s.log, req)
  {
    hide Structure, CallbackOk, ReplyEffect, BeginEffect, AddRequest, Fail, Immediate, BeginSingle, BeginSetup, BeginAggregate,
         BeginTeardown, CallbackReturned, ReplySingle, ReplySetup, ReplyMedia, Sweep, Disconnect, RemoveSession, ForceTeardown, Count;
    var t := Step(s, e);
    match e
    case Ignored(conn, verb, deadline) => NewFields(s, conn, verb, deadline);
    case Rejected(conn, verb, deadline, status, env) =>
      AddRequestKeeps(s, conn, verb, deadline);
      NewFields(s, conn, verb, deadline);
      RefusedKeeps(s, conn, verb, deadline, AddRequest(s, conn, verb, deadline), status, env);
      BeginLog(s, t, req);
    case Answered(conn, verb, deadline, env) =>
      AnsweredKeeps(s, conn, verb, deadline, env);
      BeginLog(s, t, req);
    case SingleRequest(conn, verb, deadline) =>
      SingleKeeps(s, conn, verb, deadline);
      BeginLog(s, t, req);
    case SetupRequest(conn, deadline, known, newSid, target, env) =>
      SetupKeeps(s, conn, deadline, known, newSid, target, env);
      BeginLog(s, t, req);
    case AggregateRequest(conn, verb, deadline, sid, env) =>
      AggregateKeeps(s, conn, verb, deadline, sid, env);
      BeginLog(s, t, req);
    case TeardownRequest(conn, deadline, sid, path, env) =>
      TeardownKeeps(s, conn, deadline, sid, path, env);
      BeginLog(s, t, req);
    case Returned => ReturnedLog(s, req);
    case SingleReply(id, status, valid, env) =>
      SingleReplyKeeps(s, id, status, valid, env);
      ReplyLog(s, t, id, req);
    case SetupReply(id, sess, status, ports, env) =>
      SetupReplyKeeps(s, id, sess, status, ports, env);
      ReplyLog(s, t, id, req);
    case MediaReply(id, a, env) =>
      MediaReplyKeeps(s, id, a, env);
      ReplyLog(s, t, id, req);
    case TimerTick(now, unsendable) => SweepLog(s, Order(s.pending), now, unsendable, req);
    case Disconnected(conn) =>
    case SessionTimeout(sess) => RemovalFields(s, sess);
    case IdleRemoval(sess) => RemovalFields(s, sess);
    case Forced(sid, path) => ForcedKeeps(s, sid, path);
  }

  lemma BeginLog(s: Server, t: Server, req: Id)
    requires BeginEffect(s, t)
    ensures Count(t.log, req) >= Count(s.log, req)
  {
    assert Responds(s.log, t.log, s.next);
    CountResponds(s.log, t.log, s.next, req);
  }

  lemma ReplyLog(s: Server, t: Server, id: Id, req: Id)
    requires ReplyEffect(s, t, id)
    ensures Count(t.log, req) >= Count(s.log, req)
  {
    assert Responds(s.log, t.log, id);
    CountResponds(s.log, t.log, id, req);
  }

  lemma SweepLog(s: Server, walk: seq<Id>, now: nat, unsendable: set<Id>, req: Id)
    ensures Count(Sweep(s, walk, now, unsendable).log, req) >= Count(s.log, req)
  {
    hide Count;
    if walk != [] {
      if Overdue(s, walk[0], now) {
        var u := ErrorResponse(s, walk[0], STATUS_INTERNAL_SERVER_ERROR, Env(true, true, walk[0] !in unsendable));
        CountResponds(s.log, u.log, walk[0], req);
      } else {
        SweepLog(s, walk[1..], now, unsendable, req);
      }
    }
  }

  lemma ReturnedLog(s: Server, req: Id)
    requires Invariant(s) && s.frame.Some?
    ensures Count(CallbackReturned(s).log, req) >= Count(s.log, req)
  {
    hide Count, Structure, Conclude, Sweep;
    match s.frame.value
    case Frame(id, sess) => HandlerReturnedLog(s, id, sess);
    case TimingOut(id, rest, now, unsendable) => SweepLog(RemoveRequest(s, id), rest, now, unsendable, req);
  }

  lemma HandlerReturnedLog(s: Server, id: Id, sess: Option<Id>)
    requires Invariant(s) && s.frame == Some(Frame(id, sess))
    ensures HandlerReturned(s, id, sess).log == s.log
  {
    hide Structure, Conclude;
    var t := s.(frame := None);
    FrameFree(s, None);
    RequestIsOk(t, id);
    var q := Find(t.pending, id).value;
    var p := q.(inCallback := false, firstReply := q.firstReply || q.verb in {Play, Pause, Record});
    SetRequestKeeps(t, id, p);
    if q.replied {
      ConcludeKeeps(SetRequest(t, id, p), q.verb, id, sess);
    }
  }

  /** Every request got at most one response. */
  ghost predicate OnceEach(log: seq<Response>) { forall req :: Count(log, req) <= 1 }

  /** The run answers some request twice exactly when one of its events is not careful. */
  lemma {:induction false} AnsweredOnceIffCareful(s: Server, events: seq<Event>)
    requires Invariant(s) && AnsweredOnce(s) && Run(s, events)
    ensures OnceEach(After(s, events).log) <==> CarefulRun(s, events)
    decreases |events|
  {
    hide Invariant, AnsweredOnce, OnceEach, Careful, Step, Enabled;
    if events == [] {
      AnsweredEach(s);
    } else {
      StepKeeps(s, events[0]);
      if Careful(s, events[0]) {
        AnsweredOnceIffCareful(Step(s, events[0]), events[1..]);
      } else {
        CarelessTwice(s, events);
      }
    }
  }

  lemma AnsweredEach(s: Server)
    requires AnsweredOnce(s)
    ensures OnceEach(s.log)
  {
  }

  lemma CarelessTwice(s: Server, events: seq<Event>)
    requires Invariant(s) && Run(s, events) && events != [] && !Careful(s, events[0])
    ensures !OnceEach(After(s, events).log)
  {
    hide Structure, CallbackOk, Sends, Settled, Step, Count, Enabled;
    StepKeeps(s, events[0]);
    ReplySendsExactly(s, events[0]);
    LogGrows(Step(s, events[0]), events[1..], events[0].req);
    assert Count(After(s, events).log, events[0].req) >= 2;
  }

  /** `Sends` is exact: such a reply sends one response, every other reply sends nothing. */
  lemma ReplySendsExactly(s: Server, e: Event)
    requires Structure(s) && IsReply(e)
    ensures |Step(s, e).log| == |s.log| + if Sends(s, e) then 1 else 0
    ensures Count(Step(s, e).log, e.req) == Count(s.log, e.req) + if Sends(s, e) then 1 else 0
  {
    hide Structure, ReplyEffect, ReplySingle, ReplySetup, ReplyMedia, SingleSends, MediaSends, Count;
    match e
    case SingleReply(req, status, valid, env) =>
      SingleReplyKeeps(s, req, status, valid, env);
      SingleSendsExactly(s, req, 0, status, valid, env);
      OneMore(s, Step(s, e), req);
    case SetupReply(req, sess, status, ports, env) =>
      SetupReplyKeeps(s, req, sess, status, ports, env);
      SingleSendsExactly(s, req, sess, status, ports, env);
      OneMore(s, Step(s, e), req);
    case MediaReply(req, a, env) =>
      MediaReplyKeeps(s, req, a, env);
      MediaSendsExactly(s, req, a, env);
      OneMore(s, Step(s, e), req);
  }

  /** A reply that sends, to a request settled in its own callback, leaves it there to be answered once more. */
  lemma SettledReplySendsAgain(s: Server, e: Event)
    requires Invariant(s) && Enabled(s, e) && Sends(s, e) && Find(s.pending, e.req).Some? && Find(s.pending, e.req).value.replied
    ensures Count(Step(s, e).log, e.req) == Count(s.log, e.req) + 1 && Settled(Step(s, e), e.req)
  {
    hide Structure, ReplySingle, ReplySetup, ReplyMedia, MediaSends, SingleSends, Count;
    ReplySendsExactly(s, e);
    match e
    case SingleReply(req, status, valid, env) => SingleReplyKeeps(s, req, status, valid, env);
    case SetupReply(req, sess, status, ports, env) => SetupReplyKeeps(s, req, sess, status, ports, env);
    case MediaReply(req, a, env) => MediaReplyKeeps(s, req, a, env);
  }

  lemma OneMore(s: Server, t: Server, req: Id)
    requires ReplyEffect(s, t, req)
    ensures Count(t.log, req) == Count(s.log, req) + |t.log| - |s.log|
  {
    assert Responds(s.log, t.log, req);
    CountResponds(s.log, t.log, req, req);
  }

  lemma InitialOk()
    ensures Invariant(Initial()) && AnsweredOnce(Initial())
  {
  }

  /**
    Over any run from the start, whatever the replies, timeouts, disconnections and removals, every request gets at most
    one response if and only if no reply sends to a request that has its response and is still pending only because its
    own callback, or that of its timeout, is running.
   */
  lemma AtMostOneResponse(events: seq<Event>)
    requires Run(Initial(), events)
    ensures OnceEach(After(Initial(), events).log) <==> CarefulRun(Initial(), events)
  {
    InitialOk();
    AnsweredOnceIffCareful(Initial(), events);
  }

  /** The shorter rule for an application: reply to no request that is settled. */
  predicate RestrainedRun(s: Server, events: seq<Event>)
    decreases |events|
  {
    events != [] ==>
      && (Sends(s, events[0]) ==> !Settled(s, events[0].req))
      && RestrainedRun(Step(s, events[0]), events[1..])
  }

  lemma {:induction false} RestrainedIsCareful(s: Server, events: seq<Event>)
    requires RestrainedRun(s, events)
    ensures CarefulRun(s, events)
    decreases |events|
  {
    hide Step, Sends, Settled, Count;
    if events != [] {
      RestrainedIsCareful(Step(s, events[0]), events[1..]);
    }
  }

  /** A DESCRIBE that expires while its connection is up, answered from the callback that reports the timeout. */
  function TimeoutAnswered(): seq<Event> {
    [SingleRequest(0, Describe, 5), Returned, TimerTick(6, {}), SingleReply(1, 200, true, Env(true, true, true))]
  }

  /** The server with that request as its only one. */
  function OnlyDescribe(inCallback: bool, frame: Option<Frame>, log: seq<Response>): Server {
    Server([], 0, [Node(1, Request(Some(0), Describe, 5, true, inCallback, false, 0, []))], 1, {}, {}, log, 2, frame)
  }

  lemma DescribeArrives()
    ensures Step(Initial(), TimeoutAnswered()[0]) == OnlyDescribe(true, Some(Frame(1, None)), [])
    ensures Step(OnlyDescribe(true, Some(Frame(1, None)), []), Returned) == OnlyDescribe(false, None, [])
  {
  }

  lemma DescribeExpires()
    ensures Step(OnlyDescribe(false, None, []), TimeoutAnswered()[2])
            == OnlyDescribe(false, Some(TimingOut(1, [], 6, {})), [Response(1, STATUS_INTERNAL_SERVER_ERROR)])
  {
    var s := OnlyDescribe(false, None, []);
    assert Order(s.pending) == [1] && [1][1..] == [];
  }

  lemma DescribeAnswered()
    ensures var s := OnlyDescribe(false, Some(TimingOut(1, [], 6, {})), [Response(1, STATUS_INTERNAL_SERVER_ERROR)]);
            && Step(s, TimeoutAnswered()[3]).log == [Response(1, STATUS_INTERNAL_SERVER_ERROR), Response(1, 200)]
            && !Careful(s, TimeoutAnswered()[3])
  {
    var log := [Response(1, STATUS_INTERNAL_SERVER_ERROR)];
    assert log[..0] == [] && Count([], 1) == 0 && Count(log, 1) == 1;
  }

  /** Both the timeout and the answer send a response. */
  lemma TimeoutAnsweredTwice()
    ensures Run(Initial(), TimeoutAnswered()) && !CarefulRun(Initial(), TimeoutAnswered())
    ensures After(Initial(), TimeoutAnswered()).log == [Response(1, STATUS_INTERNAL_SERVER_ERROR), Response(1, 200)]
  {
    hide Step, Careful;
    DescribeArrives();
    DescribeExpires();
    DescribeAnswered();
    var e := TimeoutAnswered();
    assert e[1..][1..][1..] == [e[3]] && e[1..][1..] == [e[2], e[3]] && e[1..] == [e[1], e[2], e[3]];
    var s2 := OnlyDescribe(false, None, []);
    var s3 := OnlyDescribe(false, Some(TimingOut(1, [], 6, {})), [Response(1, STATUS_INTERNAL_SERVER_ERROR)]);
    assert Run(s3, [e[3]]) && !CarefulRun(s3, [e[3]]) && After(s3, [e[3]]) == Step(s3, e[3]);
    assert Run(s2, [e[2], e[3]]) && !CarefulRun(s2, [e[2], e[3]]) && After(s2, [e[2], e[3]]) == Step(s3, e[3]);
  }

  /** A reply after the request left the list changes nothing and fails with ENOENT; for RECORD it is a null dereference. */
  lemma LateReply(s: Server, req: Id, a: Answer, status: int, sess: Id, flag: bool, env: Env)
    requires Find(s.pending, req).None?
    ensures ReplyMedia(s, req, a, env).0 == s
    ensures ReplyMedia(s, req, a, env).1 == Code(ENOENT) <==> a.kind != Record
    ensures ReplySingle(s, req, status, flag, env) == (s, Code(ENOENT))
    ensures ReplySetup(s, req, sess, status, flag, env) == (s, Code(ENOENT))
  {
  }
}
