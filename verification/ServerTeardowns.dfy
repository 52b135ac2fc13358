/** A TEARDOWN from its arrival to its response: what is left of its session. */
module ServerTeardowns {
  import opened Wrappers
  import opened Lists
  import opened ServerState
  import opened ServerInvariant
  import opened ServerRuns
  import opened ServerReplies
  import opened ServerRequests

  /** The media of that identity in the session, if both are there. */
  function MediaIn(s: Server, x: Id, k: Id): Option<Media> {
    match Find(s.sessions, x)
    case None => None
    case Some(y) => Find(y.medias, k)
  }

  function KeptMedia(m: Option<Media>): Option<Media> { if m.Some? && m.value.tearingDown then None else m }

  /** Of the medias known to `o`, the session has the same ones, with the same marks. */
  ghost predicate MediasStay(o: Server, s: Server, x: Id) {
    o.next <= s.next && forall k :: k < o.next ==> MediaIn(s, x, k) == MediaIn(o, x, k)
  }

  /** Of the medias known to `o`, the session has exactly those `o` had not marked. */
  ghost predicate MarkedGone(o: Server, s: Server, x: Id) {
    o.next <= s.next && forall k :: k < o.next ==> MediaIn(s, x, k) == KeptMedia(MediaIn(o, x, k))
  }

  lemma StaysThen(o: Server, s: Server, t: Server, x: Id)
    requires MediasStay(s, t, x)
    ensures MediasStay(o, s, x) ==> MediasStay(o, t, x)
    ensures MarkedGone(o, s, x) ==> MarkedGone(o, t, x)
  {
    hide MediaIn, KeptMedia;
  }

  lemma SameMedias(s: Server, t: Server, x: Id)
    requires SessionSame(s, t, x) && s.next <= t.next
    ensures MediasStay(s, t, x)
  {
  }

  // --- events that leave the session's medias alone ---

  /** No TEARDOWN request for session `x`, which would set marks of its own. */
  predicate Quiet(s: Server, e: Event, x: Id) { e.TeardownRequest? ==> Target(s, e.sid) != Some(x) }

  predicate QuietRun(s: Server, events: seq<Event>, x: Id)
    decreases |events|
  {
    events != [] ==> Quiet(s, events[0], x) && QuietRun(Step(s, events[0]), events[1..], x)
  }

  lemma SetOpMedias(s: Server, sess: Option<Id>, op: Verb, x: Id)
    ensures MediasStay(s, SetOp(s, sess, op), x)
  {
    if sess.Some? && Find(s.sessions, sess.value).Some? {
      FindPut(s.sessions, sess.value, Find(s.sessions, sess.value).value.(op := op), x);
    }
  }

  lemma AddMediaMedias(s: Server, sess: Id, path: string, x: Id)
    ensures MediasStay(s, AddMedia(s, sess, path), x)
  {
    hide WithMedia, MediasStay, Find, Put, Has;
    SameSessions(s, s, x);
    if Find(s.sessions, sess).Some? {
      var y := Find(s.sessions, sess).value;
      AddedMedia(s, sess, path, y, x);
      AppendedKnown(y, s.next, path);
      ReplacedMedias(s, AddMedia(s, sess, path), sess, y, WithMedia(y, s.next, path), x);
    }
  }

  function WithMedia(y: Session, id: Id, path: string): Session {
    y.(medias := y.medias + [Node(id, Media(path, false))], mediaCount := y.mediaCount + 1)
  }

  lemma AddedMedia(s: Server, sess: Id, path: string, y: Session, x: Id)
    requires Find(s.sessions, sess) == Some(y)
    ensures var t := AddMedia(s, sess, path);
            t.next == s.next + 1 && Find(t.sessions, x) == if x == sess then Some(WithMedia(y, s.next, path)) else Find(s.sessions, x)
  {
    hide Find, Has, Put;
    FindPut(s.sessions, sess, WithMedia(y, s.next, path), x);
  }

  lemma AppendedKnown(y: Session, next: Id, path: string)
    ensures forall k :: k < next ==> Find(WithMedia(y, next, path).medias, k) == Find(y.medias, k)
  {
    forall k | k < next ensures Find(WithMedia(y, next, path).medias, k) == Find(y.medias, k) {
      FindAppend(y.medias, Node(next, Media(path, false)), k);
    }
  }

  lemma ReplacedMedias(s: Server, t: Server, sess: Id, y: Session, z: Session, x: Id)
    requires Find(s.sessions, sess) == Some(y) && s.next <= t.next
    requires Find(t.sessions, x) == if x == sess then Some(z) else Find(s.sessions, x)
    requires forall k :: k < s.next ==> Find(z.medias, k) == Find(y.medias, k)
    ensures MediasStay(s, t, x)
  {
    hide Find;
  }

  lemma AddSessionMedias(s: Server, sid: string, x: Id)
    requires x < s.next
    ensures MediasStay(s, AddSession(s, sid), x)
  {
    FindAppend(s.sessions, Node(s.next, NewSession(sid)), x);
  }

  lemma SetupMedias(s: Server, conn: Id, deadline: nat, sid: Option<string>, newSid: string, path: string, env: Env, x: Id)
    requires x < s.next
    ensures MediasStay(s, BeginSetup(s, conn, deadline, sid, newSid, path, env), x)
  {
    hide MediasStay, AddSession, AddMedia, SetOp, EnterCallback, Fail;
    var a := AddRequest(s, conn, Setup, deadline);
    AddedMedias(s, conn, Setup, deadline, x);
    FailMedias(s, a, s.next, STATUS_SESSION_NOT_FOUND, env, x);
    var u := if sid.None? then AddSession(a, newSid) else a;
    AddSessionMedias(a, newSid, x);
    StaysThen(s, a, u, x);
    FailMedias(s, u, s.next, EPROTO, env, x);
    var sess := if sid.None? then Some(a.next) else FindSid(a.sessions, sid.value);
    if sess.Some? {
      AddMediaMedias(u, sess.value, path, x);
      var v := AddMedia(u, sess.value, path);
      StaysThen(s, u, v, x);
      SetOpMedias(v, sess, Setup, x);
      StaysThen(s, v, SetOp(v, sess, Setup), x);
      EnteredMedias(s, SetOp(v, sess, Setup), s.next, [], sess, x);
    }
  }

  lemma AddedMedias(s: Server, conn: Id, verb: Verb, deadline: nat, x: Id)
    ensures var a := AddRequest(s, conn, verb, deadline); MediasStay(s, a, x) && MediasStay(a, a, x) && a.next == s.next + 1
  {
  }

  lemma FailMedias(s: Server, t: Server, req: Id, status: int, env: Env, x: Id)
    requires MediasStay(s, t, x)
    ensures MediasStay(s, Fail(t, req, status, env), x)
  {
  }

  lemma EnteredMedias(s: Server, t: Server, req: Id, medias: List<bool>, sess: Option<Id>, x: Id)
    requires MediasStay(s, t, x)
    ensures MediasStay(s, EnterCallback(t, req, medias, sess), x)
  {
  }

  lemma AggregateMedias(s: Server, conn: Id, verb: Verb, deadline: nat, sid: string, env: Env, x: Id)
    ensures MediasStay(s, BeginAggregate(s, conn, verb, deadline, sid, env), x)
  {
    hide MediasStay, SetOp, EnterCallback, Fail;
    var a := AddRequest(s, conn, verb, deadline);
    AddedMedias(s, conn, verb, deadline, x);
    FailMedias(s, a, s.next, STATUS_SESSION_NOT_FOUND, env, x);
    var sess := Target(a, sid);
    SetOpMedias(a, sess, verb, x);
    StaysThen(s, a, SetOp(a, sess, verb), x);
    if sess.Some? {
      EnteredMedias(s, SetOp(a, sess, verb), s.next, AllMedias(Find(s.sessions, sess.value).value.medias), sess, x);
    }
  }

  lemma OtherTeardownMedias(s: Server, conn: Id, deadline: nat, sid: string, path: Option<string>, env: Env, x: Id)
    requires Target(s, sid) != Some(x)
    ensures MediasStay(s, BeginTeardown(s, conn, deadline, sid, path, env), x)
  {
    hide EnterCallback, Fail;
    var a := AddRequest(s, conn, Teardown, deadline);
    AddedMedias(s, conn, Teardown, deadline, x);
    FailMedias(s, a, s.next, STATUS_SESSION_NOT_FOUND, env, x);
    var sess := Target(a, sid);
    if sess.Some? {
      var y := Find(s.sessions, sess.value).value;
      var fan := FanOut(y.medias, y.medias, path);
      var z := y.(op := Teardown, medias := Mark(y.medias, y.medias, path));
      FindPut(s.sessions, sess.value, z, x);
      var u := a.(sessions := Put(a.sessions, sess.value, z));
      FailMedias(s, u, s.next, ENOENT, env, x);
      EnteredMedias(s, u, s.next, fan, sess, x);
    }
  }

  lemma SweepSame(s: Server, walk: seq<Id>, now: nat, unsendable: set<Id>)
    ensures var t := Sweep(s, walk, now, unsendable); t.sessions == s.sessions && t.next == s.next && t.pending == s.pending
  {
  }

  lemma ReturnedMedias(s: Server, r: Id, x: Id)
    requires Invariant(s) && Unrelated(s, Returned, r, x)
    ensures MediasStay(s, CallbackReturned(s), x)
  {
    hide Structure, MediasStay;
    match s.frame.value
    case Frame(req, sess) =>
      HandlerReturnedSame(s, req, sess, x);
      SameMedias(s, HandlerReturned(s, req, sess), x);
    case TimingOut(req, rest, now, unsendable) =>
      SweepSame(RemoveRequest(s, req), rest, now, unsendable);
      SameMedias(s, CallbackReturned(s), x);
  }

  lemma HandlerReturnedSame(s: Server, req: Id, sess: Option<Id>, x: Id)
    requires Invariant(s) && s.frame == Some(Frame(req, sess)) && sess != Some(x)
    ensures var t := HandlerReturned(s, req, sess); SessionSame(s, t, x) && t.next == s.next
  {
    hide Structure, Conclude;
    var t := s.(frame := None);
    FrameFree(s, None);
    RequestIsOk(t, req);
    var q := Find(t.pending, req).value;
    var p := q.(inCallback := false, firstReply := q.firstReply || q.verb in {Play, Pause, Record});
    SetRequestKeeps(t, req, p);
    if q.replied {
      ConcludeKeeps(SetRequest(t, req, p), q.verb, req, sess);
      ConcludeStays(SetRequest(t, req, p), q.verb, req, sess, x);
    }
  }

  lemma ForcedSame(s: Server, sid: string, path: Option<string>, x: Id)
    requires Structure(s) && FindSid(s.sessions, sid) != Some(x)
    ensures var t := ForceTeardown(s, sid, path).0; SessionSame(s, t, x) && t.next == s.next
  {
    hide Structure, RemoveMedia;
    ForcedKeeps(s, sid, path);
    var sess := FindSid(s.sessions, sid);
    if sess.Some? {
      RemoveSessionKeeps(s, sess.value);
      var y := Find(s.sessions, sess.value);
      if y.Some? && path.Some? && FindPath(y.value.medias, path.value).Some? {
        RemoveMediaStays(s, sess.value, FindPath(y.value.medias, path.value).value, x);
      }
    }
  }

  lemma RemovalSame(s: Server, sess: Id, x: Id)
    requires Structure(s) && sess != x
    ensures var t := RemoveSession(s, sess); SessionSame(s, t, x) && t.next == s.next
  {
    RemoveSessionKeeps(s, sess);
  }

  lemma ReplySame(s: Server, t: Server, req: Id, x: Id)
    requires ReplyEffect(s, t, req) && SessionSame(s, t, x)
    ensures MediasStay(s, t, x)
  {
  }

  /** No unrelated event but a TEARDOWN of that session touches its medias or their marks. */
  lemma UnrelatedKeepsMedias(s: Server, e: Event, r: Id, x: Id)
    requires Invariant(s) && Enabled(s, e) && Unrelated(s, e, r, x) && Quiet(s, e, x) && x < s.next
    ensures MediasStay(s, Step(s, e), x)
  {
    hide Structure, CallbackOk, ReplyEffect, BeginSetup, BeginAggregate, BeginTeardown, CallbackReturned, ReplySingle, ReplySetup,
         ReplyMedia, Sweep, Disconnect, RemoveSession, ForceTeardown, SessionSame, MediasStay, Fail, EnterCallback;
    var t := Step(s, e);
    match e
    case Ignored(conn, verb, deadline) => AddedMedias(s, conn, verb, deadline, x);
    case Rejected(conn, verb, deadline, status, env) =>
      AddedMedias(s, conn, verb, deadline, x);
      FailMedias(s, AddRequest(s, conn, verb, deadline), s.next, status, env, x);
    case Answered(conn, verb, deadline, env) => ImmediateMedias(s, conn, verb, deadline, env, x);
    case SingleRequest(conn, verb, deadline) =>
      AddedMedias(s, conn, verb, deadline, x);
      EnteredMedias(s, AddRequest(s, conn, verb, deadline), s.next, [], None, x);
    case SetupRequest(conn, deadline, known, newSid, target, env) => SetupMedias(s, conn, deadline, known, newSid, target, env, x);
    case AggregateRequest(conn, verb, deadline, sid, env) => AggregateMedias(s, conn, verb, deadline, sid, env, x);
    case TeardownRequest(conn, deadline, sid, path, env) => OtherTeardownMedias(s, conn, deadline, sid, path, env, x);
    case Returned => ReturnedMedias(s, r, x);
    case SingleReply(req, status, valid, env) =>
      SingleReplyKeeps(s, req, status, valid, env);
      RepliesStay(s, req, x + 1, status, valid, env, x);
      ReplySame(s, t, req, x);
    case SetupReply(req, sess, status, ports, env) =>
      SetupReplyKeeps(s, req, sess, status, ports, env);
      RepliesStay(s, req, sess, status, ports, env, x);
      ReplySame(s, t, req, x);
    case MediaReply(req, a, env) =>
      MediaReplyKeeps(s, req, a, env);
      MediaReplyStays(s, req, a, env, x);
      ReplySame(s, t, req, x);
    case TimerTick(now, unsendable) =>
      SweepSame(s, Order(s.pending), now, unsendable);
      SameSessions(s, t, x);
    case Disconnected(conn) => SameSessions(s, t, x);
    case SessionTimeout(sess) =>
      RemovalSame(s, sess, x);
      SameMedias(s, t, x);
    case IdleRemoval(sess) =>
      RemovalSame(s, sess, x);
      SameMedias(s, t, x);
    case Forced(sid, path) =>
      ForcedSame(s, sid, path, x);
      SameMedias(s, t, x);
  }

  lemma SameSessions(s: Server, t: Server, x: Id)
    requires t.sessions == s.sessions && t.next == s.next
    ensures MediasStay(s, t, x)
  {
  }

  lemma ImmediateMedias(s: Server, conn: Id, verb: Verb, deadline: nat, env: Env, x: Id)
    ensures MediasStay(s, Immediate(s, conn, verb, deadline, env), x)
  {
  }

  // --- the answers ---

  /** Concluding a TEARDOWN takes the marked medias with it. */
  lemma ConcludeTakesMarked(s: Server, req: Id, x: Id)
    requires Structure(s)
    ensures var t := Conclude(s, Teardown, req, Some(x)); MarkedGone(s, t, x)
  {
    hide Structure, Conclude;
    ConcludeKeeps(s, Teardown, req, Some(x));
    if Find(s.sessions, x).Some? {
      TeardownRemovesMarked(s, req, x);
      RemovedGone(s, Conclude(s, Teardown, req, Some(x)), Find(s.sessions, x).value, x);
    } else {
      ConcludeAbsent(s, req, x);
      AbsentGone(s, Conclude(s, Teardown, req, Some(x)), x);
    }
  }

  lemma RemovedGone(s: Server, t: Server, y: Session, x: Id)
    requires Find(s.sessions, x) == Some(y) && t.next == s.next
    requires Find(t.sessions, x).None? ==> forall k :: Find(y.medias, k).Some? ==> Find(y.medias, k).value.tearingDown
    requires Find(t.sessions, x).Some? ==>
               forall k :: Find(Find(t.sessions, x).value.medias, k) ==
                           (var m := Find(y.medias, k); if m.Some? && m.value.tearingDown then None else m)
    ensures MarkedGone(s, t, x)
  {
    hide Find;
  }

  lemma AbsentGone(s: Server, t: Server, x: Id)
    requires Find(s.sessions, x).None? && t.sessions == s.sessions && t.next == s.next
    ensures MarkedGone(s, t, x)
  {
  }

  lemma ConcludeAbsent(s: Server, req: Id, x: Id)
    requires Find(s.sessions, x).None?
    ensures Conclude(s, Teardown, req, Some(x)).sessions == s.sessions
  {
  }

  lemma MarkedGoneThen(o: Server, s: Server, t: Server, x: Id)
    requires MediasStay(o, s, x) && MarkedGone(s, t, x)
    ensures MarkedGone(o, t, x)
  {
    hide MediaIn, KeptMedia;
  }

  /** An answer that is not the last leaves the medias alone; the last one outside the callback concludes. */
  lemma AnswerMedias(s: Server, g: Gather, left: set<Id>, inCallback: bool, a: Answer, env: Env)
    requires Gathering(s, g, left, inCallback) && g.kind == Teardown && a.media in left && IsAnswer(MediaReply(g.req, a, env), g)
    ensures var t := ReplyMedia(s, g.req, a, env).0;
            && (left != {a.media} || inCallback ==> MediasStay(s, t, g.session))
            && (left == {a.media} && !inCallback ==> MarkedGone(s, t, g.session))
            && (left == {a.media} && inCallback ==> Find(t.pending, g.req).Some? && Find(t.pending, g.req).value.verb == Teardown)
  {
    hide Structure, Accept, Taken, CallbackOk, ReplyMedia, Finish, MediasStay, MarkedGone;
    var q, y := Find(s.pending, g.req).value, Find(s.sessions, g.session).value;
    AnswerAccepted(s, g, left, inCallback, a, env);
    TakenKeeps(s, g.req, q, y, a);
    var t := Taken(s, g.req, q, y, a);
    LastOrNot(t, g, left, q, a);
    TakenMedias(s, t, g.session);
    AcceptedMedias(t, g, left, inCallback, q, y, a, env);
    var u := Accept(t, g.req, q, y, a, env).0;
    if left != {a.media} || inCallback {
      StaysThen(s, t, u, g.session);
    } else {
      MarkedGoneThen(s, t, u, g.session);
    }
  }

  lemma TakenMedias(s: Server, t: Server, x: Id)
    requires Find(t.sessions, x) == Find(s.sessions, x) && t.next == s.next
    ensures MediasStay(s, t, x)
  {
  }

  lemma AcceptedMedias(t: Server, g: Gather, left: set<Id>, inCallback: bool, q: Request, y: Session, a: Answer, env: Env)
    requires Structure(t) && Find(t.pending, g.req) == Some(q) && Find(t.sessions, g.session) == Some(y)
    requires q.inCallback == inCallback && q.verb == Teardown && env.built && env.sent && a.kind == Teardown && a.session == g.session
    requires var after := Put(q.medias, a.media, true); CountAnswered(after) == q.mediaCount <==> left == {a.media}
    ensures var u := Accept(t, g.req, q, y, a, env).0;
            && (left != {a.media} || inCallback ==> MediasStay(t, u, g.session))
            && (left == {a.media} && !inCallback ==> MarkedGone(t, u, g.session))
            && (left == {a.media} && inCallback ==> Find(u.pending, g.req).Some? && Find(u.pending, g.req).value.verb == Teardown)
  {
    hide Structure, Finish, MarkedGone, MediasStay;
    var o := q.(medias := Put(q.medias, a.media, true));
    AnsweredOk(t, g.req, q, a.media);
    SetRequestKeeps(t, g.req, o);
    var u := SetRequest(t, g.req, o);
    TakenMedias(t, u, g.session);
    if left == {a.media} {
      PlayingKeeps(u, g.session, y, Teardown);
      FindPut(u.sessions, g.session, y, g.session);
      var v := u.(sessions := Put(u.sessions, g.session, y));
      TakenMedias(t, v, g.session);
      FinishedMedias(v, g.req, o, a.status, g.session);
      var w := Finish(Sent(v, g.req, a.status, true), Teardown, g.req, Some(g.session));
      if inCallback {
        StaysThen(t, v, w, g.session);
      } else {
        MarkedGoneThen(t, v, w, g.session);
      }
    }
  }

  lemma FinishedMedias(v: Server, req: Id, o: Request, status: int, x: Id)
    requires Structure(v) && Find(v.pending, req) == Some(o) && o.verb == Teardown
    ensures var u := Finish(Sent(v, req, status, true), Teardown, req, Some(x));
            if o.inCallback then MediasStay(v, u, x) && Find(u.pending, req).Some? && Find(u.pending, req).value.verb == Teardown
            else MarkedGone(v, u, x)
  {
    hide Structure, Conclude, MarkedGone, MediasStay;
    var s := Sent(v, req, status, true);
    SentKeeps(v, req, status, true);
    RequestIsOk(s, req);
    SetRequestKeeps(s, req, o.(replied := true));
    var w := SetRequest(s, req, o.(replied := true));
    ConcludeTakesMarked(w, req, x);
    SameSessions(v, w, x);
    MarkedGoneThen(v, w, Conclude(w, Teardown, req, Some(x)), x);
  }

  lemma ReturnWaits(s: Server, g: Gather, left: set<Id>)
    requires Gathering(s, g, left, true)
    ensures MediasStay(s, CallbackReturned(s), g.session)
  {
  }

  lemma ReturnTakesMarked(s: Server, g: Gather)
    requires Done(s, g, true) && Find(s.pending, g.req).value.verb == Teardown
    ensures MarkedGone(s, CallbackReturned(s), g.session)
  {
    hide Structure, Conclude, MarkedGone;
    var t := s.(frame := None);
    FrameFree(s, None);
    RequestIsOk(t, g.req);
    var q := Find(t.pending, g.req).value;
    var p := q.(inCallback := false, firstReply := q.firstReply || q.verb in {Play, Pause, Record});
    SetRequestKeeps(t, g.req, p);
    var u := SetRequest(t, g.req, p);
    ConcludeTakesMarked(u, g.req, g.session);
    TakenMedias(s, u, g.session);
    MarkedGoneThen(s, u, Conclude(u, Teardown, g.req, Some(g.session)), g.session);
  }

  // --- whole runs ---

  lemma {:induction false} AfterTheLast(o: Server, s: Server, events: seq<Event>, g: Gather, inCallback: bool)
    requires Done(s, g, inCallback) && g.session < s.next && QuietRun(s, events, g.session)
    requires AnswerRun(s, events, g, {}, inCallback, {}, false)
    requires if inCallback then Find(s.pending, g.req).value.verb == Teardown && MediasStay(o, s, g.session)
             else MarkedGone(o, s, g.session)
    ensures MarkedGone(o, After(s, events), g.session)
    decreases |events|
  {
    hide Structure, CallbackOk, MediasStay, MarkedGone, Quiet;
    if events != [] {
      var e, t := events[0], Step(s, events[0]);
      StepKeeps(s, e);
      if e.Returned? && s.frame.Some? && s.frame.value.request == g.req {
        ReturnDone(s, g);
        ReturnTakesMarked(s, g);
        MarkedGoneThen(o, s, t, g.session);
        NextGrows(s, t, g.session);
        AfterTheLast(o, t, events[1..], g, false);
      } else {
        UnrelatedUntouched(s, e, g.req, g.session);
        UnrelatedKeepsMedias(s, e, g.req, g.session);
        DoneStays(s, e, g, inCallback);
        StaysThen(o, s, t, g.session);
        NextStays(s, t, g.session);
        AfterTheLast(o, t, events[1..], g, inCallback);
      }
    }
  }

  lemma NextGrows(s: Server, t: Server, x: Id)
    requires MarkedGone(s, t, x)
    ensures s.next <= t.next
  {
  }

  lemma NextStays(s: Server, t: Server, x: Id)
    requires MediasStay(s, t, x)
    ensures s.next <= t.next
  {
  }

  lemma {:induction false} UpToTheLast(o: Server, s: Server, events: seq<Event>, g: Gather, left: set<Id>, inCallback: bool)
    requires Gathering(s, g, left, inCallback) && g.kind == Teardown && g.session < s.next && QuietRun(s, events, g.session)
    requires AnswerRun(s, events, g, left, inCallback, {}, false) && MediasStay(o, s, g.session)
    ensures MarkedGone(o, After(s, events), g.session)
    decreases |events|
  {
    hide Invariant, MarksLeft, MediasStay, MarkedGone, Quiet;
    var e, t := events[0], Step(s, events[0]);
    StepKeeps(s, e);
    if IsAnswer(e, g) {
      AnswerCounted(s, g, left, inCallback, e.answer, e.env);
      AnswerMedias(s, g, left, inCallback, e.answer, e.env);
      AnswerNext(s, e);
      if left == {e.answer.media} {
        assert left - {e.answer.media} == {};
        LastAnswerDone(s, g, left, inCallback, e);
        if inCallback {
          StaysThen(o, s, t, g.session);
        } else {
          MarkedGoneThen(o, s, t, g.session);
        }
        AfterTheLast(o, t, events[1..], g, inCallback);
      } else {
        StaysThen(o, s, t, g.session);
        UpToTheLast(o, t, events[1..], g, left - {e.answer.media}, inCallback);
      }
    } else if e.Returned? && s.frame.Some? && s.frame.value.request == g.req {
      ReturnGathers(s, g, left);
      ReturnWaits(s, g, left);
      StaysThen(o, s, t, g.session);
      NextStays(s, t, g.session);
      UpToTheLast(o, t, events[1..], g, left, false);
    } else {
      UnrelatedUntouched(s, e, g.req, g.session);
      UnrelatedKeepsMedias(s, e, g.req, g.session);
      OthersGather(s, t, g, left, inCallback);
      StaysThen(o, s, t, g.session);
      NextStays(s, t, g.session);
      UpToTheLast(o, t, events[1..], g, left, inCallback);
    }
  }

  lemma AnswerNext(s: Server, e: Event)
    requires Invariant(s) && e.MediaReply?
    ensures Step(s, e).next == s.next
  {
    hide ReplyMedia, Structure;
    MediaReplyKeeps(s, e.req, e.answer, e.env);
  }

  lemma LastAnswerDone(s: Server, g: Gather, left: set<Id>, inCallback: bool, e: Event)
    requires Gathering(s, g, left, inCallback) && IsAnswer(e, g) && left == {e.answer.media} && Invariant(Step(s, e))
    ensures Done(Step(s, e), g, inCallback)
  {
    hide ReplyMedia, Structure;
    AnswerCounted(s, g, left, inCallback, e.answer, e.env);
    MediaReplyKeeps(s, g.req, e.answer, e.env);
  }

  /**
    From arrival to response: a TEARDOWN that selects medias, each answered once with success, gets exactly one response
    and leaves the pending list; of the medias known at its arrival exactly those neither selected nor marked before are
    left, whatever else happens but another TEARDOWN of the session.
   */
  lemma TeardownAnsweredOnce(s: Server, conn: Id, deadline: nat, sid: string, path: Option<string>, env: Env,
                             range: Range, scale: real, events: seq<Event>)
    requires Invariant(s) && AnsweredOnce(s) && s.frame.None? && Target(s, sid).Some?
    requires var x := Target(s, sid).value;
             var medias := Find(s.sessions, x).value.medias;
             var fan := FanOut(medias, medias, path);
             var t := BeginTeardown(s, conn, deadline, sid, path, env);
             && fan != [] && QuietRun(t, events, x)
             && AnswerRun(t, events, Gather(s.next, x, Teardown, Ids(fan), range, scale), Ids(fan), true, {}, false)
    ensures var x := Target(s, sid).value;
            var medias := Find(s.sessions, x).value.medias;
            var t := After(BeginTeardown(s, conn, deadline, sid, path, env), events);
            && Count(t.log, s.next) == 1 && Find(t.pending, s.next).None?
            && forall k :: k < s.next ==>
                 MediaIn(t, x, k) == (var m := Find(medias, k);
                                      if m.Some? && (m.value.tearingDown || Selected(medias, path, m.value)) then None else m)
  {
    hide Structure, Gathering, AnswerRun, QuietRun, MediasStay, BeginTeardown;
    var x := Target(s, sid).value;
    var medias := Find(s.sessions, x).value.medias;
    var fan := FanOut(medias, medias, path);
    var u := BeginTeardown(s, conn, deadline, sid, path, env);
    var g := Gather(s.next, x, Teardown, Ids(fan), range, scale);
    TeardownGathers(s, conn, deadline, sid, path, env, range, scale);
    TeardownKeeps(s, conn, deadline, sid, path, env);
    OneResponseAtTheLast(u, events, g, Ids(fan), true, false);
    GatheringPending(u, g, Ids(fan), true);
    assert Count(s.log, s.next) == 0;
    SameSessions(u, u, x);
    SessionKnown(s, x);
    UpToTheLast(u, u, events, g, Ids(fan), true);
  }

  lemma SessionKnown(s: Server, x: Id)
    requires Structure(s) && Find(s.sessions, x).Some?
    ensures x < s.next
  {
  }
}
