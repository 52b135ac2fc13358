/** The operation in progress of a session: it lasts as long as its request, and what the session is like when it ends. */
module ServerOperations {
  import opened Wrappers
  import opened Lists
  import opened ServerState
  import opened ServerInvariant
  import opened ServerRuns
  import opened ServerReplies
  import opened ServerRequests
  import opened ServerTeardowns

  // --- events that begin no request on the session ---

  /** The event is no request on session `x`. */
  predicate Beginless(s: Server, e: Event, x: Id) {
    match e
    case SetupRequest(_, _, known, _, _, _) => known.Some? ==> FindSid(s.sessions, known.value) != Some(x)
    case AggregateRequest(_, _, _, sid, _) => Target(s, sid) != Some(x)
    case TeardownRequest(_, _, sid, _, _) => Target(s, sid) != Some(x)
    case _ => true
  }

  predicate BeginlessRun(s: Server, events: seq<Event>, x: Id)
    decreases |events|
  {
    events != [] ==> Beginless(s, events[0], x) && BeginlessRun(Step(s, events[0]), events[1..], x)
  }

  lemma SameAs(s: Server, t: Server, x: Id)
    requires t.sessions == s.sessions
    ensures SessionSame(s, t, x)
  {
  }

  lemma SameThen(s: Server, t: Server, u: Server, x: Id)
    requires SessionSame(s, t, x) && SessionSame(t, u, x)
    ensures SessionSame(s, u, x)
  {
  }

  lemma AddMediaSame(s: Server, sess: Id, path: string, x: Id)
    requires sess != x
    ensures SessionSame(s, AddMedia(s, sess, path), x)
  {
    if Find(s.sessions, sess).Some? {
      AddedMedia(s, sess, path, Find(s.sessions, sess).value, x);
    }
  }

  lemma SetOpSame(s: Server, sess: Id, op: Verb, x: Id)
    requires sess != x
    ensures SessionSame(s, SetOp(s, Some(sess), op), x)
  {
    if Find(s.sessions, sess).Some? {
      FindPut(s.sessions, sess, Find(s.sessions, sess).value.(op := op), x);
    }
  }

  lemma SetupSame(s: Server, conn: Id, deadline: nat, sid: Option<string>, newSid: string, path: string, env: Env, x: Id)
    requires x < s.next && (sid.Some? ==> FindSid(s.sessions, sid.value) != Some(x))
    ensures SessionSame(s, BeginSetup(s, conn, deadline, sid, newSid, path, env), x)
  {
    hide SessionSame, AddSession, AddMedia, SetOp, EnterCallback, Fail;
    var a := AddRequest(s, conn, Setup, deadline);
    SameAs(s, a, x);
    FailStays(a, s.next, STATUS_SESSION_NOT_FOUND, env);
    SameAs(s, Fail(a, s.next, STATUS_SESSION_NOT_FOUND, env), x);
    var sess := if sid.None? then Some(a.next) else FindSid(a.sessions, sid.value);
    if sess.Some? {
      var u := if sid.None? then AddSession(a, newSid) else a;
      AddSessionSame(a, newSid, x);
      SameThen(s, a, u, x);
      FailStays(u, s.next, EPROTO, env);
      SameAs(u, Fail(u, s.next, EPROTO, env), x);
      SameThen(s, u, Fail(u, s.next, EPROTO, env), x);
      AddMediaSame(u, sess.value, path, x);
      var v := AddMedia(u, sess.value, path);
      SetOpSame(v, sess.value, Setup, x);
      var w := SetOp(v, sess, Setup);
      EnterSessions(w, s.next, [], sess);
      SameAs(w, EnterCallback(w, s.next, [], sess), x);
      SameThen(s, u, v, x);
      SameThen(s, v, w, x);
      SameThen(s, w, EnterCallback(w, s.next, [], sess), x);
    }
  }

  lemma AddSessionSame(s: Server, sid: string, x: Id)
    requires x < s.next
    ensures SessionSame(s, s, x) && SessionSame(s, AddSession(s, sid), x)
  {
    FindAppend(s.sessions, Node(s.next, NewSession(sid)), x);
  }

  lemma AggregateSame(s: Server, conn: Id, verb: Verb, deadline: nat, sid: string, env: Env, x: Id)
    requires Target(s, sid) != Some(x)
    ensures SessionSame(s, BeginAggregate(s, conn, verb, deadline, sid, env), x)
  {
    hide SetOp, EnterCallback, Fail, SessionSame;
    var a := AddRequest(s, conn, verb, deadline);
    SameAs(s, a, x);
    FailStays(a, s.next, STATUS_SESSION_NOT_FOUND, env);
    SameAs(s, Fail(a, s.next, STATUS_SESSION_NOT_FOUND, env), x);
    var sess := Target(a, sid);
    if sess.Some? {
      SetOpSame(a, sess.value, verb, x);
      var u := SetOp(a, sess, verb);
      var fan := AllMedias(Find(s.sessions, sess.value).value.medias);
      EnterSessions(u, s.next, fan, sess);
      SameAs(u, EnterCallback(u, s.next, fan, sess), x);
      SameThen(s, a, u, x);
      SameThen(s, u, EnterCallback(u, s.next, fan, sess), x);
    }
  }

  lemma OtherTeardownSame(s: Server, conn: Id, deadline: nat, sid: string, path: Option<string>, env: Env, x: Id)
    requires Target(s, sid) != Some(x)
    ensures SessionSame(s, BeginTeardown(s, conn, deadline, sid, path, env), x)
  {
    hide EnterCallback, Fail, SessionSame;
    var a := AddRequest(s, conn, Teardown, deadline);
    SameAs(s, a, x);
    FailStays(a, s.next, STATUS_SESSION_NOT_FOUND, env);
    SameAs(s, Fail(a, s.next, STATUS_SESSION_NOT_FOUND, env), x);
    var sess := Target(a, sid);
    if sess.Some? {
      var y := Find(s.sessions, sess.value).value;
      var fan := FanOut(y.medias, y.medias, path);
      var z := y.(op := Teardown, medias := Mark(y.medias, y.medias, path));
      PutStays(a, sess.value, y, z, x);
      var u := a.(sessions := Put(a.sessions, sess.value, z));
      SameThen(s, a, u, x);
      FailStays(u, s.next, ENOENT, env);
      EnterSessions(u, s.next, fan, sess);
      SameAs(u, Fail(u, s.next, ENOENT, env), x);
      SameAs(u, EnterCallback(u, s.next, fan, sess), x);
      SameThen(s, u, Fail(u, s.next, ENOENT, env), x);
      SameThen(s, u, EnterCallback(u, s.next, fan, sess), x);
    }
  }

  lemma ReturnedSame(s: Server, r: Id, x: Id)
    requires Invariant(s) && Unrelated(s, Returned, r, x)
    ensures SessionSame(s, CallbackReturned(s), x)
  {
    hide Structure;
    match s.frame.value
    case Frame(req, sess) => HandlerReturnedSame(s, req, sess, x);
    case TimingOut(req, rest, now, unsendable) => SweepSame(RemoveRequest(s, req), rest, now, unsendable);
  }

  lemma PlainSame(s: Server, conn: Id, verb: Verb, deadline: nat, status: int, env: Env, x: Id)
    ensures SessionSame(s, AddRequest(s, conn, verb, deadline), x)
    ensures SessionSame(s, Fail(AddRequest(s, conn, verb, deadline), s.next, status, env), x)
    ensures SessionSame(s, Immediate(s, conn, verb, deadline, env), x)
    ensures SessionSame(s, BeginSingle(s, conn, verb, deadline), x)
  {
  }

  /** An unrelated event that begins no request on the session leaves all of it alone. */
  lemma UnrelatedSame(s: Server, e: Event, r: Id, x: Id)
    requires Invariant(s) && Enabled(s, e) && Unrelated(s, e, r, x) && Beginless(s, e, x) && x < s.next
    ensures SessionSame(s, Step(s, e), x)
  {
    hide Structure, CallbackOk, BeginSetup, BeginAggregate, BeginTeardown, CallbackReturned, ReplySingle, ReplySetup, BeginSingle,
         ReplyMedia, Sweep, Disconnect, RemoveSession, ForceTeardown, SessionSame, Fail, EnterCallback, AddRequest, Immediate;
    var t := Step(s, e);
    match e
    case Ignored(conn, verb, deadline) => PlainSame(s, conn, verb, deadline, OK, Env(true, true, true), x);
    case Rejected(conn, verb, deadline, status, env) => PlainSame(s, conn, verb, deadline, status, env, x);
    case Answered(conn, verb, deadline, env) => PlainSame(s, conn, verb, deadline, OK, env, x);
    case SingleRequest(conn, verb, deadline) => PlainSame(s, conn, verb, deadline, OK, Env(true, true, true), x);
    case SetupRequest(conn, deadline, known, newSid, target, env) => SetupSame(s, conn, deadline, known, newSid, target, env, x);
    case AggregateRequest(conn, verb, deadline, sid, env) => AggregateSame(s, conn, verb, deadline, sid, env, x);
    case TeardownRequest(conn, deadline, sid, path, env) => OtherTeardownSame(s, conn, deadline, sid, path, env, x);
    case Returned => ReturnedSame(s, r, x);
    case SingleReply(req, status, valid, env) => RepliesStay(s, req, x + 1, status, valid, env, x);
    case SetupReply(req, sess, status, ports, env) => RepliesStay(s, req, sess, status, ports, env, x);
    case MediaReply(req, a, env) => MediaReplyStays(s, req, a, env, x);
    case TimerTick(now, unsendable) =>
      SweepSame(s, Order(s.pending), now, unsendable);
      SameAs(s, t, x);
    case Disconnected(conn) => SameAs(s, t, x);
    case SessionTimeout(sess) => RemovalSame(s, sess, x);
    case IdleRemoval(sess) => RemovalSame(s, sess, x);
    case Forced(sid, path) => ForcedSame(s, sid, path, x);
  }

  // --- the session of a request over its answers ---

  /** The session with the range, and for PLAY the scale, that the answers agree on. */
  function Ranged(y: Session, g: Gather): Session {
    if g.kind == Play then y.(range := g.range, scale := g.scale) else y.(range := g.range)
  }

  /** The session when all medias have answered. */
  function Played(y: Session, g: Gather): Session {
    var z := Ranged(y, g);
    z.(playing := g.kind == Play || (z.playing && g.kind != Pause), recording := g.kind == Record || (z.recording && g.kind != Pause))
  }

  /** Before the last answer the session is `y`, but for the range and scale. */
  ghost predicate Midway(y: Session, s: Server, g: Gather) {
    g.kind != Teardown ==> Find(s.sessions, g.session).Some? && Ranged(Find(s.sessions, g.session).value, g) == Ranged(y, g)
  }

  /** All medias have answered, but the callbacks still run. */
  ghost predicate Answered(y: Session, s: Server, g: Gather) {
    && (g.kind != Teardown ==> Find(s.sessions, g.session) == Some(Played(y, g)))
    && Find(s.pending, g.req).Some? && Find(s.pending, g.req).value.verb == g.kind
  }

  /** The request is over; a session that is left after a TEARDOWN has no operation in progress either. */
  ghost predicate Over(y: Session, s: Server, g: Gather) {
    if g.kind == Teardown then Find(s.sessions, g.session).Some? ==> Find(s.sessions, g.session).value.op == Unknown
    else Find(s.sessions, g.session) == Some(Played(y, g).(op := Unknown))
  }

  lemma ConcludeOver(s: Server, verb: Verb, req: Id, x: Id)
    requires Structure(s)
    ensures var t := Conclude(s, verb, req, Some(x));
            && (Find(t.sessions, x).Some? ==> Find(t.sessions, x).value.op == Unknown)
            && (verb != Teardown && Find(s.sessions, x).Some? ==> Find(t.sessions, x) == Some(Find(s.sessions, x).value.(op := Unknown)))
  {
    hide Structure, SetOp, RemoveMarked;
    SetOpKeeps(s, Some(x), Unknown);
    var u := SetOp(s, Some(x), Unknown);
    RemoveRequestKeeps(u, req);
    if Find(s.sessions, x).Some? {
      OpCleared(s, x, Find(s.sessions, x).value);
      MarkedOp(RemoveRequest(u, req), x);
    } else {
      ConcludeNone(s, verb, req, x);
    }
  }

  lemma ConcludeNone(s: Server, verb: Verb, req: Id, x: Id)
    requires Find(s.sessions, x).None?
    ensures Conclude(s, verb, req, Some(x)).sessions == s.sessions
  {
  }

  lemma MarkedOp(s: Server, x: Id)
    requires Structure(s) && Find(s.sessions, x).Some?
    ensures var t := RemoveMarked(s, x); Find(t.sessions, x).Some? ==> Find(t.sessions, x).value.op == Find(s.sessions, x).value.op
  {
    hide Structure, RemoveSession;
    var y := Find(s.sessions, x).value;
    var kept := Unmarked(y.medias);
    var z := y.(medias := kept, mediaCount := y.mediaCount - (|y.medias| - |kept|));
    SessionIsOk(s, x);
    KeptOk(y, s.next);
    PutSessionKeeps(s, x, y, z);
    RemoveSessionKeeps(s.(sessions := Put(s.sessions, x, z)), x);
  }

  lemma AnswerSession(y: Session, s: Server, g: Gather, left: set<Id>, inCallback: bool, a: Answer, env: Env)
    requires Gathering(s, g, left, inCallback) && a.media in left && IsAnswer(MediaReply(g.req, a, env), g) && Midway(y, s, g)
    ensures var t := ReplyMedia(s, g.req, a, env).0;
            if left != {a.media} then Midway(y, t, g) else if inCallback then Answered(y, t, g) else Over(y, t, g)
  {
    hide Structure, Accept, Taken, CallbackOk, ReplyMedia, Finish;
    var q, x := Find(s.pending, g.req).value, Find(s.sessions, g.session).value;
    AnswerAccepted(s, g, left, inCallback, a, env);
    TakenKeeps(s, g.req, q, x, a);
    var t := Taken(s, g.req, q, x, a);
    var p, z := NotFirst(q, a), TakeRange(q, x, a);
    LastOrNot(t, g, left, p, a);
    TakenRange(y, q, x, g, a);
    AcceptSession(y, t, g, left, inCallback, p, z, a, env);
  }

  lemma TakenRange(y: Session, q: Request, x: Session, g: Gather, a: Answer)
    requires IsAnswer(MediaReply(g.req, a, Env(true, true, true)), g) && g.kind in {Play, Pause, Record, Teardown}
    requires g.kind != Teardown ==> Ranged(x, g) == Ranged(y, g) && RangeFits(TakeRange(q, x, a), g)
    ensures g.kind != Teardown ==> TakeRange(q, x, a) == Ranged(y, g)
  {
  }

  lemma AcceptSession(y: Session, t: Server, g: Gather, left: set<Id>, inCallback: bool, p: Request, z: Session, a: Answer, env: Env)
    requires Structure(t) && Find(t.pending, g.req) == Some(p) && Find(t.sessions, g.session) == Some(z)
    requires p.inCallback == inCallback && p.verb == g.kind && env.built && env.sent && a.kind == g.kind && a.session == g.session
    requires g.kind in {Play, Pause, Record, Teardown} && (g.kind != Teardown ==> z == Ranged(y, g))
    requires var after := Put(p.medias, a.media, true); CountAnswered(after) == p.mediaCount <==> left == {a.media}
    ensures var u := Accept(t, g.req, p, z, a, env).0;
            if left != {a.media} then Midway(y, u, g) else if inCallback then Answered(y, u, g) else Over(y, u, g)
  {
    hide Structure, Finish, Answered, Over, Midway;
    var o := p.(medias := Put(p.medias, a.media, true));
    AnsweredOk(t, g.req, p, a.media);
    SetRequestKeeps(t, g.req, o);
    var u := SetRequest(t, g.req, o);
    if left == {a.media} {
      PlayingKeeps(u, g.session, z, a.kind);
      FindPut(u.sessions, g.session, SetPlaying(z, a.kind), g.session);
      PlayedIs(y, z, g);
      var v := u.(sessions := Put(u.sessions, g.session, SetPlaying(z, a.kind)));
      FinishSession(y, v, g, o, a.status);
    } else {
      RangedMidway(y, z, u, g);
    }
  }

  lemma PlayedIs(y: Session, z: Session, g: Gather)
    requires g.kind in {Play, Pause, Record} ==> z == Ranged(y, g)
    ensures g.kind in {Play, Pause, Record} ==> SetPlaying(z, g.kind) == Played(y, g)
  {
  }

  lemma RangedMidway(y: Session, z: Session, s: Server, g: Gather)
    requires Find(s.sessions, g.session) == Some(z) && (g.kind != Teardown ==> z == Ranged(y, g))
    ensures Midway(y, s, g)
  {
  }

  lemma FinishSession(y: Session, v: Server, g: Gather, o: Request, status: int)
    requires Structure(v) && Find(v.pending, g.req) == Some(o) && o.verb == g.kind
    requires g.kind != Teardown ==> Find(v.sessions, g.session) == Some(Played(y, g))
    ensures var u := Finish(Sent(v, g.req, status, true), g.kind, g.req, Some(g.session));
            if o.inCallback then Answered(y, u, g) else Over(y, u, g)
  {
    hide Structure, Conclude;
    var s := Sent(v, g.req, status, true);
    SentKeeps(v, g.req, status, true);
    RequestIsOk(s, g.req);
    SetRequestKeeps(s, g.req, o.(replied := true));
    ConcludeOver(SetRequest(s, g.req, o.(replied := true)), g.kind, g.req, g.session);
  }

  /** The callbacks return: before the last answer nothing happens to the session, after it the operation ends. */
  lemma ReturnSession(y: Session, s: Server, g: Gather)
    requires Invariant(s) && s.frame == Some(Frame(g.req, Some(g.session))) && Find(s.pending, g.req).Some?
    ensures !Find(s.pending, g.req).value.replied ==> CallbackReturned(s).sessions == s.sessions
    ensures Find(s.pending, g.req).value.replied && Answered(y, s, g) ==> Over(y, CallbackReturned(s), g)
  {
    hide Structure, Conclude;
    var t := s.(frame := None);
    FrameFree(s, None);
    RequestIsOk(t, g.req);
    var q := Find(t.pending, g.req).value;
    var p := q.(inCallback := false, firstReply := q.firstReply || q.verb in {Play, Pause, Record});
    SetRequestKeeps(t, g.req, p);
    ConcludeOver(SetRequest(t, g.req, p), q.verb, g.req, g.session);
  }

  lemma SettledReplied(s: Server, g: Gather)
    requires Done(s, g, true)
    ensures Find(s.pending, g.req).Some? && Find(s.pending, g.req).value.replied
  {
  }

  lemma {:induction false} OverAfterTheLast(y: Session, s: Server, events: seq<Event>, g: Gather, inCallback: bool)
    requires Done(s, g, inCallback) && g.session < s.next && BeginlessRun(s, events, g.session)
    requires AnswerRun(s, events, g, {}, inCallback, {}, false) && if inCallback then Answered(y, s, g) else Over(y, s, g)
    ensures Over(y, After(s, events), g)
    decreases |events|
  {
    hide Structure, CallbackOk, Answered, Over, Beginless;
    if events != [] {
      var e, t := events[0], Step(s, events[0]);
      StepKeeps(s, e);
      if e.Returned? && s.frame.Some? && s.frame.value.request == g.req {
        ReturnDone(s, g);
        SettledReplied(s, g);
        ReturnSession(y, s, g);
        SessionBelow(s, t, g.session);
        OverAfterTheLast(y, t, events[1..], g, false);
      } else {
        UnrelatedUntouched(s, e, g.req, g.session);
        UnrelatedSame(s, e, g.req, g.session);
        DoneStays(s, e, g, inCallback);
        SameOver(y, s, t, g);
        OverAfterTheLast(y, t, events[1..], g, inCallback);
      }
    }
  }

  lemma SessionBelow(s: Server, t: Server, x: Id)
    requires Invariant(s) && t == CallbackReturned(s) && s.frame.Some? && s.frame.value.Frame?
    ensures t.next == s.next
  {
    hide Conclude;
    var req, sess := s.frame.value.request, s.frame.value.session;
    var q := Find(s.pending, req).value;
    var p := q.(inCallback := false, firstReply := q.firstReply || q.verb in {Play, Pause, Record});
    FrameFree(s, None);
    RequestIsOk(s, req);
    SetRequestKeeps(s.(frame := None), req, p);
    ConcludeKeeps(SetRequest(s.(frame := None), req, p), q.verb, req, sess);
  }

  lemma SameOver(y: Session, s: Server, t: Server, g: Gather)
    requires SessionSame(s, t, g.session) && Untouched(s, t, g.req, g.session)
    ensures (Answered(y, s, g) ==> Answered(y, t, g)) && (Over(y, s, g) ==> Over(y, t, g)) && (Midway(y, s, g) ==> Midway(y, t, g))
    ensures s.next <= t.next
  {
  }

  lemma {:induction false} OverAtTheEnd(y: Session, s: Server, events: seq<Event>, g: Gather, left: set<Id>, inCallback: bool)
    requires Gathering(s, g, left, inCallback) && g.session < s.next && BeginlessRun(s, events, g.session)
    requires AnswerRun(s, events, g, left, inCallback, {}, false) && Midway(y, s, g)
    ensures Over(y, After(s, events), g)
    decreases |events|
  {
    hide Invariant, MarksLeft, Answered, Over, Midway, Beginless;
    var e, t := events[0], Step(s, events[0]);
    StepKeeps(s, e);
    if IsAnswer(e, g) {
      AnswerCounted(s, g, left, inCallback, e.answer, e.env);
      AnswerSession(y, s, g, left, inCallback, e.answer, e.env);
      AnswerNext(s, e);
      if left == {e.answer.media} {
        assert left - {e.answer.media} == {};
        LastAnswerDone(s, g, left, inCallback, e);
        OverAfterTheLast(y, t, events[1..], g, inCallback);
      } else {
        OverAtTheEnd(y, t, events[1..], g, left - {e.answer.media}, inCallback);
      }
    } else if e.Returned? && s.frame.Some? && s.frame.value.request == g.req {
      ReturnGathers(s, g, left);
      ReturnSession(y, s, g);
      SessionBelow(s, t, g.session);
      SameMidway(y, s, t, g);
      OverAtTheEnd(y, t, events[1..], g, left, false);
    } else {
      UnrelatedUntouched(s, e, g.req, g.session);
      UnrelatedSame(s, e, g.req, g.session);
      OthersGather(s, t, g, left, inCallback);
      SameOver(y, s, t, g);
      OverAtTheEnd(y, t, events[1..], g, left, inCallback);
    }
  }

  lemma SameMidway(y: Session, s: Server, t: Server, g: Gather)
    requires t.sessions == s.sessions
    ensures Midway(y, s, g) ==> Midway(y, t, g)
  {
  }

  // --- forced teardown ---

  /** A session without an operation in progress can be torn down by force, and is then gone. */
  ghost predicate TakenByForce(s: Server, x: Id) {
    forall sid :: FindSid(s.sessions, sid) == Some(x) ==>
      var (t, ret) := ForceTeardown(s, sid, None);
      && ret == Code(0) && Find(t.sessions, x).None? && x !in t.timers
      && forall k :: k != x ==> Find(t.sessions, k) == Find(s.sessions, k)
  }

  lemma IdleTaken(s: Server, x: Id)
    requires Structure(s) && (Find(s.sessions, x).Some? ==> Find(s.sessions, x).value.op == Unknown)
    ensures TakenByForce(s, x)
  {
    hide Structure, RemoveSession;
    RemoveSessionKeeps(s, x);
    TimersOfKnown(RemoveSession(s, x), x);
    forall sid | FindSid(s.sessions, sid) == Some(x)
      ensures var (t, ret) := ForceTeardown(s, sid, None); ret == Code(0) && t == RemoveSession(s, x)
    {
      FindSidCorrectIn(s, sid);
    }
  }

  lemma TimersOfKnown(s: Server, x: Id)
    requires Structure(s) && Find(s.sessions, x).None?
    ensures x !in s.timers
  {
  }

  lemma FindSidCorrectIn(s: Server, sid: string)
    requires Structure(s)
    ensures FindSid(s.sessions, sid).Some? ==> Find(s.sessions, FindSid(s.sessions, sid).value).Some?
  {
    FindSidCorrect(s.sessions, sid);
  }

  /** With an operation in progress a forced teardown changes nothing. */
  ghost predicate ForceRefused(s: Server, x: Id) {
    forall sid, path :: FindSid(s.sessions, sid) == Some(x) ==>
      ForceTeardown(s, sid, path).0 == s && ForceTeardown(s, sid, path).1 in {Code(-2), Code(-16), Code(-114)}
  }

  lemma BusyRefused(s: Server, x: Id)
    requires Find(s.sessions, x).Some? && Find(s.sessions, x).value.op != Unknown
    ensures ForceRefused(s, x)
  {
  }

  // --- whole requests ---

  /**
    A PLAY, PAUSE or RECORD, from its arrival until all its medias have answered and its callbacks are over, among events
    that begin no other request on the session: the session then has the range, and for PLAY the scale, of the answers;
    it plays or records accordingly; no operation is in progress, so that a forced teardown takes it.
   */
  lemma AggregateEnds(s: Server, conn: Id, verb: Verb, deadline: nat, sid: string, env: Env, range: Range, scale: real, events: seq<Event>)
    requires Invariant(s) && s.frame.None? && verb in {Play, Pause, Record} && Target(s, sid).Some?
    requires var x := Target(s, sid).value;
             var medias := Ids(Find(s.sessions, x).value.medias);
             var t := BeginAggregate(s, conn, verb, deadline, sid, env);
             && AnswerRun(t, events, Gather(s.next, x, verb, medias, range, scale), medias, true, {}, false)
             && BeginlessRun(t, events, x)
    ensures var x := Target(s, sid).value;
            var y := Find(s.sessions, x).value;
            var t := After(BeginAggregate(s, conn, verb, deadline, sid, env), events);
            && TakenByForce(t, x)
            && Find(t.sessions, x) == Some(match verb
                                           case Play => y.(op := Unknown, playing := true, range := range, scale := scale)
                                           case Record => y.(op := Unknown, recording := true, range := range)
                                           case _ => y.(op := Unknown, playing := false, recording := false, range := range))
  {
    hide Structure, Gathering, AnswerRun, BeginlessRun, Over, Midway, BeginAggregate, TakenByForce;
    var x := Target(s, sid).value;
    var y := Find(s.sessions, x).value;
    var u := BeginAggregate(s, conn, verb, deadline, sid, env);
    var g := Gather(s.next, x, verb, Ids(y.medias), range, scale);
    AggregateGathers(s, conn, verb, deadline, sid, env, range, scale);
    AggregateKeeps(s, conn, verb, deadline, sid, env);
    AggregateOpens(s, conn, verb, deadline, sid, env, x, y);
    SessionKnown(s, x);
    RunKeeps(u, events, g, g.medias, true, {}, false);
    MidwaySelf(y.(op := verb), u, g);
    OverAtTheEnd(y.(op := verb), u, events, g, g.medias, true);
    OverMeans(y, After(u, events), g);
    IdleTaken(After(u, events), x);
  }

  lemma MidwaySelf(y: Session, s: Server, g: Gather)
    requires Find(s.sessions, g.session) == Some(y)
    ensures Midway(y, s, g)
  {
  }

  lemma OverMeans(y: Session, s: Server, g: Gather)
    requires Over(y.(op := g.kind), s, g) && g.kind in {Play, Pause, Record}
    ensures Find(s.sessions, g.session) == Some(match g.kind
                                                case Play => y.(op := Unknown, playing := true, range := g.range, scale := g.scale)
                                                case Record => y.(op := Unknown, recording := true, range := g.range)
                                                case _ => y.(op := Unknown, playing := false, recording := false, range := g.range))
  {
  }

  /** While it is gathering its answers the operation is in progress. */
  lemma AggregateOpens(s: Server, conn: Id, verb: Verb, deadline: nat, sid: string, env: Env, x: Id, y: Session)
    requires Structure(s) && Target(s, sid) == Some(x) && Find(s.sessions, x) == Some(y)
    ensures var u := BeginAggregate(s, conn, verb, deadline, sid, env);
            Find(u.sessions, x) == Some(y.(op := verb)) && u.next == s.next + 1
  {
    hide Structure;
    FindPut(s.sessions, x, y.(op := verb), x);
  }

  lemma {:induction false} RunKeeps(s: Server, events: seq<Event>, g: Gather, left: set<Id>, inCallback: bool, end: set<Id>, endCallback: bool)
    requires Invariant(s) && AnswerRun(s, events, g, left, inCallback, end, endCallback)
    ensures Invariant(After(s, events))
    decreases |events|
  {
    hide Invariant, Unrelated;
    if events != [] {
      StepKeeps(s, events[0]);
      var e, t := events[0], Step(s, events[0]);
      var rest := if IsAnswer(e, g) then left - {e.answer.media} else left;
      var cb := if !IsAnswer(e, g) && e.Returned? && s.frame.Some? && s.frame.value.request == g.req then false else inCallback;
      RunKeeps(t, events[1..], g, rest, cb, end, endCallback);
    }
  }

  /** Before its last answer the operation stays in progress, so that a forced teardown is refused. */
  lemma {:induction false} AggregateInProgress(s: Server, events: seq<Event>, g: Gather, left: set<Id>, inCallback: bool, end: set<Id>, endCallback: bool)
    requires Gathering(s, g, left, inCallback) && g.kind != Teardown && g.session < s.next && BeginlessRun(s, events, g.session)
    requires AnswerRun(s, events, g, left, inCallback, end, endCallback) && end != {} && Find(s.sessions, g.session).value.op == g.kind
    ensures ForceRefused(After(s, events), g.session)
    decreases |events|
  {
    hide Invariant, MarksLeft, ForceRefused, Beginless;
    if events == [] {
      BusyRefused(s, g.session);
    } else {
      var e, t := events[0], Step(s, events[0]);
      var y := Find(s.sessions, g.session).value;
      StepKeeps(s, e);
      if IsAnswer(e, g) {
        AnswersShrink(t, events[1..], g, left - {e.answer.media}, inCallback, end, endCallback);
        AnswerCounted(s, g, left, inCallback, e.answer, e.env);
        AnswerSession(y, s, g, left, inCallback, e.answer, e.env);
        AnswerNext(s, e);
        AggregateInProgress(t, events[1..], g, left - {e.answer.media}, inCallback, end, endCallback);
      } else if e.Returned? && s.frame.Some? && s.frame.value.request == g.req {
        ReturnGathers(s, g, left);
        ReturnSession(y, s, g);
        SessionBelow(s, t, g.session);
        AggregateInProgress(t, events[1..], g, left, false, end, endCallback);
      } else {
        UnrelatedUntouched(s, e, g.req, g.session);
        UnrelatedSame(s, e, g.req, g.session);
        OthersGather(s, t, g, left, inCallback);
        SameOver(y, s, t, g);
        AggregateInProgress(t, events[1..], g, left, inCallback, end, endCallback);
      }
    }
  }

  /** A TEARDOWN that leaves medias ends its operation as well: the rest of the session can be torn down by force. */
  lemma TeardownEnds(s: Server, conn: Id, deadline: nat, sid: string, path: Option<string>, env: Env, range: Range, scale: real, events: seq<Event>)
    requires Invariant(s) && s.frame.None? && Target(s, sid).Some?
    requires var x := Target(s, sid).value;
             var medias := Find(s.sessions, x).value.medias;
             var fan := FanOut(medias, medias, path);
             var t := BeginTeardown(s, conn, deadline, sid, path, env);
             && fan != [] && BeginlessRun(t, events, x)
             && AnswerRun(t, events, Gather(s.next, x, Teardown, Ids(fan), range, scale), Ids(fan), true, {}, false)
    ensures var x := Target(s, sid).value; var t := After(BeginTeardown(s, conn, deadline, sid, path, env), events);
            (Find(t.sessions, x).Some? ==> Find(t.sessions, x).value.op == Unknown) && TakenByForce(t, x)
  {
    hide Structure, Gathering, AnswerRun, BeginlessRun, BeginTeardown;
    var x := Target(s, sid).value;
    var y := Find(s.sessions, x).value;
    var fan := FanOut(y.medias, y.medias, path);
    var u := BeginTeardown(s, conn, deadline, sid, path, env);
    var g := Gather(s.next, x, Teardown, Ids(fan), range, scale);
    TeardownGathers(s, conn, deadline, sid, path, env, range, scale);
    TeardownKeeps(s, conn, deadline, sid, path, env);
    SessionKnown(s, x);
    RunKeeps(u, events, g, g.medias, true, {}, false);
    OverAtTheEnd(y, u, events, g, g.medias, true);
    IdleTaken(After(u, events), x);
  }

  // --- any answer, and any run after it ---

  /** No operation is in progress on the session, if it is there. */
  ghost predicate OpIdle(s: Server, x: Id) { Find(s.sessions, x).Some? ==> Find(s.sessions, x).value.op == Unknown }

  ghost predicate IdleKept(s: Server, t: Server, x: Id) { OpIdle(s, x) ==> OpIdle(t, x) }

  lemma SameIdle(s: Server, t: Server, x: Id)
    requires SessionSame(s, t, x)
    ensures IdleKept(s, t, x)
  {
  }

  lemma IdleThen(s: Server, t: Server, u: Server, x: Id)
    requires IdleKept(s, t, x) && IdleKept(t, u, x)
    ensures IdleKept(s, u, x)
  {
  }

  lemma FinishIdle(s: Server, verb: Verb, req: Id, sess: Option<Id>, x: Id)
    requires Structure(s)
    ensures var t := Finish(s, verb, req, sess);
            && IdleKept(s, t, x)
            && (sess == Some(x) && Find(s.pending, req).Some? && Find(t.pending, req).None? ==> OpIdle(t, x))
  {
    hide Structure, Conclude, SessionSame;
    if Find(s.pending, req).Some? {
      var q := Find(s.pending, req).value.(replied := true);
      RequestIsOk(s, req);
      SetRequestKeeps(s, req, q);
      var t := SetRequest(s, req, q);
      if sess == Some(x) {
        ConcludeOver(t, verb, req, x);
      } else {
        ConcludeStays(t, verb, req, sess, x);
        SameIdle(t, Conclude(t, verb, req, sess), x);
      }
    }
  }

  /** The reply keeps an idle session idle; when it ends its request, the session it names is idle. */
  ghost predicate EndsIdle(s: Server, t: Server, req: Id, sess: Option<Id>, x: Id) {
    IdleKept(s, t, x) && (sess == Some(x) && Find(s.pending, req).Some? && Find(t.pending, req).None? ==> OpIdle(t, x))
  }

  lemma FinishEnds(s: Server, t: Server, verb: Verb, req: Id, sess: Option<Id>, x: Id)
    requires Structure(t) && IdleKept(s, t, x) && (Find(s.pending, req).Some? ==> Find(t.pending, req).Some?)
    ensures EndsIdle(s, Finish(t, verb, req, sess), req, sess, x)
  {
    hide Structure, Finish, OpIdle;
    FinishIdle(t, verb, req, sess, x);
    IdleThen(s, t, Finish(t, verb, req, sess), x);
  }

  lemma AnswerEnds(s: Server, req: Id, status: int, sent: bool, verb: Verb, sess: Option<Id>, x: Id)
    requires Structure(s)
    ensures EndsIdle(s, Finish(Sent(s, req, status, sent), verb, req, sess), req, sess, x)
    ensures sess.Some? ==> EndsIdle(s, Finish(SetupFailed(Sent(s, req, status, sent), sess.value), verb, req, sess), req, sess, x)
  {
    hide Structure, Finish, EndsIdle;
    var t := Sent(s, req, status, sent);
    SentKeeps(s, req, status, sent);
    FinishEnds(s, t, verb, req, sess, x);
    if sess.Some? {
      SetupFailedKeeps(t, sess.value);
      FinishEnds(s, SetupFailed(t, sess.value), verb, req, sess, x);
    }
  }

  lemma SingleEnds(s: Server, req: Id, status: int, valid: bool, env: Env, x: Id)
    requires Structure(s)
    ensures EndsIdle(s, ReplySingle(s, req, status, valid, env).0, req, None, x)
  {
    hide Structure, Finish;
    if Find(s.pending, req).Some? {
      var verb := Find(s.pending, req).value.verb;
      AnswerEnds(s, req, status, false, verb, None, x);
      AnswerEnds(s, req, status, env.errorSent, verb, None, x);
      AnswerEnds(s, req, status, env.sent, verb, None, x);
      AnswerEnds(s, req, STATUS_INTERNAL_SERVER_ERROR, env.errorSent, verb, None, x);
    }
  }

  lemma SetupEnds(s: Server, req: Id, sess: Id, status: int, ports: bool, env: Env, x: Id)
    requires Structure(s)
    ensures EndsIdle(s, ReplySetup(s, req, sess, status, ports, env).0, req, Some(sess), x)
  {
    hide Structure, Finish, SetupFailed, EndsIdle;
    if Find(s.pending, req).Some? {
      AnswerEnds(s, req, status, false, Setup, Some(sess), x);
      AnswerEnds(s, req, status, true, Setup, Some(sess), x);
      AnswerEnds(s, req, status, env.errorSent, Setup, Some(sess), x);
      AnswerEnds(s, req, STATUS_INTERNAL_SERVER_ERROR, env.errorSent, Setup, Some(sess), x);
    } else {
      NothingEnds(s, req, Some(sess), x);
    }
  }

  lemma NothingEnds(s: Server, req: Id, sess: Option<Id>, x: Id)
    ensures Find(s.pending, req).None? ==> EndsIdle(s, s, req, sess, x)
    ensures IdleKept(s, s, x)
  {
  }

  lemma RejectEnds(s: Server, t: Server, req: Id, a: Answer, status: int, env: Env, x: Id)
    requires Structure(t) && IdleKept(s, t, x) && Find(t.pending, req).Some?
    ensures EndsIdle(s, Reject(t, req, a, status, env), req, Some(a.session), x)
  {
    hide Structure, Finish, EndsIdle;
    SentKeeps(t, req, status, true);
    FinishEnds(s, ErrorResponse(t, req, status, env), a.kind, req, Some(a.session), x);
  }

  lemma AcceptEnds(s: Server, t: Server, req: Id, q: Request, y: Session, a: Answer, env: Env, x: Id)
    requires Structure(t) && IdleKept(s, t, x) && Find(t.pending, req) == Some(q) && Find(t.sessions, a.session) == Some(y)
    ensures EndsIdle(s, Accept(t, req, q, y, a, env).0, req, Some(a.session), x)
  {
    hide Structure, Finish, Reject, OpIdle;
    var p := q.(medias := Put(q.medias, a.media, true));
    AnsweredOk(t, req, q, a.media);
    SetRequestKeeps(t, req, p);
    var u := SetRequest(t, req, p);
    if CountAnswered(p.medias) == p.mediaCount {
      PlayingKeeps(u, a.session, y, a.kind);
      var v := u.(sessions := Put(u.sessions, a.session, SetPlaying(y, a.kind)));
      PlayingIdle(u, a.session, y, a.kind, x);
      SameAs(t, u, x);
      SameIdle(t, u, x);
      IdleThen(s, t, u, x);
      IdleThen(s, u, v, x);
      RejectEnds(s, v, req, a, STATUS_INTERNAL_SERVER_ERROR, env, x);
      SentKeeps(v, req, a.status, env.sent);
      SameAs(v, Sent(v, req, a.status, env.sent), x);
      SameIdle(v, Sent(v, req, a.status, env.sent), x);
      IdleThen(s, v, Sent(v, req, a.status, env.sent), x);
      FinishEnds(s, Sent(v, req, a.status, env.sent), a.kind, req, Some(a.session), x);
    } else {
      SameAs(t, u, x);
      SameIdle(t, u, x);
      IdleThen(s, t, u, x);
    }
  }

  lemma PlayingIdle(u: Server, sess: Id, y: Session, kind: Verb, x: Id)
    requires Find(u.sessions, sess) == Some(y)
    ensures IdleKept(u, u.(sessions := Put(u.sessions, sess, SetPlaying(y, kind))), x)
  {
    FindPut(u.sessions, sess, SetPlaying(y, kind), x);
  }

  lemma TakenIdle(s: Server, req: Id, q: Request, y: Session, a: Answer, x: Id)
    requires Structure(s) && Find(s.pending, req) == Some(q) && Find(s.sessions, a.session) == Some(y)
    ensures IdleKept(s, Taken(s, req, q, y, a), x)
  {
    hide Structure, Taken;
    TakenKeeps(s, req, q, y, a);
  }

  lemma MediaEnds(s: Server, req: Id, a: Answer, env: Env, x: Id)
    requires Structure(s)
    ensures EndsIdle(s, ReplyMedia(s, req, a, env).0, req, Some(a.session), x)
  {
    hide Structure, Finish, Reject, Accept, Taken, OpIdle;
    NothingEnds(s, req, Some(a.session), x);
    match (Find(s.pending, req), Find(s.sessions, a.session))
    case (None, _) =>
    case (_, None) =>
    case (Some(q), Some(y)) =>
      FinishEnds(s, s, a.kind, req, Some(a.session), x);
      RejectEnds(s, s, req, a, a.status, env, x);
      RejectEnds(s, s, req, a, STATUS_INTERNAL_SERVER_ERROR, env, x);
      TakenKeeps(s, req, q, y, a);
      TakenIdle(s, req, q, y, a, x);
      var t := Taken(s, req, q, y, a);
      RejectEnds(s, t, req, a, STATUS_INTERNAL_SERVER_ERROR, env, x);
      AcceptEnds(s, t, req, NotFirst(q, a), TakeRange(q, y, a), a, env, x);
  }

  lemma HandlerEnds(s: Server, req: Id, sess: Option<Id>, x: Id)
    requires Invariant(s) && s.frame == Some(Frame(req, sess))
    ensures EndsIdle(s, HandlerReturned(s, req, sess), req, sess, x)
  {
    hide Structure, Conclude, SessionSame;
    var t := s.(frame := None);
    FrameFree(s, None);
    RequestIsOk(t, req);
    var q := Find(t.pending, req).value;
    var p := q.(inCallback := false, firstReply := q.firstReply || q.verb in {Play, Pause, Record});
    SetRequestKeeps(t, req, p);
    if q.replied {
      if sess == Some(x) {
        ConcludeOver(SetRequest(t, req, p), q.verb, req, x);
      } else {
        ConcludeStays(SetRequest(t, req, p), q.verb, req, sess, x);
        SameIdle(SetRequest(t, req, p), Conclude(SetRequest(t, req, p), q.verb, req, sess), x);
      }
    }
  }

  lemma ForcedIdle(s: Server, sid: string, path: Option<string>, x: Id)
    requires Structure(s)
    ensures IdleKept(s, ForceTeardown(s, sid, path).0, x)
  {
    hide Structure, RemoveMedia, RemoveSession, SessionSame;
    SameAs(s, s, x);
    SameIdle(s, s, x);
    if FindSid(s.sessions, sid) == Some(x) {
      RemoveSessionKeeps(s, x);
      var y := Find(s.sessions, x);
      if y.Some? && path.Some? && FindPath(y.value.medias, path.value).Some? {
        DropIdle(s, x, FindPath(y.value.medias, path.value).value);
      }
    } else {
      ForcedSame(s, sid, path, x);
      SameIdle(s, ForceTeardown(s, sid, path).0, x);
    }
  }

  lemma DropIdle(s: Server, x: Id, m: Id)
    ensures IdleKept(s, RemoveMedia(s, x, m), x)
  {
    if Find(s.sessions, x).Some? {
      var y := Find(s.sessions, x).value;
      FindPut(s.sessions, x, y.(medias := Remove(y.medias, m), mediaCount := y.mediaCount - 1), x);
    }
  }

  lemma RemovalIdle(s: Server, sess: Id, x: Id)
    requires Structure(s)
    ensures IdleKept(s, RemoveSession(s, sess), x)
  {
    hide Structure, RemoveSession;
    RemoveSessionKeeps(s, sess);
  }

  /** Whatever happens, only a request on the session puts an operation in progress. */
  lemma IdleStays(s: Server, e: Event, x: Id)
    requires Invariant(s) && Enabled(s, e) && Beginless(s, e, x) && x < s.next && OpIdle(s, x)
    ensures OpIdle(Step(s, e), x)
  {
    hide Structure, CallbackOk, BeginSetup, BeginAggregate, BeginTeardown, HandlerReturned, ReplySingle, ReplySetup, BeginSingle,
         ReplyMedia, Sweep, Disconnect, RemoveSession, ForceTeardown, SessionSame, Fail, EnterCallback, AddRequest, Immediate, OpIdle;
    var t := Step(s, e);
    SameAs(s, s, x);
    match e
    case SetupRequest(conn, deadline, known, newSid, target, env) =>
      SetupSame(s, conn, deadline, known, newSid, target, env, x);
      SameIdle(s, t, x);
    case AggregateRequest(conn, verb, deadline, sid, env) =>
      AggregateSame(s, conn, verb, deadline, sid, env, x);
      SameIdle(s, t, x);
    case TeardownRequest(conn, deadline, sid, path, env) =>
      OtherTeardownSame(s, conn, deadline, sid, path, env, x);
      SameIdle(s, t, x);
    case Returned => ReturnedIdle(s, x);
    case SingleReply(req, status, valid, env) => SingleEnds(s, req, status, valid, env, x);
    case SetupReply(req, sess, status, ports, env) => SetupEnds(s, req, sess, status, ports, env, x);
    case MediaReply(req, a, env) => MediaEnds(s, req, a, env, x);
    case SessionTimeout(sess) => RemovalIdle(s, sess, x);
    case IdleRemoval(sess) => RemovalIdle(s, sess, x);
    case Forced(sid, path) => ForcedIdle(s, sid, path, x);
    case _ =>
      OtherSame(s, e, x);
      SameIdle(s, t, x);
  }

  lemma OtherSame(s: Server, e: Event, x: Id)
    requires e.Ignored? || e.Rejected? || e.Answered? || e.SingleRequest? || e.TimerTick? || e.Disconnected?
    ensures SessionSame(s, Step(s, e), x)
  {
    hide SessionSame, AddRequest, Fail, Immediate, BeginSingle, Sweep, Disconnect;
    match e
    case Ignored(conn, verb, deadline) => PlainSame(s, conn, verb, deadline, OK, Env(true, true, true), x);
    case Rejected(conn, verb, deadline, status, env) => PlainSame(s, conn, verb, deadline, status, env, x);
    case Answered(conn, verb, deadline, env) => PlainSame(s, conn, verb, deadline, OK, env, x);
    case SingleRequest(conn, verb, deadline) => PlainSame(s, conn, verb, deadline, OK, Env(true, true, true), x);
    case TimerTick(now, unsendable) =>
      SweepSame(s, Order(s.pending), now, unsendable);
      SameAs(s, Step(s, e), x);
    case Disconnected(conn) => SameAs(s, Step(s, e), x);
  }

  lemma ReturnedIdle(s: Server, x: Id)
    requires Invariant(s) && s.frame.Some?
    ensures IdleKept(s, CallbackReturned(s), x)
  {
    hide Structure, HandlerReturned, OpIdle;
    match s.frame.value
    case Frame(req, sess) => HandlerEnds(s, req, sess, x);
    case TimingOut(req, rest, now, unsendable) =>
      SweepSame(RemoveRequest(s, req), rest, now, unsendable);
      SameAs(s, CallbackReturned(s), x);
      SameIdle(s, CallbackReturned(s), x);
  }

  /** A reply for the session, or the return of the callbacks of its request. */
  predicate EndsFor(s: Server, e: Event, r: Id, x: Id) {
    match e
    case SetupReply(req, sess, _, _, _) => req == r && sess == x
    case MediaReply(req, a, _) => req == r && a.session == x
    case Returned => s.frame == Some(Frame(r, Some(x)))
    case _ => false
  }

  /**
    However a SETUP, PLAY, PAUSE, RECORD or TEARDOWN is answered, with success or not: once it has left the pending list,
    its callbacks over, no operation is in progress on its session, and as long as no other request begins on it, the
    next forced teardown succeeds and removes it.
   */
  lemma OperationEnds(s: Server, e: Event, events: seq<Event>, r: Id, x: Id)
    requires Invariant(s) && Enabled(s, e) && EndsFor(s, e, r, x) && x < s.next
    requires Find(s.pending, r).Some? && Find(Step(s, e).pending, r).None?
    requires Run(Step(s, e), events) && BeginlessRun(Step(s, e), events, x)
    ensures OpIdle(After(Step(s, e), events), x) && TakenByForce(After(Step(s, e), events), x)
  {
    hide Structure, CallbackOk, ReplySetup, ReplyMedia, HandlerReturned, OpIdle, BeginlessRun, Run;
    match e {
      case SetupReply(req, sess, status, ports, env) => SetupEnds(s, req, sess, status, ports, env, x);
      case MediaReply(req, a, env) => MediaEnds(s, req, a, env, x);
      case Returned => HandlerEnds(s, r, Some(x), x);
    }
    StepKeeps(s, e);
    EndingNext(s, e, r, x);
    IdleInRun(Step(s, e), events, x);
    IdleIsTaken(After(Step(s, e), events), x);
  }

  lemma IdleIsTaken(s: Server, x: Id)
    requires Invariant(s) && OpIdle(s, x)
    ensures TakenByForce(s, x)
  {
    hide Structure;
    IdleTaken(s, x);
  }

  lemma EndingNext(s: Server, e: Event, r: Id, x: Id)
    requires Invariant(s) && Enabled(s, e) && EndsFor(s, e, r, x)
    ensures Step(s, e).next == s.next
  {
    hide Structure, CallbackOk, ReplySetup, ReplyMedia, HandlerReturned;
    match e {
      case SetupReply(req, sess, status, ports, env) => SetupReplyKeeps(s, req, sess, status, ports, env);
      case MediaReply(req, a, env) => MediaReplyKeeps(s, req, a, env);
      case Returned => HandlerNext(s, r, x);
    }
  }

  lemma HandlerNext(s: Server, r: Id, x: Id)
    requires Invariant(s) && s.frame == Some(Frame(r, Some(x)))
    ensures CallbackReturned(s).next == s.next
  {
    SessionBelow(s, CallbackReturned(s), x);
  }

  lemma {:induction false} IdleInRun(s: Server, events: seq<Event>, x: Id)
    requires Invariant(s) && OpIdle(s, x) && x < s.next && Run(s, events) && BeginlessRun(s, events, x)
    ensures Invariant(After(s, events)) && OpIdle(After(s, events), x)
    decreases |events|
  {
    hide Invariant, OpIdle, Enabled, Beginless, Step;
    if events != [] {
      StepKeeps(s, events[0]);
      IdleStays(s, events[0], x);
      NextNeverFalls(s, events[0]);
      IdleInRun(Step(s, events[0]), events[1..], x);
    }
  }

  lemma NextNeverFalls(s: Server, e: Event)
    requires Invariant(s) && Enabled(s, e)
    ensures s.next <= Step(s, e).next
  {
    hide Structure, CallbackOk, ReplyEffect, BeginSetup, BeginAggregate, BeginTeardown, HandlerReturned, ReplySingle, ReplySetup,
         ReplyMedia, Sweep, Disconnect, RemoveSession, ForceTeardown;
    match e
    case SetupRequest(conn, deadline, known, newSid, target, env) => SetupKeeps(s, conn, deadline, known, newSid, target, env);
    case AggregateRequest(conn, verb, deadline, sid, env) => AggregateKeeps(s, conn, verb, deadline, sid, env);
    case TeardownRequest(conn, deadline, sid, path, env) => TeardownKeeps(s, conn, deadline, sid, path, env);
    case Returned =>
      match s.frame.value {
        case Frame(req, sess) => SessionBelow(s, CallbackReturned(s), 0);
        case TimingOut(req, rest, now, unsendable) => SweepSame(RemoveRequest(s, req), rest, now, unsendable);
      }
    case SingleReply(req, status, valid, env) => EffectNext(s, Step(s, e), req, e);
    case SetupReply(req, sess, status, ports, env) => EffectNext(s, Step(s, e), req, e);
    case MediaReply(req, a, env) => EffectNext(s, Step(s, e), req, e);
    case TimerTick(now, unsendable) => SweepSame(s, Order(s.pending), now, unsendable);
    case SessionTimeout(sess) => RemovalSame(s, sess, sess + 1);
    case IdleRemoval(sess) => RemovalSame(s, sess, sess + 1);
    case Forced(sid, path) => ForcedKeeps(s, sid, path);
    case _ =>
  }

  lemma EffectNext(s: Server, t: Server, req: Id, e: Event)
    requires Structure(s) && t == Step(s, e) && (e.SingleReply? || e.SetupReply? || e.MediaReply?)
    ensures t.next == s.next
  {
    hide Structure, ReplySingle, ReplySetup, ReplyMedia;
    match e
    case SingleReply(q, status, valid, env) => SingleReplyKeeps(s, q, status, valid, env);
    case SetupReply(q, sess, status, ports, env) => SetupReplyKeeps(s, q, sess, status, ports, env);
    case MediaReply(q, a, env) => MediaReplyKeeps(s, q, a, env);
  }

  /**
    A request that ends by its timeout does not end its operation: all sessions stay as they are, so that one with an
    operation in progress goes on refusing every forced teardown.
   */
  lemma TimeoutKeepsOperation(s: Server, x: Id)
    requires Invariant(s) && s.frame.Some? && s.frame.value.TimingOut?
    ensures var t := Step(s, Returned);
            && t.sessions == s.sessions && Find(t.pending, s.frame.value.request).None?
            && (Find(s.sessions, x).Some? && Find(s.sessions, x).value.op != Unknown ==> ForceRefused(t, x))
  {
    hide Structure;
    var f := s.frame.value;
    SweepSame(RemoveRequest(s, f.request), f.rest, f.now, f.unsendable);
    RemoveRequestKeeps(s, f.request);
    if Find(s.sessions, x).Some? && Find(s.sessions, x).value.op != Unknown {
      BusyRefused(Step(s, Returned), x);
    }
  }
}
