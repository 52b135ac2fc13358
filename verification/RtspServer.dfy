/**
  The server object. Each method follows one function of the C code, with its list walks and in-place
  updates, and is tied to the function of `ServerState` that says what it does.
 */
module RtspServer {
  import opened Wrappers
  import opened Lists
  import opened ServerState

  class RtspServer {
    var sessions: List<Session>
    var sessionCount: int
    var pending: List<Request>
    var pendingCount: int
    var timers: set<Id>
    var idle: set<Id>
    var log: seq<Response>
    var next: Id
    var frame: Option<Frame>

    ghost function Value(): Server
      reads this
    {
      Server(sessions, sessionCount, pending, pendingCount, timers, idle, log, next, frame)
    }

    constructor ()
      ensures Value() == Initial()
    {
      sessions, sessionCount, pending, pendingCount := [], 0, [], 0;
      timers, idle, log, next, frame := {}, {}, [], 1, None;
    }

    // --- pending requests (src/rtsp_server_request.c) ---

    /** `rtsp_server_pending_request_add` */
    method PendingRequestAdd(conn: Id, verb: Verb, deadline: nat) returns (request: Id)
      modifies this
      ensures Value() == AddRequest(old(Value()), conn, verb, deadline) && request == old(next)
    {
      request := next;
      next := next + 1;
      pending := pending + [Node(request, Request(Some(conn), verb, deadline, true, false, false, 0, []))];
      pendingCount := pendingCount + 1;
    }

    /** `rtsp_server_pending_request_remove` */
    method PendingRequestRemove(request: Id) returns (ret: Ret)
      modifies this
      ensures Value() == RemoveRequest(old(Value()), request)
      ensures ret == if Has(old(pending), request) then Code(OK) else Code(ENOENT)
    {
      var at := Walk(pending, request);
      if at.None? {
        return Code(ENOENT);
      }
      pending := pending[..at.value] + pending[at.value + 1..];
      pendingCount := pendingCount - 1;
      return Code(OK);
    }

    // --- sessions (src/rtsp_server_session.c) ---

    /** `rtsp_server_session_find`: the first session that agrees on the significant characters. */
    method SessionFind(sid: string) returns (sess: Option<Id>)
      ensures sess == FindSid(sessions, sid)
    {
      for i := 0 to |sessions|
        invariant FindSid(sessions, sid) == FindSid(sessions[i..], sid)
      {
        assert sessions[i..][1..] == sessions[i + 1..];
        if Significant(sessions[i].val.sid) == Significant(sid) {
          return Some(sessions[i].id);
        }
      }
      return None;
    }

    /** `rtsp_server_session_add`: draws ids until one is not taken. */
    method SessionAdd(draws: seq<string>) returns (sess: Id, sid: string)
      requires exists d :: d in draws && FindSid(sessions, d).None?
      modifies this
      ensures Value() == AddSession(old(Value()), sid) && sess == old(next)
      ensures sid in draws && FindSid(old(sessions), sid).None?
    {
      var i := 0;
      var found := true;
      sid := "";
      while found
        invariant i <= |draws| && sessions == old(sessions) && Value() == old(Value())
        invariant found ==> forall j :: 0 <= j < i ==> FindSid(sessions, draws[j]).Some?
        invariant !found ==> sid in draws && FindSid(sessions, sid).None?
        decreases found, |draws| - i
      {
        sid := draws[i];
        i := i + 1;
        var other := SessionFind(sid);
        found := other.Some?;
      }
      sess := next;
      next := next + 1;
      timers := timers + {sess};
      sessions := sessions + [Node(sess, NewSession(sid))];
      sessionCount := sessionCount + 1;
    }

    /** `rtsp_server_session_remove`, also run by the session timer and by the queued idle removal. */
    method SessionRemove(sess: Id) returns (ret: Ret)
      modifies this
      ensures Value() == RemoveSession(old(Value()), sess)
      ensures ret == if Has(old(sessions), sess) then Code(OK) else Code(ENOENT)
    {
      var at := Walk(sessions, sess);
      if at.None? {
        return Code(ENOENT);
      }
      sessions := sessions[..at.value] + sessions[at.value + 1..];
      sessionCount := sessionCount - 1;
      timers := timers - {sess};
      idle := idle - {sess};
      return Code(OK);
    }

    /** `rtsp_server_session_media_find` */
    method SessionMediaFind(medias: List<Media>, path: string) returns (media: Option<Id>)
      ensures media == FindPath(medias, path)
    {
      for i := 0 to |medias|
        invariant FindPath(medias, path) == FindPath(medias[i..], path)
      {
        assert medias[i..][1..] == medias[i + 1..];
        if medias[i].val.path == path {
          return Some(medias[i].id);
        }
      }
      return None;
    }

    /** `rtsp_server_session_media_add`: nothing for a path the session already has. */
    method SessionMediaAdd(sess: Id, path: string) returns (media: Option<Id>)
      requires Has(sessions, sess)
      modifies this
      ensures var x := Find(old(sessions), sess).value;
              if FindPath(x.medias, path).Some? then media.None? && Value() == old(Value())
              else media == Some(old(next)) && Value() == AddMedia(old(Value()), sess, path)
    {
      var at := Walk(sessions, sess);
      var x := sessions[at.value].val;
      var known := SessionMediaFind(x.medias, path);
      if known.Some? {
        return None;
      }
      media := Some(next);
      sessions := Put(sessions, sess, x.(medias := x.medias + [Node(next, Media(path, false))], mediaCount := x.mediaCount + 1));
      next := next + 1;
    }

    /** `rtsp_server_session_media_remove` */
    method SessionMediaRemove(sess: Id, media: Id) returns (ret: Ret)
      requires Has(sessions, sess)
      modifies this
      ensures Value() == RemoveMedia(old(Value()), sess, media)
    {
      var at := Walk(sessions, sess);
      var x := sessions[at.value].val;
      var i := Walk(x.medias, media);
      if i.None? {
        return Code(ENOENT);
      }
      var medias := x.medias[..i.value] + x.medias[i.value + 1..];
      sessions := Put(sessions, sess, x.(medias := medias, mediaCount := x.mediaCount - 1));
      return Code(OK);
    }

    // --- responses ---

    /** `error_response` */
    method RespondWithError(request: Id, status: int, env: Env)
      modifies this
      ensures Value() == ErrorResponse(old(Value()), request, status, env)
    {
      var at := Walk(pending, request);
      if at.Some? && pending[at.value].val.conn.Some? && env.errorSent {
        log := log + [Response(request, status)];
      }
    }

    method SetOpInProgress(sess: Option<Id>, op: Verb)
      modifies this
      ensures Value() == SetOp(old(Value()), sess, op)
    {
      if sess.Some? {
        var at := Walk(sessions, sess.value);
        if at.Some? {
          sessions := Put(sessions, sess.value, sessions[at.value].val.(op := op));
        }
      }
    }

    /** The walk over a session's medias after a TEARDOWN: marked ones are unlinked one by one. */
    method RemoveTornDown(sess: Id)
      modifies this
      ensures Value() == RemoveMarked(old(Value()), sess)
    {
      hide RemoveSession, Unmarked;
      var at := Walk(sessions, sess);
      if at.None? {
        return;
      }
      var x := sessions[at.value].val;
      var kept := UnlinkMarked(x.medias);
      sessions := Put(sessions, sess, x.(medias := kept, mediaCount := x.mediaCount - (|x.medias| - |kept|)));
      if kept == [] {
        var ret := SessionRemove(sess);
      }
    }

    method UnlinkMarked(medias: List<Media>) returns (kept: List<Media>)
      ensures kept == Unmarked(medias)
    {
      kept := [];
      for i := 0 to |medias|
        invariant Unmarked(medias) == kept + Unmarked(medias[i..])
      {
        assert medias[i..][1..] == medias[i + 1..];
        var rest := Unmarked(medias[i + 1..]);
        if !medias[i].val.tearingDown {
          assert kept + ([medias[i]] + rest) == kept + [medias[i]] + rest;
          kept := kept + [medias[i]];
        } else {
          assert [] + rest == rest;
        }
      }
      assert medias[|medias|..] == [] && kept + [] == kept;
    }

    /** A settled request outside its callback: the operation is over, the request leaves the list. */
    method ConcludeRequest(verb: Verb, request: Id, sess: Option<Id>)
      modifies this
      ensures Value() == Conclude(old(Value()), verb, request, sess)
    {
      SetOpInProgress(sess, Unknown);
      var ret := PendingRequestRemove(request);
      if verb == Teardown && sess.Some? {
        RemoveTornDown(sess.value);
      }
    }

    /** The common exit of the reply functions. */
    method FinishReply(verb: Verb, request: Id, sess: Option<Id>)
      modifies this
      ensures Value() == Finish(old(Value()), verb, request, sess)
    {
      var at := Walk(pending, request);
      if at.None? {
        return;
      }
      var q := pending[at.value].val;
      pending := Put(pending, request, q.(replied := true));
      if !q.inCallback {
        ConcludeRequest(verb, request, sess);
      }
    }

    /** `rtsp_server_reply_to_describe`, `rtsp_server_reply_to_announce` */
    method ReplyToSingle(request: Id, status: int, valid: bool, env: Env) returns (ret: Ret)
      modifies this
      ensures (Value(), ret) == ReplySingle(old(Value()), request, status, valid, env)
    {
      var at := Walk(pending, request);
      if at.None? {
        return Code(ENOENT);
      }
      var q := pending[at.value].val;
      var error := 0;
      ret := Code(OK);
      if q.conn.None? {
        ret := Code(ECONNRESET);
      } else if IsError(status) {
        error := status;
      } else if !valid {
        ret, error := Code(EINVAL), STATUS_INTERNAL_SERVER_ERROR;
      } else if !env.built {
        ret, error := Code(EPROTO), STATUS_INTERNAL_SERVER_ERROR;
      } else if env.sent {
        log := log + [Response(request, status)];
      } else {
        ret := Code(SEND_FAILED);
      }
      if error != 0 {
        RespondWithError(request, error, env);
      }
      FinishReply(q.verb, request, None);
    }

    /** `rtsp_server_reply_to_setup` */
    method ReplyToSetup(request: Id, sess: Id, status: int, ports: bool, env: Env) returns (ret: Ret)
      modifies this
      ensures (Value(), ret) == ReplySetup(old(Value()), request, sess, status, ports, env)
    {
      hide Finish, SetupFailed;
      var at := Walk(pending, request);
      if at.None? {
        return Code(ENOENT);
      }
      var q := pending[at.value].val;
      var error := 0;
      var failed := true;
      ret := Code(OK);
      if q.conn.None? {
        ret := Code(ECONNRESET);
      } else if IsError(status) {
        error := status;
      } else if !ports {
        ret, error := Code(EINVAL), STATUS_INTERNAL_SERVER_ERROR;
      } else if !env.built {
        ret, error := Code(EPROTO), STATUS_INTERNAL_SERVER_ERROR;
      } else if !env.sent {
        ret := Code(SEND_FAILED);
      } else {
        failed := false;
        log := log + [Response(request, status)];
      }
      if error != 0 {
        RespondWithError(request, error, env);
      }
      if failed {
        QueueIdleRemoval(sess);
      }
      FinishReply(Setup, request, Some(sess));
    }

    /** A SETUP that failed on the only media of its session. */
    method QueueIdleRemoval(sess: Id)
      modifies this
      ensures Value() == SetupFailed(old(Value()), sess)
    {
      var x := Walk(sessions, sess);
      if x.Some? && sessions[x.value].val.mediaCount == 1 {
        idle := idle + {sess};
      }
    }

    method RejectAnswer(request: Id, a: Answer, status: int, env: Env)
      modifies this
      ensures Value() == Reject(old(Value()), request, a, status, env)
    {
      RespondWithError(request, status, env);
      FinishReply(a.kind, request, Some(a.session));
    }

    /** How many medias of the request were answered. */
    method SumReplied(medias: List<bool>) returns (replied: nat)
      ensures replied == CountAnswered(medias)
    {
      replied := 0;
      for i := 0 to |medias|
        invariant replied + CountAnswered(medias[i..]) == CountAnswered(medias)
      {
        assert medias[i..][1..] == medias[i + 1..];
        replied := replied + if medias[i].val then 1 else 0;
      }
    }

    /** `rtsp_server_reply_to_play`, `_pause`, `_record`, `_teardown` */
    method ReplyToMedia(request: Id, a: Answer, env: Env) returns (ret: Ret)
      modifies this
      ensures (Value(), ret) == ReplyMedia(old(Value()), request, a, env)
    {
      hide Reject, Finish, ErrorResponse;
      var at := Walk(pending, request);
      if at.None? {
        return if a.kind == Record then NullDereference else Code(ENOENT);
      }
      var xAt := Walk(sessions, a.session);
      if xAt.None? {
        return Code(EINVAL);
      }
      var q, x := pending[at.value].val, sessions[xAt.value].val;
      if q.conn.None? {
        FinishReply(a.kind, request, Some(a.session));
        return Code(ECONNRESET);
      }
      if IsError(a.status) {
        RejectAnswer(request, a, a.status, env);
        return Code(OK);
      }
      if a.kind != Teardown && a.range.None? {
        RejectAnswer(request, a, STATUS_INTERNAL_SERVER_ERROR, env);
        return Code(EINVAL);
      }
      var mAt := Walk(q.medias, a.media);
      if mAt.None? {
        RejectAnswer(request, a, STATUS_INTERNAL_SERVER_ERROR, env);
        return Code(ENOENT);
      }
      ret := CountAnswer(request, q, x, a, env);
    }

    /** The part of these functions that takes up a successful answer of a media of the request. */
    method CountAnswer(request: Id, q: Request, x: Session, a: Answer, env: Env) returns (ret: Ret)
      modifies this
      ensures (Value(), ret) == Counts(old(Value()), request, q, x, a, env)
    {
      hide Reject, Accept;
      var x', q' := x, q;
      if a.kind != Teardown {
        if q.firstReply && a.range.Some? {
          x' := x'.(range := a.range.value);
          if a.kind == Play {
            x' := x'.(scale := a.scale);
          }
        }
        q' := q'.(firstReply := false);
      }
      sessions := Put(sessions, a.session, x');
      pending := Put(pending, request, q');
      assert Value() == Taken(old(Value()), request, q, x, a);
      if a.kind != Teardown && (a.range != Some(x'.range) || (a.kind == Play && a.scale != x'.scale)) {
        RejectAnswer(request, a, STATUS_INTERNAL_SERVER_ERROR, env);
        return Code(EPROTO);
      }
      ret := AcceptAnswer(request, q', x', a, env);
    }

    /** Counts the answer, and sends the response when it is the last one. */
    method AcceptAnswer(request: Id, q: Request, x: Session, a: Answer, env: Env) returns (ret: Ret)
      modifies this
      ensures (Value(), ret) == Accept(old(Value()), request, q, x, a, env)
    {
      hide Reject, Finish;
      var q' := q.(medias := Put(q.medias, a.media, true));
      pending := Put(pending, request, q');
      var replied := SumReplied(q'.medias);
      if replied != q'.mediaCount {
        return Code(OK);
      }
      sessions := Put(sessions, a.session, SetPlaying(x, a.kind));
      if !env.built {
        RejectAnswer(request, a, STATUS_INTERNAL_SERVER_ERROR, env);
        return Code(EPROTO);
      }
      ret := Code(SEND_FAILED);
      if env.sent {
        log := log + [Response(request, a.status)];
        ret := Code(OK);
      }
      FinishReply(a.kind, request, Some(a.session));
    }

    // --- requests of a client ---

    method FailRequest(request: Id, status: int, env: Env)
      modifies this
      ensures Value() == Fail(old(Value()), request, status, env)
    {
      RespondWithError(request, status, env);
      var ret := PendingRequestRemove(request);
    }

    method Enter(request: Id, medias: List<bool>, sess: Option<Id>)
      modifies this
      ensures Value() == EnterCallback(old(Value()), request, medias, sess)
    {
      var at := Walk(pending, request);
      if at.Some? {
        pending := Put(pending, request, pending[at.value].val.(inCallback := true, medias := medias, mediaCount := |medias|));
        frame := Some(Frame(request, sess));
      }
    }

    /** The session a request addresses, if it has medias. */
    method FindTarget(sid: string) returns (sess: Option<Id>, x: Option<Session>)
      ensures sess == Target(Value(), sid) && (sess.Some? ==> x == Find(sessions, sess.value) && x.Some?)
    {
      sess := SessionFind(sid);
      x := None;
      if sess.Some? {
        var at := Walk(sessions, sess.value);
        if at.None? || sessions[at.value].val.mediaCount == 0 {
          return None, None;
        }
        x := Some(sessions[at.value].val);
      }
    }

    /** `rtsp_server_play`, `rtsp_server_pause`, `rtsp_server_record`, up to the callbacks. */
    method HandleAggregate(conn: Id, verb: Verb, deadline: nat, sid: string, env: Env)
      modifies this
      ensures Value() == BeginAggregate(old(Value()), conn, verb, deadline, sid, env)
    {
      hide Fail, EnterCallback, SetOp;
      var request := PendingRequestAdd(conn, verb, deadline);
      var sess, x := FindTarget(sid);
      if sess.None? {
        FailRequest(request, STATUS_SESSION_NOT_FOUND, env);
        return;
      }
      SetOpInProgress(sess, verb);
      var fan: List<bool> := [];
      ghost var before := Value();
      for i := 0 to |x.value.medias|
        invariant fan == AllMedias(x.value.medias)[..i] && Value() == before
      {
        fan := fan + [Node(x.value.medias[i].id, false)];
      }
      assert fan == AllMedias(x.value.medias);
      Enter(request, fan, sess);
    }

    /** `rtsp_server_teardown`, up to the callbacks: marks the selected medias while fanning out to them. */
    method HandleTeardown(conn: Id, deadline: nat, sid: string, path: Option<string>, env: Env)
      modifies this
      ensures Value() == BeginTeardown(old(Value()), conn, deadline, sid, path, env)
    {
      hide Fail, EnterCallback;
      var request := PendingRequestAdd(conn, Teardown, deadline);
      var sess, target := FindTarget(sid);
      if sess.None? {
        FailRequest(request, STATUS_SESSION_NOT_FOUND, env);
        return;
      }
      var x := target.value;
      var fan, marked := MarkSelected(x.medias, path);
      sessions := Put(sessions, sess.value, x.(op := Teardown, medias := marked));
      if fan == [] {
        FailRequest(request, ENOENT, env);
      } else {
        Enter(request, fan, sess);
      }
    }

    method MarkSelected(medias: List<Media>, path: Option<string>) returns (fan: List<bool>, marked: List<Media>)
      ensures fan == FanOut(medias, medias, path) && marked == Mark(medias, medias, path)
    {
      var isPrefix := path.None? || path.value == "" || '/' !in path.value;
      var mediaFound := false;
      if path.Some? {
        var m := SessionMediaFind(medias, path.value);
        mediaFound := m.Some?;
      }
      fan, marked := [], [];
      for i := 0 to |medias|
        invariant FanOut(medias, medias, path) == fan + FanOut(medias, medias[i..], path)
        invariant marked == Mark(medias, medias, path)[..i]
      {
        var m := medias[i];
        assert medias[i..][1..] == medias[i + 1..];
        var rest := FanOut(medias, medias[i + 1..], path);
        if (mediaFound && path.value != m.val.path) || (!mediaFound && isPrefix && path.Some? && !(path.value <= m.val.path)) {
          assert [] + rest == rest;
          marked := marked + [m];
        } else {
          assert fan + ([Node(m.id, false)] + rest) == fan + [Node(m.id, false)] + rest;
          fan := fan + [Node(m.id, false)];
          marked := marked + [Node(m.id, m.val.(tearingDown := true))];
        }
      }
      assert medias[|medias|..] == [] && fan + [] == fan;
    }

    /** `rtsp_server_setup`, up to the callback. */
    method HandleSetup(conn: Id, deadline: nat, sid: Option<string>, draws: seq<string>, path: string, env: Env)
      returns (newSid: string)
      requires sid.None? ==> exists d :: d in draws && FindSid(sessions, d).None?
      modifies this
      ensures Value() == BeginSetup(old(Value()), conn, deadline, sid, newSid, path, env)
      ensures sid.None? ==> newSid in draws && FindSid(old(sessions), newSid).None?
    {
      hide Fail, EnterCallback;
      newSid := "";
      var request := PendingRequestAdd(conn, Setup, deadline);
      var sess: Option<Id>;
      if sid.None? {
        var id;
        id, newSid := SessionAdd(draws);
        sess := Some(id);
      } else {
        sess := SessionFind(sid.value);
        if sess.None? {
          FailRequest(request, STATUS_SESSION_NOT_FOUND, env);
          return;
        }
      }
      var at := Walk(sessions, sess.value);
      if at.None? {
        FailRequest(request, EPROTO, env);
        return;
      }
      var media := SessionMediaAdd(sess.value, path);
      if media.None? {
        FailRequest(request, EPROTO, env);
        return;
      }
      SetOpInProgress(sess, Setup);
      Enter(request, [], sess);
    }

    /** The end of a handler, once the application's callbacks have returned. */
    method HandlerReturns(request: Id, sess: Option<Id>)
      modifies this
      ensures Value() == HandlerReturned(old(Value()), request, sess)
    {
      hide Conclude;
      frame := None;
      var at := Walk(pending, request);
      if at.None? {
        return;
      }
      var q := pending[at.value].val;
      var first := q.firstReply;
      if q.verb == Play || q.verb == Pause || q.verb == Record {
        first := true;
      }
      pending := Put(pending, request, q.(inCallback := false, firstReply := first));
      if q.replied {
        ConcludeRequest(q.verb, request, sess);
      }
    }

    // --- events of the loop ---

    /** `rtsp_server_timer_cb`, from one request of the walk to the callback for the next expired one. */
    method WalkOn(walk: seq<Id>, now: nat, unsendable: set<Id>)
      modifies this
      ensures Value() == Sweep(old(Value()), walk, now, unsendable)
    {
      for i := 0 to |walk|
        invariant Value() == old(Value())
        invariant Sweep(Value(), walk[i..], now, unsendable) == Sweep(old(Value()), walk, now, unsendable)
      {
        assert walk[i..][1..] == walk[i + 1..];
        var at := Walk(pending, walk[i]);
        if at.Some? && pending[at.value].val.deadline > 0 && now > pending[at.value].val.deadline {
          RespondWithError(walk[i], STATUS_INTERNAL_SERVER_ERROR, Env(true, true, walk[i] !in unsendable));
          frame := Some(TimingOut(walk[i], walk[i + 1..], now, unsendable));
          return;
        }
      }
      frame := None;
    }

    /** `rtsp_server_timer_cb`: a walk over the pending requests that calls back for each expired one. */
    method TimerExpired(now: nat, unsendable: set<Id>)
      modifies this
      ensures Value() == Sweep(old(Value()), Order(old(pending)), now, unsendable)
    {
      var walk := Order(pending);
      WalkOn(walk, now, unsendable);
    }

    /** The return of the callback that is running: that of a handler, or that of the timer, which then removes the request. */
    method Returns()
      modifies this
      ensures Value() == CallbackReturned(old(Value()))
    {
      hide Sweep, HandlerReturned;
      match frame
      case None =>
      case Some(Frame(request, sess)) => HandlerReturns(request, sess);
      case Some(TimingOut(request, rest, now, unsendable)) =>
        var ret := PendingRequestRemove(request);
        WalkOn(rest, now, unsendable);
    }

    /** The disconnection event: the requests of that connection lose it. */
    method ConnectionLost(conn: Id)
      modifies this
      ensures Value() == old(Value()).(pending := Disconnect(old(pending), conn))
    {
      var walked := pending;
      for i := 0 to |walked|
        invariant |pending| == |walked| && Value() == old(Value()).(pending := pending)
        invariant forall j :: 0 <= j < i ==> pending[j] == Disconnect(walked, conn)[j]
        invariant forall j :: i <= j < |walked| ==> pending[j] == walked[j]
      {
        if pending[i].val.conn == Some(conn) {
          pending := pending[i := Node(pending[i].id, pending[i].val.(conn := None))];
        }
      }
      assert pending == Disconnect(walked, conn);
    }

    /** `rtsp_server_force_teardown` */
    method TeardownByForce(sid: string, path: Option<string>) returns (ret: Ret)
      modifies this
      ensures (Value(), ret) == ForceTeardown(old(Value()), sid, path)
    {
      var sess := SessionFind(sid);
      if sess.None? {
        return Code(ENOENT);
      }
      var at := Walk(sessions, sess.value);
      if at.None? {
        return Code(ENOENT);
      }
      var x := sessions[at.value].val;
      var media: Option<Id> := None;
      if path.Some? {
        media := SessionMediaFind(x.medias, path.value);
        if media.None? {
          return Code(ENOENT);
        }
      }
      if x.op == Teardown {
        return Code(EALREADY);
      }
      if x.op != Unknown {
        return Code(EBUSY);
      }
      var done;
      if media.Some? {
        done := SessionMediaRemove(sess.value, media.value);
      } else {
        done := SessionRemove(sess.value);
      }
      return Code(OK);
    }
  }
}
