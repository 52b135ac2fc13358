/**
  The server's request and session state machine: what each operation and each event of the loop does
  (src/rtsp_server.c, src/rtsp_server_request.c, src/rtsp_server_session.c).

  Addresses are identities. What the environment decides (whether a response could be built and sent,
  the time, the session id drawn) comes with the event. `log` is the record of the responses sent.
 */
module ServerState {
  import opened Wrappers
  import opened Lists

  const SESSION_ID_LENGTH := 8

  const ENOENT := -2
  const EBUSY := -16
  const EINVAL := -22
  const ENOSYS := -38
  const EPROTO := -71
  const ECONNRESET := -104
  const EALREADY := -114
  /** Stands for any error of the send call. */
  const SEND_FAILED := -5
  const OK := 0
  const STATUS_SESSION_NOT_FOUND := 454
  const STATUS_INTERNAL_SERVER_ERROR := 500

  datatype Verb = Unknown | Options | Describe | Announce | Setup | Play | Pause | Teardown
                  | GetParameter | SetParameter | Redirect | Record

  datatype Time = NoTime | Npt(now: bool, infinity: bool, sec: nat, usec: nat)
                | Smpte(infinity: bool, sec: nat, frames: nat) | Absolute(infinity: bool, sec: nat, usec: nat)

  /** Equality of ranges is `rtsp_range_cmp`. */
  datatype Range = Range(start: Time, stop: Time, time: nat)

  datatype Media = Media(path: string, tearingDown: bool)

  datatype Session = Session(sid: string, playing: bool, recording: bool, range: Range, scale: real,
                             op: Verb, mediaCount: int, medias: List<Media>)

  /** `medias` lists the medias the request fans out to; the content says whether they were answered. */
  datatype Request = Request(conn: Option<Id>, verb: Verb, deadline: nat, firstReply: bool,
                             inCallback: bool, replied: bool, mediaCount: int, medias: List<bool>)

  datatype Response = Response(request: Id, status: int)

  /**
    The application callbacks that are running: those of a handler, or that of the periodic timer for a request that
    timed out, with what is left of the timer's walk.
   */
  datatype Frame = Frame(request: Id, session: Option<Id>)
                 | TimingOut(request: Id, rest: seq<Id>, now: nat, unsendable: set<Id>)

  datatype Server = Server(sessions: List<Session>, sessionCount: int, pending: List<Request>, pendingCount: int,
                           timers: set<Id>, idle: set<Id>, log: seq<Response>, next: Id, frame: Option<Frame>)

  datatype Env = Env(built: bool, sent: bool, errorSent: bool)

  /** What a call returns, or the access through a null pointer it runs into. */
  datatype Ret = Code(code: int) | NullDereference

  function Initial(): Server { Server([], 0, [], 0, {}, {}, [], 1, None) }

  // --- session ids (src/rtsp_server_session.c:64-97, 188-209) ---

  function Significant(sid: string): string {
    if |sid| <= SESSION_ID_LENGTH then sid else sid[..SESSION_ID_LENGTH]
  }

  function FindSid(l: List<Session>, sid: string): Option<Id> {
    if l == [] then None
    else if Significant(l[0].val.sid) == Significant(sid) then Some(l[0].id)
    else FindSid(l[1..], sid)
  }

  function FindPath(l: List<Media>, path: string): Option<Id> {
    if l == [] then None else if l[0].val.path == path then Some(l[0].id) else FindPath(l[1..], path)
  }

  // --- building blocks ---

  function AddRequest(s: Server, conn: Id, verb: Verb, deadline: nat): Server {
    s.(pending := s.pending + [Node(s.next, Request(Some(conn), verb, deadline, true, false, false, 0, []))],
       pendingCount := s.pendingCount + 1, next := s.next + 1)
  }

  function RemoveRequest(s: Server, req: Id): Server {
    if Has(s.pending, req) then s.(pending := Remove(s.pending, req), pendingCount := s.pendingCount - 1) else s
  }

  function NewSession(sid: string): Session {
    Session(sid, false, false, Range(NoTime, NoTime, 0), 0.0, Unknown, 0, [])
  }

  function AddSession(s: Server, sid: string): Server {
    s.(sessions := s.sessions + [Node(s.next, NewSession(sid))],
       sessionCount := s.sessionCount + 1, timers := s.timers + {s.next}, next := s.next + 1)
  }

  function RemoveSession(s: Server, sess: Id): Server {
    if Has(s.sessions, sess) then
      s.(sessions := Remove(s.sessions, sess), sessionCount := s.sessionCount - 1,
         timers := s.timers - {sess}, idle := s.idle - {sess})
    else s
  }

  function AddMedia(s: Server, sess: Id, path: string): Server {
    match Find(s.sessions, sess)
    case None => s
    case Some(x) =>
      s.(sessions := Put(s.sessions, sess, x.(medias := x.medias + [Node(s.next, Media(path, false))],
                                              mediaCount := x.mediaCount + 1)),
         next := s.next + 1)
  }

  function RemoveMedia(s: Server, sess: Id, media: Id): Server {
    match Find(s.sessions, sess)
    case None => s
    case Some(x) =>
      if !Has(x.medias, media) then s else
      s.(sessions := Put(s.sessions, sess, x.(medias := Remove(x.medias, media), mediaCount := x.mediaCount - 1)))
  }

  function SetRequest(s: Server, req: Id, q: Request): Server { s.(pending := Put(s.pending, req, q)) }

  function SetOp(s: Server, sess: Option<Id>, op: Verb): Server {
    if sess.Some? && Find(s.sessions, sess.value).Some? then
      s.(sessions := Put(s.sessions, sess.value, Find(s.sessions, sess.value).value.(op := op)))
    else s
  }

  function Sent(s: Server, req: Id, status: int, sent: bool): Server {
    if sent then s.(log := s.log + [Response(req, status)]) else s
  }

  /** `error_response`: nothing without a connection. */
  function ErrorResponse(s: Server, req: Id, status: int, env: Env): Server {
    match Find(s.pending, req)
    case None => s
    case Some(q) => Sent(s, req, status, q.conn.Some? && env.errorSent)
  }

  /** The exit of `rtsp_server_request_process` when a handler failed. */
  function Fail(s: Server, req: Id, status: int, env: Env): Server {
    RemoveRequest(ErrorResponse(s, req, status, env), req)
  }

  predicate IsError(status: int) { status < 0 || status / 100 > 2 }

  // --- TEARDOWN (src/rtsp_server.c:723-826, 2752-2775) ---

  predicate IsPrefix(path: Option<string>) { path.None? || '/' !in path.value }

  predicate Named(medias: List<Media>, path: Option<string>) {
    path.Some? && FindPath(medias, path.value).Some?
  }

  /** Whether a TEARDOWN of this path takes the media with it. */
  predicate Selected(medias: List<Media>, path: Option<string>, m: Media) {
    if Named(medias, path) then m.path == path.value
    else if IsPrefix(path) then path.None? || path.value <= m.path
    else true
  }

  function Mark(all: List<Media>, l: List<Media>, path: Option<string>): List<Media> {
    seq(|l|, i requires 0 <= i < |l| => if Selected(all, path, l[i].val) then Node(l[i].id, l[i].val.(tearingDown := true)) else l[i])
  }

  function FanOut(all: List<Media>, l: List<Media>, path: Option<string>): List<bool> {
    if l == [] then []
    else (if Selected(all, path, l[0].val) then [Node(l[0].id, false)] else []) + FanOut(all, l[1..], path)
  }

  function Unmarked(l: List<Media>): List<Media> {
    if l == [] then [] else (if l[0].val.tearingDown then [] else [l[0]]) + Unmarked(l[1..])
  }

  /** Removal of the marked medias, and of the session when none remains. */
  function RemoveMarked(s: Server, sess: Id): Server {
    match Find(s.sessions, sess)
    case None => s
    case Some(x) =>
      var kept := Unmarked(x.medias);
      var t := s.(sessions := Put(s.sessions, sess, x.(medias := kept, mediaCount := x.mediaCount - (|x.medias| - |kept|))));
      if kept == [] then RemoveSession(t, sess) else t
  }

  /** A request that has its answer and is not in a callback leaves the pending list. */
  function Conclude(s: Server, verb: Verb, req: Id, sess: Option<Id>): Server {
    var t := RemoveRequest(SetOp(s, sess, Unknown), req);
    if verb == Teardown && sess.Some? then RemoveMarked(t, sess.value) else t
  }

  function Finish(s: Server, verb: Verb, req: Id, sess: Option<Id>): Server {
    match Find(s.pending, req)
    case None => s
    case Some(q) =>
      var t := SetRequest(s, req, q.(replied := true));
      if q.inCallback then t else Conclude(t, verb, req, sess)
  }

  // --- replies of the application ---

  function CountAnswered(l: List<bool>): nat {
    if l == [] then 0 else (if l[0].val then 1 else 0) + CountAnswered(l[1..])
  }

  /** `rtsp_server_reply_to_describe` and `_announce`; `valid` is false for a missing or oversized description. */
  function ReplySingle(s: Server, req: Id, status: int, valid: bool, env: Env): (Server, Ret) {
    match Find(s.pending, req)
    case None => (s, Code(ENOENT))
    case Some(q) =>
      if q.conn.None? then (Finish(s, q.verb, req, None), Code(ECONNRESET))
      else if IsError(status) then (Finish(ErrorResponse(s, req, status, env), q.verb, req, None), Code(OK))
      else if !valid then (Finish(ErrorResponse(s, req, STATUS_INTERNAL_SERVER_ERROR, env), q.verb, req, None), Code(EINVAL))
      else if !env.built then (Finish(ErrorResponse(s, req, STATUS_INTERNAL_SERVER_ERROR, env), q.verb, req, None), Code(EPROTO))
      else (Finish(Sent(s, req, status, env.sent), q.verb, req, None), Code(if env.sent then OK else SEND_FAILED))
  }

  /** A failed SETUP of the only media of a session queues the removal of that session. */
  function SetupFailed(s: Server, sess: Id): Server {
    match Find(s.sessions, sess)
    case None => s
    case Some(x) => if x.mediaCount == 1 then s.(idle := s.idle + {sess}) else s
  }

  /** `rtsp_server_reply_to_setup`; `ports` is false when a source port is 0. */
  function ReplySetup(s: Server, req: Id, sess: Id, status: int, ports: bool, env: Env): (Server, Ret) {
    match Find(s.pending, req)
    case None => (s, Code(ENOENT))
    case Some(q) =>
      if q.conn.None? then (Finish(SetupFailed(s, sess), Setup, req, Some(sess)), Code(ECONNRESET))
      else if IsError(status) then
        (Finish(SetupFailed(ErrorResponse(s, req, status, env), sess), Setup, req, Some(sess)), Code(OK))
      else if !ports then
        (Finish(SetupFailed(ErrorResponse(s, req, STATUS_INTERNAL_SERVER_ERROR, env), sess), Setup, req, Some(sess)), Code(EINVAL))
      else if !env.built then
        (Finish(SetupFailed(ErrorResponse(s, req, STATUS_INTERNAL_SERVER_ERROR, env), sess), Setup, req, Some(sess)), Code(EPROTO))
      else if !env.sent then (Finish(SetupFailed(s, sess), Setup, req, Some(sess)), Code(SEND_FAILED))
      else (Finish(Sent(s, req, status, true), Setup, req, Some(sess)), Code(OK))
  }

  /** The application's answer for one media of a PLAY, PAUSE, RECORD or TEARDOWN. */
  datatype Answer = Answer(kind: Verb, session: Id, media: Id, status: int, range: Option<Range>, scale: real)

  function Reject(s: Server, req: Id, a: Answer, status: int, env: Env): Server {
    Finish(ErrorResponse(s, req, status, env), a.kind, req, Some(a.session))
  }

  /** The first answer fixes the range, and for PLAY the scale, of the session. */
  function TakeRange(q: Request, x: Session, a: Answer): Session {
    if !q.firstReply || a.kind == Teardown || a.range.None? then x
    else if a.kind == Play then x.(range := a.range.value, scale := a.scale)
    else x.(range := a.range.value)
  }

  function SetPlaying(x: Session, kind: Verb): Session {
    match kind
    case Play => x.(playing := true)
    case Record => x.(recording := true)
    case Pause => x.(playing := false, recording := false)
    case _ => x
  }

  /** All medias have answered: the one response. */
  function Complete(s: Server, req: Id, a: Answer, env: Env): (Server, Ret) {
    if !env.built then (Reject(s, req, a, STATUS_INTERNAL_SERVER_ERROR, env), Code(EPROTO))
    else (Finish(Sent(s, req, a.status, env.sent), a.kind, req, Some(a.session)), Code(if env.sent then OK else SEND_FAILED))
  }

  /** The answer is consistent with the earlier ones: count it. */
  function Accept(s: Server, req: Id, q: Request, x: Session, a: Answer, env: Env): (Server, Ret) {
    var p := q.(medias := Put(q.medias, a.media, true));
    var t := SetRequest(s, req, p);
    if CountAnswered(p.medias) != p.mediaCount then (t, Code(OK))
    else Complete(t.(sessions := Put(t.sessions, a.session, SetPlaying(x, a.kind))), req, a, env)
  }

  function NotFirst(q: Request, a: Answer): Request {
    if a.kind == Teardown then q else q.(firstReply := false)
  }

  function Taken(s: Server, req: Id, q: Request, x: Session, a: Answer): Server {
    SetRequest(s.(sessions := Put(s.sessions, a.session, TakeRange(q, x, a))), req, NotFirst(q, a))
  }

  /** A successful answer of a media of the request: its range and scale must be those of the session. */
  function Counts(s: Server, req: Id, q: Request, x: Session, a: Answer, env: Env): (Server, Ret) {
    var y := TakeRange(q, x, a);
    var t := Taken(s, req, q, x, a);
    if a.kind != Teardown && (a.range != Some(y.range) || (a.kind == Play && a.scale != y.scale)) then
      (Reject(t, req, a, STATUS_INTERNAL_SERVER_ERROR, env), Code(EPROTO))
    else Accept(t, req, NotFirst(q, a), y, a, env)
  }

  /** `rtsp_server_reply_to_play`, `_pause`, `_record` and `_teardown`. */
  function ReplyMedia(s: Server, req: Id, a: Answer, env: Env): (Server, Ret) {
    match (Find(s.pending, req), Find(s.sessions, a.session))
    case (None, _) => (s, if a.kind == Record then NullDereference else Code(ENOENT))
    case (_, None) => (s, Code(EINVAL))
    case (Some(q), Some(x)) =>
      if q.conn.None? then (Finish(s, a.kind, req, Some(a.session)), Code(ECONNRESET))
      else if IsError(a.status) then (Reject(s, req, a, a.status, env), Code(OK))
      else if a.kind != Teardown && a.range.None? then (Reject(s, req, a, STATUS_INTERNAL_SERVER_ERROR, env), Code(EINVAL))
      else if !Has(q.medias, a.media) then (Reject(s, req, a, STATUS_INTERNAL_SERVER_ERROR, env), Code(ENOENT))
      else Counts(s, req, q, x, a, env)
  }

  // --- requests of a client ---

  /** A request that is answered at once: OPTIONS, GET_PARAMETER. */
  function Immediate(s: Server, conn: Id, verb: Verb, deadline: nat, env: Env): Server {
    var t := AddRequest(s, conn, verb, deadline);
    if env.built && env.sent then RemoveRequest(Sent(t, s.next, 200, true), s.next) else Fail(t, s.next, EPROTO, env)
  }

  function EnterCallback(s: Server, req: Id, medias: List<bool>, sess: Option<Id>): Server {
    match Find(s.pending, req)
    case None => s
    case Some(q) =>
      SetRequest(s, req, q.(inCallback := true, medias := medias, mediaCount := |medias|)).(frame := Some(Frame(req, sess)))
  }

  /** DESCRIBE and ANNOUNCE, up to the application's callback. */
  function BeginSingle(s: Server, conn: Id, verb: Verb, deadline: nat): Server {
    EnterCallback(AddRequest(s, conn, verb, deadline), s.next, [], None)
  }

  /** `rtsp_server_setup`: a new session with id `newSid`, or a known one, and a new media in it. */
  function BeginSetup(s: Server, conn: Id, deadline: nat, sid: Option<string>, newSid: string, path: string, env: Env): Server {
    var t := AddRequest(s, conn, Setup, deadline);
    var sess := if sid.None? then Some(t.next) else FindSid(t.sessions, sid.value);
    if sess.None? then Fail(t, s.next, STATUS_SESSION_NOT_FOUND, env) else
    var u := if sid.None? then AddSession(t, newSid) else t;
    match Find(u.sessions, sess.value)
    case None => Fail(u, s.next, EPROTO, env)
    case Some(x) =>
      if FindPath(x.medias, path).Some? then Fail(u, s.next, EPROTO, env)
      else EnterCallback(SetOp(AddMedia(u, sess.value, path), sess, Setup), s.next, [], sess)
  }

  function AllMedias(l: List<Media>): List<bool> {
    seq(|l|, i requires 0 <= i < |l| => Node(l[i].id, false))
  }

  /** The session of a request, if it is known and has medias. */
  function Target(s: Server, sid: string): Option<Id> {
    match FindSid(s.sessions, sid)
    case None => None
    case Some(id) =>
      if Find(s.sessions, id).None? || Find(s.sessions, id).value.mediaCount == 0 then None else Some(id)
  }

  /** PLAY, PAUSE and RECORD fan out to all medias of the session. */
  function BeginAggregate(s: Server, conn: Id, verb: Verb, deadline: nat, sid: string, env: Env): Server {
    var t := AddRequest(s, conn, verb, deadline);
    match Target(t, sid)
    case None => Fail(t, s.next, STATUS_SESSION_NOT_FOUND, env)
    case Some(sess) =>
      EnterCallback(SetOp(t, Some(sess), verb), s.next, AllMedias(Find(s.sessions, sess).value.medias), Some(sess))
  }

  /** TEARDOWN marks the medias it selects; selecting none fails, but leaves the operation in progress. */
  function BeginTeardown(s: Server, conn: Id, deadline: nat, sid: string, path: Option<string>, env: Env): Server {
    var t := AddRequest(s, conn, Teardown, deadline);
    match Target(t, sid)
    case None => Fail(t, s.next, STATUS_SESSION_NOT_FOUND, env)
    case Some(sess) =>
      var x := Find(s.sessions, sess).value;
      var fan := FanOut(x.medias, x.medias, path);
      var u := t.(sessions := Put(t.sessions, sess, x.(op := Teardown, medias := Mark(x.medias, x.medias, path))));
      if fan == [] then Fail(u, s.next, ENOENT, env) else EnterCallback(u, s.next, fan, Some(sess))
  }

  /** The callbacks of the running handler are over. */
  function HandlerReturned(s: Server, req: Id, sess: Option<Id>): Server {
    var t := s.(frame := None);
    match Find(t.pending, req)
    case None => t
    case Some(q) =>
      var resets := q.verb in {Play, Pause, Record};
      var u := SetRequest(t, req, q.(inCallback := false, firstReply := q.firstReply || resets));
      if q.replied then Conclude(u, q.verb, req, sess) else u
  }

  predicate Expired(q: Request, now: nat) { q.deadline > 0 && now > q.deadline }

  predicate Overdue(s: Server, req: Id, now: nat) {
    Find(s.pending, req).Some? && Expired(Find(s.pending, req).value, now)
  }

  /** The periodic timer walks on to the next expired request, sends its error and calls back; the request is still pending. */
  function Sweep(s: Server, walk: seq<Id>, now: nat, unsendable: set<Id>): Server {
    if walk == [] then s.(frame := None)
    else if Overdue(s, walk[0], now) then
      ErrorResponse(s, walk[0], STATUS_INTERNAL_SERVER_ERROR, Env(true, true, walk[0] !in unsendable))
      .(frame := Some(TimingOut(walk[0], walk[1..], now, unsendable)))
    else Sweep(s, walk[1..], now, unsendable)
  }

  function Order<T>(l: List<T>): seq<Id> { seq(|l|, i requires 0 <= i < |l| => l[i].id) }

  /** The application returns; a request that timed out is removed only now. */
  function CallbackReturned(s: Server): Server {
    match s.frame
    case None => s
    case Some(Frame(req, sess)) => HandlerReturned(s, req, sess)
    case Some(TimingOut(req, rest, now, unsendable)) => Sweep(RemoveRequest(s, req), rest, now, unsendable)
  }

  // --- events of the loop ---

  function Disconnect(l: List<Request>, conn: Id): List<Request> {
    seq(|l|, i requires 0 <= i < |l| => if l[i].val.conn == Some(conn) then Node(l[i].id, l[i].val.(conn := None)) else l[i])
  }

  /** `rtsp_server_force_teardown`: only on an idle session; one media, or the whole session. */
  function ForceTeardown(s: Server, sid: string, path: Option<string>): (Server, Ret) {
    match FindSid(s.sessions, sid)
    case None => (s, Code(ENOENT))
    case Some(sess) =>
      match Find(s.sessions, sess)
      case None => (s, Code(ENOENT))
      case Some(x) =>
        if path.Some? && FindPath(x.medias, path.value).None? then (s, Code(ENOENT))
        else if x.op == Teardown then (s, Code(EALREADY))
        else if x.op != Unknown then (s, Code(EBUSY))
        else if path.Some? then (RemoveMedia(s, sess, FindPath(x.medias, path.value).value), Code(OK))
        else (RemoveSession(s, sess), Code(OK))
  }

  datatype Event =
    | Ignored(conn: Id, verb: Verb, deadline: nat)
    | Rejected(conn: Id, verb: Verb, deadline: nat, status: int, env: Env)
    | Answered(conn: Id, verb: Verb, deadline: nat, env: Env)
    | SingleRequest(conn: Id, verb: Verb, deadline: nat)
    | SetupRequest(conn: Id, deadline: nat, known: Option<string>, newSid: string, target: string, env: Env)
    | AggregateRequest(conn: Id, verb: Verb, deadline: nat, sid: string, env: Env)
    | TeardownRequest(conn: Id, deadline: nat, sid: string, path: Option<string>, env: Env)
    | Returned
    | SingleReply(req: Id, status: int, valid: bool, env: Env)
    | SetupReply(req: Id, sess: Id, status: int, ports: bool, env: Env)
    | MediaReply(req: Id, answer: Answer, env: Env)
    | TimerTick(now: nat, unsendable: set<Id>)
    | Disconnected(conn: Id)
    | SessionTimeout(sess: Id)
    | IdleRemoval(sess: Id)
    | Forced(sid: string, path: Option<string>)

  /** Callbacks run inside a handler or the timer, so only replies, forced teardowns and their return can happen there. */
  predicate Enabled(s: Server, e: Event) {
    match e
    case Returned => s.frame.Some?
    case SingleReply(_, _, _, _) => true
    case SetupReply(_, _, _, _, _) => true
    case MediaReply(_, a, _) => a.kind in {Play, Pause, Record, Teardown}
    case Forced(_, _) => true
    case SetupRequest(_, _, sid, newSid, _, _) => s.frame.None? && (sid.None? ==> FindSid(s.sessions, newSid).None?)
    case AggregateRequest(_, verb, _, _, _) => s.frame.None? && verb in {Play, Pause, Record}
    case SessionTimeout(sess) => s.frame.None? && sess in s.timers
    case IdleRemoval(sess) => s.frame.None? && sess in s.idle
    case _ => s.frame.None?
  }

  function Step(s: Server, e: Event): Server {
    match e
    case Ignored(conn, verb, deadline) => AddRequest(s, conn, verb, deadline)
    case Rejected(conn, verb, deadline, status, env) => Fail(AddRequest(s, conn, verb, deadline), s.next, status, env)
    case Answered(conn, verb, deadline, env) => Immediate(s, conn, verb, deadline, env)
    case SingleRequest(conn, verb, deadline) => BeginSingle(s, conn, verb, deadline)
    case SetupRequest(conn, deadline, sid, newSid, path, env) => BeginSetup(s, conn, deadline, sid, newSid, path, env)
    case AggregateRequest(conn, verb, deadline, sid, env) => BeginAggregate(s, conn, verb, deadline, sid, env)
    case TeardownRequest(conn, deadline, sid, path, env) => BeginTeardown(s, conn, deadline, sid, path, env)
    case Returned => CallbackReturned(s)
    case SingleReply(req, status, valid, env) => ReplySingle(s, req, status, valid, env).0
    case SetupReply(req, sess, status, ports, env) => ReplySetup(s, req, sess, status, ports, env).0
    case MediaReply(req, a, env) => ReplyMedia(s, req, a, env).0
    case TimerTick(now, unsendable) => Sweep(s, Order(s.pending), now, unsendable)
    case Disconnected(conn) => s.(pending := Disconnect(s.pending, conn))
    case SessionTimeout(sess) => RemoveSession(s, sess)
    case IdleRemoval(sess) => RemoveSession(s, sess)
    case Forced(sid, path) => ForceTeardown(s, sid, path).0
  }

  predicate Run(s: Server, events: seq<Event>)
    decreases |events|
  {
    events != [] ==> Enabled(s, events[0]) && Run(Step(s, events[0]), events[1..])
  }

  function After(s: Server, events: seq<Event>): Server
    decreases |events|
  {
    if events == [] then s else After(Step(s, events[0]), events[1..])
  }
}
