/**
  The client's request, session and channel state machine (src/rtsp_client.c, src/rtsp_client_session.c).

  A session id is an `Id`: it stands for the first eight characters, the only ones compared. What the
  environment decides comes with the event: whether a request could be authorised and sent, what the server
  answers, whether stopping the connection reports a disconnection. `log` records the requests issued, the
  responses delivered to the application and the sessions removed.
 */
module ClientState {
  import opened Wrappers
  import opened Lists
  import opened Channels
  import Text
  import Url

  const MAX_FAILED_REQUESTS := 5
  const MAX_FAILED_KEEP_ALIVE := 3

  const OK := 0
  const ENOENT := -2
  const E2BIG := -7
  const EAGAIN := -11
  const EBUSY := -16
  const EEXIST := -17
  const EINVAL := -22
  const EPIPE := -32
  const ENOSYS := -38
  const EPROTO := -71
  /** Stands for any error of authorising or sending a request. */
  const NOT_SENT := -5

  const STATUS_SESSION_NOT_FOUND := 454
  const STATUS_REQUEST_TIMEOUT := 408

  datatype Verb = NoVerb | Options | Describe | Announce | Setup | Play | Pause | Record | Teardown | GetParameter

  datatype Conn = Disconnected | Connecting | Connected | Disconnecting

  datatype Media = Media(path: string, pair: Pair)

  datatype Session = Session(failed: nat, keepAlive: bool, internalTeardown: bool, base: Option<string>,
                             mediaCount: int, medias: seq<Media>)

  /** The request header kept while waiting; `pair` is what a SETUP over TCP asked for. */
  datatype Header = Header(verb: Verb, cseq: nat, uri: string, sid: Option<Id>, pair: Pair)

  datatype Status = Ok | Failed | TimedOut | Aborted | Canceled

  datatype Entry =
    | Issued(verb: Verb, cseq: nat)
    | Completed(verb: Verb, cseq: nat, userdata: int, status: Status)
    | Removed(sid: Id)

  /** `armed` is the response timer, `base` the content base of the SETUP being prepared. */
  datatype Client = Client(conn: Conn, cseq: nat, pending: bool, isInternal: bool, header: Header, userdata: int,
                           armed: bool, base: Option<string>, sessions: List<Session>, used: set<Channel>,
                           failed: nat, allowed: set<Verb>, log: seq<Entry>)

  datatype Outcome = Written | Again | Unsent | Unauthorised

  /** What the requests sent by the client itself come to, and whether stopping reports a disconnection. */
  datatype Env = Env(keepAlive: Outcome, teardown: Outcome, stopFires: bool)

  datatype Reply = Reply(code: int, sid: Option<Id>, tcp: bool, pair: Pair, methods: set<Verb>)

  const NO_HEADER := Header(NoVerb, 0, "", None, NO_PAIR)

  function Initial(): Client {
    Client(Disconnected, 1, false, false, NO_HEADER, 0, false, None, [], {}, 0, {}, [])
  }

  // --- URLs ---

  /** `rtsp_url_parse_path`: None when the URL is refused, otherwise its path if it has one. */
  function PathOf(uri: string): Option<Option<string>> {
    var u := Url.Parse(uri);
    if u.Failure? then None else Some(u.value.path)
  }

  predicate IsAbsolute(uri: string) { Text.StartsWith(uri, Url.SchemeText(Url.Tcp)) }

  /** `format_request_uri` */
  function FormatUri(base: string, resource: string): string {
    if IsAbsolute(resource) then resource
    else if base != "" && |base| < Url.PATH_MAX && base[|base| - 1] == '/' then base + resource
    else base + "/" + resource
  }

  // --- sessions and medias (src/rtsp_client_session.c) ---

  function NewSession(): Session { Session(0, false, false, None, 0, []) }

  function FindMedia(l: seq<Media>, path: string): (r: Option<nat>)
    ensures r.Some? ==> r.value < |l| && l[r.value].path == path
    ensures r.None? ==> forall i :: 0 <= i < |l| ==> l[i].path != path
  {
    if l == [] then None
    else if l[0].path == path then Some(0)
    else
      var r := FindMedia(l[1..], path);
      assert r.None? ==> forall i :: 1 <= i < |l| ==> l[i] == l[1..][i - 1];
      if r.None? then None else Some(r.value + 1)
  }

  /** The channels of a session's medias. */
  function MediaChannels(l: seq<Media>): set<Channel> {
    if l == [] then {} else Both(l[0].pair) + MediaChannels(l[1..])
  }

  function SetSession(c: Client, sid: Id, s: Session): Client { c.(sessions := Put(c.sessions, sid, s)) }

  function AddMedia(s: Session, m: Media): Session { s.(medias := s.medias + [m], mediaCount := s.mediaCount + 1) }

  function DropMedia(s: Session, i: nat): Session
    requires i < |s.medias|
  {
    s.(medias := s.medias[..i] + s.medias[i + 1..], mediaCount := s.mediaCount - 1)
  }

  /** Frees a media's channels and unlinks it. */
  function ReleaseMedia(c: Client, sid: Id, s: Session, i: nat): Client
    requires i < |s.medias|
  {
    SetSession(c, sid, DropMedia(s, i)).(used := c.used - Both(s.medias[i].pair))
  }

  /** `rtsp_client_remove_session_internal` */
  function RemoveSession(c: Client, sid: Id): Client {
    match Find(c.sessions, sid)
    case None => c
    case Some(s) =>
      c.(sessions := Remove(c.sessions, sid), used := c.used - MediaChannels(s.medias), log := c.log + [Removed(sid)])
  }

  /** `rtsp_client_remove_all_sessions`, walking the list `l`. */
  function RemoveSessions(c: Client, l: List<Session>): Client
    decreases |l|
  {
    if l == [] then c else RemoveSessions(RemoveSession(c, l[0].id), l[1..])
  }

  predicate AnyKeepAlive(l: List<Session>) { exists i :: 0 <= i < |l| && l[i].val.keepAlive }

  /** The first session that waits for the answer to a keep-alive. */
  function FirstKeepAlive(l: List<Session>): (r: Option<Id>)
    ensures r.Some? <==> AnyKeepAlive(l)
    ensures r.Some? ==> exists i :: 0 <= i < |l| && l[i].id == r.value && l[i].val.keepAlive
  {
    if l == [] then None
    else if l[0].val.keepAlive then
      assert l[0].id == l[0].id;
      Some(l[0].id)
    else
      var r := FirstKeepAlive(l[1..]);
      assert r.Some? ==> exists i :: 0 <= i < |l[1..]| && l[1..][i].id == r.value && l[1..][i].val.keepAlive && l[i + 1] == l[1..][i];
      assert AnyKeepAlive(l) ==> exists i :: 1 <= i < |l| && l[i].val.keepAlive && l[1..][i - 1] == l[i];
      r
  }

  // --- issuing requests ---

  predicate Allowed(c: Client, verb: Verb) { c.allowed == {} || verb == Options || verb in c.allowed }

  /** The checks every request of the user starts with. */
  function Refusal(c: Client, verb: Verb): int {
    if !Allowed(c, verb) then ENOSYS
    else if c.conn != Connected then EPIPE
    else if c.pending && !AnyKeepAlive(c.sessions) then EBUSY
    else OK
  }

  /** `clear_pending_keep_alive_timer` */
  function ClearTimer(c: Client): Client { if AnyKeepAlive(c.sessions) then c.(armed := false) else c }

  /** Replaces the header and the user data, which cannot be undone when sending fails. */
  function Prepare(c: Client, h: Header, userdata: int): Client { c.(header := h, userdata := userdata) }

  function Issue(c: Client, timeout: nat): Client {
    c.(pending := true, armed := c.armed || timeout > 0, cseq := c.cseq + 1, log := c.log + [Issued(c.header.verb, c.header.cseq)])
  }

  /** The end of a request of the user: authorising comes before the session id is filled in. */
  function Send(c: Client, h: Header, userdata: int, timeout: nat, out: Outcome): (Client, int) {
    match out
    case Unauthorised => (Prepare(c, h.(sid := None), userdata), NOT_SENT)
    case Written => (Issue(Prepare(c, h, userdata), timeout), OK)
    case _ => (Prepare(c, h, userdata), NOT_SENT)
  }

  predicate NeedsSession(verb: Verb) { verb in {Play, Pause, Record} }

  /** `rtsp_client_options`, `_describe`, `_announce`, `_play`, `_pause` and `_record`. */
  function Ask(c: Client, verb: Verb, uri: string, sid: Id, userdata: int, timeout: nat, out: Outcome): (Client, int) {
    if Refusal(c, verb) != OK then (c, Refusal(c, verb)) else
    var d := ClearTimer(c);
    if !NeedsSession(verb) then Send(d, Header(verb, d.cseq, uri, None, NO_PAIR), userdata, timeout, out)
    else match Find(d.sessions, sid)
      case None => (d, ENOENT)
      case Some(s) => Send(d, Header(verb, d.cseq, s.base.UnwrapOr(""), Some(sid), NO_PAIR), userdata, timeout, out)
  }

  /** `send_teardown`; an empty resource stands for the whole session. */
  function AskTeardown(c: Client, resource: string, sid: Id, userdata: int, timeout: nat, out: Outcome, internally: bool): (Client, int) {
    if Refusal(c, Teardown) != OK then (c, Refusal(c, Teardown)) else
    var d := ClearTimer(c);
    match Find(d.sessions, sid)
    case None => (d, ENOENT)
    case Some(s) =>
      if resource != "" && !IsAbsolute(resource) && s.base.None? then (Prepare(d, NO_HEADER.(verb := Teardown), userdata), EINVAL)
      else
        var base := s.base.UnwrapOr("");
        var h := Header(Teardown, d.cseq, if resource == "" then base else FormatUri(base, resource), Some(sid), NO_PAIR);
        var (e, res) := Send(d, h, userdata, timeout, out);
        if res != OK then (e, res)
        else (SetSession(e, sid, s.(internalTeardown := internally)).(isInternal := internally), OK)
  }

  datatype Transport = OverTcp(pair: Pair) | OverUdp(stream: nat, control: nat)

  predicate PortsOk(t: Transport) {
    match t
    case OverTcp(p) => p.rtp == 0 || p.rtcp == 0 || p.rtp != p.rtcp
    case OverUdp(stream, control) => stream != 0 && control != 0
  }

  /** The channel search has something to find whenever a SETUP reaches it. */
  predicate SearchEnds(c: Client, t: Transport) {
    t.OverTcp? && !Valid(t.pair) && CHANNELS - |c.used| >= 2 ==> FirstFree(c.used, 0).Some?
  }

  /** The SETUP of `rtsp_client_setup` once its header is prepared: the channels, then the request. */
  function SendSetup(c: Client, h: Header, t: Transport, userdata: int, timeout: nat, out: Outcome): (Client, int)
    requires SearchEnds(c, t)
  {
    var unset := Prepare(c, h.(sid := None), userdata);
    if out == Unauthorised then (unset, NOT_SENT)
    else if t.OverUdp? then Send(c, h, userdata, timeout, out)
    else if CHANNELS - |c.used| < 2 then (unset, E2BIG)
    else match Allocate(c.used, t.pair)
      case None => (unset, EEXIST)
      case Some(p) => Send(c.(used := c.used + Both(p)), h.(pair := p), userdata, timeout, out)
  }

  /** `rtsp_client_setup` */
  function AskSetup(c: Client, base: string, resource: string, sid: Option<Id>, t: Transport, userdata: int,
                    timeout: nat, out: Outcome): (Client, int)
    requires SearchEnds(c, t)
  {
    if !PortsOk(t) then (c, EINVAL)
    else if Refusal(c, Setup) != OK then (c, Refusal(c, Setup))
    else
      var d := ClearTimer(c);
      var stripped := Url.StripCredentials(base);
      if stripped.Failure? then (d, EINVAL)
      else if sid.Some? && Find(d.sessions, sid.value).None? then (d, ENOENT)
      else if sid.Some? && Find(d.sessions, sid.value).value.base != Some(stripped.value) then (d, EINVAL)
      else
        var h := Header(Setup, d.cseq, FormatUri(stripped.value, resource), sid, NO_PAIR);
        SendSetup(d.(base := Some(stripped.value)), h, t, userdata, timeout, out)
  }

  /** A keep-alive without a connection: the session goes at the third failure. */
  function KeepAliveOffline(c: Client, sid: Id, s: Session): (Client, int) {
    var d := SetSession(c, sid, s.(failed := s.failed + 1));
    if s.failed + 1 >= MAX_FAILED_KEEP_ALIVE then (RemoveSession(d, sid), EPIPE) else (d, EAGAIN)
  }

  /** A keep-alive that takes the slot; a send that would block counts as sent. */
  function SendKeepAlive(c: Client, sid: Id, s: Session, out: Outcome): (Client, int) {
    var h := Header(GetParameter, c.cseq, s.base.UnwrapOr(""), Some(sid), NO_PAIR);
    match out
    case Unauthorised => (Prepare(c, h.(sid := None), c.userdata), NOT_SENT)
    case Unsent => (Prepare(c, h, c.userdata), NOT_SENT)
    case _ => (SetSession(Issue(Prepare(c, h, c.userdata), 1), sid, s.(keepAlive := true)), OK)
  }

  /** `send_keep_alive` */
  function KeepAlive(c: Client, sid: Id, out: Outcome): (Client, int) {
    match Find(c.sessions, sid)
    case None => (c, ENOENT)
    case Some(s) =>
      if !Allowed(c, GetParameter) then (c, ENOSYS)
      else if c.conn != Connected then KeepAliveOffline(c, sid, s)
      else if s.keepAlive || c.pending then (c, EBUSY)
      else SendKeepAlive(c, sid, s, out)
  }

  // --- completing the pending request ---

  /** What stands in for the response when there is none. */
  function NoReply(sid: Option<Id>, status: Status): Reply {
    Reply(if status == TimedOut then STATUS_REQUEST_TIMEOUT else 0, sid, false, NO_PAIR, {})
  }

  function Report(c: Client, h: Header, userdata: int, status: Status): Client {
    c.(log := c.log + [Completed(h.verb, h.cseq, userdata, status)])
  }

  /** The session of a response: no longer waiting for a keep-alive, given its content base. */
  function Touched(c: Client, sid: Id): Session {
    var s := Find(c.sessions, sid).UnwrapOr(NewSession());
    s.(keepAlive := false, base := if s.base.None? then c.base else s.base)
  }

  /** A SETUP creates the session; otherwise an unknown session is left alone. */
  function Touch(c: Client, verb: Verb, sid: Option<Id>): Client {
    if sid.None? || (Find(c.sessions, sid.value).None? && verb != Setup) then c
    else
      var l := if Find(c.sessions, sid.value).None? then c.sessions + [Node(sid.value, NewSession())] else c.sessions;
      c.(sessions := Put(l, sid.value, Touched(c, sid.value)), base := None)
  }

  /** `rtsp_client_session_media_add` for the path of a SETUP; nothing when the path is missing or known. */
  function MediaSetUp(c: Client, sid: Option<Id>, uri: string, pair: Pair): Client {
    if sid.None? || Find(c.sessions, sid.value).None? || PathOf(uri).None? || PathOf(uri).value.None? then c
    else
      var s := Find(c.sessions, sid.value).value;
      var path := PathOf(uri).value.value;
      if FindMedia(s.medias, path).Some? then c else SetSession(c, sid.value, AddMedia(s, Media(path, pair)))
  }

  /** `setup_request_complete` */
  function SetupCompleted(c: Client, h: Header, userdata: int, sid: Option<Id>, r: Reply, status: Status): Client {
    if status != Ok then Report(c.(used := c.used - Both(h.pair)), h, userdata, status)
    else if !r.tcp then MediaSetUp(Report(c, h, userdata, status), sid, h.uri, NO_PAIR)
    else
      var kept := if h.pair != r.pair then c.used - Both(h.pair) else c.used;
      MediaSetUp(Report(c.(used := kept + Both(r.pair)), h, userdata, status), sid, h.uri, r.pair)
  }

  /** The media a TEARDOWN names, or None for the whole session; failing when it names neither. */
  function TeardownTarget(s: Session, uri: string): (r: Option<Option<nat>>)
    ensures r.Some? && r.value.Some? ==> r.value.value < |s.medias|
  {
    if s.base.None? || PathOf(uri).None? || PathOf(s.base.value).None? then None
    else
      var path, base := PathOf(uri).value, PathOf(s.base.value).value;
      var media := if path.Some? then FindMedia(s.medias, path.value) else None;
      if media.None? && path.UnwrapOr("") != base.UnwrapOr("") then None else Some(media)
  }

  /** `teardown_request_complete`; the flag says whether the session goes. */
  function TeardownCompleted(c: Client, h: Header, userdata: int, sid: Option<Id>, status: Status, gone: bool): (Client, bool) {
    if sid.None? || Find(c.sessions, sid.value).None? then
      (if c.isInternal then c else Report(c, h, userdata, status), gone)
    else
      var s := Find(c.sessions, sid.value).value;
      match TeardownTarget(s, h.uri)
      case None => (c, gone)
      case Some(media) =>
        var d := if s.internalTeardown then c else Report(c, h, userdata, status).(isInternal := false);
        if media.None? then (d, true)
        else (ReleaseMedia(d, sid.value, s, media.value), s.mediaCount - 1 == 0)
  }

  /** The end of a keep-alive; the flag says whether to tear the session down. */
  function KeepAliveCompleted(c: Client, sid: Option<Id>, status: Status, env: Env): (Client, bool) {
    if sid.None? || Find(c.sessions, sid.value).None? then (c, false)
    else
      var s := Find(c.sessions, sid.value).value;
      if status != TimedOut then (SetSession(c, sid.value, s.(failed := 0)), false)
      else
        var d := SetSession(c, sid.value, s.(failed := s.failed + 1));
        if s.failed + 1 >= MAX_FAILED_KEEP_ALIVE then (d, true) else (KeepAlive(d, sid.value, env.keepAlive).0, false)
  }

  /** After its third unanswered keep-alive a session is torn down, or removed when that cannot be sent. */
  function KeepAliveDelivered(c: Client, sid: Option<Id>, gone: bool, status: Status, env: Env): (Client, bool) {
    var (d, tearDown) := KeepAliveCompleted(c, sid, status, env);
    if !tearDown then (d, gone)
    else
      var (e, res) := AskTeardown(d, "", sid.UnwrapOr(0), 0, 1, env.teardown, true);
      (e, gone || res != OK)
  }

  /** Delivering the outcome to the application; the flag says whether the session goes. */
  function Deliver(c: Client, h: Header, userdata: int, sid: Option<Id>, r: Reply, status: Status, env: Env): (Client, bool) {
    var gone := r.code == STATUS_SESSION_NOT_FOUND;
    match h.verb
    case NoVerb => (c, gone)
    case Options => (Report(c.(allowed := r.methods), h, userdata, status), gone)
    case Setup => (SetupCompleted(c, h, userdata, sid, r, status), gone)
    case Teardown => TeardownCompleted(c, h, userdata, sid, status, gone)
    case GetParameter => KeepAliveDelivered(c, sid, gone, status, env)
    case _ => (Report(c, h, userdata, status), gone)
  }

  /** An answer outside the 2xx class is a failure. */
  function FinalStatus(status: Status, code: int): Status { if status == Ok && code / 100 != 2 then Failed else status }

  /** `request_complete` up to its last step. */
  function Settle(c: Client, r: Reply, status: Status, env: Env): Client {
    var sid := if r.sid.Some? then r.sid else c.header.sid;
    var d := c.(header := NO_HEADER, userdata := 0, pending := false, armed := false);
    var (e, gone) := Deliver(Touch(d, c.header.verb, sid), c.header, c.userdata, sid, r, FinalStatus(status, r.code), env);
    if gone && sid.Some? then RemoveSession(e, sid.value) else e
  }

  /** `request_complete` for a lost connection. */
  function Abort(c: Client, env: Env): Client {
    if !c.pending then c else Settle(c, NoReply(c.header.sid, Aborted), Aborted, env).(failed := 0)
  }

  /** The connection is lost: by the user's will, or to be set up again. */
  function ConnectionLost(c: Client, env: Env): Client {
    match c.conn
    case Disconnecting => Abort(c, env).(conn := Disconnected)
    case Connected => Abort(c, env).(conn := Connecting)
    case _ => c
  }

  /** Too many requests timed out: the connection is stopped and set up again. */
  function Reconnect(c: Client, env: Env): Client {
    (if env.stopFires then ConnectionLost(c, env) else c).(conn := Connecting)
  }

  /** `request_complete` */
  function Complete(c: Client, r: Reply, status: Status, env: Env): Client {
    if !c.pending then c
    else
      var d := Settle(c, r, status, env);
      if status != TimedOut then d.(failed := 0)
      else
        var e := d.(failed := d.failed + 1);
        if e.failed >= MAX_FAILED_REQUESTS then Reconnect(e, env) else e
  }

  /** `rtsp_client_response_process`: a response with another sequence number is taken for that of a keep-alive. */
  function Respond(c: Client, cseq: nat, r: Reply, env: Env): (Client, int) {
    if cseq == c.header.cseq then (Complete(c, r, Ok, env), OK)
    else match FirstKeepAlive(c.sessions)
      case None => (c, EPROTO)
      case Some(sid) =>
        match Find(c.sessions, sid)
        case None => (c, EPROTO)
        case Some(s) => (SetSession(c, sid, s.(keepAlive := false)), OK)
  }

  /** `teardown_request_process`: a TEARDOWN from the server; an unknown media takes the whole session. */
  function ServerTeardown(c: Client, sid: Id, uri: string): (Client, int) {
    match Find(c.sessions, sid)
    case None => (c, ENOENT)
    case Some(s) =>
      if PathOf(uri).None? || PathOf(uri).value.None? then (c, EINVAL)
      else
        var media := if Some(uri) != s.base then FindMedia(s.medias, PathOf(uri).value.value) else None;
        if media.None? then (RemoveSession(c, sid), OK)
        else
          var d := ReleaseMedia(c, sid, s, media.value);
          (if s.mediaCount - 1 == 0 then RemoveSession(d, sid) else d, OK)
  }

  /** The connection is up: every session tries a keep-alive, in list order. */
  function Probe(c: Client, l: List<Session>, outs: seq<Outcome>): Client
    decreases |l|
  {
    if l == [] then c
    else Probe(KeepAlive(c, l[0].id, if outs == [] then Written else outs[0]).0, l[1..], if outs == [] then [] else outs[1..])
  }

  /** `rtsp_client_disconnect` */
  function Disconnect(c: Client, env: Env): (Client, int) {
    match c.conn
    case Disconnected => (c, EPROTO)
    case Disconnecting => (c, OK)
    case Connecting =>
      var d := Abort(c.(conn := Disconnecting), env).(conn := Disconnected);
      (RemoveSessions(d, d.sessions), OK)
    case Connected =>
      var d := c.(conn := Disconnecting);
      var e := if env.stopFires then ConnectionLost(d, env) else d;
      (RemoveSessions(e, e.sessions), OK)
  }

  // --- events ---

  datatype Event =
    | ConnectCall
    | ConnectFailed
    | Up(outs: seq<Outcome>)
    | Down(env: Env)
    | DisconnectCall(env: Env)
    | Request(verb: Verb, uri: string, sid: Id, userdata: int, timeout: nat, out: Outcome)
    | SetupRequest(base: string, resource: string, known: Option<Id>, transport: Transport, userdata: int, timeout: nat, out: Outcome)
    | TeardownRequest(resource: string, sid: Id, userdata: int, timeout: nat, out: Outcome)
    | KeepAliveTimer(sid: Id, out: Outcome)
    | ResponseTimeout(env: Env)
    | Response(cseq: nat, reply: Reply, env: Env)
    | TeardownFromServer(sid: Id, uri: string)
    | RemoveCall(sid: Id)
    | Cancel(env: Env)

  predicate IsRequest(e: Event) { e.Request? || e.SetupRequest? || e.TeardownRequest? }

  /** The channel search of a SETUP must come to an end for there to be a next state. */
  predicate Enabled(c: Client, e: Event) {
    match e
    case Request(verb, _, _, _, _, _) => verb in {Options, Describe, Announce, Play, Pause, Record}
    case SetupRequest(_, _, _, t, _, _, _) => SearchEnds(c, t)
    case ConnectFailed => c.conn == Connecting
    case ResponseTimeout(_) => c.armed
    case _ => true
  }

  function VerbOf(e: Event): Verb
    requires IsRequest(e)
  {
    match e
    case Request(verb, _, _, _, _, _) => verb
    case SetupRequest(_, _, _, _, _, _, _) => Setup
    case TeardownRequest(_, _, _, _, _) => Teardown
  }

  /** The request of the user gets as far as its header, which replaces the pending one whatever becomes of the send. */
  predicate Replaces(c: Client, e: Event)
    requires IsRequest(e)
  {
    && Refusal(c, VerbOf(e)) == OK
    && match e
       case Request(verb, _, sid, _, _, _) => NeedsSession(verb) ==> Find(c.sessions, sid).Some?
       case TeardownRequest(_, sid, _, _, _) => Find(c.sessions, sid).Some?
       case SetupRequest(base, _, sid, t, _, _, _) =>
         && PortsOk(t) && Url.StripCredentials(base).Success?
         && (sid.Some? ==> Find(c.sessions, sid.value).Some?
                           && Find(c.sessions, sid.value).value.base == Some(Url.StripCredentials(base).value))
  }

  /** The next state, and what the call returns. */
  function Step(c: Client, e: Event): (Client, int)
    requires Enabled(c, e)
  {
    match e
    case ConnectCall => if c.conn == Disconnected then (c.(conn := Connecting), OK) else (c, EBUSY)
    case ConnectFailed => (c.(conn := Disconnected), OK)
    case Up(outs) => (Probe(c.(conn := Connected), c.sessions, outs), OK)
    case Down(env) => (ConnectionLost(c, env), OK)
    case DisconnectCall(env) => Disconnect(c, env)
    case Request(verb, uri, sid, userdata, timeout, out) => Ask(c, verb, uri, sid, userdata, timeout, out)
    case SetupRequest(base, resource, sid, t, userdata, timeout, out) =>
      AskSetup(c, base, resource, sid, t, userdata, timeout, out)
    case TeardownRequest(resource, sid, userdata, timeout, out) => AskTeardown(c, resource, sid, userdata, timeout, out, false)
    case KeepAliveTimer(sid, out) => KeepAlive(c, sid, out)
    case ResponseTimeout(env) => (Complete(c.(armed := false), NoReply(c.header.sid, TimedOut), TimedOut, env), OK)
    case Response(cseq, r, env) => Respond(c, cseq, r, env)
    case TeardownFromServer(sid, uri) => ServerTeardown(c, sid, uri)
    case RemoveCall(sid) => (RemoveSession(c, sid), if Find(c.sessions, sid).Some? then OK else ENOENT)
    case Cancel(env) => (Complete(c, NoReply(c.header.sid, Canceled), Canceled, env), OK)
  }

  predicate Run(c: Client, events: seq<Event>)
    decreases |events|
  {
    events != [] ==> Enabled(c, events[0]) && Run(Step(c, events[0]).0, events[1..])
  }

  function After(c: Client, events: seq<Event>): Client
    requires Run(c, events)
    decreases |events|
  {
    if events == [] then c else After(Step(c, events[0]).0, events[1..])
  }
}
