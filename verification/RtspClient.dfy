/**
  The client object. Each method follows one function of the C code, with its list walks, its table of channels
  and its in-place updates, and is tied to the function of `ClientState` that says what it does.
 */
module RtspClient {
  import opened Wrappers
  import opened Lists
  import opened Channels
  import opened ClientState
  import Url

  class RtspClient {
    var conn: Conn
    var cseq: nat
    var pending: bool
    var isInternal: bool
    var header: Header
    var userdata: int
    var armed: bool
    var base: Option<string>
    var sessions: List<Session>
    const channelUsed: array<bool>
    var failed: nat
    var allowed: set<Verb>
    var log: seq<Entry>

    ghost predicate Valid()
    {
      channelUsed.Length == CHANNELS
    }

    ghost function Value(): Client
      reads this, channelUsed
    {
      Client(conn, cseq, pending, isInternal, header, userdata, armed, base, sessions, Marked(channelUsed[..]), failed, allowed, log)
    }

    constructor ()
      ensures Valid() && Value() == Initial() && fresh(channelUsed)
    {
      conn, cseq, pending, isInternal := Disconnected, 1, false, false;
      header, userdata, armed, base := NO_HEADER, 0, false, None;
      sessions, failed, allowed, log := [], 0, {}, [];
      channelUsed := new bool[CHANNELS](_ => false);
      new;
      assert Marked(channelUsed[..]) == {};
    }

    // --- sessions and medias ---

    /** `rtsp_client_session_find` */
    method SessionFind(sid: Id) returns (s: Option<Session>)
      ensures s == Find(sessions, sid)
    {
      var at := Walk(sessions, sid);
      return if at.None? then None else Some(sessions[at.value].val);
    }

    method SessionUpdate(sid: Id, s: Session)
      modifies this
      ensures Value() == SetSession(old(Value()), sid, s)
    {
      sessions := Put(sessions, sid, s);
    }

    /** `rtsp_client_session_media_find` */
    method MediaFind(medias: seq<Media>, path: string) returns (r: Option<nat>)
      ensures r == FindMedia(medias, path)
    {
      for i := 0 to |medias|
        invariant FindMedia(medias, path) == match FindMedia(medias[i..], path) case None => None case Some(k) => Some(k + i)
      {
        assert medias[i..][1..] == medias[i + 1..];
        if medias[i].path == path {
          return Some(i);
        }
      }
      return None;
    }

    /** Frees the channels of a media and unlinks it. */
    method MediaRelease(sid: Id, s: Session, i: nat)
      requires Valid() && i < |s.medias|
      modifies this, channelUsed
      ensures Value() == ReleaseMedia(old(Value()), sid, s, i)
    {
      SetPairUsed(channelUsed, s.medias[i].pair, false);
      sessions := Put(sessions, sid, s.(medias := s.medias[..i] + s.medias[i + 1..], mediaCount := s.mediaCount - 1));
    }

    /** `rtsp_client_remove_session_internal` */
    method SessionRemove(sid: Id) returns (res: int)
      requires Valid()
      modifies this, channelUsed
      ensures Value() == RemoveSession(old(Value()), sid)
      ensures res == if Find(old(sessions), sid).Some? then OK else ENOENT
    {
      var at := Walk(sessions, sid);
      if at.None? {
        return ENOENT;
      }
      var medias := sessions[at.value].val.medias;
      ghost var used := Marked(channelUsed[..]);
      for i := 0 to |medias|
        invariant Marked(channelUsed[..]) - MediaChannels(medias[i..]) == used - MediaChannels(medias)
        invariant sessions == old(sessions) && Value() == old(Value()).(used := Marked(channelUsed[..]))
      {
        assert medias[i..][1..] == medias[i + 1..];
        SetPairUsed(channelUsed, medias[i].pair, false);
      }
      log := log + [Removed(sid)];
      sessions := sessions[..at.value] + sessions[at.value + 1..];
      return OK;
    }

    /** `rtsp_client_remove_all_sessions` */
    method RemoveAllSessions()
      requires Valid()
      modifies this, channelUsed
      ensures Value() == RemoveSessions(old(Value()), old(sessions))
    {
      var l := sessions;
      for i := 0 to |l|
        invariant RemoveSessions(Value(), l[i..]) == RemoveSessions(old(Value()), l)
      {
        assert l[i..][1..] == l[i + 1..];
        var res := SessionRemove(l[i].id);
      }
    }

    // --- issuing requests ---

    /** `clear_pending_keep_alive_timer` */
    method ClearPendingKeepAliveTimer() returns (found: bool)
      modifies this
      ensures Value() == ClearTimer(old(Value())) && found == AnyKeepAlive(sessions)
    {
      for i := 0 to |sessions|
        invariant Value() == old(Value()) && forall k :: 0 <= k < i ==> !sessions[k].val.keepAlive
      {
        if sessions[i].val.keepAlive {
          armed := false;
          return true;
        }
      }
      return false;
    }

    /** The checks a request of the user starts with. */
    method Admit(verb: Verb) returns (res: int)
      modifies this
      ensures res == Refusal(old(Value()), verb)
      ensures Value() == if res == OK then ClearTimer(old(Value())) else old(Value())
    {
      if !(allowed == {} || verb == Options || verb in allowed) {
        return ENOSYS;
      }
      if conn != Connected {
        return EPIPE;
      }
      var keepAliveInProgress := ClearPendingKeepAliveTimer();
      return if pending && !keepAliveInProgress then EBUSY else OK;
    }

    /** Filling in the header, then `send_request`. */
    method SendRequest(h: Header, u: int, timeout: nat, out: Outcome) returns (res: int)
      modifies this
      ensures (Value(), res) == Send(old(Value()), h, u, timeout, out)
    {
      userdata := u;
      if out == Unauthorised {
        header := h.(sid := None);
        return NOT_SENT;
      }
      header := h;
      if out != Written {
        return NOT_SENT;
      }
      if timeout > 0 {
        armed := true;
      }
      log := log + [Issued(header.verb, header.cseq)];
      pending := true;
      cseq := cseq + 1;
      return OK;
    }

    /** `rtsp_client_options`, `_describe`, `_announce`, `_play`, `_pause` and `_record`. */
    method RequestCall(verb: Verb, uri: string, sid: Id, u: int, timeout: nat, out: Outcome) returns (res: int)
      modifies this
      ensures (Value(), res) == Ask(old(Value()), verb, uri, sid, u, timeout, out)
    {
      res := Admit(verb);
      if res != OK {
        return;
      }
      if !NeedsSession(verb) {
        res := SendRequest(Header(verb, cseq, uri, None, NO_PAIR), u, timeout, out);
        return;
      }
      var s := SessionFind(sid);
      if s.None? {
        return ENOENT;
      }
      res := SendRequest(Header(verb, cseq, s.value.base.UnwrapOr(""), Some(sid), NO_PAIR), u, timeout, out);
    }

    /** `send_teardown` */
    method SendTeardown(resource: string, sid: Id, u: int, timeout: nat, out: Outcome, internally: bool) returns (res: int)
      modifies this
      ensures (Value(), res) == AskTeardown(old(Value()), resource, sid, u, timeout, out, internally)
    {
      hide Send, IsAbsolute, FormatUri, Refusal, ClearTimer, Marked;
      res := Admit(Teardown);
      if res != OK {
        return;
      }
      var s := SessionFind(sid);
      if s.None? {
        return ENOENT;
      }
      if resource != "" && !IsAbsolute(resource) && s.value.base.None? {
        header, userdata := NO_HEADER.(verb := Teardown), u;
        return EINVAL;
      }
      var b := s.value.base.UnwrapOr("");
      var uri := if resource == "" then b else FormatUri(b, resource);
      res := SendRequest(Header(Teardown, cseq, uri, Some(sid), NO_PAIR), u, timeout, out);
      if res != OK {
        return;
      }
      SessionUpdate(sid, s.value.(internalTeardown := internally));
      isInternal := internally;
    }

    /** The part of `rtsp_client_setup` from the channels on. */
    method SendSetupRequest(h: Header, t: Transport, u: int, timeout: nat, out: Outcome) returns (res: int)
      requires Valid() && SearchEnds(Value(), t)
      modifies this, channelUsed
      ensures (Value(), res) == SendSetup(old(Value()), h, t, u, timeout, out)
    {
      header, userdata := h.(sid := None), u;
      if out == Unauthorised {
        return NOT_SENT;
      }
      if t.OverUdp? {
        res := SendRequest(h, u, timeout, out);
        return;
      }
      var unused := CountUnused(channelUsed);
      if unused < 2 {
        return E2BIG;
      }
      var p := AllocateChannels(channelUsed, t.pair);
      if p.None? {
        return EEXIST;
      }
      res := SendRequest(h.(pair := p.value), u, timeout, out);
    }

    /** `rtsp_client_setup` */
    method SetupCall(contentBase: string, resource: string, sid: Option<Id>, t: Transport, u: int, timeout: nat, out: Outcome)
      returns (res: int)
      requires Valid() && SearchEnds(Value(), t)
      modifies this, channelUsed
      ensures (Value(), res) == AskSetup(old(Value()), contentBase, resource, sid, t, u, timeout, out)
    {
      hide SendSetup, Refusal, FormatUri, Url.StripCredentials, FirstFree;
      if !PortsOk(t) {
        return EINVAL;
      }
      res := Admit(Setup);
      if res != OK {
        return;
      }
      var stripped := Url.StripCredentials(contentBase);
      if stripped.Failure? {
        return EINVAL;
      }
      if sid.Some? {
        var s := SessionFind(sid.value);
        if s.None? {
          return ENOENT;
        }
        if s.value.base != Some(stripped.value) {
          return EINVAL;
        }
      }
      base := Some(stripped.value);
      res := SendSetupRequest(Header(Setup, cseq, FormatUri(stripped.value, resource), sid, NO_PAIR), t, u, timeout, out);
    }

    method KeepAliveFails(sid: Id, s: Session) returns (res: int)
      requires Valid()
      modifies this, channelUsed
      ensures (Value(), res) == KeepAliveOffline(old(Value()), sid, s)
    {
      hide RemoveSession;
      SessionUpdate(sid, s.(failed := s.failed + 1));
      if s.failed + 1 >= MAX_FAILED_KEEP_ALIVE {
        var gone := SessionRemove(sid);
        return EPIPE;
      }
      return EAGAIN;
    }

    method KeepAliveSend(sid: Id, s: Session, out: Outcome) returns (res: int)
      modifies this
      ensures (Value(), res) == SendKeepAlive(old(Value()), sid, s, out)
    {
      hide Marked;
      header := Header(GetParameter, cseq, s.base.UnwrapOr(""), if out == Unauthorised then None else Some(sid), NO_PAIR);
      if out == Unauthorised || out == Unsent {
        return NOT_SENT;
      }
      armed := true;
      log := log + [Issued(header.verb, header.cseq)];
      SessionUpdate(sid, s.(keepAlive := true));
      pending := true;
      cseq := cseq + 1;
      return OK;
    }

    /** `send_keep_alive` */
    method KeepAliveCall(sid: Id, out: Outcome) returns (res: int)
      requires Valid()
      modifies this, channelUsed
      ensures (Value(), res) == KeepAlive(old(Value()), sid, out)
    {
      hide KeepAliveOffline, SendKeepAlive;
      var s := SessionFind(sid);
      if s.None? {
        return ENOENT;
      }
      if !(allowed == {} || GetParameter in allowed) {
        return ENOSYS;
      }
      if conn != Connected {
        res := KeepAliveFails(sid, s.value);
      } else if s.value.keepAlive || pending {
        res := EBUSY;
      } else {
        res := KeepAliveSend(sid, s.value, out);
      }
    }

    // --- completing the pending request ---

    /** `rtsp_client_get_session` and what a response updates in the session. */
    method TouchSession(verb: Verb, sid: Option<Id>)
      modifies this
      ensures Value() == Touch(old(Value()), verb, sid)
    {
      if sid.None? {
        return;
      }
      var found := SessionFind(sid.value);
      if found.None? {
        if verb != Setup {
          return;
        }
        sessions := sessions + [Node(sid.value, NewSession())];
      }
      var s := found.UnwrapOr(NewSession());
      if base.Some? && s.base.None? {
        s := s.(base := base);
      }
      sessions := Put(sessions, sid.value, s.(keepAlive := false));
      base := None;
    }

    method Notify(h: Header, u: int, status: Status)
      modifies this
      ensures Value() == Report(old(Value()), h, u, status)
    {
      log := log + [Completed(h.verb, h.cseq, u, status)];
    }

    /** `rtsp_client_session_media_add` for the path of a SETUP. */
    method MediaAdd(sid: Option<Id>, uri: string, pair: Pair)
      modifies this
      ensures Value() == MediaSetUp(old(Value()), sid, uri, pair)
    {
      hide PathOf;
      var parsed := PathOf(uri);
      if sid.None? || parsed.None? || parsed.value.None? {
        return;
      }
      var s := SessionFind(sid.value);
      if s.None? {
        return;
      }
      var known := MediaFind(s.value.medias, parsed.value.value);
      if known.None? {
        SessionUpdate(sid.value, AddMedia(s.value, Media(parsed.value.value, pair)));
      }
    }

    /** `setup_request_complete` */
    method SetupRequestComplete(h: Header, u: int, sid: Option<Id>, r: Reply, status: Status)
      requires Valid()
      modifies this, channelUsed
      ensures Value() == SetupCompleted(old(Value()), h, u, sid, r, status)
    {
      hide MediaSetUp;
      if status != Ok {
        SetPairUsed(channelUsed, h.pair, false);
        Notify(h, u, status);
        return;
      }
      if r.tcp {
        if h.pair != r.pair {
          SetPairUsed(channelUsed, h.pair, false);
        }
        SetPairUsed(channelUsed, r.pair, true);
      }
      Notify(h, u, status);
      MediaAdd(sid, h.uri, if r.tcp then r.pair else NO_PAIR);
    }

    /** What the URL of a TEARDOWN names: a media, or the whole session. */
    method TargetFind(s: Session, uri: string) returns (target: Option<Option<nat>>)
      ensures target == TeardownTarget(s, uri)
    {
      hide PathOf;
      var path := PathOf(uri);
      if s.base.None? || path.None? || PathOf(s.base.value).None? {
        return None;
      }
      var media := None;
      if path.value.Some? {
        media := MediaFind(s.medias, path.value.value);
      }
      var whole := path.value.UnwrapOr("") == PathOf(s.base.value).value.UnwrapOr("");
      return if media.None? && !whole then None else Some(media);
    }

    /** `teardown_request_complete` */
    method TeardownRequestComplete(h: Header, u: int, sid: Option<Id>, status: Status, wasGone: bool) returns (gone: bool)
      requires Valid()
      modifies this, channelUsed
      ensures (Value(), gone) == TeardownCompleted(old(Value()), h, u, sid, status, wasGone)
    {
      hide TeardownTarget, ReleaseMedia, Report, Marked;
      var found := None;
      if sid.Some? {
        found := SessionFind(sid.value);
      }
      if found.None? {
        if !isInternal {
          Notify(h, u, status);
        }
        return wasGone;
      }
      var s := found.value;
      var target := TargetFind(s, h.uri);
      if target.None? {
        return wasGone;
      }
      if !s.internalTeardown {
        Notify(h, u, status);
        isInternal := false;
      }
      if target.value.None? {
        return true;
      }
      MediaRelease(sid.value, s, target.value.value);
      return s.mediaCount - 1 == 0;
    }

    /** The end of a keep-alive. */
    method KeepAliveComplete(sid: Option<Id>, status: Status, env: Env) returns (tearDown: bool)
      requires Valid()
      modifies this, channelUsed
      ensures (Value(), tearDown) == KeepAliveCompleted(old(Value()), sid, status, env)
    {
      hide KeepAlive;
      var found := None;
      if sid.Some? {
        found := SessionFind(sid.value);
      }
      if found.None? {
        return false;
      }
      var s := found.value;
      if status != TimedOut {
        SessionUpdate(sid.value, s.(failed := 0));
        return false;
      }
      SessionUpdate(sid.value, s.(failed := s.failed + 1));
      if s.failed + 1 >= MAX_FAILED_KEEP_ALIVE {
        return true;
      }
      var res := KeepAliveCall(sid.value, env.keepAlive);
      return false;
    }

    /** After the third unanswered keep-alive, a TEARDOWN the user did not ask for. */
    method KeepAliveDispatch(sid: Option<Id>, wasGone: bool, status: Status, env: Env) returns (gone: bool)
      requires Valid()
      modifies this, channelUsed
      ensures (Value(), gone) == KeepAliveDelivered(old(Value()), sid, wasGone, status, env)
    {
      hide KeepAliveCompleted, AskTeardown;
      var tearDown := KeepAliveComplete(sid, status, env);
      if !tearDown {
        return wasGone;
      }
      var res := SendTeardown("", sid.UnwrapOr(0), 0, 1, env.teardown, true);
      return wasGone || res != OK;
    }

    /** The dispatch of `request_complete` on the method of the request. */
    method Dispatch(h: Header, u: int, sid: Option<Id>, r: Reply, status: Status, env: Env) returns (gone: bool)
      requires Valid()
      modifies this, channelUsed
      ensures (Value(), gone) == Deliver(old(Value()), h, u, sid, r, status, env)
    {
      hide SetupCompleted, TeardownCompleted, KeepAliveDelivered, Report, Marked;
      gone := r.code == STATUS_SESSION_NOT_FOUND;
      if h.verb == Setup {
        SetupRequestComplete(h, u, sid, r, status);
      } else if h.verb == Teardown {
        gone := TeardownRequestComplete(h, u, sid, status, gone);
      } else if h.verb == GetParameter {
        gone := KeepAliveDispatch(sid, gone, status, env);
      } else if h.verb != NoVerb {
        if h.verb == Options {
          allowed := r.methods;
        }
        Notify(h, u, status);
      }
    }

    /** `request_complete` up to its last step. */
    method SettleRequest(r: Reply, status: Status, env: Env)
      requires Valid()
      modifies this, channelUsed
      ensures Value() == Settle(old(Value()), r, status, env)
    {
      hide Deliver, Touch, RemoveSession;
      var h, u := header, userdata;
      var sid := if r.sid.Some? then r.sid else h.sid;
      header, userdata, pending, armed := NO_HEADER, 0, false, false;
      TouchSession(h.verb, sid);
      var gone := Dispatch(h, u, sid, r, FinalStatus(status, r.code), env);
      if gone && sid.Some? {
        var res := SessionRemove(sid.value);
      }
    }

    method AbortRequest(env: Env)
      requires Valid()
      modifies this, channelUsed
      ensures Value() == Abort(old(Value()), env)
    {
      hide Settle;
      if pending {
        SettleRequest(NoReply(header.sid, Aborted), Aborted, env);
        failed := 0;
      }
    }

    /** The disconnection event of `tskt_client_event_cb`. */
    method OnDisconnected(env: Env)
      requires Valid()
      modifies this, channelUsed
      ensures Value() == ConnectionLost(old(Value()), env)
    {
      hide Abort;
      if conn == Disconnecting {
        AbortRequest(env);
        conn := Disconnected;
      } else if conn == Connected {
        AbortRequest(env);
        conn := Connecting;
      }
    }

    /** `request_complete` */
    method RequestComplete(r: Reply, status: Status, env: Env)
      requires Valid()
      modifies this, channelUsed
      ensures Value() == Complete(old(Value()), r, status, env)
    {
      hide Settle, ConnectionLost;
      if !pending {
        return;
      }
      SettleRequest(r, status, env);
      if status != TimedOut {
        failed := 0;
        return;
      }
      failed := failed + 1;
      if failed >= MAX_FAILED_REQUESTS {
        if env.stopFires {
          OnDisconnected(env);
        }
        conn := Connecting;
      }
    }

    // --- events ---

    /** `rtsp_client_response_process` */
    method ResponseProcess(number: nat, r: Reply, env: Env) returns (res: int)
      requires Valid()
      modifies this, channelUsed
      ensures (Value(), res) == Respond(old(Value()), number, r, env)
    {
      hide Complete;
      if number == header.cseq {
        RequestComplete(r, Ok, env);
        return OK;
      }
      for i := 0 to |sessions|
        invariant Value() == old(Value()) && FirstKeepAlive(sessions) == FirstKeepAlive(sessions[i..])
      {
        assert sessions[i..][1..] == sessions[i + 1..];
        if sessions[i].val.keepAlive {
          var sid := sessions[i].id;
          assert FirstKeepAlive(sessions) == Some(sid);
          var s := SessionFind(sid);
          assert Has(sessions, sid);
          SessionUpdate(sid, s.value.(keepAlive := false));
          return OK;
        }
      }
      return EPROTO;
    }

    /** `teardown_request_process` */
    method TeardownRequestProcess(sid: Id, uri: string) returns (res: int)
      requires Valid()
      modifies this, channelUsed
      ensures (Value(), res) == ServerTeardown(old(Value()), sid, uri)
    {
      hide PathOf, ReleaseMedia, RemoveSession;
      var s := SessionFind(sid);
      if s.None? {
        return ENOENT;
      }
      var path := PathOf(uri);
      if path.None? || path.value.None? {
        return EINVAL;
      }
      var media := None;
      if Some(uri) != s.value.base {
        media := MediaFind(s.value.medias, path.value.value);
      }
      var gone := media.None?;
      if media.Some? {
        MediaRelease(sid, s.value, media.value);
        gone := s.value.mediaCount - 1 == 0;
      }
      if gone {
        var removed := SessionRemove(sid);
      }
      return OK;
    }

    /** The connection event: every session tries a keep-alive. */
    method OnConnected(outs: seq<Outcome>)
      requires Valid()
      modifies this, channelUsed
      ensures Value() == Probe(old(Value()).(conn := Connected), old(sessions), outs)
    {
      hide KeepAlive;
      conn := Connected;
      ghost var start := Value();
      var l := sessions;
      var rest := outs;
      for i := 0 to |l|
        invariant Probe(Value(), l[i..], rest) == Probe(start, l, outs)
      {
        assert l[i..][1..] == l[i + 1..];
        var res := KeepAliveCall(l[i].id, if rest == [] then Written else rest[0]);
        rest := if rest == [] then [] else rest[1..];
      }
    }

    /** `rtsp_client_disconnect` */
    method DisconnectCall(env: Env) returns (res: int)
      requires Valid()
      modifies this, channelUsed
      ensures (Value(), res) == Disconnect(old(Value()), env)
    {
      hide Abort, RemoveSessions;
      if conn == Disconnected {
        return EPROTO;
      }
      if conn == Disconnecting {
        return OK;
      }
      var alreadyDisconnected := conn == Connecting;
      conn := Disconnecting;
      if alreadyDisconnected {
        AbortRequest(env);
        conn := Disconnected;
      } else if env.stopFires {
        OnDisconnected(env);
      }
      RemoveAllSessions();
      return OK;
    }
  }
}
