/** What holds in every run of the client: how often a request is completed. */
module ClientRuns {
  import opened Wrappers
  import opened Lists
  import opened Channels
  import opened ClientState

  /** How often the request with this sequence number was completed. */
  function Count(log: seq<Entry>, k: nat): nat {
    if log == [] then 0
    else
      var last := log[|log| - 1];
      Count(log[..|log| - 1], k) + if last.Completed? && last.cseq == k then 1 else 0
  }

  lemma CountAppend(log: seq<Entry>, e: Entry, k: nat)
    ensures Count(log + [e], k) == Count(log, k) + if e.Completed? && e.cseq == k then 1 else 0
  {
    assert (log + [e])[..|log|] == log;
  }

  lemma {:induction false} CountGrows(a: seq<Entry>, b: seq<Entry>, k: nat)
    requires a <= b
    ensures Count(a, k) <= Count(b, k)
    decreases |b|
  {
    if a == b {
    } else {
      CountGrows(a, b[..|b| - 1], k);
    }
  }

  // --- at most once ---

  predicate Waiting(c: Client, k: nat) { c.pending && c.header.cseq == k }

  /** Completions that happened and the one that may still happen. */
  function Load(c: Client, k: nat): nat { Count(c.log, k) + if Waiting(c, k) then 1 else 0 }

  /** From `c` to `t` no completion of request `k` is added to those to be expected. */
  ghost predicate NoMore(c: Client, t: Client, k: nat) {
    c.cseq <= t.cseq && c.log <= t.log && Load(t, k) <= Load(c, k)
  }

  /** The log and the slot stay as they are. */
  ghost predicate SameSlot(c: Client, t: Client) {
    t.log == c.log && t.pending == c.pending && t.header == c.header && t.cseq == c.cseq
  }

  lemma NoMoreSelf(c: Client, k: nat)
    ensures NoMore(c, c, k)
  {
  }

  lemma NoMoreThen(c: Client, d: Client, t: Client, k: nat)
    requires NoMore(c, d, k) && NoMore(d, t, k)
    ensures NoMore(c, t, k)
  {
  }

  lemma PutNoMore(c: Client, d: Client, sid: Id, s: Session, k: nat)
    requires NoMore(c, d, k)
    ensures NoMore(c, SetSession(d, sid, s), k)
  {
  }

  lemma RemoveNoMore(c: Client, sid: Id, k: nat)
    ensures NoMore(c, RemoveSession(c, sid), k)
  {
    CountAppend(c.log, Removed(sid), k);
  }

  lemma {:induction false} RemoveSessionsNoMore(c: Client, l: List<Session>, k: nat)
    ensures NoMore(c, RemoveSessions(c, l), k)
    decreases |l|
  {
    if l != [] {
      RemoveNoMore(c, l[0].id, k);
      RemoveSessionsNoMore(RemoveSession(c, l[0].id), l[1..], k);
    }
  }

  lemma SendNoMore(c: Client, h: Header, userdata: int, timeout: nat, out: Outcome, k: nat)
    requires h.cseq == c.cseq > k
    ensures NoMore(c, Send(c, h, userdata, timeout, out).0, k)
  {
    CountAppend(c.log, Issued(h.verb, h.cseq), k);
  }

  lemma AskNoMore(c: Client, verb: Verb, uri: string, sid: Id, userdata: int, timeout: nat, out: Outcome, k: nat)
    requires k < c.cseq
    ensures NoMore(c, Ask(c, verb, uri, sid, userdata, timeout, out).0, k)
  {
    hide Send, AnyKeepAlive;
    var d := ClearTimer(c);
    assert SameSlot(c, d);
    SendNoMore(d, Header(verb, d.cseq, uri, None, NO_PAIR), userdata, timeout, out, k);
    var s := Find(d.sessions, sid).UnwrapOr(NewSession());
    SendNoMore(d, Header(verb, d.cseq, s.base.UnwrapOr(""), Some(sid), NO_PAIR), userdata, timeout, out, k);
  }

  lemma AskTeardownNoMore(c: Client, resource: string, sid: Id, userdata: int, timeout: nat, out: Outcome, internally: bool, k: nat)
    requires 0 < k < c.cseq
    ensures NoMore(c, AskTeardown(c, resource, sid, userdata, timeout, out, internally).0, k)
  {
    hide Send, AnyKeepAlive, FormatUri, IsAbsolute;
    var d := ClearTimer(c);
    assert SameSlot(c, d);
    var base := Find(d.sessions, sid).UnwrapOr(NewSession()).base.UnwrapOr("");
    var h := Header(Teardown, d.cseq, if resource == "" then base else FormatUri(base, resource), Some(sid), NO_PAIR);
    SendNoMore(d, h, userdata, timeout, out, k);
  }

  lemma AskSetupNoMore(c: Client, base: string, resource: string, sid: Option<Id>, t: Transport, userdata: int,
                       timeout: nat, out: Outcome, k: nat)
    requires SearchEnds(c, t) && k < c.cseq
    ensures NoMore(c, AskSetup(c, base, resource, sid, t, userdata, timeout, out).0, k)
  {
    hide SendSetup, AnyKeepAlive, FormatUri, Url.StripCredentials;
    var d := ClearTimer(c);
    assert SameSlot(c, d);
    var stripped := Url.StripCredentials(base);
    if stripped.Success? {
      var h := Header(Setup, d.cseq, FormatUri(stripped.value, resource), sid, NO_PAIR);
      SendSetupNoMore(d.(base := Some(stripped.value)), h, t, userdata, timeout, out, k);
    }
  }

  lemma SendSetupNoMore(c: Client, h: Header, t: Transport, userdata: int, timeout: nat, out: Outcome, k: nat)
    requires SearchEnds(c, t) && h.cseq == c.cseq > k
    ensures NoMore(c, SendSetup(c, h, t, userdata, timeout, out).0, k)
  {
    hide Send, Allocate;
    SendNoMore(c, h, userdata, timeout, out, k);
    if t.OverTcp? && CHANNELS - |c.used| >= 2 {
      var a := Allocate(c.used, t.pair);
      if a.Some? {
        SendNoMore(c.(used := c.used + Both(a.value)), h.(pair := a.value), userdata, timeout, out, k);
      }
    }
  }

  lemma KeepAliveNoMore(c: Client, sid: Id, out: Outcome, k: nat)
    requires k < c.cseq
    ensures NoMore(c, KeepAlive(c, sid, out).0, k)
  {
    hide RemoveSession, NoMore, AnyKeepAlive, Allowed, Issue, Prepare, SetSession;
    NoMoreSelf(c, k);
    if Find(c.sessions, sid).Some? {
      var s := Find(c.sessions, sid).value;
      RemoveNoMore(SetSession(c, sid, s.(failed := s.failed + 1)), sid, k);
      PutNoMore(c, c, sid, s.(failed := s.failed + 1), k);
      NoMoreThen(c, SetSession(c, sid, s.(failed := s.failed + 1)), RemoveSession(SetSession(c, sid, s.(failed := s.failed + 1)), sid), k);
      var h := Header(GetParameter, c.cseq, s.base.UnwrapOr(""), Some(sid), NO_PAIR);
      SendNoMore(c, h, c.userdata, 1, Unauthorised, k);
      SendNoMore(c, h, c.userdata, 1, Unsent, k);
      SendNoMore(c, h, c.userdata, 1, Written, k);
      var d := Issue(Prepare(c, h, c.userdata), 1);
      PutNoMore(c, d, sid, s.(keepAlive := true), k);
    }
  }

  lemma {:induction false} ProbeNoMore(c: Client, l: List<Session>, outs: seq<Outcome>, k: nat)
    requires k < c.cseq
    ensures NoMore(c, Probe(c, l, outs), k)
    decreases |l|
  {
    if l != [] {
      var out := if outs == [] then Written else outs[0];
      KeepAliveNoMore(c, l[0].id, out, k);
      ProbeNoMore(KeepAlive(c, l[0].id, out).0, l[1..], if outs == [] then [] else outs[1..], k);
    }
  }

  /** At most the report of the request `h` is added, and the slot stays as it was. */
  ghost predicate Reports(c: Client, t: Client, h: Header, userdata: int, status: Status) {
    && t.pending == c.pending && t.header == c.header && t.cseq == c.cseq
    && (t.log == c.log || t.log == c.log + [Completed(h.verb, h.cseq, userdata, status)])
  }

  lemma SetupReports(c: Client, h: Header, userdata: int, sid: Option<Id>, r: Reply, status: Status)
    ensures Reports(c, SetupCompleted(c, h, userdata, sid, r, status), h, userdata, status)
    ensures SetupCompleted(c, h, userdata, sid, r, status).log == c.log + [Completed(h.verb, h.cseq, userdata, status)]
  {
    hide PathOf, FindMedia;
  }

  lemma TeardownReports(c: Client, h: Header, userdata: int, sid: Option<Id>, status: Status, gone: bool)
    ensures Reports(c, TeardownCompleted(c, h, userdata, sid, status, gone).0, h, userdata, status)
  {
    hide TeardownTarget, ReleaseMedia;
    if sid.Some? && Find(c.sessions, sid.value).Some? {
      var s := Find(c.sessions, sid.value).value;
      var media := TeardownTarget(s, h.uri);
      if media.Some? && media.value.Some? {
        ReleaseSameSlot(c, sid.value, s, media.value.value);
        ReleaseSameSlot(Report(c, h, userdata, status).(isInternal := false), sid.value, s, media.value.value);
      }
    }
  }

  lemma ReleaseSameSlot(c: Client, sid: Id, s: Session, i: nat)
    requires i < |s.medias|
    ensures SameSlot(c, ReleaseMedia(c, sid, s, i))
  {
  }

  lemma KeepAliveCompletedNoMore(c: Client, sid: Option<Id>, status: Status, env: Env, k: nat)
    requires k < c.cseq
    ensures NoMore(c, KeepAliveCompleted(c, sid, status, env).0, k)
  {
    hide KeepAlive;
    if sid.Some? && Find(c.sessions, sid.value).Some? {
      var s := Find(c.sessions, sid.value).value;
      KeepAliveNoMore(SetSession(c, sid.value, s.(failed := s.failed + 1)), sid.value, env.keepAlive, k);
    }
  }

  lemma DeliverNoMore(c: Client, h: Header, userdata: int, sid: Option<Id>, r: Reply, status: Status, env: Env, k: nat)
    requires 0 < k < c.cseq
    ensures var t := Deliver(c, h, userdata, sid, r, status, env).0;
            c.cseq <= t.cseq && c.log <= t.log && Load(t, k) <= Load(c, k) + if h.cseq == k then 1 else 0
  {
    hide SetupCompleted, TeardownCompleted, KeepAliveCompleted, AskTeardown, Load;
    SetupReports(c, h, userdata, sid, r, status);
    TeardownReports(c, h, userdata, sid, status, r.code == STATUS_SESSION_NOT_FOUND);
    if h.verb == GetParameter {
      KeepAliveCompletedNoMore(c, sid, status, env, k);
      AskTeardownNoMore(KeepAliveCompleted(c, sid, status, env).0, "", sid.UnwrapOr(0), 0, 1, env.teardown, true, k);
    } else {
      ReportLoad(c, Deliver(c, h, userdata, sid, r, status, env).0, h, userdata, status, k);
    }
  }

  lemma ReportLoad(c: Client, t: Client, h: Header, userdata: int, status: Status, k: nat)
    ensures Reports(c, t, h, userdata, status) ==>
              c.cseq <= t.cseq && c.log <= t.log && Load(t, k) <= Load(c, k) + if h.cseq == k then 1 else 0
  {
    CountAppend(c.log, Completed(h.verb, h.cseq, userdata, status), k);
  }

  lemma SettleNoMore(c: Client, r: Reply, status: Status, env: Env, k: nat)
    requires c.pending && 0 < k < c.cseq
    ensures NoMore(c, Settle(c, r, status, env), k)
  {
    hide Deliver, Touch;
    var sid := if r.sid.Some? then r.sid else c.header.sid;
    var d := c.(header := NO_HEADER, userdata := 0, pending := false, armed := false);
    TouchSameSlot(d, c.header.verb, sid);
    var touched := Touch(d, c.header.verb, sid);
    DeliverNoMore(touched, c.header, c.userdata, sid, r, FinalStatus(status, r.code), env, k);
    var e := Deliver(touched, c.header, c.userdata, sid, r, FinalStatus(status, r.code), env).0;
    RemoveNoMore(e, sid.UnwrapOr(0), k);
  }

  lemma TouchSameSlot(c: Client, verb: Verb, sid: Option<Id>)
    ensures SameSlot(c, Touch(c, verb, sid))
  {
  }

  lemma AbortNoMore(c: Client, env: Env, k: nat)
    requires 0 < k < c.cseq
    ensures NoMore(c, Abort(c, env), k)
  {
    hide Settle;
    if c.pending {
      SettleNoMore(c, NoReply(c.header.sid, Aborted), Aborted, env, k);
    }
  }

  lemma CompleteNoMore(c: Client, r: Reply, status: Status, env: Env, k: nat)
    requires 0 < k < c.cseq
    ensures NoMore(c, Complete(c, r, status, env), k)
  {
    hide Settle, Abort;
    if c.pending {
      SettleNoMore(c, r, status, env, k);
      var d := Settle(c, r, status, env);
      AbortNoMore(d.(failed := d.failed + 1), env, k);
    }
  }

  lemma DisconnectNoMore(c: Client, env: Env, k: nat)
    requires 0 < k < c.cseq
    ensures NoMore(c, Disconnect(c, env).0, k)
  {
    hide Abort, RemoveSessions;
    var closing := c.(conn := Disconnecting);
    AbortNoMore(closing, env, k);
    var d := Abort(closing, env).(conn := Disconnected);
    RemoveSessionsNoMore(d, d.sessions, k);
    RemoveSessionsNoMore(closing, closing.sessions, k);
  }

  lemma LostNoMore(c: Client, env: Env, k: nat)
    requires 0 < k < c.cseq
    ensures NoMore(c, ConnectionLost(c, env), k)
  {
    hide Abort;
    AbortNoMore(c, env, k);
  }

  lemma UpNoMore(c: Client, outs: seq<Outcome>, k: nat)
    requires 0 < k < c.cseq
    ensures NoMore(c, Probe(c.(conn := Connected), c.sessions, outs), k)
  {
    hide Probe;
    ProbeNoMore(c.(conn := Connected), c.sessions, outs, k);
  }

  lemma TimeoutNoMore(c: Client, env: Env, k: nat)
    requires 0 < k < c.cseq
    ensures NoMore(c, Complete(c.(armed := false), NoReply(c.header.sid, TimedOut), TimedOut, env), k)
  {
    hide Complete;
    CompleteNoMore(c.(armed := false), NoReply(c.header.sid, TimedOut), TimedOut, env, k);
  }

  lemma RespondNoMore(c: Client, cseq: nat, r: Reply, env: Env, k: nat)
    requires 0 < k < c.cseq
    ensures NoMore(c, Respond(c, cseq, r, env).0, k)
  {
    hide Complete;
    CompleteNoMore(c, r, Ok, env, k);
  }

  lemma ConnectNoMore(c: Client, conn: Conn, k: nat)
    ensures NoMore(c, c.(conn := conn), k)
  {
  }

  lemma StepNoMore(c: Client, e: Event, k: nat)
    requires Enabled(c, e) && 0 < k < c.cseq
    ensures NoMore(c, Step(c, e).0, k)
  {
    hide NoMore, Ask, AskTeardown, AskSetup, KeepAlive, Probe, Complete, ConnectionLost, Disconnect, RemoveSession, Respond,
         ServerTeardown, NoReply;
    match e
    case ConnectCall =>
      NoMoreSelf(c, k);
      ConnectNoMore(c, Connecting, k);
    case ConnectFailed => ConnectNoMore(c, Disconnected, k);
    case Up(outs) => UpNoMore(c, outs, k);
    case Down(env) => LostNoMore(c, env, k);
    case DisconnectCall(env) => DisconnectNoMore(c, env, k);
    case Request(verb, uri, sid, userdata, timeout, out) => AskNoMore(c, verb, uri, sid, userdata, timeout, out, k);
    case SetupRequest(base, resource, sid, t, userdata, timeout, out) =>
      AskSetupNoMore(c, base, resource, sid, t, userdata, timeout, out, k);
    case TeardownRequest(resource, sid, userdata, timeout, out) =>
      AskTeardownNoMore(c, resource, sid, userdata, timeout, out, false, k);
    case KeepAliveTimer(sid, out) => KeepAliveNoMore(c, sid, out, k);
    case ResponseTimeout(env) => TimeoutNoMore(c, env, k);
    case Response(cseq, r, env) => RespondNoMore(c, cseq, r, env, k);
    case TeardownFromServer(sid, uri) => ServerTeardownNoMore(c, sid, uri, k);
    case RemoveCall(sid) => RemoveNoMore(c, sid, k);
    case Cancel(env) => CompleteNoMore(c, NoReply(c.header.sid, Canceled), Canceled, env, k);
  }

  lemma ServerTeardownNoMore(c: Client, sid: Id, uri: string, k: nat)
    ensures NoMore(c, ServerTeardown(c, sid, uri).0, k)
  {
    hide PathOf, RemoveSession;
    RemoveNoMore(c, sid, k);
    if Find(c.sessions, sid).Some? {
      var s := Find(c.sessions, sid).value;
      var media := if PathOf(uri).Some? && PathOf(uri).value.Some? then FindMedia(s.medias, PathOf(uri).value.value) else None;
      if media.Some? {
        RemoveNoMore(ReleaseMedia(c, sid, s, media.value), sid, k);
      }
    }
  }

  lemma {:induction false} RunNoMore(c: Client, events: seq<Event>, k: nat)
    requires Run(c, events) && 0 < k < c.cseq
    ensures NoMore(c, After(c, events), k)
    decreases |events|
  {
    hide Step, Enabled;
    if events != [] {
      StepNoMore(c, events[0], k);
      RunNoMore(Step(c, events[0]).0, events[1..], k);
    }
  }

  /** In every run, whatever keep-alives do: once issued, a request is completed at most once. */
  lemma CompletedAtMostOnce(c: Client, events: seq<Event>, k: nat)
    requires Run(c, events) && 0 < k < c.cseq
    ensures Count(After(c, events).log, k) <= Count(c.log, k) + if Waiting(c, k) then 1 else 0
  {
    RunNoMore(c, events, k);
  }
}
