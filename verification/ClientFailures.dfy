/** What failures come to over a run: when the client sets the connection up again, and when it gives a session up. */
module ClientFailures {
  import opened Wrappers
  import opened Lists
  import opened ClientState
  import opened ClientOnce
  import Channels
  import Url

  // --- requests that time out ---

  /** Completing a request changes neither the connection nor the count of timeouts by itself. */
  ghost predicate SameLink(c: Client, t: Client) { t.conn == c.conn && t.failed == c.failed }

  lemma KeepAliveLink(c: Client, sid: Id, out: Outcome)
    ensures SameLink(c, KeepAlive(c, sid, out).0)
  {
  }

  lemma AskTeardownLink(c: Client, resource: string, sid: Id, userdata: int, timeout: nat, out: Outcome, internally: bool)
    ensures SameLink(c, AskTeardown(c, resource, sid, userdata, timeout, out, internally).0)
  {
    hide FormatUri, IsAbsolute, AnyKeepAlive, Send, Refusal;
    var d := ClearTimer(c);
    var base := Find(d.sessions, sid).UnwrapOr(NewSession()).base.UnwrapOr("");
    var uri := if resource == "" then base else FormatUri(base, resource);
    SendLink(d, Header(Teardown, d.cseq, uri, Some(sid), Channels.NO_PAIR), userdata, timeout, out);
  }

  lemma KeepAliveDeliveredLink(c: Client, sid: Option<Id>, gone: bool, status: Status, env: Env)
    ensures SameLink(c, KeepAliveDelivered(c, sid, gone, status, env).0)
  {
    hide KeepAlive, AskTeardown;
    if sid.Some? && Find(c.sessions, sid.value).Some? {
      var s := Find(c.sessions, sid.value).value;
      KeepAliveLink(SetSession(c, sid.value, s.(failed := s.failed + 1)), sid.value, env.keepAlive);
    }
    AskTeardownLink(KeepAliveCompleted(c, sid, status, env).0, "", sid.UnwrapOr(0), 0, 1, env.teardown, true);
  }

  lemma SetupLink(c: Client, h: Header, userdata: int, sid: Option<Id>, r: Reply, status: Status)
    ensures SameLink(c, SetupCompleted(c, h, userdata, sid, r, status))
  {
    hide PathOf;
  }

  lemma TeardownLink(c: Client, h: Header, userdata: int, sid: Option<Id>, status: Status, gone: bool)
    ensures SameLink(c, TeardownCompleted(c, h, userdata, sid, status, gone).0)
  {
    hide TeardownTarget, ReleaseMedia;
    if sid.Some? && Find(c.sessions, sid.value).Some? {
      var s := Find(c.sessions, sid.value).value;
      var media := TeardownTarget(s, h.uri);
      if media.Some? && media.value.Some? {
        var d := if s.internalTeardown then c else Report(c, h, userdata, status).(isInternal := false);
        ReleaseLink(d, sid.value, s, media.value.value);
      }
    }
  }

  lemma ReleaseLink(c: Client, sid: Id, s: Session, i: nat)
    requires i < |s.medias|
    ensures SameLink(c, ReleaseMedia(c, sid, s, i))
  {
  }

  lemma SettleLink(c: Client, r: Reply, status: Status, env: Env)
    ensures SameLink(c, Settle(c, r, status, env))
  {
    hide Touch, SetupCompleted, TeardownCompleted, KeepAliveDelivered, RemoveSession;
    var sid := if r.sid.Some? then r.sid else c.header.sid;
    var d := c.(header := NO_HEADER, userdata := 0, pending := false, armed := false);
    TouchUnflagged(d, c.header.verb, sid);
    var e := Touch(d, c.header.verb, sid);
    var final := FinalStatus(status, r.code);
    SetupLink(e, c.header, c.userdata, sid, r, final);
    TeardownLink(e, c.header, c.userdata, sid, final, r.code == STATUS_SESSION_NOT_FOUND);
    KeepAliveDeliveredLink(e, sid, r.code == STATUS_SESSION_NOT_FOUND, final, env);
    RemoveLink(Deliver(e, c.header, c.userdata, sid, r, final, env).0, sid.UnwrapOr(0));
  }

  lemma RemoveLink(c: Client, sid: Id)
    ensures SameLink(c, RemoveSession(c, sid))
  {
  }

  lemma {:induction false} RemoveSessionsLink(c: Client, l: List<Session>)
    ensures SameLink(c, RemoveSessions(c, l))
    decreases |l|
  {
    hide RemoveSession;
    if l != [] {
      RemoveLink(c, l[0].id);
      RemoveSessionsLink(RemoveSession(c, l[0].id), l[1..]);
    }
  }

  lemma {:induction false} ProbeLink(c: Client, l: List<Session>, outs: seq<Outcome>)
    ensures SameLink(c, Probe(c, l, outs))
    decreases |l|
  {
    hide KeepAlive;
    if l != [] {
      var out := if outs == [] then Written else outs[0];
      KeepAliveLink(c, l[0].id, out);
      ProbeLink(KeepAlive(c, l[0].id, out).0, l[1..], if outs == [] then [] else outs[1..]);
    }
  }

  /** What is left when the pending request has timed out; a keep-alive may have been sent again, or a TEARDOWN. */
  function TimedOutState(c: Client, env: Env): Client {
    Settle(c.(armed := false), NoReply(c.header.sid, TimedOut), TimedOut, env)
  }

  /** The reconnection aborts what was sent meanwhile. */
  predicate AbortsAgain(c: Client, env: Env) {
    c.failed + 1 >= 5 && env.stopFires && c.conn in {Connected, Disconnecting} && TimedOutState(c, env).pending
  }

  /** How the requests that an event completes end. */
  function Ends(c: Client, e: Event): seq<Status> {
    if !c.pending || Completion(c, e).None? then []
    else if e.ResponseTimeout? then if AbortsAgain(c, e.env) then [TimedOut, Aborted] else [TimedOut]
    else [Completion(c, e).value.1]
  }

  /** The timeouts in a row, `n` of them having come before. */
  function Streak(n: nat, ends: seq<Status>): nat
    decreases |ends|
  {
    if ends == [] then n else Streak(if ends[0] == TimedOut then n + 1 else 0, ends[1..])
  }

  function RunEnds(c: Client, events: seq<Event>): seq<Status>
    requires Run(c, events)
    decreases |events|
  {
    if events == [] then [] else Ends(c, events[0]) + RunEnds(Step(c, events[0]).0, events[1..])
  }

  lemma {:induction false} StreakAppend(n: nat, a: seq<Status>, b: seq<Status>)
    ensures Streak(n, a + b) == Streak(Streak(n, a), b)
    decreases |a|
  {
    if a == [] {
      assert a + b == b;
    } else {
      assert (a + b)[1..] == a[1..] + b;
      StreakAppend(if a[0] == TimedOut then n + 1 else 0, a[1..], b);
    }
  }

  /** The streak is as long as the timeouts at the end. */
  lemma {:induction false} StreakAtEnd(ends: seq<Status>, k: nat)
    ensures Streak(0, ends) >= k <==> k <= |ends| && forall i :: |ends| - k <= i < |ends| ==> ends[i] == TimedOut
    decreases |ends|
  {
    if ends == [] {
    } else {
      var init, last := ends[..|ends| - 1], ends[|ends| - 1];
      assert ends == init + [last];
      StreakAppend(0, init, [last]);
      assert [last][1..] == [];
      if k > 0 {
        StreakAtEnd(init, k - 1);
        assert last != TimedOut ==> ends[|ends| - 1] != TimedOut;
      }
    }
  }

  lemma AbortLink(c: Client, env: Env)
    ensures var t := Abort(c, env); t.conn == c.conn && t.failed == if c.pending then 0 else c.failed
  {
    hide Settle;
    SettleLink(c, NoReply(c.header.sid, Aborted), Aborted, env);
  }

  lemma CompleteLink(c: Client, r: Reply, status: Status, env: Env)
    ensures var t := Complete(c, r, status, env);
            && (!c.pending ==> SameLink(c, t)) && (c.pending && status != TimedOut ==> t.conn == c.conn && t.failed == 0)
  {
    hide Settle, Reconnect;
    SettleLink(c, r, status, env);
  }

  lemma TimeoutLink(c: Client, env: Env)
    requires c.pending
    ensures var t := Complete(c.(armed := false), NoReply(c.header.sid, TimedOut), TimedOut, env);
            && t.conn == (if c.failed + 1 >= 5 then Connecting else c.conn)
            && t.failed == if AbortsAgain(c, env) then 0 else c.failed + 1
  {
    hide Settle, Abort;
    var d := TimedOutState(c, env);
    SettleLink(c.(armed := false), NoReply(c.header.sid, TimedOut), TimedOut, env);
    AbortLink(d.(failed := d.failed + 1), env);
  }

  lemma DisconnectLink(c: Client, env: Env)
    ensures var t := Disconnect(c, env).0;
            t.failed == (if c.pending && Completion(c, DisconnectCall(env)).Some? then 0 else c.failed) && (c.conn == Connected ==> t.conn != Connecting)
  {
    hide Abort, RemoveSessions;
    var closing := c.(conn := Disconnecting);
    AbortLink(closing, env);
    var d := Abort(closing, env).(conn := Disconnected);
    RemoveSessionsLink(d, d.sessions);
    RemoveSessionsLink(closing, closing.sessions);
  }

  lemma SendLink(c: Client, h: Header, userdata: int, timeout: nat, out: Outcome)
    ensures SameLink(c, Send(c, h, userdata, timeout, out).0)
  {
  }

  lemma AskLink(c: Client, verb: Verb, uri: string, sid: Id, userdata: int, timeout: nat, out: Outcome)
    ensures SameLink(c, Ask(c, verb, uri, sid, userdata, timeout, out).0)
  {
    hide AnyKeepAlive, Send, Refusal;
    var d := ClearTimer(c);
    SendLink(d, Header(verb, d.cseq, uri, None, Channels.NO_PAIR), userdata, timeout, out);
    var base := Find(d.sessions, sid).UnwrapOr(NewSession()).base.UnwrapOr("");
    SendLink(d, Header(verb, d.cseq, base, Some(sid), Channels.NO_PAIR), userdata, timeout, out);
  }

  lemma SendSetupLink(c: Client, h: Header, t: Transport, userdata: int, timeout: nat, out: Outcome)
    requires SearchEnds(c, t)
    ensures SameLink(c, SendSetup(c, h, t, userdata, timeout, out).0)
  {
    hide Channels.Allocate, Channels.FirstFree;
  }

  lemma AskSetupLink(c: Client, e: Event)
    requires e.SetupRequest? && SearchEnds(c, e.transport)
    ensures SameLink(c, AskSetup(c, e.base, e.resource, e.known, e.transport, e.userdata, e.timeout, e.out).0)
  {
    hide FormatUri, Url.StripCredentials, SendSetup, AnyKeepAlive, Refusal, Channels.FirstFree;
    var d := ClearTimer(c);
    var stripped := Url.StripCredentials(e.base);
    if stripped.Success? {
      var h := Header(Setup, d.cseq, FormatUri(stripped.value, e.resource), e.known, Channels.NO_PAIR);
      SendSetupLink(d.(base := Some(stripped.value)), h, e.transport, e.userdata, e.timeout, e.out);
    }
  }

  /** The count is that of the timeouts in a row, and a connection that was up is set up again for two reasons only. */
  lemma StepLink(c: Client, e: Event)
    requires Enabled(c, e)
    ensures var t := Step(c, e).0;
            && t.failed == Streak(c.failed, Ends(c, e))
            && (c.conn == Connected ==>
                  (t.conn == Connecting <==> e.Down? || (e.ResponseTimeout? && c.pending && c.failed + 1 >= 5)))
  {
    hide Ask, AskTeardown, AskSetup, KeepAlive, Probe, Complete, Abort, Disconnect, RemoveSession, ServerTeardown, AbortsAgain,
         NoReply, SearchEnds;
    assert forall n: nat, s: Status :: Streak(n, [s]) == Streak(if s == TimedOut then n + 1 else 0, [s][1..]);
    match e
    case Up(outs) => ProbeLink(c.(conn := Connected), c.sessions, outs);
    case Down(env) => AbortLink(c, env);
    case DisconnectCall(env) => DisconnectLink(c, env);
    case Request(verb, uri, sid, userdata, timeout, out) => AskLink(c, verb, uri, sid, userdata, timeout, out);
    case SetupRequest(_, _, _, _, _, _, _) => AskSetupLink(c, e);
    case TeardownRequest(resource, sid, userdata, timeout, out) =>
      AskTeardownLink(c, resource, sid, userdata, timeout, out, false);
    case KeepAliveTimer(sid, out) => KeepAliveLink(c, sid, out);
    case ResponseTimeout(env) => TimeoutStepLink(c, env);
    case Response(cseq, r, env) => CompleteLink(c, r, Ok, env);
    case TeardownFromServer(sid, uri) => ServerTeardownLink(c, sid, uri);
    case RemoveCall(sid) => RemoveLink(c, sid);
    case Cancel(env) => CompleteLink(c, NoReply(c.header.sid, Canceled), Canceled, env);
    case _ =>
  }

  lemma TimeoutStepLink(c: Client, env: Env)
    requires c.armed
    ensures var t := Complete(c.(armed := false), NoReply(c.header.sid, TimedOut), TimedOut, env);
            && t.failed == Streak(c.failed, Ends(c, ResponseTimeout(env)))
            && (c.conn == Connected ==> (t.conn == Connecting <==> c.pending && c.failed + 1 >= 5))
  {
    hide Complete, AbortsAgain, NoReply;
    if c.pending {
      TimeoutLink(c, env);
      assert [TimedOut][1..] == [] && [TimedOut, Aborted][1..] == [Aborted] && [Aborted][1..] == [];
    } else {
      CompleteLink(c.(armed := false), NoReply(c.header.sid, TimedOut), TimedOut, env);
    }
  }

  lemma ServerTeardownLink(c: Client, sid: Id, uri: string)
    ensures SameLink(c, ServerTeardown(c, sid, uri).0)
  {
    hide PathOf, ReleaseMedia, RemoveSession;
    RemoveLink(c, sid);
    if Find(c.sessions, sid).Some? {
      var s := Find(c.sessions, sid).value;
      var media := if PathOf(uri).Some? && PathOf(uri).value.Some? then FindMedia(s.medias, PathOf(uri).value.value) else None;
      if media.Some? {
        ReleaseLink(c, sid, s, media.value);
        RemoveLink(ReleaseMedia(c, sid, s, media.value), sid);
      }
    }
  }

  lemma {:induction false} RunCountsTimeouts(c: Client, events: seq<Event>)
    requires Run(c, events)
    ensures After(c, events).failed == Streak(c.failed, RunEnds(c, events))
    decreases |events|
  {
    hide Step, Enabled, Ends;
    if events != [] {
      StepLink(c, events[0]);
      RunCountsTimeouts(Step(c, events[0]).0, events[1..]);
      StreakAppend(c.failed, Ends(c, events[0]), RunEnds(Step(c, events[0]).0, events[1..]));
    }
  }

  /**
    After any run from the start, a connection that is up is set up again by the next event exactly when it went down, or
    the event is a timeout of the pending request and the four completions before it were timeouts as well.
   */
  lemma ReconnectsAtFifth(events: seq<Event>, e: Event)
    requires Run(Initial(), events) && After(Initial(), events).conn == Connected && Enabled(After(Initial(), events), e)
    ensures var c := After(Initial(), events);
            var ends := RunEnds(Initial(), events);
            Step(c, e).0.conn == Connecting <==>
              || e.Down?
              || (e.ResponseTimeout? && c.pending && |ends| >= 4 && forall i :: |ends| - 4 <= i < |ends| ==> ends[i] == TimedOut)
  {
    hide Step, Enabled, RunEnds;
    StepLink(After(Initial(), events), e);
    RunCountsTimeouts(Initial(), events);
    StreakAtEnd(RunEnds(Initial(), events), 4);
  }

  // --- keep-alives ---

  predicate IsTimer(e: Event) { e.KeepAliveTimer? }

  /** How many of the events are the keep-alive timer of this session. */
  function Timers(events: seq<Event>, sid: Id): nat {
    if events == [] then 0 else (if IsTimer(events[0]) && events[0].sid == sid then 1 else 0) + Timers(events[1..], sid)
  }

  lemma OfflineTimer(c: Client, e: Event, sid: Id)
    requires Distinct(c.sessions) && c.conn != Connected && Allowed(c, GetParameter) && IsTimer(e)
    ensures var t := Step(c, e).0;
            && Distinct(t.sessions) && t.conn == c.conn && t.allowed == c.allowed
            && Find(t.sessions, sid) ==
               match Find(c.sessions, sid)
               case None => None
               case Some(s) =>
                 if e.sid != sid then Some(s)
                 else if s.failed + 1 >= 3 then None else Some(s.(failed := s.failed + 1))
  {
    hide Find, Put, Remove, Distinct, Allowed;
    if Find(c.sessions, e.sid).Some? {
      var s := Find(c.sessions, e.sid).value;
      var d := SetSession(c, e.sid, s.(failed := s.failed + 1));
      PutDistinct(c.sessions, e.sid, s.(failed := s.failed + 1));
      FindPut(c.sessions, e.sid, s.(failed := s.failed + 1), sid);
      RemoveFind(d, e.sid, sid);
    }
  }

  lemma RemoveFind(c: Client, gone: Id, sid: Id)
    requires Distinct(c.sessions)
    ensures var t := RemoveSession(c, gone);
            && Distinct(t.sessions) && t.conn == c.conn && t.allowed == c.allowed
            && Find(t.sessions, sid) == if sid == gone then None else Find(c.sessions, sid)
  {
    FindRemove(c.sessions, gone, sid);
  }

  /** While the connection is not up, the timers of other sessions aside, a session goes exactly at its third failure. */
  lemma {:induction false} OfflineRemovedAtThird(c: Client, events: seq<Event>, sid: Id)
    requires Distinct(c.sessions) && c.conn != Connected && Allowed(c, GetParameter)
    requires (forall e :: e in events ==> IsTimer(e)) && Find(c.sessions, sid).Some?
    ensures Run(c, events)
    ensures var s, n := Find(c.sessions, sid).value, Timers(events, sid);
            Find(After(c, events).sessions, sid) ==
            if n > 0 && s.failed + n >= 3 then None else Some(s.(failed := s.failed + n))
    decreases |events|
  {
    hide Step, Allowed;
    if events != [] {
      assert IsTimer(events[0]);
      var t := Step(c, events[0]).0;
      OfflineTimer(c, events[0], sid);
      SameAllowed(c, t);
      if Find(t.sessions, sid).Some? {
        OfflineRemovedAtThird(t, events[1..], sid);
      } else {
        OfflineStaysGone(t, events[1..], sid);
      }
    }
  }

  lemma SameAllowed(c: Client, t: Client)
    requires t.allowed == c.allowed
    ensures Allowed(t, GetParameter) == Allowed(c, GetParameter) && Allowed(t, Teardown) == Allowed(c, Teardown)
  {
  }

  lemma {:induction false} OfflineStaysGone(c: Client, events: seq<Event>, sid: Id)
    requires Distinct(c.sessions) && c.conn != Connected && Allowed(c, GetParameter)
    requires (forall e :: e in events ==> IsTimer(e)) && Find(c.sessions, sid).None?
    ensures Run(c, events) && Find(After(c, events).sessions, sid).None?
    decreases |events|
  {
    hide Step, Allowed;
    if events != [] {
      assert IsTimer(events[0]);
      OfflineTimer(c, events[0], sid);
      SameAllowed(c, Step(c, events[0]).0);
      OfflineStaysGone(Step(c, events[0]).0, events[1..], sid);
    }
  }

  /** The keep-alive of a session is pending on a connection that is up, after `n` that were not answered. */
  ghost predicate Awaited(c: Client, sid: Id, n: nat) {
    && c.conn == Connected && c.pending && c.armed && c.header.verb == GetParameter && c.header.sid == Some(sid)
    && Distinct(c.sessions) && Find(c.sessions, sid).Some? && Find(c.sessions, sid).value.failed == n
    && Allowed(c, GetParameter) && Allowed(c, Teardown)
  }

  /** The session is being torn down by the library. */
  ghost predicate TornDown(c: Client, sid: Id) {
    && c.pending && c.header.verb == Teardown && c.header.sid == Some(sid) && c.isInternal
    && Find(c.sessions, sid).Some? && Find(c.sessions, sid).value.internalTeardown
  }

  /** A keep-alive that is not answered is sent again, until the third: then the session is torn down, or removed if that cannot be sent. */
  lemma UnansweredStep(c: Client, sid: Id, n: nat, env: Env)
    requires Awaited(c, sid, n) && c.failed + 1 < 5 && env.keepAlive in {Written, Again}
    ensures var t := Step(c, ResponseTimeout(env)).0;
            && t.failed == c.failed + 1
            && if n + 1 < 3 then Awaited(t, sid, n + 1)
               else if env.teardown == Written then TornDown(t, sid) else Find(t.sessions, sid).None?
  {
    hide Settle;
    TimeoutLink(c, env);
    UnansweredSettled(c, sid, n, env);
  }

  lemma UnansweredSettled(c: Client, sid: Id, n: nat, env: Env)
    requires Awaited(c, sid, n) && env.keepAlive in {Written, Again}
    ensures var t := TimedOutState(c, env);
            && t.conn == Connected
            && if n + 1 < 3 then Awaited(t, sid, n + 1)
               else if env.teardown == Written then TornDown(t, sid) else Find(t.sessions, sid).None?
  {
    hide Touch, KeepAliveDelivered, RemoveSession, AnyKeepAlive;
    var d := c.(header := NO_HEADER, userdata := 0, pending := false, armed := false);
    var e := Touch(d, GetParameter, Some(sid));
    AwaitedTouched(c, d, sid, n);
    var r := KeepAliveDelivered(e, Some(sid), false, TimedOut, env);
    if n + 1 < 3 {
      RetrySent(e, sid, n, env);
    } else {
      TeardownAsked(e, sid, n, env);
      RemovedGone(r.0, sid);
    }
  }

  lemma RemovedGone(c: Client, sid: Id)
    requires Distinct(c.sessions)
    ensures Find(RemoveSession(c, sid).sessions, sid).None? && RemoveSession(c, sid).conn == c.conn
  {
    FindRemove(c.sessions, sid, sid);
  }

  /** Ready for the next keep-alive: nothing is pending and the session waits for none. */
  ghost predicate Ready(c: Client, sid: Id, n: nat) {
    && c.conn == Connected && !c.pending && Distinct(c.sessions)
    && Find(c.sessions, sid).Some? && Find(c.sessions, sid).value.failed == n && !Find(c.sessions, sid).value.keepAlive
    && Allowed(c, GetParameter) && Allowed(c, Teardown)
  }

  lemma AwaitedTouched(c: Client, d: Client, sid: Id, n: nat)
    requires Awaited(c, sid, n) && d == c.(header := NO_HEADER, userdata := 0, pending := false, armed := false)
    ensures Ready(Touch(d, GetParameter, Some(sid)), sid, n) && Find(d.sessions, sid).Some?
  {
    PutAll(d.sessions, sid, Touched(d, sid));
  }

  /** Counting the failure. */
  lemma Counted(c: Client, sid: Id, n: nat)
    requires Ready(c, sid, n)
    ensures Ready(SetSession(c, sid, Find(c.sessions, sid).value.(failed := n + 1)), sid, n + 1)
  {
    PutAll(c.sessions, sid, Find(c.sessions, sid).value.(failed := n + 1));
  }

  lemma RetrySent(c: Client, sid: Id, n: nat, env: Env)
    requires Ready(c, sid, n) && n + 1 < 3 && env.keepAlive in {Written, Again}
    ensures var (t, gone) := KeepAliveDelivered(c, Some(sid), false, TimedOut, env); !gone && Awaited(t, sid, n + 1)
  {
    hide KeepAlive, Ready, Awaited, AskTeardown;
    Counted(c, sid, n);
    ReadyFound(c, sid, n);
    SentAwaited(SetSession(c, sid, Find(c.sessions, sid).value.(failed := n + 1)), sid, n + 1, env.keepAlive);
  }

  lemma ReadyFound(c: Client, sid: Id, n: nat)
    requires Ready(c, sid, n)
    ensures Find(c.sessions, sid).Some? && Find(c.sessions, sid).value.failed == n
  {
  }

  lemma SentAwaited(c: Client, sid: Id, n: nat, out: Outcome)
    requires Ready(c, sid, n) && out in {Written, Again}
    ensures Awaited(KeepAlive(c, sid, out).0, sid, n)
  {
    hide Distinct, Find, Put, Allowed;
    var s := Find(c.sessions, sid).value;
    PutDistinct(c.sessions, sid, s.(keepAlive := true));
    FindPut(c.sessions, sid, s.(keepAlive := true), sid);
    SameAllowed(c, KeepAlive(c, sid, out).0);
  }

  lemma TeardownAsked(c: Client, sid: Id, n: nat, env: Env)
    requires Ready(c, sid, n) && n + 1 >= 3
    ensures var (t, gone) := KeepAliveDelivered(c, Some(sid), false, TimedOut, env);
            t.conn == Connected && Distinct(t.sessions) && gone == (env.teardown != Written) && (!gone ==> TornDown(t, sid))
  {
    hide KeepAlive, Ready, TornDown, AskTeardown;
    Counted(c, sid, n);
    ReadyFound(c, sid, n);
    AskedTornDown(SetSession(c, sid, Find(c.sessions, sid).value.(failed := n + 1)), sid, n + 1, env.teardown);
  }

  lemma AskedTornDown(c: Client, sid: Id, n: nat, out: Outcome)
    requires Ready(c, sid, n)
    ensures var (t, res) := AskTeardown(c, "", sid, 0, 1, out, true);
            t.conn == Connected && Distinct(t.sessions) && (res == OK <==> out == Written) && (res == OK ==> TornDown(t, sid))
  {
    hide FormatUri, IsAbsolute, AnyKeepAlive, Distinct, Find, Put;
    var s := Find(c.sessions, sid).value;
    PutDistinct(c.sessions, sid, s.(internalTeardown := true));
    FindPut(c.sessions, sid, s.(internalTeardown := true), sid);
  }

  /** Timeouts of the pending request, one after the other. */
  function Timeouts(envs: seq<Env>): seq<Event> { seq(|envs|, i requires 0 <= i < |envs| => ResponseTimeout(envs[i])) }

  /**
    A keep-alive that is never answered, on a connection that stays up: before the third timeout the session is kept and
    the keep-alive is sent again, at the third the session is given up.
   */
  lemma {:induction false} ThirdUnansweredGivesUp(c: Client, sid: Id, n: nat, envs: seq<Env>)
    requires Awaited(c, sid, n) && n + |envs| <= 3 && c.failed + |envs| < 5
    requires forall env :: env in envs ==> env.keepAlive in {Written, Again}
    ensures Run(c, Timeouts(envs))
    ensures var t := After(c, Timeouts(envs));
            if n + |envs| < 3 || envs == [] then Awaited(t, sid, n + |envs|)
            else if envs[|envs| - 1].teardown == Written then TornDown(t, sid) else Find(t.sessions, sid).None?
    decreases |envs|
  {
    hide Step, Awaited, TornDown;
    if envs != [] {
      var events := Timeouts(envs);
      assert events[0] == ResponseTimeout(envs[0]) && events[1..] == Timeouts(envs[1..]) && envs[0] in envs;
      AwaitedArmed(c, sid, n);
      UnansweredStep(c, sid, n, envs[0]);
      var t := Step(c, events[0]).0;
      if n + 1 < 3 {
        ThirdUnansweredGivesUp(t, sid, n + 1, envs[1..]);
      } else {
        assert Timeouts(envs[1..]) == [];
      }
    }
  }

  lemma AwaitedArmed(c: Client, sid: Id, n: nat)
    requires Awaited(c, sid, n)
    ensures c.armed
  {
  }
}
