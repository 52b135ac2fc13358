/** What the client's calls and timers issue or refuse, and what the other answers change. */
module ClientCalls {
  import opened Wrappers
  import opened Lists
  import opened Channels
  import opened ClientState
  import opened ClientOnce
  import opened ClientOperations
  import Url

  /** Whether the server is not known to refuse the method. */
  predicate Offered(c: Client, verb: Verb) { c.allowed == {} || verb == Options || verb in c.allowed }

  /** Some session waits for the answer to a keep-alive. */
  ghost predicate Waits(c: Client) { exists i :: 0 <= i < |c.sessions| && c.sessions[i].val.keepAlive }

  /** A request of the user that is refused before anything happens: -ENOSYS, -EPIPE and -EBUSY, in this order. */
  ghost predicate RefusedFirst(c: Client, verb: Verb, t: Client, res: int) {
    && t == c
    && res == if !Offered(c, verb) then -38 else if c.conn != Connected then -32 else -16
  }

  ghost predicate Refused(c: Client, verb: Verb) { !Offered(c, verb) || c.conn != Connected || (c.pending && !Waits(c)) }

  /** The request is on its way: it takes the next number, and the header it is sent with is kept. */
  ghost predicate Sent(c: Client, t: Client, h: Header) {
    && t.pending && t.header == h && h.cseq == c.cseq && t.cseq == c.cseq + 1 && t.log == c.log + [Issued(h.verb, c.cseq)]
  }

  /** The response timer runs when the request has a timeout, or when it ran before and not for a keep-alive. */
  ghost predicate Armed(c: Client, t: Client, timeout: nat) { t.armed <==> timeout > 0 || (c.armed && !Waits(c)) }

  ghost predicate NotIssued(c: Client, t: Client) { t.log == c.log && t.cseq == c.cseq && t.pending == c.pending && t.sessions == c.sessions }

  lemma RefusalCases(c: Client, verb: Verb)
    ensures (Refusal(c, verb) != 0 <==> Refused(c, verb))
    ensures Refused(c, verb) ==> RefusedFirst(c, verb, c, Refusal(c, verb))
  {
  }

  /**
    OPTIONS, DESCRIBE and ANNOUNCE go to the URL given; PLAY, PAUSE and RECORD to the content base of a session that has
    to be known, whose id they bear.
   */
  lemma RequestIssued(c: Client, e: Event)
    requires e.Request? && Enabled(c, e)
    ensures var (t, res) := Step(c, e); var s := Find(c.sessions, e.sid);
            if Refused(c, e.verb) then RefusedFirst(c, e.verb, t, res)
            else if e.verb in {Play, Pause, Record} && s.None? then NotIssued(c, t) && t.header == c.header && res == -2
            else if e.out != Written then NotIssued(c, t) && res < 0
            else
              && res == 0 && t.sessions == c.sessions && t.used == c.used && Armed(c, t, e.timeout)
              && Sent(c, t, if e.verb in {Play, Pause, Record} then Header(e.verb, c.cseq, s.value.base.UnwrapOr(""), Some(e.sid), Pair(0, 0))
                            else Header(e.verb, c.cseq, e.uri, None, Pair(0, 0)))
  {
    hide AnyKeepAlive, Refusal, Refused, RefusedFirst, Send;
    RefusalCases(c, e.verb);
    var d := ClearTimer(c);
    ClearedSame(c);
    SendIssues(d, Header(e.verb, d.cseq, e.uri, None, Pair(0, 0)), e.userdata, e.timeout, e.out);
    var base := Find(c.sessions, e.sid).UnwrapOr(NewSession()).base.UnwrapOr("");
    SendIssues(d, Header(e.verb, d.cseq, base, Some(e.sid), Pair(0, 0)), e.userdata, e.timeout, e.out);
  }

  /** The URL of a request: the resource itself when it is a full one, otherwise below the content base. */
  lemma ResourceUri(base: string, resource: string)
    ensures FormatUri(base, "rtsp://" + resource) == "rtsp://" + resource
    ensures !("rtsp://" <= resource) ==>
              && FormatUri(base, resource) == base + (if base != "" && |base| < 4096 && base[|base| - 1] == '/' then "" else "/") + resource
  {
    assert "rtsp://" <= "rtsp://" + resource;
    assert base + "" + resource == base + resource;
    assert base + "/" + resource == base + ("/" + resource);
  }

  /** A TEARDOWN of the user: of the whole session when no resource is given. */
  lemma TeardownIssued(c: Client, e: Event)
    requires e.TeardownRequest?
    ensures var (t, res) := Step(c, e); var s := Find(c.sessions, e.sid);
            if Refused(c, Teardown) then RefusedFirst(c, Teardown, t, res)
            else if s.None? then NotIssued(c, t) && t.header == c.header && res == -2
            else if e.resource != "" && !("rtsp://" <= e.resource) && s.value.base.None? then NotIssued(c, t) && res == -22
            else if e.out != Written then NotIssued(c, t) && res < 0
            else
              var base := s.value.base.UnwrapOr("");
              && res == 0 && t.used == c.used && !t.isInternal && Armed(c, t, e.timeout)
              && t.sessions == Put(c.sessions, e.sid, s.value.(internalTeardown := false))
              && Sent(c, t, Header(Teardown, c.cseq, if e.resource == "" then base else FormatUri(base, e.resource), Some(e.sid), Pair(0, 0)))
  {
    hide AnyKeepAlive, Refusal, Refused, RefusedFirst, FormatUri, AskTeardown;
    RefusalCases(c, Teardown);
    if Refused(c, Teardown) || Find(c.sessions, e.sid).None? {
      TeardownUnknown(c, e);
    } else {
      TeardownSent(c, e, Find(c.sessions, e.sid).value);
    }
  }

  lemma TeardownUnknown(c: Client, e: Event)
    requires e.TeardownRequest?
    ensures var (t, res) := AskTeardown(c, e.resource, e.sid, e.userdata, e.timeout, e.out, false);
            && (Refusal(c, Teardown) != 0 ==> t == c && res == Refusal(c, Teardown))
            && (Refusal(c, Teardown) == 0 && Find(c.sessions, e.sid).None? ==> NotIssued(c, t) && t.header == c.header && res == -2)
  {
    hide AnyKeepAlive, Refusal, FormatUri, Send;
  }

  lemma TeardownSent(c: Client, e: Event, s: Session)
    requires e.TeardownRequest? && Refusal(c, Teardown) == 0 && Find(c.sessions, e.sid) == Some(s)
    ensures var (t, res) := AskTeardown(c, e.resource, e.sid, e.userdata, e.timeout, e.out, false);
            if e.resource != "" && !("rtsp://" <= e.resource) && s.base.None? then NotIssued(c, t) && res == -22
            else if e.out != Written then NotIssued(c, t) && res < 0
            else
              var base := s.base.UnwrapOr("");
              && res == 0 && t.used == c.used && !t.isInternal && Armed(c, t, e.timeout)
              && t.sessions == Put(c.sessions, e.sid, s.(internalTeardown := false))
              && Sent(c, t, Header(Teardown, c.cseq, if e.resource == "" then base else FormatUri(base, e.resource), Some(e.sid), Pair(0, 0)))
  {
    hide AskTeardown, Refusal, FormatUri, IsAbsolute, Send, ClearTimer;
    Absolute(e.resource);
    ClearedSame(c);
    var d := ClearTimer(c);
    var base := s.base.UnwrapOr("");
    var h := Header(Teardown, d.cseq, if e.resource == "" then base else FormatUri(base, e.resource), Some(e.sid), Pair(0, 0));
    SendIssues(d, h, e.userdata, e.timeout, e.out);
    TeardownFormed(c, d, e, s, h);
  }

  lemma ClearedSame(c: Client)
    ensures var d := ClearTimer(c); d == c.(armed := c.armed && !Waits(c))
  {
  }

  lemma TeardownFormed(c: Client, d: Client, e: Event, s: Session, h: Header)
    requires e.TeardownRequest? && Refusal(c, Teardown) == 0 && d == ClearTimer(c) && Find(d.sessions, e.sid) == Some(s)
    requires h == Header(Teardown, d.cseq, if e.resource == "" then s.base.UnwrapOr("") else FormatUri(s.base.UnwrapOr(""), e.resource), Some(e.sid), Pair(0, 0))
    ensures var out := AskTeardown(c, e.resource, e.sid, e.userdata, e.timeout, e.out, false);
            var (t, res) := Send(d, h, e.userdata, e.timeout, e.out);
            if e.resource != "" && !IsAbsolute(e.resource) && s.base.None? then NotIssued(d, out.0) && out.1 == -22
            else out == if res != 0 then (t, res) else (SetSession(t, e.sid, s.(internalTeardown := false)).(isInternal := false), 0)
  {
    hide Refusal, FormatUri, IsAbsolute, Send, ClearTimer;
  }

  lemma SendIssues(c: Client, h: Header, userdata: int, timeout: nat, out: Outcome)
    requires h.cseq == c.cseq
    ensures var (t, res) := Send(c, h, userdata, timeout, out);
            if out == Written then
              res == 0 && Sent(c, t, h) && t.sessions == c.sessions && t.used == c.used && (t.armed <==> timeout > 0 || c.armed)
            else res < 0 && NotIssued(c, t)
  {
  }

  lemma Absolute(resource: string)
    ensures IsAbsolute(resource) <==> "rtsp://" <= resource
  {
    assert Url.SchemeText(Url.Tcp) == "rtsp://";
  }

  /** The ports a SETUP may ask for: two different channels unless one is 0, or two ports that are not 0. */
  ghost predicate Usable(t: Transport) {
    match t
    case OverTcp(p) => p.rtp != p.rtcp || p.rtp == 0
    case OverUdp(stream, control) => stream != 0 && control != 0
  }

  /**
    A SETUP over TCP takes the channels asked for when both are free, or the lowest free even channel and its successor
    when none are asked for; it is refused with -EEXIST when the channels asked for are used, and with -E2BIG when fewer
    than two are free.
   */
  lemma SetupIssued(c: Client, e: Event)
    requires e.SetupRequest? && Enabled(c, e)
    ensures var (t, res) := Step(c, e); var stripped := Url.StripCredentials(e.base);
            if !Usable(e.transport) then t == c && res == -22
            else if Refused(c, Setup) then RefusedFirst(c, Setup, t, res)
            else if stripped.Failure? then NotIssued(c, t) && res == -22
            else if e.known.Some? && Find(c.sessions, e.known.value).None? then NotIssued(c, t) && res == -2
            else if e.known.Some? && Find(c.sessions, e.known.value).value.base != Some(stripped.value) then NotIssued(c, t) && res == -22
            else if e.out != Written then NotIssued(c, t) && res < 0
            else if e.transport.OverTcp? && |c.used| > 254 then NotIssued(c, t) && res == -7 && t.used == c.used
            else if e.transport.OverTcp? && e.transport.pair.rtp != e.transport.pair.rtcp
                    && (e.transport.pair.rtp in c.used || e.transport.pair.rtcp in c.used) then
              NotIssued(c, t) && res == -17 && t.used == c.used
            else
              var pair := t.header.pair;
              && res == 0 && t.sessions == c.sessions && t.base == Some(stripped.value) && Armed(c, t, e.timeout)
              && Sent(c, t, Header(Setup, c.cseq, FormatUri(stripped.value, e.resource), e.known, pair))
              && t.used == (if e.transport.OverTcp? then c.used + {pair.rtp, pair.rtcp} else c.used)
              && (e.transport.OverUdp? ==> pair == Pair(0, 0))
              && (e.transport.OverTcp? && e.transport.pair.rtp != e.transport.pair.rtcp ==> pair == e.transport.pair)
              && (e.transport.OverTcp? && e.transport.pair.rtp == e.transport.pair.rtcp ==>
                    && pair.rtp % 2 == 0 && pair.rtcp == pair.rtp + 1 && pair.rtp !in c.used && pair.rtcp !in c.used
                    && forall k: Channel :: k < pair.rtp && k % 2 == 0 ==> k in c.used || k + 1 in c.used)
  {
    hide AnyKeepAlive, Refusal, Refused, RefusedFirst, FormatUri, Url.StripCredentials, SendSetup, FirstFree;
    RefusalCases(c, Setup);
    var stripped := Url.StripCredentials(e.base);
    ClearedSame(c);
    if stripped.Success? {
      var d := ClearTimer(c).(base := Some(stripped.value));
      SetupSent(d, Header(Setup, d.cseq, FormatUri(stripped.value, e.resource), e.known, Pair(0, 0)), e.transport, e.userdata, e.timeout, e.out);
    }
  }

  lemma SetupSent(c: Client, h: Header, transport: Transport, userdata: int, timeout: nat, out: Outcome)
    requires SearchEnds(c, transport) && h.verb == Setup && h.cseq == c.cseq && h.pair == Pair(0, 0)
    ensures var (t, res) := SendSetup(c, h, transport, userdata, timeout, out);
            && t.sessions == c.sessions && t.base == c.base
            && if out != Written then NotIssued(c, t) && res < 0
            else if transport.OverTcp? && |c.used| > 254 then NotIssued(c, t) && res == -7 && t.used == c.used
            else if transport.OverTcp? && transport.pair.rtp != transport.pair.rtcp
                    && (transport.pair.rtp in c.used || transport.pair.rtcp in c.used) then
              NotIssued(c, t) && res == -17 && t.used == c.used
            else
              var pair := t.header.pair;
              && res == 0 && Sent(c, t, h.(pair := pair)) && (t.armed <==> timeout > 0 || c.armed)
              && t.used == (if transport.OverTcp? then c.used + {pair.rtp, pair.rtcp} else c.used)
              && (transport.OverUdp? ==> pair == Pair(0, 0))
              && (transport.OverTcp? && transport.pair.rtp != transport.pair.rtcp ==> pair == transport.pair)
              && (transport.OverTcp? && transport.pair.rtp == transport.pair.rtcp ==>
                    && pair.rtp % 2 == 0 && pair.rtcp == pair.rtp + 1 && pair.rtp !in c.used && pair.rtcp !in c.used
                    && forall k: Channel :: k < pair.rtp && k % 2 == 0 ==> k in c.used || k + 1 in c.used)
  {
    hide FirstFree;
    if transport.OverTcp? && !Valid(transport.pair) && |c.used| <= 254 {
      var i := FirstFree(c.used, 0).value;
      forall k: Channel | k < i && k % 2 == 0 ensures k in c.used || k + 1 in c.used {
        assert !FreeAt(c.used, k);
      }
    }
  }

  /** A keep-alive goes out only on a connection that is up, when the session waits for none and nothing is pending. */
  lemma KeepAliveIssued(c: Client, sid: Id, out: Outcome)
    ensures var (t, res) := Step(c, KeepAliveTimer(sid, out));
            match Find(c.sessions, sid)
            case None => t == c && res == -2
            case Some(s) =>
              if !Offered(c, GetParameter) then t == c && res == -38
              else if c.conn != Connected then res == if s.failed >= 2 then -32 else -11
              else if s.keepAlive || c.pending then t == c && res == -16
              else if out in {Unsent, Unauthorised} then NotIssued(c, t) && res < 0
              else
                && res == 0 && t.armed && t.sessions == Put(c.sessions, sid, s.(keepAlive := true))
                && Sent(c, t, Header(GetParameter, c.cseq, s.base.UnwrapOr(""), Some(sid), Pair(0, 0)))
  {
    hide RemoveSession;
  }

  // --- answers ---

  /** An answer with another number is taken for that of the first session waiting for one; without such a session it is an error. */
  lemma OtherAnswer(c: Client, cseq: nat, r: Reply, env: Env)
    requires cseq != c.header.cseq && Distinct(c.sessions)
    ensures var (t, res) := Step(c, Response(cseq, r, env));
            && (!Waits(c) ==> t == c && res == -71)
            && forall i :: 0 <= i < |c.sessions| && c.sessions[i].val.keepAlive
                           && (forall j :: 0 <= j < i ==> !c.sessions[j].val.keepAlive) ==>
                 var n := c.sessions[i];
                 t == c.(sessions := c.sessions[i := Node(n.id, n.val.(keepAlive := false))]) && res == 0
  {
    hide Complete, FirstKeepAlive;
    forall i | 0 <= i < |c.sessions| && c.sessions[i].val.keepAlive && (forall j :: 0 <= j < i ==> !c.sessions[j].val.keepAlive)
      ensures var n := c.sessions[i];
              Step(c, Response(cseq, r, env)) == (c.(sessions := c.sessions[i := Node(n.id, n.val.(keepAlive := false))]), 0)
    {
      FirstWaiting(c.sessions, i);
      PutOne(c.sessions, i, c.sessions[i].val.(keepAlive := false));
    }
  }

  lemma PutOne(l: List<Session>, i: nat, s: Session)
    requires i < |l| && Distinct(l)
    ensures Find(l, l[i].id) == Some(l[i].val) && Put(l, l[i].id, s) == l[i := Node(l[i].id, s)]
  {
    FindAt(l, i);
  }

  lemma {:induction false} FirstWaiting(l: List<Session>, i: nat)
    requires i < |l| && l[i].val.keepAlive && forall j :: 0 <= j < i ==> !l[j].val.keepAlive
    ensures FirstKeepAlive(l) == Some(l[i].id)
  {
    if i > 0 {
      var tail := l[1..];
      forall j | 0 <= j < i - 1 ensures !tail[j].val.keepAlive {
        assert tail[j] == l[j + 1];
      }
      FirstWaiting(tail, i - 1);
    }
  }

  /** An answered keep-alive clears the failures of its session; 454 removes the session. Nothing is reported. */
  lemma KeepAliveAnswered(c: Client, sid: Id, r: Reply, env: Env)
    requires c.pending && c.header.verb == GetParameter && Named(c, r) == Some(sid) && Find(c.sessions, sid).Some? && Distinct(c.sessions)
    ensures var t := Step(c, Response(c.header.cseq, r, env)).0; var s := Find(c.sessions, sid).value;
            && !t.pending && !t.armed && t.failed == 0 && OthersSame(c, t, sid)
            && if r.code == 454 then Find(t.sessions, sid).None? && t.log == c.log + [Removed(sid)] && t.used == c.used - ChannelsOf(s.medias)
               else Find(t.sessions, sid) == Some(s.(failed := 0, keepAlive := false, base := BaseOf(c, s))) && t.log == c.log && t.used == c.used
  {
    hide Settle;
    SettleAnswered(c, sid, r, env);
  }

  lemma SettleAnswered(c: Client, sid: Id, r: Reply, env: Env)
    requires c.header.verb == GetParameter && Named(c, r) == Some(sid) && Find(c.sessions, sid).Some? && Distinct(c.sessions)
    ensures var t := Settle(c, r, Ok, env); var s := Find(c.sessions, sid).value;
            && !t.pending && !t.armed && OthersSame(c, t, sid)
            && if r.code == 454 then Find(t.sessions, sid).None? && t.log == c.log + [Removed(sid)] && t.used == c.used - ChannelsOf(s.medias)
               else Find(t.sessions, sid) == Some(s.(failed := 0, keepAlive := false, base := BaseOf(c, s))) && t.log == c.log && t.used == c.used
  {
    hide Touch, RemoveSession, Deliver, FinalStatus;
    var d := Idle(c);
    TouchKnown(d, GetParameter, sid);
    TouchRest(d, GetParameter, Some(sid));
    var u := Touch(d, GetParameter, Some(sid));
    var s := Find(u.sessions, sid).value;
    PutDistinct(c.sessions, sid, s);
    PutAll(u.sessions, sid, s.(failed := 0));
    var v := SetSession(u, sid, s.(failed := 0));
    DeliverAnswered(u, c.header, c.userdata, sid, s, r, env);
    RemoveLeaves(v, sid, s.(failed := 0));
    RemovedLogged(v, sid);
  }

  lemma DeliverAnswered(c: Client, h: Header, userdata: int, sid: Id, s: Session, r: Reply, env: Env)
    requires h.verb == GetParameter && Find(c.sessions, sid) == Some(s)
    ensures Deliver(c, h, userdata, Some(sid), r, FinalStatus(Ok, r.code), env) == (SetSession(c, sid, s.(failed := 0)), r.code == 454)
  {
    hide KeepAlive, AskTeardown;
  }

  lemma RemovedLogged(c: Client, sid: Id)
    requires Find(c.sessions, sid).Some?
    ensures RemoveSession(c, sid).log == c.log + [Removed(sid)] && RemoveSession(c, sid).pending == c.pending
    ensures RemoveSession(c, sid).armed == c.armed
  {
  }

  /** The answer to OPTIONS replaces the methods the server is known to take; other completions keep them. */
  lemma MethodsLearned(c: Client, e: Event, h: Header, userdata: int)
    requires Held(c, h, userdata) && Enabled(c, e) && Completing(c, e)
    ensures Step(c, e).0.allowed == if h.verb == Options then Completion(c, e).value.0.methods else c.allowed
  {
    hide Settle, Step, Enabled, Touch, RemoveSession, AskedByUser;
    StepSettles(c, e);
    var (r, status) := Completion(c, e).value;
    SettledMethods(c, r, status, EnvOf(e));
  }

  lemma SettledMethods(c: Client, r: Reply, status: Status, env: Env)
    requires c.header.verb != GetParameter
    ensures Settle(c, r, status, env).allowed == if c.header.verb == Options then r.methods else c.allowed
  {
    hide Touch, Find, PathOf, FindMedia, TeardownTarget;
    var sid := Named(c, r);
    TouchRest(Idle(c), c.header.verb, sid);
  }

  /** A session that the server does not find is removed, whatever the request but a TEARDOWN was. */
  lemma NotFoundRemoves(c: Client, e: Event, h: Header, userdata: int, sid: Id)
    requires Held(c, h, userdata) && h.verb != Teardown && Enabled(c, e) && e.Response? && e.cseq == h.cseq
    requires e.reply.code == 454 && About(c, e, sid) && Distinct(c.sessions)
    ensures var t := Step(c, e).0; Find(t.sessions, sid).None? && OthersSame(c, t, sid)
  {
    hide Settle, Step, Enabled;
    StepSettles(c, e);
    SettleRemoves(c, e.reply, e.env, sid);
  }

  lemma SettleRemoves(c: Client, r: Reply, env: Env, sid: Id)
    requires c.header.verb !in {NoVerb, Teardown, GetParameter} && Named(c, r) == Some(sid) && r.code == 454 && Distinct(c.sessions)
    ensures var t := Settle(c, r, Ok, env); Find(t.sessions, sid).None? && OthersSame(c, t, sid)
  {
    hide RemoveSession, Touch;
    var d := Idle(c);
    var u := Touch(d, c.header.verb, Some(sid));
    TouchRest(d, c.header.verb, Some(sid));
    TouchDistinct(d, c.header.verb, sid);
    var v := Deliver(u, c.header, c.userdata, Some(sid), r, Failed, env).0;
    assert v.sessions == u.sessions;
    if Find(u.sessions, sid).Some? {
      RemoveLeaves(v, sid, Find(u.sessions, sid).value);
    } else {
      assert RemoveSession(v, sid) == v by { RemoveUnknown(v, sid); }
    }
  }

  lemma RemoveUnknown(c: Client, sid: Id)
    requires Find(c.sessions, sid).None?
    ensures RemoveSession(c, sid) == c
  {
  }

  lemma TouchDistinct(c: Client, verb: Verb, sid: Id)
    requires Distinct(c.sessions)
    ensures var t := Touch(c, verb, Some(sid)); Distinct(t.sessions) && OthersSame(c, t, sid)
  {
    if Find(c.sessions, sid).Some? {
      TouchKnown(c, verb, sid);
      PutDistinct(c.sessions, sid, Touched(c, sid));
    } else if verb == Setup {
      SetupTouches(c, sid);
      var l := c.sessions + [Node(sid, NewSession())];
      AppendDistinct(c.sessions, Node(sid, NewSession()));
      PutDistinct(l, sid, Touched(c, sid));
    }
  }

  /** How the end of a held request is reported: by the class of the answer, or by what happened instead of one. */
  lemma ReportedStatus(c: Client, e: Event, h: Header, userdata: int)
    requires Held(c, h, userdata) && h.verb != Teardown && Enabled(c, e) && Completing(c, e)
    ensures var status := if e.Response? then (if 200 <= e.reply.code <= 299 then Ok else Failed)
                          else if e.ResponseTimeout? then TimedOut else if e.Cancel? then Canceled else Aborted;
            c.log + [Completed(h.verb, h.cseq, userdata, status)] <= Step(c, e).0.log
  {
    hide Step, Enabled;
    HeldStep(c, e, h, userdata);
  }

  // --- the connection ---

  /** What happens to the connection itself: it is set up, lost, set up again, or ended by the user. */
  lemma LinkEvents(c: Client, outs: seq<Outcome>, env: Env)
    ensures Step(c, ConnectCall) == if c.conn == Disconnected then (c.(conn := Connecting), 0) else (c, -16)
    ensures c.conn == Connecting ==> Step(c, ConnectFailed).0 == c.(conn := Disconnected)
    ensures Step(c, Up(outs)).0.conn == Connected
    ensures Step(c, Down(env)).0.conn == match c.conn case Disconnecting => Disconnected case Connected => Connecting case other => other
    ensures c.conn in {Disconnected, Connecting} ==> Step(c, Down(env)).0 == c
  {
    hide Probe, Abort;
    ProbeConn(c.(conn := Connected), c.sessions, outs);
  }

  lemma {:induction false} ProbeConn(c: Client, l: List<Session>, outs: seq<Outcome>)
    requires c.conn == Connected
    ensures Probe(c, l, outs).conn == Connected
    decreases |l|
  {
    hide RemoveSession;
    if l != [] {
      ProbeConn(KeepAlive(c, l[0].id, if outs == [] then Written else outs[0]).0, l[1..], if outs == [] then [] else outs[1..]);
    }
  }

  /** The outcome of the send for the session at this place. */
  function OutAt(outs: seq<Outcome>, i: nat): Outcome { if i < |outs| then outs[i] else Written }

  /**
    When the connection comes up and no session waits for an answer, the sessions try a keep-alive one after the other,
    until the first that can be sent: that one takes the slot, and the others have to wait.
   */
  lemma UpProbes(c: Client, outs: seq<Outcome>, i: nat)
    requires !c.pending && Offered(c, GetParameter) && Distinct(c.sessions) && !Waits(c) && i < |c.sessions|
    requires OutAt(outs, i) in {Written, Again} && forall j: nat :: j < i ==> OutAt(outs, j) in {Unsent, Unauthorised}
    ensures var t, n := Step(c, Up(outs)).0, c.sessions[i];
            && Sent(c, t, Header(GetParameter, c.cseq, n.val.base.UnwrapOr(""), Some(n.id), Pair(0, 0))) && t.armed
            && t.sessions == c.sessions[i := Node(n.id, n.val.(keepAlive := true))]
  {
    hide Probe, Waits;
    var d := c.(conn := Connected);
    assert c.sessions[0..] == c.sessions && OutsFrom(outs, 0) == outs;
    ProbeFrom(c, d, outs, 0, i);
  }

  /** Nothing was sent yet; a send that failed has left its header. */
  ghost predicate Trying(c: Client, d: Client) { d == c.(conn := Connected, header := d.header) }

  /** The outcomes from this place on. */
  function OutsFrom(outs: seq<Outcome>, k: nat): seq<Outcome> { if k <= |outs| then outs[k..] else [] }

  lemma {:induction false} ProbeFrom(c: Client, d: Client, outs: seq<Outcome>, k: nat, i: nat)
    requires Trying(c, d) && !c.pending && Offered(c, GetParameter) && Distinct(c.sessions) && !Waits(c) && k <= i < |c.sessions|
    requires OutAt(outs, i) in {Written, Again} && forall j: nat :: k <= j < i ==> OutAt(outs, j) in {Unsent, Unauthorised}
    ensures var t, n := Probe(d, c.sessions[k..], OutsFrom(outs, k)), c.sessions[i];
            && Sent(c, t, Header(GetParameter, c.cseq, n.val.base.UnwrapOr(""), Some(n.id), Pair(0, 0))) && t.armed
            && t.sessions == c.sessions[i := Node(n.id, n.val.(keepAlive := true))]
    decreases i - k
  {
    hide KeepAlive, Waits, Allowed;
    var l, here := c.sessions[k..], OutsFrom(outs, k);
    assert l[0] == c.sessions[k] && l[1..] == c.sessions[k + 1..];
    assert OutsFrom(outs, k + 1) == if here == [] then [] else here[1..];
    assert OutAt(outs, k) == if here == [] then Written else here[0];
    TryOne(c, d, k, OutAt(outs, k));
    var e := KeepAlive(d, l[0].id, OutAt(outs, k)).0;
    if k < i {
      ProbeFrom(c, e, outs, k + 1, i);
    } else {
      ProbeRefused(e, l[1..], OutsFrom(outs, k + 1));
    }
  }

  lemma TryOne(c: Client, d: Client, k: nat, out: Outcome)
    requires Trying(c, d) && !c.pending && Offered(c, GetParameter) && Distinct(c.sessions) && !Waits(c) && k < |c.sessions|
    ensures var t, n := KeepAlive(d, c.sessions[k].id, out).0, c.sessions[k];
            if out in {Unsent, Unauthorised} then Trying(c, t)
            else
              && Sent(c, t, Header(GetParameter, c.cseq, n.val.base.UnwrapOr(""), Some(n.id), Pair(0, 0))) && t.armed && t.conn == Connected
              && t.sessions == c.sessions[k := Node(n.id, n.val.(keepAlive := true))] && Offered(t, GetParameter)
  {
    PutOne(c.sessions, k, c.sessions[k].val.(keepAlive := true));
  }

  lemma {:induction false} ProbeRefused(c: Client, l: List<Session>, outs: seq<Outcome>)
    requires c.pending && c.conn == Connected && Offered(c, GetParameter)
    ensures Probe(c, l, outs) == c
    decreases |l|
  {
    if l != [] {
      ProbeRefused(c, l[1..], if outs == [] then [] else outs[1..]);
    }
  }

  // --- leaving ---

  /** The user's disconnection leaves no session, whether or not the connection was up. */
  lemma DisconnectLeavesNothing(c: Client, env: Env)
    ensures var (t, res) := Step(c, DisconnectCall(env));
            && (c.conn in {Connecting, Connected} ==> t.sessions == [] && res == 0 && t.conn in {Disconnected, Disconnecting})
            && (c.conn == Disconnected ==> t == c && res == -71) && (c.conn == Disconnecting ==> t == c && res == 0)
  {
    hide Abort, RemoveSessions, ConnectionLost;
    var d := Abort(c.(conn := Disconnecting), env).(conn := Disconnected);
    AllRemoved(d, d.sessions);
    var e := if env.stopFires then ConnectionLost(c.(conn := Disconnecting), env) else c.(conn := Disconnecting);
    LostConn(c.(conn := Disconnecting), env);
    AllRemoved(e, e.sessions);
  }

  lemma LostConn(c: Client, env: Env)
    requires c.conn == Disconnecting
    ensures ConnectionLost(c, env).conn == Disconnected
  {
  }

  lemma {:induction false} AllRemoved(c: Client, l: List<Session>)
    requires c.sessions == l
    ensures var t := RemoveSessions(c, l); t.sessions == [] && t.conn == c.conn
    decreases |l|
  {
    if l != [] {
      assert Find(l, l[0].id) == Some(l[0].val);
      AllRemoved(RemoveSession(c, l[0].id), l[1..]);
    }
  }

  /** Removing a session by hand frees its channels; an unknown one is refused. */
  lemma RemoveCallLeaves(c: Client, sid: Id)
    requires Distinct(c.sessions)
    ensures var (t, res) := Step(c, RemoveCall(sid));
            match Find(c.sessions, sid)
            case None => t == c && res == -2
            case Some(s) => Leaves(c, t, sid, s, [], ChannelsOf(s.medias)) && res == 0 && t.log == c.log + [Removed(sid)]
  {
    hide RemoveSession;
    if Find(c.sessions, sid).Some? {
      RemoveLeaves(c, sid, Find(c.sessions, sid).value);
      RemovedLogged(c, sid);
    } else {
      RemoveUnknown(c, sid);
    }
  }
}
