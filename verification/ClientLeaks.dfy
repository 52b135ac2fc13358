/**
  No channel stays marked used without an owner, except after the few events that lose one. Together with
  `ClientChannels` this makes the table of channels exactly what the medias and the pending SETUP own.
 */
module ClientLeaks {
  import opened Wrappers
  import opened Lists
  import opened Channels
  import opened ClientState
  import opened ClientChannels
  import Url

  /** Marked used, but held by nobody. */
  predicate Leaked(c: Client, ch: Channel) { ch in c.used && Total(c, ch) == 0 }

  /** From `c` to `t` at most the channels of `p` are lost. */
  ghost predicate LosesOnly(c: Client, t: Client, p: Pair) {
    forall ch :: Leaked(t, ch) ==> Leaked(c, ch) || ch in Both(p)
  }

  ghost predicate NoLoss(c: Client, t: Client) { LosesOnly(c, t, NO_PAIR) }

  lemma NoLossThen(c: Client, d: Client, t: Client)
    requires NoLoss(c, d) && NoLoss(d, t)
    ensures NoLoss(c, t)
  {
    hide Leaked;
  }

  lemma NoLossSelf(c: Client)
    ensures NoLoss(c, c)
  {
  }

  /** Only sessions, channels and slot matter. */
  lemma FieldNoLoss(c: Client, t: Client)
    requires t.sessions == c.sessions && t.used == c.used && t.pending == c.pending && t.header == c.header
    ensures NoLoss(c, t)
  {
  }

  /** The pending request asked for no channels. */
  predicate HoldsNone(c: Client) { c.pending ==> !Valid(c.header.pair) }

  lemma SlotNoLoss(c: Client, t: Client)
    requires t.sessions == c.sessions && t.used == c.used
    requires HoldsNone(c) || (t.pending && t.header.pair == c.header.pair)
    ensures NoLoss(c, t)
  {
    forall ch ensures Asked(c, ch) <= Asked(t, ch) {
    }
  }

  lemma PutNoLoss(c: Client, sid: Id, s: Session)
    requires Inv(false, c) && Find(c.sessions, sid).Some? && s.medias == Find(c.sessions, sid).value.medias && SessionOk(false, s)
    ensures NoLoss(c, SetSession(c, sid, s))
  {
    hide Inv, SessionOk, Holders;
    PutKeeps(false, c, sid, s);
  }

  lemma ReleaseNoLoss(c: Client, sid: Id, s: Session, i: nat)
    requires Inv(false, c) && Find(c.sessions, sid) == Some(s) && i < |s.medias|
    ensures NoLoss(c, ReleaseMedia(c, sid, s, i))
  {
    hide SessionOk, BaseOk, OwnedAt;
    DistinctOk(false, c.sessions);
    forall ch ensures Leaked(ReleaseMedia(c, sid, s, i), ch) ==> Leaked(c, ch) {
      HoldersPut(c.sessions, sid, DropMedia(s, i), ch);
      MediaHoldersDrop(s.medias, i, ch);
    }
  }

  lemma RemoveNoLoss(c: Client, sid: Id)
    ensures NoLoss(c, RemoveSession(c, sid))
  {
    if Find(c.sessions, sid).Some? {
      forall ch ensures Leaked(RemoveSession(c, sid), ch) ==> Leaked(c, ch) {
        HoldersRemove(c.sessions, sid, ch);
        MediaChannelsHeld(Find(c.sessions, sid).value.medias, ch);
      }
    }
  }

  lemma {:induction false} RemoveSessionsNoLoss(c: Client, l: List<Session>)
    ensures NoLoss(c, RemoveSessions(c, l))
    decreases |l|
  {
    hide RemoveSession, LosesOnly;
    if l == [] {
      NoLossSelf(c);
    } else {
      RemoveNoLoss(c, l[0].id);
      RemoveSessionsNoLoss(RemoveSession(c, l[0].id), l[1..]);
      NoLossThen(c, RemoveSession(c, l[0].id), RemoveSessions(c, l));
    }
  }

  // --- requests ---

  lemma SendNoLoss(c: Client, h: Header, userdata: int, timeout: nat, out: Outcome)
    requires HoldsNone(c)
    ensures NoLoss(c, Send(c, h, userdata, timeout, out).0)
  {
    hide LosesOnly, HoldsNone;
    SlotNoLoss(c, Send(c, h, userdata, timeout, out).0);
  }

  lemma TimerNoLoss(c: Client)
    requires HoldsNone(c)
    ensures NoLoss(c, ClearTimer(c)) && HoldsNone(ClearTimer(c))
  {
    hide LosesOnly, AnyKeepAlive;
    SlotNoLoss(c, ClearTimer(c));
  }

  lemma AskNoLoss(c: Client, verb: Verb, uri: string, sid: Id, userdata: int, timeout: nat, out: Outcome)
    requires HoldsNone(c)
    ensures NoLoss(c, Ask(c, verb, uri, sid, userdata, timeout, out).0)
  {
    hide LosesOnly, HoldsNone, Send, ClearTimer, Refusal;
    NoLossSelf(c);
    TimerNoLoss(c);
    var d := ClearTimer(c);
    SendNoLoss(d, Header(verb, d.cseq, uri, None, NO_PAIR), userdata, timeout, out);
    NoLossThen(c, d, Send(d, Header(verb, d.cseq, uri, None, NO_PAIR), userdata, timeout, out).0);
    var h := Header(verb, d.cseq, Find(d.sessions, sid).UnwrapOr(NewSession()).base.UnwrapOr(""), Some(sid), NO_PAIR);
    SendNoLoss(d, h, userdata, timeout, out);
    NoLossThen(c, d, Send(d, h, userdata, timeout, out).0);
  }

  lemma AskTeardownNoLoss(c: Client, resource: string, sid: Id, userdata: int, timeout: nat, out: Outcome, internally: bool)
    requires Inv(false, c) && HoldsNone(c)
    ensures NoLoss(c, AskTeardown(c, resource, sid, userdata, timeout, out, internally).0)
  {
    hide Inv, LosesOnly, HoldsNone, Send, ClearTimer, Refusal, FormatUri, IsAbsolute, SessionOk;
    NoLossSelf(c);
    TimerNoLoss(c);
    ClearTimerKeeps(false, c);
    var d := ClearTimer(c);
    if Find(d.sessions, sid).Some? {
      var s := Find(d.sessions, sid).value;
      var base := s.base.UnwrapOr("");
      var h := Header(Teardown, d.cseq, if resource == "" then base else FormatUri(base, resource), Some(sid), NO_PAIR);
      SendNoLoss(d, h, userdata, timeout, out);
      SendKeeps(false, d, h, userdata, timeout, out);
      SendSameSessions(d, h, userdata, timeout, out);
      var e := Send(d, h, userdata, timeout, out).0;
      NoLossThen(c, d, e);
      FlagNoLoss(e, sid, s, internally);
      NoLossThen(c, e, SetSession(e, sid, s.(internalTeardown := internally)).(isInternal := internally));
      var failed := Prepare(d, NO_HEADER.(verb := Teardown), userdata);
      SlotNoLoss(d, failed);
      NoLossThen(c, d, failed);
    }
  }

  lemma FlagNoLoss(c: Client, sid: Id, s: Session, internally: bool)
    requires Inv(false, c) && Find(c.sessions, sid) == Some(s)
    ensures NoLoss(c, SetSession(c, sid, s.(internalTeardown := internally)).(isInternal := internally))
  {
    hide Inv, Holders;
    InvFound(false, c, sid);
    PutKeeps(false, c, sid, s.(internalTeardown := internally));
  }

  lemma AskSetupNoLoss(c: Client, base: string, resource: string, sid: Option<Id>, t: Transport, userdata: int, timeout: nat,
                       out: Outcome)
    requires SearchEnds(c, t) && HoldsNone(c) && !(TakenUnsent(c, t, out) && !c.pending)
    ensures NoLoss(c, AskSetup(c, base, resource, sid, t, userdata, timeout, out).0)
  {
    hide LosesOnly, AnyKeepAlive, Refusal, FormatUri, Url.StripCredentials, SendSetup, FirstFree, HoldsNone;
    NoLossSelf(c);
    TimerNoLoss(c);
    var d := ClearTimer(c);
    var stripped := Url.StripCredentials(base);
    if stripped.Success? {
      var e := d.(base := Some(stripped.value));
      BaseNoLoss(d, Some(stripped.value));
      NoLossThen(c, d, e);
      var h := Header(Setup, d.cseq, FormatUri(stripped.value, resource), sid, NO_PAIR);
      SendSetupNoLoss(e, h, t, userdata, timeout, out);
      NoLossThen(c, e, SendSetup(e, h, t, userdata, timeout, out).0);
    }
  }

  lemma BaseNoLoss(c: Client, base: Option<string>)
    requires HoldsNone(c)
    ensures NoLoss(c, c.(base := base)) && HoldsNone(c.(base := base))
  {
    hide LosesOnly;
    SlotNoLoss(c, c.(base := base));
  }

  /** A SETUP over TCP gets its channels and then fails to be sent. */
  predicate TakenUnsent(c: Client, t: Transport, out: Outcome)
    requires SearchEnds(c, t)
  {
    t.OverTcp? && out != Written && out != Unauthorised && CHANNELS - |c.used| >= 2 && Allocate(c.used, t.pair).Some?
  }

  lemma SendSetupNoLoss(c: Client, h: Header, t: Transport, userdata: int, timeout: nat, out: Outcome)
    requires SearchEnds(c, t) && HoldsNone(c) && !(TakenUnsent(c, t, out) && !c.pending)
    ensures NoLoss(c, SendSetup(c, h, t, userdata, timeout, out).0)
  {
    hide LosesOnly, HoldsNone, Allocate, Send, FirstFree;
    SendNoLoss(c, h, userdata, timeout, out);
    SlotNoLoss(c, Prepare(c, h.(sid := None), userdata));
    if t.OverTcp? && CHANNELS - |c.used| >= 2 {
      var got := Allocate(c.used, t.pair);
      if got.Some? && out != Unauthorised {
        AllocatedNoLoss(c, h, got.value, userdata, timeout, out);
      }
    }
  }

  lemma AllocatedNoLoss(c: Client, h: Header, p: Pair, userdata: int, timeout: nat, out: Outcome)
    requires HoldsNone(c) && (c.pending || out == Written)
    ensures NoLoss(c, Send(c.(used := c.used + Both(p)), h.(pair := p), userdata, timeout, out).0)
  {
    var t := Send(c.(used := c.used + Both(p)), h.(pair := p), userdata, timeout, out).0;
    forall ch ensures Leaked(t, ch) ==> Leaked(c, ch) {
      assert Asked(t, ch) == Holds(p, ch) && Asked(c, ch) == 0;
    }
  }

  lemma KeepAliveNoLoss(c: Client, sid: Id, out: Outcome)
    requires Inv(false, c)
    ensures NoLoss(c, KeepAlive(c, sid, out).0)
  {
    hide Inv, LosesOnly, RemoveSession, Allowed, SessionOk;
    NoLossSelf(c);
    if Find(c.sessions, sid).Some? {
      var s := Find(c.sessions, sid).value;
      CountedOk(c, sid, s.failed + 1);
      var d := SetSession(c, sid, s.(failed := s.failed + 1));
      PutNoLoss(c, sid, s.(failed := s.failed + 1));
      RemoveNoLoss(d, sid);
      NoLossThen(c, d, RemoveSession(d, sid));
      if !c.pending {
        var h := Header(GetParameter, c.cseq, s.base.UnwrapOr(""), Some(sid), NO_PAIR);
        SlotNoLoss(c, Prepare(c, h.(sid := None), c.userdata));
        SlotNoLoss(c, Prepare(c, h, c.userdata));
        var e := Issue(Prepare(c, h, c.userdata), 1);
        SlotNoLoss(c, e);
        InvBase(false, c);
        SlotKeeps(false, c, e);
        FlaggedOk(c, sid);
        PutNoLoss(e, sid, s.(keepAlive := true));
        NoLossThen(c, e, SetSession(e, sid, s.(keepAlive := true)));
      }
    }
  }

  lemma CountedOk(c: Client, sid: Id, failed: nat)
    requires Inv(false, c) && Find(c.sessions, sid).Some?
    ensures SessionOk(false, Find(c.sessions, sid).value.(failed := failed))
  {
    FoundOk(false, c.sessions, sid);
  }

  lemma FlaggedOk(c: Client, sid: Id)
    requires Inv(false, c) && Find(c.sessions, sid).Some?
    ensures SessionOk(false, Find(c.sessions, sid).value.(keepAlive := true))
  {
    FoundOk(false, c.sessions, sid);
  }

  lemma {:induction false} ProbeNoLoss(c: Client, l: List<Session>, outs: seq<Outcome>)
    requires Inv(false, c)
    ensures NoLoss(c, Probe(c, l, outs))
    decreases |l|
  {
    hide Inv, LosesOnly, KeepAlive;
    if l == [] {
      NoLossSelf(c);
    } else {
      var out := if outs == [] then Written else outs[0];
      var d := KeepAlive(c, l[0].id, out).0;
      KeepAliveNoLoss(c, l[0].id, out);
      KeepAliveKeeps(false, c, l[0].id, out);
      ProbeNoLoss(d, l[1..], if outs == [] then [] else outs[1..]);
      NoLossThen(c, d, Probe(c, l, outs));
    }
  }

  // --- completion ---

  lemma TouchNoLoss(c: Client, verb: Verb, sid: Option<Id>)
    requires Inv(false, c)
    ensures NoLoss(c, Touch(c, verb, sid))
  {
    hide Inv, Holders;
    TouchKeeps(false, c, verb, sid);
    TouchSlot(c, verb, sid);
  }

  lemma TouchSlot(c: Client, verb: Verb, sid: Option<Id>)
    ensures var t := Touch(c, verb, sid); t == c.(sessions := t.sessions, base := t.base)
  {
  }

  /** The media of a SETUP can be added: the URL has a path that its session does not know. */
  predicate Addable(c: Client, sid: Option<Id>, uri: string) {
    && sid.Some? && Find(c.sessions, sid.value).Some? && PathOf(uri).Some? && PathOf(uri).value.Some?
    && FindMedia(Find(c.sessions, sid.value).value.medias, PathOf(uri).value.value).None?
  }

  /** A successful answer over TCP adds its media; one without TCP was asked for without channels. */
  predicate Answered(c: Client, h: Header, sid: Option<Id>, r: Reply, status: Status) {
    status == Ok ==> if r.tcp then !Valid(r.pair) || Addable(c, sid, h.uri) else !Valid(h.pair)
  }

  lemma MediaSetUpHolds(c: Client, sid: Option<Id>, uri: string, pair: Pair, ch: Channel)
    requires Distinct(c.sessions)
    ensures Holders(MediaSetUp(c, sid, uri, pair).sessions, ch)
            == Holders(c.sessions, ch) + if Addable(c, sid, uri) then Holds(pair, ch) else 0
  {
    hide PathOf;
    if sid.Some? && Find(c.sessions, sid.value).Some? && PathOf(uri).Some? && PathOf(uri).value.Some? {
      var s := Find(c.sessions, sid.value).value;
      var m := Media(PathOf(uri).value.value, pair);
      HoldersPut(c.sessions, sid.value, AddMedia(s, m), ch);
      MediaHoldersAppend(s.medias, m, ch);
    }
  }

  lemma MediaSetUpSlot(c: Client, sid: Option<Id>, uri: string, pair: Pair)
    ensures var t := MediaSetUp(c, sid, uri, pair); t == c.(sessions := t.sessions)
  {
    hide PathOf;
  }

  /** Completing a SETUP accounts for the channels it had asked for, and for those it got. */
  lemma SetupCompletedAccounts(c: Client, h: Header, userdata: int, sid: Option<Id>, r: Reply, status: Status)
    requires Distinct(c.sessions) && !c.pending && Answered(c, h, sid, r, status)
    ensures var t := SetupCompleted(c, h, userdata, sid, r, status);
            forall ch :: Leaked(t, ch) ==> Leaked(c, ch) && ch !in Both(h.pair)
  {
    hide MediaSetUp, Addable, PathOf;
    var t := SetupCompleted(c, h, userdata, sid, r, status);
    if status == Ok {
      var kept := if r.tcp && h.pair != r.pair then c.used - Both(h.pair) else c.used;
      var used := if r.tcp then kept + Both(r.pair) else c.used;
      var d := Report(c.(used := used), h, userdata, status);
      var pair := if r.tcp then r.pair else NO_PAIR;
      SameAddable(c, d, sid, h.uri);
      MediaSetUpSlot(d, sid, h.uri, pair);
      forall ch ensures Leaked(t, ch) ==> Leaked(c, ch) && ch !in Both(h.pair) {
        MediaSetUpHolds(d, sid, h.uri, pair, ch);
      }
    }
  }

  lemma SameAddable(c: Client, d: Client, sid: Option<Id>, uri: string)
    requires d.sessions == c.sessions
    ensures Addable(d, sid, uri) == Addable(c, sid, uri)
  {
  }

  /** Where nothing was lost before, an honest answer to a SETUP loses channels exactly when `Answered` fails. */
  lemma SetupLosesUnlessAnswered(c: Client, h: Header, userdata: int, sid: Option<Id>, r: Reply, status: Status)
    requires Distinct(c.sessions) && !c.pending && Both(h.pair) <= c.used && Reserved(c.sessions, h.pair)
    requires HonestReply(c.sessions, r, status) && forall ch :: Leaked(c, ch) ==> ch in Both(h.pair)
    ensures (forall ch :: !Leaked(SetupCompleted(c, h, userdata, sid, r, status), ch)) <==> Answered(c, h, sid, r, status)
  {
    if Answered(c, h, sid, r, status) {
      SetupCompletedAccounts(c, h, userdata, sid, r, status);
    } else {
      UnansweredLoses(c, h, userdata, sid, r);
    }
  }

  lemma UnansweredLoses(c: Client, h: Header, userdata: int, sid: Option<Id>, r: Reply)
    requires Distinct(c.sessions) && !c.pending && Both(h.pair) <= c.used && Reserved(c.sessions, h.pair)
    requires HonestReply(c.sessions, r, Ok) && !Answered(c, h, sid, r, Ok)
    ensures var lost := if r.tcp then r.pair.rtp else h.pair.rtp; Leaked(SetupCompleted(c, h, userdata, sid, r, Ok), lost)
  {
    hide MediaSetUp, Addable, PathOf;
    var kept := if r.tcp && h.pair != r.pair then c.used - Both(h.pair) else c.used;
    var used := if r.tcp then kept + Both(r.pair) else c.used;
    var d := Report(c.(used := used), h, userdata, Ok);
    var pair := if r.tcp then r.pair else NO_PAIR;
    SameAddable(c, d, sid, h.uri);
    MediaSetUpSlot(d, sid, h.uri, pair);
    var lost := if r.tcp then r.pair.rtp else h.pair.rtp;
    assert lost in if r.tcp then Both(r.pair) else Both(h.pair);
    MediaSetUpHolds(d, sid, h.uri, pair, lost);
  }

  lemma ReportNoLoss(c: Client, h: Header, userdata: int, status: Status)
    ensures NoLoss(c, Report(c, h, userdata, status))
  {
  }

  lemma TeardownCompletedNoLoss(c: Client, h: Header, userdata: int, sid: Option<Id>, status: Status, gone: bool)
    requires Inv(false, c) && !c.pending
    ensures NoLoss(c, TeardownCompleted(c, h, userdata, sid, status, gone).0)
  {
    hide Inv, TeardownTarget, ReleaseMedia, LosesOnly;
    NoLossSelf(c);
    ReportNoLoss(c, h, userdata, status);
    if sid.Some? && Find(c.sessions, sid.value).Some? {
      var s := Find(c.sessions, sid.value).value;
      var media := TeardownTarget(s, h.uri);
      var d := if s.internalTeardown then c else Report(c, h, userdata, status).(isInternal := false);
      InvBase(false, c);
      SlotKeeps(false, c, d);
      SlotNoLoss(c, d);
      if media.Some? && media.value.Some? {
        ReleaseNoLoss(d, sid.value, s, media.value.value);
        NoLossThen(c, d, ReleaseMedia(d, sid.value, s, media.value.value));
      }
    }
  }

  lemma KeepAliveCompletedNoLoss(c: Client, sid: Option<Id>, status: Status, env: Env)
    requires Inv(false, c)
    ensures NoLoss(c, KeepAliveCompleted(c, sid, status, env).0)
  {
    hide Inv, KeepAlive, LosesOnly, SessionOk;
    NoLossSelf(c);
    if sid.Some? && Find(c.sessions, sid.value).Some? {
      var s := Find(c.sessions, sid.value).value;
      CountedOk(c, sid.value, 0);
      CountedOk(c, sid.value, s.failed + 1);
      PutNoLoss(c, sid.value, s.(failed := 0));
      var d := SetSession(c, sid.value, s.(failed := s.failed + 1));
      PutNoLoss(c, sid.value, s.(failed := s.failed + 1));
      PutKeeps(false, c, sid.value, s.(failed := s.failed + 1));
      KeepAliveNoLoss(d, sid.value, env.keepAlive);
      NoLossThen(c, d, KeepAlive(d, sid.value, env.keepAlive).0);
    }
  }

  /** A keep-alive, and the TEARDOWN that may follow it, ask for no channels. */
  lemma KeepAliveAsksNone(c: Client, sid: Id, out: Outcome)
    requires !Valid(c.header.pair)
    ensures !Valid(KeepAlive(c, sid, out).0.header.pair)
  {
    hide Allowed;
  }

  lemma KeepAliveCompletedAsksNone(c: Client, sid: Option<Id>, status: Status, env: Env)
    requires !Valid(c.header.pair)
    ensures !Valid(KeepAliveCompleted(c, sid, status, env).0.header.pair)
  {
    hide KeepAlive;
    if sid.Some? && Find(c.sessions, sid.value).Some? {
      var s := Find(c.sessions, sid.value).value;
      KeepAliveAsksNone(SetSession(c, sid.value, s.(failed := s.failed + 1)), sid.value, env.keepAlive);
    }
  }

  lemma AskTeardownAsksNone(c: Client, resource: string, sid: Id, userdata: int, timeout: nat, out: Outcome, internally: bool)
    requires !Valid(c.header.pair)
    ensures !Valid(AskTeardown(c, resource, sid, userdata, timeout, out, internally).0.header.pair)
  {
    hide FormatUri, IsAbsolute, AnyKeepAlive;
  }

  lemma DeliverAsksNone(c: Client, h: Header, userdata: int, sid: Option<Id>, r: Reply, status: Status, env: Env)
    requires !Valid(c.header.pair)
    ensures !Valid(Deliver(c, h, userdata, sid, r, status, env).0.header.pair)
  {
    hide KeepAliveCompleted, AskTeardown, PathOf, TeardownTarget, FindMedia, ReleaseMedia;
    if h.verb == GetParameter {
      KeepAliveCompletedAsksNone(c, sid, status, env);
      AskTeardownAsksNone(KeepAliveCompleted(c, sid, status, env).0, "", sid.UnwrapOr(0), 0, 1, env.teardown, true);
    } else if h.verb == Teardown {
      TeardownHeader(c, h, userdata, sid, status, r.code == STATUS_SESSION_NOT_FOUND);
    }
  }

  lemma TeardownHeader(c: Client, h: Header, userdata: int, sid: Option<Id>, status: Status, gone: bool)
    ensures TeardownCompleted(c, h, userdata, sid, status, gone).0.header == c.header
  {
    hide TeardownTarget;
  }

  lemma SettleAsksNone(c: Client, r: Reply, status: Status, env: Env)
    ensures !Valid(Settle(c, r, status, env).header.pair)
  {
    hide Deliver, Touch;
    var sid := if r.sid.Some? then r.sid else c.header.sid;
    var d := c.(header := NO_HEADER, userdata := 0, pending := false, armed := false);
    TouchSlot(d, c.header.verb, sid);
    DeliverAsksNone(Touch(d, c.header.verb, sid), c.header, c.userdata, sid, r, FinalStatus(status, r.code), env);
  }

  lemma DeliverAccounts(c: Client, h: Header, userdata: int, sid: Option<Id>, r: Reply, status: Status, env: Env)
    requires Inv(false, c) && !c.pending && !Valid(c.header.pair)
    requires if h.verb == Setup then Answered(c, h, sid, r, status) else !Valid(h.pair)
    ensures var t := Deliver(c, h, userdata, sid, r, status, env).0;
            forall ch :: Leaked(t, ch) ==> Leaked(c, ch) && ch !in Both(h.pair)
  {
    hide Inv, SetupCompleted, TeardownCompleted, KeepAliveCompleted, AskTeardown, Answered, Leaked;
    InvDistinct(c);
    NoLossSelf(c);
    match h.verb
    case Options => FieldNoLoss(c, Report(c.(allowed := r.methods), h, userdata, status));
    case Setup => SetupCompletedAccounts(c, h, userdata, sid, r, status);
    case Teardown => TeardownCompletedNoLoss(c, h, userdata, sid, status, r.code == STATUS_SESSION_NOT_FOUND);
    case GetParameter =>
      var d := KeepAliveCompleted(c, sid, status, env).0;
      KeepAliveCompletedNoLoss(c, sid, status, env);
      KeepAliveCompletedKeeps(false, c, sid, status, env);
      KeepAliveCompletedAsksNone(c, sid, status, env);
      AskTeardownNoLoss(d, "", sid.UnwrapOr(0), 0, 1, env.teardown, true);
      NoLossThen(c, d, AskTeardown(d, "", sid.UnwrapOr(0), 0, 1, env.teardown, true).0);
    case _ => ReportNoLoss(c, h, userdata, status);
  }

  /** The completion of the pending request loses no channels. */
  predicate TidyReply(c: Client, r: Reply, status: Status) {
    if c.header.verb == Setup then
      var sid := if r.sid.Some? then r.sid else c.header.sid;
      Answered(Touch(c, Setup, sid), c.header, sid, r, FinalStatus(status, r.code))
    else !Valid(c.header.pair)
  }

  lemma SettleNoLoss(c: Client, r: Reply, status: Status, env: Env)
    requires Inv(false, c) && c.pending && TidyReply(c, r, status)
    requires c.header.verb == Setup ==> HonestReply(c.sessions, r, FinalStatus(status, r.code))
    ensures NoLoss(c, Settle(c, r, status, env))
  {
    hide Inv, Deliver, Touch, RemoveSession, Answered, HonestReply, Reserved, Total, Leaked;
    var sid := if r.sid.Some? then r.sid else c.header.sid;
    var d := c.(header := NO_HEADER, userdata := 0, pending := false, armed := false);
    ClearedLoses(c, d);
    InvBase(false, c);
    SlotKeeps(false, c, d);
    TouchKeeps(false, d, c.header.verb, sid);
    TouchNoLoss(d, c.header.verb, sid);
    TouchSlot(d, c.header.verb, sid);
    var touched := Touch(d, c.header.verb, sid);
    TouchAnswered(c, d, sid, r, FinalStatus(status, r.code));
    DeliverAccounts(touched, c.header, c.userdata, sid, r, FinalStatus(status, r.code), env);
    var e := Deliver(touched, c.header, c.userdata, sid, r, FinalStatus(status, r.code), env).0;
    if sid.Some? {
      RemoveNoLoss(e, sid.value);
    }
  }

  lemma ClearedLoses(c: Client, d: Client)
    requires d == c.(header := NO_HEADER, userdata := 0, pending := false, armed := false)
    ensures LosesOnly(c, d, c.header.pair)
  {
  }

  lemma TouchAnswered(c: Client, d: Client, sid: Option<Id>, r: Reply, status: Status)
    requires d.sessions == c.sessions && d.base == c.base
    ensures Answered(Touch(d, Setup, sid), c.header, sid, r, status) == Answered(Touch(c, Setup, sid), c.header, sid, r, status)
  {
    hide PathOf;
  }

  /** Only a SETUP asks for channels. */
  ghost predicate OnlySetupAsks(c: Client) { c.header.verb == Setup || !Valid(c.header.pair) }

  lemma AbortNoLoss(c: Client, env: Env)
    requires Inv(false, c) && OnlySetupAsks(c)
    ensures NoLoss(c, Abort(c, env)) && OnlySetupAsks(Abort(c, env))
  {
    hide Inv, Settle, LosesOnly;
    NoLossSelf(c);
    if c.pending {
      var t := Settle(c, NoReply(c.header.sid, Aborted), Aborted, env);
      SettleNoLoss(c, NoReply(c.header.sid, Aborted), Aborted, env);
      SettleAsksNone(c, NoReply(c.header.sid, Aborted), Aborted, env);
      FieldNoLoss(t, t.(failed := 0));
      NoLossThen(c, t, t.(failed := 0));
    }
  }

  lemma LostNoLoss(c: Client, env: Env)
    requires Inv(false, c) && OnlySetupAsks(c)
    ensures NoLoss(c, ConnectionLost(c, env)) && OnlySetupAsks(ConnectionLost(c, env))
  {
    hide Inv, Abort, LosesOnly;
    NoLossSelf(c);
    AbortNoLoss(c, env);
    var d := Abort(c, env);
    FieldNoLoss(d, d.(conn := Disconnected));
    FieldNoLoss(d, d.(conn := Connecting));
    NoLossThen(c, d, d.(conn := Disconnected));
    NoLossThen(c, d, d.(conn := Connecting));
  }

  lemma CompleteNoLoss(c: Client, r: Reply, status: Status, env: Env)
    requires Inv(false, c) && OnlySetupAsks(c) && (c.pending ==> TidyReply(c, r, status))
    requires c.pending && c.header.verb == Setup ==> HonestReply(c.sessions, r, FinalStatus(status, r.code))
    ensures NoLoss(c, Complete(c, r, status, env)) && OnlySetupAsks(Complete(c, r, status, env))
  {
    hide Inv, Settle, ConnectionLost, LosesOnly, HonestReply, TidyReply;
    NoLossSelf(c);
    if c.pending {
      var d := Settle(c, r, status, env);
      SettleNoLoss(c, r, status, env);
      SettleAsksNone(c, r, status, env);
      SettleKeeps(false, c, r, status, env);
      FieldNoLoss(d, d.(failed := 0));
      NoLossThen(c, d, d.(failed := 0));
      var e := d.(failed := d.failed + 1);
      FieldNoLoss(d, e);
      NoLossThen(c, d, e);
      InvBase(false, d);
      SlotKeeps(false, d, e);
      LostNoLoss(e, env);
      var f := if env.stopFires then ConnectionLost(e, env) else e;
      NoLossSelf(e);
      NoLossThen(c, e, f);
      FieldNoLoss(f, f.(conn := Connecting));
      NoLossThen(c, f, f.(conn := Connecting));
    }
  }

  lemma DisconnectNoLoss(c: Client, env: Env)
    requires Inv(false, c) && OnlySetupAsks(c)
    ensures NoLoss(c, Disconnect(c, env).0) && OnlySetupAsks(Disconnect(c, env).0)
  {
    hide Inv, Abort, RemoveSessions, LosesOnly;
    NoLossSelf(c);
    var closing := c.(conn := Disconnecting);
    FieldNoLoss(c, closing);
    ConnKeeps(false, c, Disconnecting);
    AbortNoLoss(closing, env);
    var a := Abort(closing, env);
    var d := a.(conn := Disconnected);
    NoLossThen(c, closing, a);
    FieldNoLoss(a, d);
    NoLossThen(c, a, d);
    RemoveSessionsNoLoss(d, d.sessions);
    RemoveSessionsHeader(d, d.sessions);
    NoLossThen(c, d, RemoveSessions(d, d.sessions));
    RemoveSessionsNoLoss(closing, closing.sessions);
    RemoveSessionsHeader(closing, closing.sessions);
    NoLossThen(c, closing, RemoveSessions(closing, closing.sessions));
  }

  lemma {:induction false} RemoveSessionsHeader(c: Client, l: List<Session>)
    ensures RemoveSessions(c, l).header == c.header
    decreases |l|
  {
    if l != [] {
      RemoveSessionsHeader(RemoveSession(c, l[0].id), l[1..]);
    }
  }

  lemma ServerTeardownNoLoss(c: Client, sid: Id, uri: string)
    requires Inv(false, c)
    ensures NoLoss(c, ServerTeardown(c, sid, uri).0) && ServerTeardown(c, sid, uri).0.header == c.header
  {
    hide Inv, PathOf, LosesOnly, FindMedia;
    NoLossSelf(c);
    RemoveNoLoss(c, sid);
    if Find(c.sessions, sid).Some? {
      var s := Find(c.sessions, sid).value;
      var media := if PathOf(uri).Some? && PathOf(uri).value.Some? then FindMedia(s.medias, PathOf(uri).value.value) else None;
      if media.Some? {
        var d := ReleaseMedia(c, sid, s, media.value);
        ReleaseNoLoss(c, sid, s, media.value);
        RemoveNoLoss(d, sid);
        NoLossThen(c, d, RemoveSession(d, sid));
      }
    }
  }

  lemma RespondNoLoss(c: Client, cseq: nat, r: Reply, env: Env)
    requires Inv(false, c) && OnlySetupAsks(c) && Honest(c, Response(cseq, r, env)) && !Loses(c, Response(cseq, r, env))
    ensures NoLoss(c, Respond(c, cseq, r, env).0) && OnlySetupAsks(Respond(c, cseq, r, env).0)
  {
    hide Inv, Complete, SessionOk, LosesOnly, TidyReply, HonestReply;
    NoLossSelf(c);
    if cseq == c.header.cseq {
      CompleteNoLoss(c, r, Ok, env);
    } else {
      var flagged := FirstKeepAlive(c.sessions);
      if flagged.Some? && Find(c.sessions, flagged.value).Some? {
        UnflagOk(false, c, flagged.value);
        PutNoLoss(c, flagged.value, Find(c.sessions, flagged.value).value.(keepAlive := false));
      }
    }
  }

  // --- runs ---

  /**
    The events that lose channels: a request replaces the header of a pending one that holds channels; a SETUP takes
    channels and cannot be sent, the slot being free; the answer to a SETUP names no TCP for the channels asked for, or
    names channels for a media that cannot be added.
   */
  predicate Loses(c: Client, e: Event)
    requires Enabled(c, e)
  {
    match e
    case Request(_, _, _, _, _, _) => !HoldsNone(c) && Replaces(c, e)
    case SetupRequest(_, _, _, t, _, _, out) => Replaces(c, e) && if c.pending then !HoldsNone(c) else TakenUnsent(c, t, out)
    case TeardownRequest(_, _, _, _, _) => !HoldsNone(c) && Replaces(c, e)
    case Response(cseq, r, _) => cseq == c.header.cseq && c.pending && !TidyReply(c, r, Ok)
    case _ => false
  }

  ghost predicate NoneLeaked(c: Client) { forall ch :: !Leaked(c, ch) }

  lemma StillNoneLeaked(c: Client, t: Client)
    requires NoneLeaked(c) && NoLoss(c, t)
    ensures NoneLeaked(t)
  {
  }

  /** What a request that does not get to its header leaves as it is. */
  ghost predicate SameSlot(c: Client, t: Client) {
    t.sessions == c.sessions && t.used == c.used && t.pending == c.pending && t.header == c.header
  }

  lemma UnreplacedSame(c: Client, e: Event)
    requires IsRequest(e) && Enabled(c, e) && !Replaces(c, e)
    ensures SameSlot(c, Step(c, e).0)
  {
    hide FormatUri, IsAbsolute, Url.StripCredentials, SendSetup, AnyKeepAlive, Send, Refusal, FirstFree;
  }

  lemma SameSlotNoLoss(c: Client, t: Client)
    requires SameSlot(c, t)
    ensures NoLoss(c, t) && (OnlySetupAsks(c) ==> OnlySetupAsks(t))
  {
    FieldNoLoss(c, t);
  }

  lemma AskAsksNone(c: Client, verb: Verb, uri: string, sid: Id, userdata: int, timeout: nat, out: Outcome)
    requires OnlySetupAsks(c)
    ensures OnlySetupAsks(Ask(c, verb, uri, sid, userdata, timeout, out).0)
  {
    hide AnyKeepAlive;
  }

  lemma TeardownKeepsAsking(c: Client, resource: string, sid: Id, userdata: int, timeout: nat, out: Outcome)
    requires OnlySetupAsks(c)
    ensures OnlySetupAsks(AskTeardown(c, resource, sid, userdata, timeout, out, false).0)
  {
    hide FormatUri, IsAbsolute, AnyKeepAlive;
  }

  lemma SetupKeepsAsking(c: Client, base: string, resource: string, sid: Option<Id>, t: Transport, userdata: int, timeout: nat, out: Outcome)
    requires OnlySetupAsks(c) && SearchEnds(c, t)
    ensures OnlySetupAsks(AskSetup(c, base, resource, sid, t, userdata, timeout, out).0)
  {
    hide FormatUri, Url.StripCredentials, AnyKeepAlive, FirstFree, SendSetup, Refusal;
    var d := ClearTimer(c);
    var stripped := Url.StripCredentials(base);
    if stripped.Success? {
      var h := Header(Setup, d.cseq, FormatUri(stripped.value, resource), sid, NO_PAIR);
      SendSetupVerb(d.(base := Some(stripped.value)), h, t, userdata, timeout, out);
    }
  }

  lemma SendSetupVerb(c: Client, h: Header, t: Transport, userdata: int, timeout: nat, out: Outcome)
    requires SearchEnds(c, t)
    ensures SendSetup(c, h, t, userdata, timeout, out).0.header.verb == h.verb
  {
    hide Allocate, FirstFree;
  }

  lemma {:induction false} ProbeKeepsAsking(c: Client, l: List<Session>, outs: seq<Outcome>)
    requires OnlySetupAsks(c)
    ensures OnlySetupAsks(Probe(c, l, outs))
    decreases |l|
  {
    hide KeepAlive;
    if l != [] {
      var out := if outs == [] then Written else outs[0];
      KeepAliveKeepsAsking(c, l[0].id, out);
      ProbeKeepsAsking(KeepAlive(c, l[0].id, out).0, l[1..], if outs == [] then [] else outs[1..]);
    }
  }

  lemma KeepAliveKeepsAsking(c: Client, sid: Id, out: Outcome)
    requires OnlySetupAsks(c)
    ensures OnlySetupAsks(KeepAlive(c, sid, out).0)
  {
    hide Allowed;
  }

  lemma RemoveHeader(c: Client, sid: Id)
    ensures RemoveSession(c, sid).header == c.header
  {
  }

  lemma RequestNoLoss(c: Client, e: Event)
    requires Inv(false, c) && OnlySetupAsks(c) && IsRequest(e) && Enabled(c, e) && !Loses(c, e)
    ensures NoLoss(c, Step(c, e).0) && OnlySetupAsks(Step(c, e).0)
  {
    hide Inv, Ask, AskTeardown, AskSetup, LosesOnly, OnlySetupAsks, FirstFree, AnyKeepAlive, Replaces, TakenUnsent, HoldsNone, SameSlot;
    if !Replaces(c, e) {
      UnreplacedSame(c, e);
      SameSlotNoLoss(c, Step(c, e).0);
      return;
    }
    FreeHoldsNone(c);
    match e
    case Request(verb, uri, sid, userdata, timeout, out) =>
      AskNoLoss(c, verb, uri, sid, userdata, timeout, out);
      AskAsksNone(c, verb, uri, sid, userdata, timeout, out);
    case SetupRequest(base, resource, sid, t, userdata, timeout, out) =>
      AskSetupNoLoss(c, base, resource, sid, t, userdata, timeout, out);
      SetupKeepsAsking(c, base, resource, sid, t, userdata, timeout, out);
    case TeardownRequest(resource, sid, userdata, timeout, out) =>
      AskTeardownNoLoss(c, resource, sid, userdata, timeout, out, false);
      TeardownKeepsAsking(c, resource, sid, userdata, timeout, out);
  }

  lemma FreeHoldsNone(c: Client)
    ensures !c.pending ==> HoldsNone(c)
  {
  }

  lemma TimeoutNoLoss(c: Client, env: Env)
    requires Inv(false, c) && OnlySetupAsks(c)
    ensures var t := Complete(c.(armed := false), NoReply(c.header.sid, TimedOut), TimedOut, env);
            NoLoss(c, t) && OnlySetupAsks(t)
  {
    hide Inv, Complete, LosesOnly;
    var d := c.(armed := false);
    FieldNoLoss(c, d);
    InvBase(false, c);
    SlotKeeps(false, c, d);
    CompleteNoLoss(d, NoReply(c.header.sid, TimedOut), TimedOut, env);
    NoLossThen(c, d, Complete(d, NoReply(c.header.sid, TimedOut), TimedOut, env));
  }

  lemma UpNoLoss(c: Client, outs: seq<Outcome>)
    requires Inv(false, c) && OnlySetupAsks(c)
    ensures var t := Probe(c.(conn := Connected), c.sessions, outs); NoLoss(c, t) && OnlySetupAsks(t)
  {
    hide Inv, Probe, LosesOnly;
    var d := c.(conn := Connected);
    FieldNoLoss(c, d);
    ConnKeeps(false, c, Connected);
    ProbeNoLoss(d, c.sessions, outs);
    ProbeKeepsAsking(d, c.sessions, outs);
    NoLossThen(c, d, Probe(d, c.sessions, outs));
  }

  /** Every other event loses nothing, whatever was lost before. */
  lemma StepNoLoss(c: Client, e: Event)
    requires Inv(false, c) && OnlySetupAsks(c) && Enabled(c, e) && Honest(c, e) && !Loses(c, e)
    ensures NoLoss(c, Step(c, e).0) && OnlySetupAsks(Step(c, e).0)
  {
    hide Inv, Ask, AskTeardown, AskSetup, KeepAlive, Probe, Complete, ConnectionLost, Disconnect, RemoveSession, Respond,
         ServerTeardown, LosesOnly, TidyReply, HonestReply;
    match e
    case ConnectCall =>
      FieldNoLoss(c, c.(conn := Connecting));
      NoLossSelf(c);
    case ConnectFailed => FieldNoLoss(c, c.(conn := Disconnected));
    case Up(outs) => UpNoLoss(c, outs);
    case Down(env) => LostNoLoss(c, env);
    case DisconnectCall(env) => DisconnectNoLoss(c, env);
    case Request(_, _, _, _, _, _) => RequestNoLoss(c, e);
    case SetupRequest(_, _, _, _, _, _, _) => RequestNoLoss(c, e);
    case TeardownRequest(_, _, _, _, _) => RequestNoLoss(c, e);
    case KeepAliveTimer(sid, out) =>
      KeepAliveNoLoss(c, sid, out);
      KeepAliveKeepsAsking(c, sid, out);
    case ResponseTimeout(env) => TimeoutNoLoss(c, env);
    case Response(cseq, r, env) => RespondNoLoss(c, cseq, r, env);
    case TeardownFromServer(sid, uri) => ServerTeardownNoLoss(c, sid, uri);
    case RemoveCall(sid) =>
      RemoveNoLoss(c, sid);
      RemoveHeader(c, sid);
    case Cancel(env) => CancelNoLoss(c, env);
  }

  lemma CancelNoLoss(c: Client, env: Env)
    requires Inv(false, c) && OnlySetupAsks(c)
    ensures var t := Complete(c, NoReply(c.header.sid, Canceled), Canceled, env); NoLoss(c, t) && OnlySetupAsks(t)
  {
    hide Inv, Complete, LosesOnly;
    CompleteNoLoss(c, NoReply(c.header.sid, Canceled), Canceled, env);
  }

  // --- the losing events lose ---

  /** Replacing the header of a pending SETUP leaves the channels it asked for to nobody. */
  lemma ReplacedLoses(c: Client, t: Client)
    requires Inv(false, c) && !HoldsNone(c) && t.pending
    requires t.sessions == c.sessions && c.used <= t.used && Both(t.header.pair) !! c.used
    ensures Leaked(t, c.header.pair.rtp)
  {
    InvOwned(c, c.header.pair.rtp);
  }

  lemma AskLoses(c: Client, e: Event)
    requires e.Request? && Enabled(c, e) && Replaces(c, e) && !HoldsNone(c) && Inv(false, c)
    ensures !NoneLeaked(Step(c, e).0)
  {
    hide Inv, AnyKeepAlive, Leaked, Refusal;
    ReplacedLoses(c, Step(c, e).0);
  }

  lemma TeardownLoses(c: Client, e: Event)
    requires e.TeardownRequest? && Enabled(c, e) && Replaces(c, e) && !HoldsNone(c) && Inv(false, c)
    ensures !NoneLeaked(Step(c, e).0)
  {
    hide Inv, AnyKeepAlive, FormatUri, IsAbsolute, Leaked, Holders, Refusal, HoldsNone, Send;
    var t := Step(c, e).0;
    var d := ClearTimer(c);
    var s := Find(d.sessions, e.sid).value;
    var base := s.base.UnwrapOr("");
    var h := Header(Teardown, d.cseq, if e.resource == "" then base else FormatUri(base, e.resource), Some(e.sid), NO_PAIR);
    var u := Send(d, h, e.userdata, e.timeout, e.out).0;
    SentPlain(d, h, e.userdata, e.timeout, e.out);
    HoldsPending(c);
    var failed := Prepare(d, NO_HEADER.(verb := Teardown), e.userdata);
    ReplacedLoses(c, u);
    ReplacedLoses(c, failed);
    if t != failed {
      FlagLeaks(c, u, t, e.sid, s, c.header.pair.rtp);
    }
  }

  lemma HoldsPending(c: Client)
    requires !HoldsNone(c)
    ensures c.pending
  {
  }

  lemma SentPlain(c: Client, h: Header, userdata: int, timeout: nat, out: Outcome)
    ensures var t := Send(c, h, userdata, timeout, out).0;
            t.sessions == c.sessions && t.used == c.used && (c.pending ==> t.pending) && t.header.pair == h.pair
  {
  }

  /** A change of the session's flag does not touch channels. */
  lemma FlagLeaks(c: Client, u: Client, t: Client, sid: Id, s: Session, ch: Channel)
    requires Inv(false, c) && u.sessions == c.sessions && Find(c.sessions, sid) == Some(s) && Leaked(u, ch)
    requires t == u || t == SetSession(u, sid, s.(internalTeardown := false)).(isInternal := false)
    ensures Leaked(t, ch)
  {
    InvDistinct(c);
    HoldersPut(c.sessions, sid, s.(internalTeardown := false), ch);
  }

  lemma SetupLoses(c: Client, e: Event)
    requires e.SetupRequest? && Enabled(c, e) && Loses(c, e) && Inv(false, c)
    ensures !NoneLeaked(Step(c, e).0)
  {
    hide Inv, AnyKeepAlive, FormatUri, Url.StripCredentials, FirstFree, Leaked, Refusal, SendSetup, HoldsNone, TakenUnsent, Allocate;
    var d := ClearTimer(c);
    var stripped := Url.StripCredentials(e.base).value;
    var h := Header(Setup, d.cseq, FormatUri(stripped, e.resource), e.known, NO_PAIR);
    ClearTimerKeeps(false, c);
    TimerFields(c, d.(base := Some(stripped)), e.transport, e.out);
    SendSetupLoses(c, d.(base := Some(stripped)), h, e.transport, e.userdata, e.timeout, e.out);
  }

  lemma TimerFields(c: Client, d: Client, t: Transport, out: Outcome)
    requires d.used == c.used && d.pending == c.pending && d.header == c.header && SearchEnds(c, t)
    ensures SearchEnds(d, t) && TakenUnsent(d, t, out) == TakenUnsent(c, t, out) && HoldsNone(d) == HoldsNone(c)
  {
    hide Allocate, FirstFree;
  }

  lemma SendSetupLoses(c: Client, d: Client, h: Header, t: Transport, userdata: int, timeout: nat, out: Outcome)
    requires Inv(false, c) && SearchEnds(d, t) && h.pair == NO_PAIR
    requires d.used == c.used && d.pending == c.pending && d.header == c.header && d.sessions == c.sessions
    requires if d.pending then !HoldsNone(d) else TakenUnsent(d, t, out)
    ensures !NoneLeaked(SendSetup(d, h, t, userdata, timeout, out).0)
  {
    hide Inv, FirstFree, Leaked, Allocate, HoldsNone;
    var u := SendSetup(d, h, t, userdata, timeout, out).0;
    if d.pending {
      TimerFields(d, c, t, out);
      ReplacedLoses(c, u);
    } else {
      var p := Allocate(d.used, t.pair).value;
      UnsentLoses(c, u, p);
    }
  }

  lemma UnsentLoses(c: Client, u: Client, p: Pair)
    requires Inv(false, c) && Valid(p) && Both(p) !! c.used && u.sessions == c.sessions && u.used == c.used + Both(p) && !u.pending
    ensures Leaked(u, p.rtp)
  {
    InvOwned(c, p.rtp);
    assert p.rtp in Both(p);
  }

  /** The channels of an answer that cannot be kept, or of the request it ignores, stay marked. */
  lemma AnswerLoses(c: Client, r: Reply, env: Env)
    requires Inv(false, c) && c.pending && OnlySetupAsks(c) && !TidyReply(c, r, Ok)
    requires c.header.verb == Setup ==> HonestReply(c.sessions, r, FinalStatus(Ok, r.code))
    ensures !NoneLeaked(Complete(c, r, Ok, env))
  {
    hide Inv, Deliver, Touch, RemoveSession, Answered, HonestReply, Reserved, Leaked, SetupCompleted;
    var sid := if r.sid.Some? then r.sid else c.header.sid;
    var d := c.(header := NO_HEADER, userdata := 0, pending := false, armed := false);
    InvBase(false, c);
    SlotKeeps(false, c, d);
    TouchKeeps(false, d, Setup, sid);
    TouchSlot(d, Setup, sid);
    TouchAnswered(c, d, sid, r, FinalStatus(Ok, r.code));
    var e := Touch(d, Setup, sid);
    UnansweredStatus(e, c.header, sid, r, FinalStatus(Ok, r.code));
    PendingReserved(false, c);
    TouchReserved(d, sid, c.header.pair);
    if r.tcp {
      HonestPair(c.sessions, r);
      TouchReserved(d, sid, r.pair);
    }
    InvDistinct(e);
    OkAnswer(r);
    AskedUsed(c);
    HonestTouched(c, e, r);
    UnansweredLoses(e, c.header, c.userdata, sid, r);
    var lost := if r.tcp then r.pair.rtp else c.header.pair.rtp;
    var t := Complete(c, r, Ok, env);
    DeliversSetup(e, c.header, c.userdata, sid, r, env);
    LeakedFields(SetupCompleted(e, c.header, c.userdata, sid, r, Ok), t, lost);
  }

  lemma TouchReserved(c: Client, sid: Option<Id>, p: Pair)
    requires Inv(false, c) && Reserved(c.sessions, p)
    ensures Reserved(Touch(c, Setup, sid).sessions, p)
  {
    hide Inv, Holders;
    TouchKeeps(false, c, Setup, sid);
  }

  lemma HonestPair(l: List<Session>, r: Reply)
    requires HonestReply(l, r, Ok) && r.tcp
    ensures Reserved(l, r.pair)
  {
  }

  lemma HonestTouched(c: Client, e: Client, r: Reply)
    requires r.tcp ==> Reserved(e.sessions, r.pair)
    ensures HonestReply(e.sessions, r, Ok)
  {
  }

  lemma UnansweredStatus(c: Client, h: Header, sid: Option<Id>, r: Reply, status: Status)
    requires !Answered(c, h, sid, r, status)
    ensures status == Ok
  {
  }

  lemma OkAnswer(r: Reply)
    requires FinalStatus(Ok, r.code) == Ok
    ensures r.code != STATUS_SESSION_NOT_FOUND
  {
  }

  lemma AskedUsed(c: Client)
    requires Inv(false, c) && c.pending
    ensures Both(c.header.pair) <= c.used
  {
    forall ch | ch in Both(c.header.pair) ensures ch in c.used {
      InvOwned(c, ch);
    }
  }

  lemma DeliversSetup(c: Client, h: Header, userdata: int, sid: Option<Id>, r: Reply, env: Env)
    requires h.verb == Setup && r.code != STATUS_SESSION_NOT_FOUND
    ensures Deliver(c, h, userdata, sid, r, Ok, env) == (SetupCompleted(c, h, userdata, sid, r, Ok), false)
  {
  }

  lemma LeakedFields(c: Client, t: Client, ch: Channel)
    requires t.sessions == c.sessions && t.used == c.used && t.pending == c.pending && t.header == c.header && Leaked(c, ch)
    ensures !NoneLeaked(t)
  {
    assert Leaked(t, ch);
  }

  /** Where nothing was lost before, exactly the events of `Loses` lose a channel. */
  lemma StepLosesIff(c: Client, e: Event)
    requires Inv(false, c) && OnlySetupAsks(c) && Enabled(c, e) && Honest(c, e) && NoneLeaked(c)
    ensures NoneLeaked(Step(c, e).0) <==> !Loses(c, e)
  {
    hide Inv, OnlySetupAsks, NoneLeaked, LosesOnly, Complete, Ask, AskSetup, AskTeardown, HonestReply, TidyReply, Replaces, HoldsNone;
    if !Loses(c, e) {
      StepNoLoss(c, e);
      StillNoneLeaked(c, Step(c, e).0);
    } else {
      match e
      case Request(_, _, _, _, _, _) => AskLoses(c, e);
      case SetupRequest(_, _, _, _, _, _, _) => SetupLoses(c, e);
      case TeardownRequest(_, _, _, _, _) => TeardownLoses(c, e);
      case Response(_, r, env) => AnswerLoses(c, r, env);
    }
  }

  // --- runs ---

  /** A channel is marked used exactly when one media or the pending SETUP owns it. */
  ghost predicate ExactlyOwned(c: Client) { forall ch :: ch in c.used <==> Total(c, ch) == 1 }

  ghost predicate AlwaysExact(c: Client, events: seq<Event>)
    requires HonestRun(c, events)
    decreases |events|
  {
    ExactlyOwned(c) && (events != [] ==> AlwaysExact(Step(c, events[0]).0, events[1..]))
  }

  predicate LosslessRun(c: Client, events: seq<Event>)
    requires Run(c, events)
    decreases |events|
  {
    events != [] ==> !Loses(c, events[0]) && LosslessRun(Step(c, events[0]).0, events[1..])
  }

  lemma ExactIffNoneLeaked(c: Client)
    requires Inv(false, c)
    ensures ExactlyOwned(c) <==> NoneLeaked(c)
  {
    forall ch ensures (ch in c.used <==> Total(c, ch) == 1) <==> !Leaked(c, ch) {
      InvOwned(c, ch);
    }
    if ExactlyOwned(c) {
      forall ch ensures !Leaked(c, ch) {
      }
    }
  }

  lemma {:induction false} HonestIsRun(c: Client, events: seq<Event>)
    requires HonestRun(c, events)
    ensures Run(c, events)
    decreases |events|
  {
    hide Step, Enabled, Honest;
    if events != [] {
      HonestIsRun(Step(c, events[0]).0, events[1..]);
    }
  }

  lemma {:induction false} ExactIffLossless(c: Client, events: seq<Event>)
    requires Inv(false, c) && OnlySetupAsks(c) && NoneLeaked(c) && HonestRun(c, events)
    ensures Run(c, events) && (AlwaysExact(c, events) <==> LosslessRun(c, events))
    decreases |events|
  {
    hide Inv, Step, Enabled, Honest, Loses, OnlySetupAsks, NoneLeaked, ExactlyOwned, LosesOnly;
    HonestIsRun(c, events);
    ExactIffNoneLeaked(c);
    if events != [] {
      var d := Step(c, events[0]).0;
      StepKeeps(false, c, events[0]);
      StepLosesIff(c, events[0]);
      ExactIffNoneLeaked(d);
      if Loses(c, events[0]) {
        assert !ExactlyOwned(d) && !AlwaysExact(d, events[1..]);
      } else {
        StepNoLoss(c, events[0]);
        ExactIffLossless(d, events[1..]);
      }
    }
  }

  /**
    Over all runs from the start with an honest server, in every state on the way a channel is marked used exactly when
    one media or the pending SETUP owns it, if and only if none of the events is a losing one.
   */
  lemma UsedExactlyByOwners(events: seq<Event>)
    requires HonestRun(Initial(), events)
    ensures Run(Initial(), events)
    ensures AlwaysExact(Initial(), events) <==> LosslessRun(Initial(), events)
  {
    InitialInv(false);
    assert NoneLeaked(Initial());
    ExactIffLossless(Initial(), events);
  }

  lemma InvOwned(c: Client, ch: Channel)
    requires Inv(false, c)
    ensures OwnedAt(c, ch)
  {
  }
}
