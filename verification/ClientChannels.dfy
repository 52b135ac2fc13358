/**
  Who owns the interleaved channels: in every run, each is held by at most one live media or by the SETUP being
  waited for, and what is held is marked used.
 */
module ClientChannels {
  import opened Wrappers
  import opened Lists
  import opened Channels
  import opened ClientState
  import Url
  import UrlTheorems

  // --- counting the holders of a channel ---

  function Holds(p: Pair, ch: Channel): nat { if ch in Both(p) then 1 else 0 }

  function MediaHolders(l: seq<Media>, ch: Channel): nat {
    if l == [] then 0 else Holds(l[0].pair, ch) + MediaHolders(l[1..], ch)
  }

  function Holders(l: List<Session>, ch: Channel): nat {
    if l == [] then 0 else MediaHolders(l[0].val.medias, ch) + Holders(l[1..], ch)
  }

  /** The pair the pending SETUP asked for. */
  function Asked(c: Client, ch: Channel): nat { if c.pending then Holds(c.header.pair, ch) else 0 }

  function Total(c: Client, ch: Channel): nat { Holders(c.sessions, ch) + Asked(c, ch) }

  ghost predicate OwnedAt(c: Client, ch: Channel) {
    Total(c, ch) <= 1 && (Total(c, ch) == 1 ==> ch in c.used)
  }

  ghost predicate BaseOk(base: Option<string>) { base.Some? ==> PathOf(base.value).Some? }

  ghost predicate MediasAligned(l: seq<Media>) { forall i :: 0 <= i < |l| ==> AlignedPair(l[i].pair) }

  ghost predicate SessionOk(a: bool, s: Session) {
    && s.mediaCount == |s.medias| && BaseOk(s.base) && (a ==> MediasAligned(s.medias))
    && forall i, j :: 0 <= i < j < |s.medias| ==> s.medias[i].path != s.medias[j].path
  }

  ghost predicate SessionsOk(a: bool, l: List<Session>) { Distinct(l) && forall i :: 0 <= i < |l| ==> SessionOk(a, l[i].val) }

  /** What every step of the client keeps; with `a`, also that channels come and go by aligned pairs. */
  ghost predicate Inv(a: bool, c: Client) {
    && SessionsOk(a, c.sessions) && BaseOk(c.base) && (a ==> Aligned(c.used) && AlignedPair(c.header.pair))
    && forall ch :: OwnedAt(c, ch)
  }

  lemma {:induction false} MediaHoldersAppend(l: seq<Media>, m: Media, ch: Channel)
    ensures MediaHolders(l + [m], ch) == MediaHolders(l, ch) + Holds(m.pair, ch)
  {
    if l == [] {
      assert (l + [m])[1..] == [];
    } else {
      assert (l + [m])[1..] == l[1..] + [m];
      MediaHoldersAppend(l[1..], m, ch);
    }
  }

  lemma {:induction false} MediaHoldersDrop(l: seq<Media>, i: nat, ch: Channel)
    requires i < |l|
    ensures MediaHolders(l, ch) == MediaHolders(l[..i] + l[i + 1..], ch) + Holds(l[i].pair, ch)
  {
    if i == 0 {
      assert l[..0] + l[1..] == l[1..];
    } else {
      assert (l[..i] + l[i + 1..])[1..] == l[1..][..i - 1] + l[1..][i..];
      MediaHoldersDrop(l[1..], i - 1, ch);
    }
  }

  lemma {:induction false} MediaChannelsHeld(l: seq<Media>, ch: Channel)
    ensures ch in MediaChannels(l) <==> MediaHolders(l, ch) > 0
  {
    if l != [] {
      MediaChannelsHeld(l[1..], ch);
    }
  }

  lemma {:induction false} HoldersAppend(l: List<Session>, n: Node<Session>, ch: Channel)
    ensures Holders(l + [n], ch) == Holders(l, ch) + MediaHolders(n.val.medias, ch)
  {
    if l == [] {
      assert (l + [n])[1..] == [];
    } else {
      assert (l + [n])[1..] == l[1..] + [n];
      HoldersAppend(l[1..], n, ch);
    }
  }

  lemma {:induction false} HoldersPut(l: List<Session>, sid: Id, s: Session, ch: Channel)
    requires Distinct(l)
    ensures match Find(l, sid)
            case None => Holders(Put(l, sid, s), ch) == Holders(l, ch)
            case Some(o) => Holders(Put(l, sid, s), ch) + MediaHolders(o.medias, ch) == Holders(l, ch) + MediaHolders(s.medias, ch)
  {
    if l == [] {
    } else {
      assert Put(l, sid, s)[1..] == Put(l[1..], sid, s);
      HoldersPut(l[1..], sid, s, ch);
      if l[0].id == sid {
        assert !Has(l[1..], sid);
      }
    }
  }

  lemma {:induction false} HoldersRemove(l: List<Session>, sid: Id, ch: Channel)
    ensures Holders(l, ch) == Holders(Remove(l, sid), ch) + if Find(l, sid).Some? then MediaHolders(Find(l, sid).value.medias, ch) else 0
  {
    if l == [] {
    } else if l[0].id == sid {
      assert l[0].id == sid;
    } else {
      HoldersRemove(l[1..], sid, ch);
      assert Remove(l, sid)[1..] == Remove(l[1..], sid);
    }
  }

  // --- the invariant under the building blocks ---

  lemma FoundOk(a: bool, l: List<Session>, sid: Id)
    requires SessionsOk(a, l) && Find(l, sid).Some?
    ensures SessionOk(a, Find(l, sid).value)
  {
  }

  lemma PutOk(a: bool, l: List<Session>, sid: Id, s: Session)
    requires SessionsOk(a, l) && SessionOk(a, s)
    ensures SessionsOk(a, Put(l, sid, s))
  {
    PutDistinct(l, sid, s);
  }

  lemma RemoveOk(a: bool, l: List<Session>, sid: Id)
    requires SessionsOk(a, l)
    ensures SessionsOk(a, Remove(l, sid))
  {
    FindRemove(l, sid, sid);
    forall i | 0 <= i < |Remove(l, sid)| ensures SessionOk(a, Remove(l, sid)[i].val) {
      RemoveKeeps(l, sid, i);
    }
  }

  /** Sessions, table and content bases stay; the slot does not come to hold more. */
  lemma SlotKeeps(a: bool, c: Client, t: Client)
    requires Inv(a, c) && t.sessions == c.sessions && t.used == c.used && BaseOk(t.base)
    requires !Valid(t.header.pair) || (t.header.pair == c.header.pair && (t.pending ==> c.pending))
    ensures Inv(a, t)
  {
    hide SessionsOk, BaseOk, Aligned;
    forall ch ensures OwnedAt(t, ch) {
      assert OwnedAt(c, ch);
    }
  }

  lemma PutKeeps(a: bool, c: Client, sid: Id, s: Session)
    requires Inv(a, c) && Find(c.sessions, sid).Some? && s.medias == Find(c.sessions, sid).value.medias && SessionOk(a, s)
    ensures Inv(a, SetSession(c, sid, s))
    ensures forall ch :: Holders(SetSession(c, sid, s).sessions, ch) == Holders(c.sessions, ch)
  {
    hide SessionsOk, SessionOk, BaseOk, Aligned;
    PutOk(a, c.sessions, sid, s);
    DistinctOk(a, c.sessions);
    forall ch ensures OwnedAt(SetSession(c, sid, s), ch) && Holders(SetSession(c, sid, s).sessions, ch) == Holders(c.sessions, ch) {
      assert OwnedAt(c, ch);
      HoldersPut(c.sessions, sid, s, ch);
    }
  }

  lemma DistinctOk(a: bool, l: List<Session>)
    requires SessionsOk(a, l)
    ensures Distinct(l)
  {
  }

  lemma DropOk(a: bool, s: Session, i: nat)
    requires SessionOk(a, s) && i < |s.medias|
    ensures SessionOk(a, DropMedia(s, i))
  {
  }

  lemma AlignedMedia(s: Session, i: nat)
    requires SessionOk(true, s) && i < |s.medias|
    ensures AlignedPair(s.medias[i].pair)
  {
  }

  lemma {:induction false} MediaChannelsAligned(used: set<Channel>, l: seq<Media>)
    requires Aligned(used) && MediasAligned(l)
    ensures Aligned(used - MediaChannels(l))
  {
    hide Aligned, AlignedPair;
    if l == [] {
      assert used - {} == used;
    } else {
      MarkAligned(used, l[0].pair);
      MediaChannelsAligned(used - Both(l[0].pair), l[1..]);
      assert used - MediaChannels(l) == (used - Both(l[0].pair)) - MediaChannels(l[1..]);
    }
  }

  lemma ReleaseKeeps(a: bool, c: Client, sid: Id, s: Session, i: nat)
    requires Inv(a, c) && Find(c.sessions, sid) == Some(s) && i < |s.medias|
    ensures Inv(a, ReleaseMedia(c, sid, s, i))
  {
    hide SessionsOk, SessionOk, BaseOk, Aligned;
    FoundOk(a, c.sessions, sid);
    DropOk(a, s, i);
    if a {
      AlignedMedia(s, i);
      MarkAligned(c.used, s.medias[i].pair);
    }
    PutOk(a, c.sessions, sid, DropMedia(s, i));
    DistinctOk(a, c.sessions);
    var t := ReleaseMedia(c, sid, s, i);
    forall ch ensures OwnedAt(t, ch) {
      assert OwnedAt(c, ch);
      HoldersPut(c.sessions, sid, DropMedia(s, i), ch);
      MediaHoldersDrop(s.medias, i, ch);
    }
  }

  lemma RemoveSessionKeeps(a: bool, c: Client, sid: Id)
    requires Inv(a, c)
    ensures Inv(a, RemoveSession(c, sid))
  {
    hide SessionsOk, BaseOk, Aligned;
    RemoveOk(a, c.sessions, sid);
    if Find(c.sessions, sid).Some? {
      if a {
        FoundOk(a, c.sessions, sid);
        MediaChannelsAligned(c.used, Find(c.sessions, sid).value.medias);
      }
      var t := RemoveSession(c, sid);
      forall ch ensures OwnedAt(t, ch) {
        assert OwnedAt(c, ch);
        HoldersRemove(c.sessions, sid, ch);
        MediaChannelsHeld(Find(c.sessions, sid).value.medias, ch);
      }
    }
  }

  lemma {:induction false} RemoveSessionsKeeps(a: bool, c: Client, l: List<Session>)
    requires Inv(a, c)
    ensures Inv(a, RemoveSessions(c, l))
    decreases |l|
  {
    hide Inv, RemoveSession;
    if l != [] {
      RemoveSessionKeeps(a, c, l[0].id);
      RemoveSessionsKeeps(a, RemoveSession(c, l[0].id), l[1..]);
    }
  }

  // --- requests ---

  lemma SendKeeps(a: bool, c: Client, h: Header, userdata: int, timeout: nat, out: Outcome)
    requires Inv(a, c) && !Valid(h.pair)
    ensures Inv(a, Send(c, h, userdata, timeout, out).0)
  {
    hide Inv;
    InvBase(a, c);
    SlotKeeps(a, c, Send(c, h, userdata, timeout, out).0);
  }

  lemma InvBase(a: bool, c: Client)
    requires Inv(a, c)
    ensures BaseOk(c.base)
  {
  }

  lemma ClearTimerKeeps(a: bool, c: Client)
    requires Inv(a, c)
    ensures Inv(a, ClearTimer(c))
  {
    hide Inv, AnyKeepAlive;
    InvBase(a, c);
    SlotKeeps(a, c, ClearTimer(c));
  }

  lemma AskKeeps(a: bool, c: Client, verb: Verb, uri: string, sid: Id, userdata: int, timeout: nat, out: Outcome)
    requires Inv(a, c)
    ensures Inv(a, Ask(c, verb, uri, sid, userdata, timeout, out).0)
  {
    hide Inv, Send, ClearTimer, Refusal;
    ClearTimerKeeps(a, c);
    var d := ClearTimer(c);
    SendKeeps(a, d, Header(verb, d.cseq, uri, None, NO_PAIR), userdata, timeout, out);
    var base := Find(d.sessions, sid).UnwrapOr(NewSession()).base.UnwrapOr("");
    SendKeeps(a, d, Header(verb, d.cseq, base, Some(sid), NO_PAIR), userdata, timeout, out);
  }

  lemma AskTeardownKeeps(a: bool, c: Client, resource: string, sid: Id, userdata: int, timeout: nat, out: Outcome, internally: bool)
    requires Inv(a, c)
    ensures Inv(a, AskTeardown(c, resource, sid, userdata, timeout, out, internally).0)
  {
    hide Inv, Send, ClearTimer, Refusal, FormatUri, IsAbsolute, SessionOk;
    ClearTimerKeeps(a, c);
    var d := ClearTimer(c);
    if Find(d.sessions, sid).Some? {
      var s := Find(d.sessions, sid).value;
      var base := s.base.UnwrapOr("");
      var h := Header(Teardown, d.cseq, if resource == "" then base else FormatUri(base, resource), Some(sid), NO_PAIR);
      SendKeeps(a, d, h, userdata, timeout, out);
      var e := Send(d, h, userdata, timeout, out).0;
      SendSameSessions(d, h, userdata, timeout, out);
      FlagKeeps(a, e, sid, s, internally);
      var failed := Prepare(d, NO_HEADER.(verb := Teardown), userdata);
      InvBase(a, d);
      SlotKeeps(a, d, failed);
    }
  }

  lemma SendSameSessions(c: Client, h: Header, userdata: int, timeout: nat, out: Outcome)
    ensures Send(c, h, userdata, timeout, out).0.sessions == c.sessions
  {
  }

  lemma FlagKeeps(a: bool, c: Client, sid: Id, s: Session, internally: bool)
    requires Inv(a, c) && Find(c.sessions, sid) == Some(s)
    ensures Inv(a, SetSession(c, sid, s.(internalTeardown := internally)).(isInternal := internally))
  {
    hide SessionsOk;
    FoundOk(a, c.sessions, sid);
    PutKeeps(a, c, sid, s.(internalTeardown := internally));
    InvBase(a, SetSession(c, sid, s.(internalTeardown := internally)));
    SlotKeeps(a, SetSession(c, sid, s.(internalTeardown := internally)),
              SetSession(c, sid, s.(internalTeardown := internally)).(isInternal := internally));
  }

  predicate AlignedTransport(t: Transport) { t.OverTcp? ==> AlignedPair(t.pair) }

  /** The channels a SETUP gets were free, so nobody holds them. */
  lemma SendSetupKeeps(a: bool, c: Client, h: Header, t: Transport, userdata: int, timeout: nat, out: Outcome)
    requires Inv(a, c) && SearchEnds(c, t) && !Valid(h.pair) && (a ==> AlignedTransport(t))
    ensures Inv(a, SendSetup(c, h, t, userdata, timeout, out).0)
  {
    hide SessionsOk, BaseOk, Allocate, Send, FirstFree, Aligned;
    SendKeeps(a, c, h, userdata, timeout, out);
    SlotKeeps(a, c, Prepare(c, h.(sid := None), userdata));
    if t.OverTcp? && CHANNELS - |c.used| >= 2 {
      var got := Allocate(c.used, t.pair);
      if got.Some? {
        if a {
          AllocateAligned(c.used, t.pair);
        }
        AllocatedKeeps(a, c, h, got.value, userdata, timeout, out);
      }
    }
  }

  lemma AllocatedKeeps(a: bool, c: Client, h: Header, p: Pair, userdata: int, timeout: nat, out: Outcome)
    requires Inv(a, c) && Both(p) !! c.used && (a ==> AlignedPair(p))
    ensures Inv(a, Send(c.(used := c.used + Both(p)), h.(pair := p), userdata, timeout, out).0)
  {
    hide SessionsOk, BaseOk, Aligned;
    if a {
      MarkAligned(c.used, p);
    }
    var t := Send(c.(used := c.used + Both(p)), h.(pair := p), userdata, timeout, out).0;
    forall ch ensures OwnedAt(t, ch) {
      assert OwnedAt(c, ch);
      assert Asked(t, ch) <= Holds(p, ch);
    }
  }

  lemma StrippedBase(base: string)
    requires Url.StripCredentials(base).Success?
    ensures PathOf(Url.StripCredentials(base).value).Some?
  {
    UrlTheorems.StrippedKeepsTheRest(base);
  }

  lemma AskSetupKeeps(a: bool, c: Client, base: string, resource: string, sid: Option<Id>, t: Transport, userdata: int,
                      timeout: nat, out: Outcome)
    requires Inv(a, c) && SearchEnds(c, t) && (a ==> AlignedTransport(t))
    ensures Inv(a, AskSetup(c, base, resource, sid, t, userdata, timeout, out).0)
  {
    hide Inv, AnyKeepAlive, Refusal, FormatUri, Url.StripCredentials, PathOf, SendSetup, FirstFree;
    ClearTimerKeeps(a, c);
    var d := ClearTimer(c);
    var stripped := Url.StripCredentials(base);
    if stripped.Success? {
      StrippedBase(base);
      var e := d.(base := Some(stripped.value));
      SlotKeeps(a, d, e);
      SendSetupKeeps(a, e, Header(Setup, d.cseq, FormatUri(stripped.value, resource), sid, NO_PAIR), t, userdata, timeout, out);
    }
  }

  lemma KeepAliveKeeps(a: bool, c: Client, sid: Id, out: Outcome)
    requires Inv(a, c)
    ensures Inv(a, KeepAlive(c, sid, out).0)
  {
    hide Inv, SessionsOk, BaseOk, RemoveSession, Allowed;
    if Find(c.sessions, sid).Some? {
      var s := Find(c.sessions, sid).value;
      InvFound(a, c, sid);
      InvBase(a, c);
      PutKeeps(a, c, sid, s.(failed := s.failed + 1));
      RemoveSessionKeeps(a, SetSession(c, sid, s.(failed := s.failed + 1)), sid);
      var h := Header(GetParameter, c.cseq, s.base.UnwrapOr(""), Some(sid), NO_PAIR);
      SlotKeeps(a, c, Prepare(c, h.(sid := None), c.userdata));
      SlotKeeps(a, c, Prepare(c, h, c.userdata));
      SlotKeeps(a, c, Issue(Prepare(c, h, c.userdata), 1));
      PutKeeps(a, Issue(Prepare(c, h, c.userdata), 1), sid, s.(keepAlive := true));
    }
  }

  lemma InvFound(a: bool, c: Client, sid: Id)
    requires Inv(a, c) && Find(c.sessions, sid).Some?
    ensures SessionOk(a, Find(c.sessions, sid).value)
  {
    FoundOk(a, c.sessions, sid);
  }

  lemma {:induction false} ProbeKeeps(a: bool, c: Client, l: List<Session>, outs: seq<Outcome>)
    requires Inv(a, c)
    ensures Inv(a, Probe(c, l, outs))
    decreases |l|
  {
    hide Inv, KeepAlive;
    if l != [] {
      var out := if outs == [] then Written else outs[0];
      KeepAliveKeeps(a, c, l[0].id, out);
      ProbeKeeps(a, KeepAlive(c, l[0].id, out).0, l[1..], if outs == [] then [] else outs[1..]);
    }
  }

  // --- completion ---

  /** No live media holds a channel of the pair. */
  ghost predicate Reserved(l: List<Session>, p: Pair) {
    forall ch :: ch in Both(p) ==> Holders(l, ch) == 0
  }

  lemma PendingReserved(a: bool, c: Client)
    requires Inv(a, c) && c.pending
    ensures Reserved(c.sessions, c.header.pair)
  {
    forall ch | ch in Both(c.header.pair) ensures Holders(c.sessions, ch) == 0 {
      assert OwnedAt(c, ch);
    }
  }

  lemma TouchKeeps(a: bool, c: Client, verb: Verb, sid: Option<Id>)
    requires Inv(a, c)
    ensures Inv(a, Touch(c, verb, sid))
    ensures forall ch :: Holders(Touch(c, verb, sid).sessions, ch) == Holders(c.sessions, ch)
  {
    hide SessionsOk, BaseOk;
    if sid.Some? && (Find(c.sessions, sid.value).Some? || verb == Setup) {
      var l := if Find(c.sessions, sid.value).None? then c.sessions + [Node(sid.value, NewSession())] else c.sessions;
      if Find(c.sessions, sid.value).None? {
        CreatedKeeps(a, c, sid.value);
      }
      var d := c.(sessions := l);
      FoundAfter(c.sessions, sid.value);
      TouchedOk(a, c, sid.value);
      PutKeeps(a, d, sid.value, Touched(c, sid.value));
      NoBase();
      SlotKeeps(a, SetSession(d, sid.value, Touched(c, sid.value)), Touch(c, verb, sid));
    }
  }

  lemma NoBase()
    ensures BaseOk(None)
  {
  }

  lemma FoundAfter(l: List<Session>, sid: Id)
    ensures Find(l, sid).None? ==> Find(l + [Node(sid, NewSession())], sid) == Some(NewSession())
  {
    FindAppend(l, Node(sid, NewSession()), sid);
  }

  lemma TouchedOk(a: bool, c: Client, sid: Id)
    requires Inv(a, c)
    ensures SessionOk(a, Touched(c, sid))
  {
    hide PathOf;
    if Find(c.sessions, sid).Some? {
      FoundOk(a, c.sessions, sid);
    }
  }

  lemma CreatedKeeps(a: bool, c: Client, sid: Id)
    requires Inv(a, c) && Find(c.sessions, sid).None?
    ensures Inv(a, c.(sessions := c.sessions + [Node(sid, NewSession())]))
    ensures forall ch :: Holders(c.sessions + [Node(sid, NewSession())], ch) == Holders(c.sessions, ch)
  {
    var l := c.sessions + [Node(sid, NewSession())];
    CreatedOk(a, c.sessions, sid);
    forall ch ensures OwnedAt(c.(sessions := l), ch) && Holders(l, ch) == Holders(c.sessions, ch) {
      assert OwnedAt(c, ch);
      HoldersAppend(c.sessions, Node(sid, NewSession()), ch);
    }
  }

  lemma CreatedOk(a: bool, l: List<Session>, sid: Id)
    requires SessionsOk(a, l) && Find(l, sid).None?
    ensures SessionsOk(a, l + [Node(sid, NewSession())])
  {
    AppendDistinct(l, Node(sid, NewSession()));
  }

  /** A new media takes channels that are marked used and that nobody holds. */
  lemma MediaSetUpKeeps(a: bool, c: Client, sid: Option<Id>, uri: string, pair: Pair)
    requires Inv(a, c) && !c.pending && Reserved(c.sessions, pair) && Both(pair) <= c.used && (a ==> AlignedPair(pair))
    ensures Inv(a, MediaSetUp(c, sid, uri, pair))
  {
    hide PathOf, Inv;
    if sid.Some? && Find(c.sessions, sid.value).Some? && PathOf(uri).Some? && PathOf(uri).value.Some? {
      var s := Find(c.sessions, sid.value).value;
      var m := Media(PathOf(uri).value.value, pair);
      if FindMedia(s.medias, m.path).None? {
        AddMediaKeeps(a, c, sid.value, s, m);
      }
    }
  }

  lemma AddMediaKeeps(a: bool, c: Client, sid: Id, s: Session, m: Media)
    requires Inv(a, c) && !c.pending && Reserved(c.sessions, m.pair) && Both(m.pair) <= c.used && (a ==> AlignedPair(m.pair))
    requires Find(c.sessions, sid) == Some(s) && forall i :: 0 <= i < |s.medias| ==> s.medias[i].path != m.path
    ensures Inv(a, SetSession(c, sid, AddMedia(s, m)))
  {
    hide SessionsOk, BaseOk, Aligned;
    FoundOk(a, c.sessions, sid);
    PutOk(a, c.sessions, sid, AddMedia(s, m));
    DistinctOk(a, c.sessions);
    var t := SetSession(c, sid, AddMedia(s, m));
    forall ch ensures OwnedAt(t, ch) {
      assert OwnedAt(c, ch);
      HoldersPut(c.sessions, sid, AddMedia(s, m), ch);
      MediaHoldersAppend(s.medias, m, ch);
    }
  }

  lemma FreeKeeps(a: bool, c: Client, p: Pair)
    requires Inv(a, c) && !c.pending && Reserved(c.sessions, p) && (a ==> AlignedPair(p))
    ensures Inv(a, c.(used := c.used - Both(p)))
  {
    hide SessionsOk, BaseOk, Aligned;
    if a {
      MarkAligned(c.used, p);
    }
    forall ch ensures OwnedAt(c.(used := c.used - Both(p)), ch) {
      assert OwnedAt(c, ch);
    }
  }

  lemma MarkKeeps(a: bool, c: Client, p: Pair)
    requires Inv(a, c) && (a ==> AlignedPair(p))
    ensures Inv(a, c.(used := c.used + Both(p)))
  {
    hide SessionsOk, BaseOk, Aligned;
    if a {
      MarkAligned(c.used, p);
    }
    forall ch ensures OwnedAt(c.(used := c.used + Both(p)), ch) {
      assert OwnedAt(c, ch);
    }
  }

  lemma ReportKeeps(a: bool, c: Client, h: Header, userdata: int, status: Status)
    requires Inv(a, c)
    ensures Inv(a, Report(c, h, userdata, status))
  {
    hide Inv;
    InvBase(a, c);
    SlotKeeps(a, c, Report(c, h, userdata, status));
  }

  predicate AlignedReply(r: Reply) { r.tcp ==> AlignedPair(r.pair) }

  /** The server's answer to a SETUP over TCP names no channel of a live media. */
  ghost predicate HonestReply(l: List<Session>, r: Reply, status: Status) {
    status == Ok && r.tcp ==> Reserved(l, r.pair)
  }

  lemma SetupCompletedKeeps(a: bool, c: Client, h: Header, userdata: int, sid: Option<Id>, r: Reply, status: Status)
    requires Inv(a, c) && !c.pending && Reserved(c.sessions, h.pair) && HonestReply(c.sessions, r, status)
    requires a ==> AlignedPair(h.pair) && AlignedReply(r)
    ensures Inv(a, SetupCompleted(c, h, userdata, sid, r, status))
  {
    hide Inv, MediaSetUp;
    FreeKeeps(a, c, h.pair);
    if status != Ok {
      ReportKeeps(a, c.(used := c.used - Both(h.pair)), h, userdata, status);
    } else if !r.tcp {
      ReportKeeps(a, c, h, userdata, status);
      MediaSetUpKeeps(a, Report(c, h, userdata, status), sid, h.uri, NO_PAIR);
    } else {
      var kept := if h.pair != r.pair then c.(used := c.used - Both(h.pair)) else c;
      MarkKeeps(a, kept, r.pair);
      var d := kept.(used := kept.used + Both(r.pair));
      ReportKeeps(a, d, h, userdata, status);
      MediaSetUpKeeps(a, Report(d, h, userdata, status), sid, h.uri, r.pair);
    }
  }

  lemma TeardownCompletedKeeps(a: bool, c: Client, h: Header, userdata: int, sid: Option<Id>, status: Status, gone: bool)
    requires Inv(a, c)
    ensures Inv(a, TeardownCompleted(c, h, userdata, sid, status, gone).0)
  {
    hide Inv, TeardownTarget, ReleaseMedia;
    ReportKeeps(a, c, h, userdata, status);
    if sid.Some? && Find(c.sessions, sid.value).Some? {
      var s := Find(c.sessions, sid.value).value;
      var media := TeardownTarget(s, h.uri);
      var d := if s.internalTeardown then c else Report(c, h, userdata, status).(isInternal := false);
      InvBase(a, c);
      SlotKeeps(a, c, d);
      if media.Some? && media.value.Some? {
        ReleaseKeeps(a, d, sid.value, s, media.value.value);
      }
    }
  }

  lemma KeepAliveCompletedKeeps(a: bool, c: Client, sid: Option<Id>, status: Status, env: Env)
    requires Inv(a, c)
    ensures Inv(a, KeepAliveCompleted(c, sid, status, env).0)
  {
    hide Inv, KeepAlive;
    if sid.Some? && Find(c.sessions, sid.value).Some? {
      var s := Find(c.sessions, sid.value).value;
      InvFound(a, c, sid.value);
      PutKeeps(a, c, sid.value, s.(failed := 0));
      PutKeeps(a, c, sid.value, s.(failed := s.failed + 1));
      KeepAliveKeeps(a, SetSession(c, sid.value, s.(failed := s.failed + 1)), sid.value, env.keepAlive);
    }
  }

  lemma DeliverKeeps(a: bool, c: Client, h: Header, userdata: int, sid: Option<Id>, r: Reply, status: Status, env: Env)
    requires Inv(a, c) && !c.pending && Reserved(c.sessions, h.pair)
    requires h.verb == Setup ==> HonestReply(c.sessions, r, status)
    requires a ==> AlignedPair(h.pair) && AlignedReply(r)
    ensures Inv(a, Deliver(c, h, userdata, sid, r, status, env).0)
  {
    hide Inv, SetupCompleted, TeardownCompleted, KeepAliveCompleted, AskTeardown, Reserved, HonestReply;
    ReportKeeps(a, c, h, userdata, status);
    InvBase(a, c);
    match h.verb
    case Options =>
      SlotKeeps(a, c, c.(allowed := r.methods));
      ReportKeeps(a, c.(allowed := r.methods), h, userdata, status);
    case Setup => SetupCompletedKeeps(a, c, h, userdata, sid, r, status);
    case Teardown => TeardownCompletedKeeps(a, c, h, userdata, sid, status, r.code == STATUS_SESSION_NOT_FOUND);
    case GetParameter =>
      KeepAliveCompletedKeeps(a, c, sid, status, env);
      AskTeardownKeeps(a, KeepAliveCompleted(c, sid, status, env).0, "", sid.UnwrapOr(0), 0, 1, env.teardown, true);
    case _ =>
  }

  lemma SettleKeeps(a: bool, c: Client, r: Reply, status: Status, env: Env)
    requires Inv(a, c) && c.pending
    requires c.header.verb == Setup ==> HonestReply(c.sessions, r, FinalStatus(status, r.code))
    requires a ==> AlignedReply(r)
    ensures Inv(a, Settle(c, r, status, env))
  {
    hide Inv, Deliver, Touch, RemoveSession;
    var sid := if r.sid.Some? then r.sid else c.header.sid;
    var d := c.(header := NO_HEADER, userdata := 0, pending := false, armed := false);
    InvBase(a, c);
    PendingReserved(a, c);
    InvAligned(a, c);
    SlotKeeps(a, c, d);
    TouchKeeps(a, d, c.header.verb, sid);
    TouchPending(d, c.header.verb, sid);
    var touched := Touch(d, c.header.verb, sid);
    DeliverKeeps(a, touched, c.header, c.userdata, sid, r, FinalStatus(status, r.code), env);
    RemoveSessionKeeps(a, Deliver(touched, c.header, c.userdata, sid, r, FinalStatus(status, r.code), env).0, sid.UnwrapOr(0));
  }

  lemma InvAligned(a: bool, c: Client)
    requires Inv(a, c)
    ensures a ==> AlignedPair(c.header.pair) && Aligned(c.used)
  {
  }

  lemma TouchPending(c: Client, verb: Verb, sid: Option<Id>)
    ensures Touch(c, verb, sid).pending == c.pending
  {
  }

  lemma AbortKeeps(a: bool, c: Client, env: Env)
    requires Inv(a, c)
    ensures Inv(a, Abort(c, env))
  {
    hide Inv, Settle;
    if c.pending {
      SettleKeeps(a, c, NoReply(c.header.sid, Aborted), Aborted, env);
      var t := Settle(c, NoReply(c.header.sid, Aborted), Aborted, env);
      InvBase(a, t);
      SlotKeeps(a, t, t.(failed := 0));
    }
  }

  lemma LostKeeps(a: bool, c: Client, env: Env)
    requires Inv(a, c)
    ensures Inv(a, ConnectionLost(c, env))
  {
    hide Inv, Abort;
    AbortKeeps(a, c, env);
    ConnKeeps(a, Abort(c, env), Disconnected);
    ConnKeeps(a, Abort(c, env), Connecting);
  }

  lemma ConnKeeps(a: bool, c: Client, conn: Conn)
    requires Inv(a, c)
    ensures Inv(a, c.(conn := conn))
  {
    hide Inv;
    InvBase(a, c);
    SlotKeeps(a, c, c.(conn := conn));
  }

  lemma CompleteKeeps(a: bool, c: Client, r: Reply, status: Status, env: Env)
    requires Inv(a, c)
    requires c.pending && c.header.verb == Setup ==> HonestReply(c.sessions, r, FinalStatus(status, r.code))
    requires a ==> AlignedReply(r)
    ensures Inv(a, Complete(c, r, status, env))
  {
    hide Inv, Settle, ConnectionLost;
    if c.pending {
      SettleKeeps(a, c, r, status, env);
      var d := Settle(c, r, status, env);
      InvBase(a, d);
      SlotKeeps(a, d, d.(failed := 0));
      var e := d.(failed := d.failed + 1);
      SlotKeeps(a, d, e);
      LostKeeps(a, e, env);
      ConnKeeps(a, if env.stopFires then ConnectionLost(e, env) else e, Connecting);
    }
  }

  lemma DisconnectKeeps(a: bool, c: Client, env: Env)
    requires Inv(a, c)
    ensures Inv(a, Disconnect(c, env).0)
  {
    hide Inv, Abort, RemoveSessions;
    var closing := c.(conn := Disconnecting);
    ConnKeeps(a, c, Disconnecting);
    AbortKeeps(a, closing, env);
    ConnKeeps(a, Abort(closing, env), Disconnected);
    var d := Abort(closing, env).(conn := Disconnected);
    RemoveSessionsKeeps(a, d, d.sessions);
    RemoveSessionsKeeps(a, closing, closing.sessions);
  }

  lemma ServerTeardownKeeps(a: bool, c: Client, sid: Id, uri: string)
    requires Inv(a, c)
    ensures Inv(a, ServerTeardown(c, sid, uri).0)
  {
    hide Inv, PathOf, RemoveSession, ReleaseMedia;
    RemoveSessionKeeps(a, c, sid);
    if Find(c.sessions, sid).Some? {
      var s := Find(c.sessions, sid).value;
      var media := if PathOf(uri).Some? && PathOf(uri).value.Some? then FindMedia(s.medias, PathOf(uri).value.value) else None;
      if media.Some? {
        ReleaseKeeps(a, c, sid, s, media.value);
        RemoveSessionKeeps(a, ReleaseMedia(c, sid, s, media.value), sid);
      }
    }
  }

  lemma RespondKeeps(a: bool, c: Client, cseq: nat, r: Reply, env: Env)
    requires Inv(a, c) && Honest(c, Response(cseq, r, env)) && (a ==> AlignedReply(r))
    ensures Inv(a, Respond(c, cseq, r, env).0)
  {
    hide Inv, Complete, SessionOk;
    if cseq == c.header.cseq {
      CompleteKeeps(a, c, r, Ok, env);
    } else {
      var flagged := FirstKeepAlive(c.sessions);
      if flagged.Some? && Find(c.sessions, flagged.value).Some? {
        UnflagOk(a, c, flagged.value);
        PutKeeps(a, c, flagged.value, Find(c.sessions, flagged.value).value.(keepAlive := false));
      }
    }
  }

  lemma UnflagOk(a: bool, c: Client, sid: Id)
    requires Inv(a, c) && Find(c.sessions, sid).Some?
    ensures SessionOk(a, Find(c.sessions, sid).value.(keepAlive := false))
  {
    FoundOk(a, c.sessions, sid);
  }

  // --- runs ---

  /** The server never answers a SETUP with a channel that a live media owns. */
  ghost predicate Honest(c: Client, e: Event) {
    e.Response? && e.cseq == c.header.cseq && c.pending && c.header.verb == Setup ==>
      HonestReply(c.sessions, e.reply, FinalStatus(Ok, e.reply.code))
  }

  /** The user asks for aligned pairs only, and the server answers with aligned pairs only. */
  predicate AlignedEvent(e: Event) {
    (e.SetupRequest? ==> AlignedTransport(e.transport)) && (e.Response? ==> AlignedReply(e.reply))
  }

  lemma StepKeeps(a: bool, c: Client, e: Event)
    requires Inv(a, c) && Enabled(c, e) && Honest(c, e) && (a ==> AlignedEvent(e))
    ensures Inv(a, Step(c, e).0)
  {
    hide Inv, Ask, AskTeardown, AskSetup, KeepAlive, Probe, Complete, ConnectionLost, Disconnect, RemoveSession, Respond,
         ServerTeardown;
    match e
    case ConnectCall => ConnKeeps(a, c, Connecting);
    case ConnectFailed => ConnKeeps(a, c, Disconnected);
    case Up(outs) =>
      ConnKeeps(a, c, Connected);
      ProbeKeeps(a, c.(conn := Connected), c.sessions, outs);
    case Down(env) => LostKeeps(a, c, env);
    case DisconnectCall(env) => DisconnectKeeps(a, c, env);
    case Request(verb, uri, sid, userdata, timeout, out) => AskKeeps(a, c, verb, uri, sid, userdata, timeout, out);
    case SetupRequest(base, resource, sid, t, userdata, timeout, out) =>
      AskSetupKeeps(a, c, base, resource, sid, t, userdata, timeout, out);
    case TeardownRequest(resource, sid, userdata, timeout, out) =>
      AskTeardownKeeps(a, c, resource, sid, userdata, timeout, out, false);
    case KeepAliveTimer(sid, out) => KeepAliveKeeps(a, c, sid, out);
    case ResponseTimeout(env) => TimeoutKeeps(a, c, env);
    case Response(cseq, r, env) => RespondKeeps(a, c, cseq, r, env);
    case TeardownFromServer(sid, uri) => ServerTeardownKeeps(a, c, sid, uri);
    case RemoveCall(sid) => RemoveSessionKeeps(a, c, sid);
    case Cancel(env) => CompleteKeeps(a, c, NoReply(c.header.sid, Canceled), Canceled, env);
  }

  lemma TimeoutKeeps(a: bool, c: Client, env: Env)
    requires Inv(a, c)
    ensures Inv(a, Complete(c.(armed := false), NoReply(c.header.sid, TimedOut), TimedOut, env))
  {
    hide Inv, Complete;
    InvBase(a, c);
    SlotKeeps(a, c, c.(armed := false));
    CompleteKeeps(a, c.(armed := false), NoReply(c.header.sid, TimedOut), TimedOut, env);
  }

  ghost predicate HonestRun(c: Client, events: seq<Event>)
    decreases |events|
  {
    events != [] ==> Enabled(c, events[0]) && Honest(c, events[0]) && HonestRun(Step(c, events[0]).0, events[1..])
  }

  lemma {:induction false} HonestRunKeeps(a: bool, c: Client, events: seq<Event>)
    requires Inv(a, c) && HonestRun(c, events) && (a ==> forall e :: e in events ==> AlignedEvent(e))
    ensures Run(c, events) && Inv(a, After(c, events))
    decreases |events|
  {
    hide Inv, Step, Enabled, Honest;
    if events != [] {
      StepKeeps(a, c, events[0]);
      HonestRunKeeps(a, Step(c, events[0]).0, events[1..]);
    }
  }

  /** The live medias of the client. */
  ghost predicate Live(c: Client, i: nat, j: nat) { i < |c.sessions| && j < |c.sessions[i].val.medias| }

  function PairAt(c: Client, i: nat, j: nat): Pair
    requires Live(c, i, j)
  {
    c.sessions[i].val.medias[j].pair
  }

  /** Ownership spelled out: marked used, and disjoint from every other media and from the pending SETUP. */
  ghost predicate Exclusive(c: Client) {
    && (forall i: nat, j: nat :: Live(c, i, j) ==> Both(PairAt(c, i, j)) <= c.used)
    && (forall i: nat, j: nat, k: nat, l: nat :: Live(c, i, j) && Live(c, k, l) && (i != k || j != l)
          ==> Both(PairAt(c, i, j)) !! Both(PairAt(c, k, l)))
    && (c.pending ==> Both(c.header.pair) <= c.used)
    && (c.pending ==> forall i: nat, j: nat :: Live(c, i, j) ==> Both(PairAt(c, i, j)) !! Both(c.header.pair))
  }

  lemma {:induction false} MediaCounted(l: seq<Media>, j: nat, ch: Channel)
    requires j < |l| && ch in Both(l[j].pair)
    ensures MediaHolders(l, ch) >= 1
    ensures forall k :: 0 <= k < |l| && k != j && ch in Both(l[k].pair) ==> MediaHolders(l, ch) >= 2
  {
    MediaHoldersDrop(l, j, ch);
    var rest := l[..j] + l[j + 1..];
    forall k | 0 <= k < |l| && k != j && ch in Both(l[k].pair) ensures MediaHolders(l, ch) >= 2 {
      var at := if k < j then k else k - 1;
      assert rest[at] == l[k];
      MediaHoldersDrop(rest, at, ch);
    }
  }

  lemma {:induction false} SessionCounted(l: List<Session>, i: nat, ch: Channel)
    requires i < |l|
    ensures Holders(l, ch) >= MediaHolders(l[i].val.medias, ch)
    ensures forall k :: 0 <= k < |l| && k != i ==> Holders(l, ch) >= MediaHolders(l[i].val.medias, ch) + MediaHolders(l[k].val.medias, ch)
    decreases |l|
  {
    if i > 0 {
      SessionCounted(l[1..], i - 1, ch);
      assert forall k :: 1 <= k < |l| ==> l[k] == l[1..][k - 1];
    } else {
      forall k | 1 <= k < |l| ensures Holders(l[1..], ch) >= MediaHolders(l[k].val.medias, ch) {
        SessionCounted(l[1..], k - 1, ch);
      }
    }
  }

  lemma CountedOnce(c: Client, i: nat, j: nat, k: nat, l: nat, ch: Channel)
    requires OwnedAt(c, ch) && Live(c, i, j) && ch in Both(PairAt(c, i, j))
    ensures ch in c.used && (c.pending ==> ch !in Both(c.header.pair))
    ensures Live(c, k, l) && (i != k || j != l) ==> ch !in Both(PairAt(c, k, l))
  {
    SessionCounted(c.sessions, i, ch);
    MediaCounted(c.sessions[i].val.medias, j, ch);
    if Live(c, k, l) && ch in Both(PairAt(c, k, l)) {
      MediaCounted(c.sessions[k].val.medias, l, ch);
    }
  }

  lemma InvExclusive(c: Client)
    requires Inv(false, c)
    ensures Exclusive(c)
  {
    hide SessionsOk, BaseOk, OwnedAt, Live, PairAt;
    forall i: nat, j: nat, k: nat, l: nat | Live(c, i, j) && Live(c, k, l) && (i != k || j != l)
      ensures Both(PairAt(c, i, j)) !! Both(PairAt(c, k, l))
    {
      forall ch | ch in Both(PairAt(c, i, j)) ensures ch !in Both(PairAt(c, k, l)) {
        CountedOnce(c, i, j, k, l, ch);
      }
    }
    forall i: nat, j: nat | Live(c, i, j)
      ensures Both(PairAt(c, i, j)) <= c.used && (c.pending ==> Both(PairAt(c, i, j)) !! Both(c.header.pair))
    {
      forall ch | ch in Both(PairAt(c, i, j)) ensures ch in c.used && (c.pending ==> ch !in Both(c.header.pair)) {
        CountedOnce(c, i, j, i, j, ch);
      }
    }
    forall ch | c.pending && ch in Both(c.header.pair) ensures ch in c.used {
      AskedUsed(c, ch);
    }
  }

  lemma AskedUsed(c: Client, ch: Channel)
    requires OwnedAt(c, ch) && c.pending && ch in Both(c.header.pair)
    ensures ch in c.used
  {
  }

  /** Over all runs with a server that gives away no owned channel, channels have one owner, and are marked used. */
  lemma ChannelsExclusive(events: seq<Event>)
    requires HonestRun(Initial(), events)
    ensures Run(Initial(), events) && Exclusive(After(Initial(), events))
  {
    InitialInv(false);
    HonestRunKeeps(false, Initial(), events);
    InvExclusive(After(Initial(), events));
  }

  lemma InitialInv(a: bool)
    ensures Inv(a, Initial())
  {
  }

  /** When both sides keep to aligned pairs, the channel search of every later SETUP comes to an end. */
  lemma SearchAlwaysEnds(events: seq<Event>, t: Transport)
    requires HonestRun(Initial(), events) && forall e :: e in events ==> AlignedEvent(e)
    ensures Run(Initial(), events) && SearchEnds(After(Initial(), events), t)
  {
    hide Inv, FirstFree;
    InitialInv(true);
    HonestRunKeeps(true, Initial(), events);
    var c := After(Initial(), events);
    InvAligned(true, c);
    AlignedSearchEnds(c.used);
  }

  /** Counts and paths are right, and a TEARDOWN of the whole session finds its target. */
  ghost predicate Consistent(s: Session) {
    SessionOk(false, s) && (s.base.Some? ==> TeardownTarget(s, s.base.value).Some?)
  }

  lemma SessionsConsistent(events: seq<Event>, sid: Id)
    requires HonestRun(Initial(), events)
    ensures Run(Initial(), events) && Distinct(After(Initial(), events).sessions)
    ensures var found := Find(After(Initial(), events).sessions, sid); found.Some? ==> Consistent(found.value)
  {
    hide Inv, PathOf;
    InitialInv(false);
    HonestRunKeeps(false, Initial(), events);
    var c := After(Initial(), events);
    InvDistinct(c);
    if Find(c.sessions, sid).Some? {
      InvFound(false, c, sid);
    }
  }

  lemma InvDistinct(c: Client)
    requires Inv(false, c)
    ensures Distinct(c.sessions)
  {
  }

  /** An answer that adds a media keeps the owners apart exactly when it names no owned channel. */
  lemma SharedIffDishonest(c: Client, h: Header, userdata: int, sid: Id, r: Reply, path: string)
    requires Inv(false, c) && !c.pending && Reserved(c.sessions, h.pair) && r.tcp
    requires PathOf(h.uri) == Some(Some(path)) && Find(c.sessions, sid).Some?
    requires FindMedia(Find(c.sessions, sid).value.medias, path).None?
    ensures (forall ch :: OwnedAt(SetupCompleted(c, h, userdata, Some(sid), r, Ok), ch)) <==> HonestReply(c.sessions, r, Ok)
  {
    hide PathOf, SessionsOk, BaseOk;
    var t := SetupCompleted(c, h, userdata, Some(sid), r, Ok);
    if HonestReply(c.sessions, r, Ok) {
      SetupCompletedKeeps(false, c, h, userdata, Some(sid), r, Ok);
    } else {
      var ch :| ch in Both(r.pair) && Holders(c.sessions, ch) != 0;
      var s := Find(c.sessions, sid).value;
      var m := Media(path, r.pair);
      DistinctOk(false, c.sessions);
      HoldersPut(c.sessions, sid, AddMedia(s, m), ch);
      MediaHoldersAppend(s.medias, m, ch);
      assert !OwnedAt(t, ch);
    }
  }

  /** A SETUP over TCP that cannot be sent has taken its channels for good: nobody holds them. */
  lemma UnsentSetupLeaks(c: Client, h: Header, t: Transport, userdata: int, timeout: nat)
    requires Inv(false, c) && !c.pending && t.OverTcp? && SearchEnds(c, t) && CHANNELS - |c.used| >= 2
    requires Allocate(c.used, t.pair).Some?
    ensures var (u, res) := SendSetup(c, h, t, userdata, timeout, Unsent); var p := Allocate(c.used, t.pair).value;
            res == NOT_SENT && u.used == c.used + Both(p) && u.used != c.used && forall ch :: ch in Both(p) ==> Total(u, ch) == 0
  {
    hide SessionsOk, BaseOk, FirstFree;
    var p := Allocate(c.used, t.pair).value;
    assert p.rtp in Both(p);
    forall ch | ch in Both(p) ensures Holders(c.sessions, ch) == 0 {
      assert OwnedAt(c, ch);
    }
  }
}
