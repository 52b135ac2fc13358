/** Whole requests: PLAY, PAUSE, RECORD and TEARDOWN from their arrival to their response. */
module ServerRequests {
  import opened Wrappers
  import opened Lists
  import opened ServerState
  import opened ServerInvariant
  import opened ServerRuns
  import opened ServerReplies

  function Ids<T>(l: List<T>): set<Id> {
    set i | 0 <= i < |l| :: l[i].id
  }

  lemma IdsFind<T>(l: List<T>)
    ensures forall k :: k in Ids(l) <==> Find(l, k).Some?
    ensures l != [] ==> Ids(l) != {}
  {
    if l != [] {
      assert l[0].id in Ids(l);
    }
  }

  lemma FreshMarks(l: List<bool>)
    requires forall i :: 0 <= i < |l| ==> !l[i].val
    ensures MarksLeft(l, Ids(l), Ids(l))
  {
    IdsFind(l);
    forall k ensures Find(l, k).Some? ==> !Find(l, k).value {
      if Find(l, k).Some? {
        var i :| 0 <= i < |l| && l[i] == Node(k, Find(l, k).value);
      }
    }
  }

  /** Entering the callbacks with a fan-out is the start of gathering its answers. */
  lemma EntersGathering(s: Server, t: Server, conn: Id, verb: Verb, deadline: nat, fan: List<bool>, x: Id, range: Range, scale: real)
    requires Invariant(s) && s.frame.None? && Structure(t)
    requires var a := AddRequest(s, conn, verb, deadline);
             t.pending == a.pending && t.log == a.log && t.frame.None? && t.next == a.next
    requires verb in {Play, Pause, Record, Teardown} && Find(t.sessions, x).Some?
    requires fan != [] && Distinct(fan) && forall i :: 0 <= i < |fan| ==> !fan[i].val
    ensures var g := Gather(s.next, x, verb, Ids(fan), range, scale);
            Gathering(EnterCallback(t, s.next, fan, Some(x)), g, Ids(fan), true)
  {
    hide Structure, MarksLeft;
    EnterKeeps(s, conn, verb, deadline, t, fan, Some(x));
    BeginKeepsCallbacks(s, EnterCallback(t, s.next, fan, Some(x)));
    AddRequestKeeps(s, conn, verb, deadline);
    var q := Find(t.pending, s.next).value.(inCallback := true, medias := fan, mediaCount := |fan|);
    FindPut(t.pending, s.next, q, s.next);
    FreshMarks(fan);
    IdsFind(fan);
  }

  /** A PLAY, PAUSE or RECORD of a known session waits for one answer of each of its medias. */
  lemma AggregateGathers(s: Server, conn: Id, verb: Verb, deadline: nat, sid: string, env: Env, range: Range, scale: real)
    requires Invariant(s) && s.frame.None? && verb in {Play, Pause, Record} && Target(s, sid).Some?
    ensures var x := Target(s, sid).value;
            var medias := Find(s.sessions, x).value.medias;
            Gathering(BeginAggregate(s, conn, verb, deadline, sid, env),
                      Gather(s.next, x, verb, Ids(medias), range, scale), Ids(medias), true)
  {
    hide Structure, SessionOk, Gathering, EnterCallback;
    var a := AddRequest(s, conn, verb, deadline);
    AddRequestKeeps(s, conn, verb, deadline);
    var x := Target(s, sid).value;
    var y := Find(s.sessions, x).value;
    SessionIsOk(s, x);
    MediasDistinct(y, s.next);
    MediasCounted(y, s.next);
    SetOpKeeps(a, Some(x), verb);
    var t := SetOp(a, Some(x), verb);
    FindPut(s.sessions, x, y.(op := verb), x);
    var fan := AllMedias(y.medias);
    assert Ids(fan) == Ids(y.medias) by {
      assert forall i :: 0 <= i < |fan| ==> fan[i].id == y.medias[i].id;
    }
    EntersGathering(s, t, conn, verb, deadline, fan, x, range, scale);
  }

  lemma MediasCounted(y: Session, next: Id)
    requires SessionOk(y, next) && y.mediaCount != 0
    ensures y.medias != []
  {
  }

  /**
    From arrival to response: an accepted PLAY, PAUSE or RECORD whose medias are all answered, successfully
    and with one range, gets exactly one response and is no longer pending.
   */
  lemma AggregateAnsweredOnce(s: Server, conn: Id, verb: Verb, deadline: nat, sid: string, env: Env,
                              range: Range, scale: real, events: seq<Event>)
    requires Invariant(s) && AnsweredOnce(s) && s.frame.None? && verb in {Play, Pause, Record} && Target(s, sid).Some?
    requires var x := Target(s, sid).value;
             var medias := Ids(Find(s.sessions, x).value.medias);
             AnswerRun(BeginAggregate(s, conn, verb, deadline, sid, env), events,
                       Gather(s.next, x, verb, medias, range, scale), medias, true, {}, false)
    ensures var t := After(BeginAggregate(s, conn, verb, deadline, sid, env), events);
            Count(t.log, s.next) == 1 && Find(t.pending, s.next).None?
  {
    hide Structure, Gathering, AnswerRun;
    var x := Target(s, sid).value;
    var medias := Ids(Find(s.sessions, x).value.medias);
    var u := BeginAggregate(s, conn, verb, deadline, sid, env);
    AggregateGathers(s, conn, verb, deadline, sid, env, range, scale);
    AggregateKeeps(s, conn, verb, deadline, sid, env);
    OneResponseAtTheLast(u, events, Gather(s.next, x, verb, medias, range, scale), medias, true, false);
    GatheringPending(u, Gather(s.next, x, verb, medias, range, scale), medias, true);
    assert Count(s.log, s.next) == 0;
  }

  lemma GatheringPending(s: Server, g: Gather, left: set<Id>, inCallback: bool)
    requires Gathering(s, g, left, inCallback)
    ensures Find(s.pending, g.req).Some?
  {
  }

  // --- TEARDOWN ---

  /** The three ways a TEARDOWN selects: the media with that path, the medias below a prefix, or all of them. */
  lemma SelectedCases(medias: List<Media>, path: Option<string>, k: Id)
    requires Distinct(medias) && Find(medias, k).Some?
    requires forall a, b :: Find(medias, a).Some? && Find(medias, b).Some? && a != b ==> Find(medias, a).value.path != Find(medias, b).value.path
    ensures var m := Find(medias, k).value;
            Selected(medias, path, m) <==>
              if path.Some? && FindPath(medias, path.value).Some? then FindPath(medias, path.value) == Some(k)
              else path.None? || '/' in path.value || path.value <= m.path
  {
    if path.Some? {
      FindPathCorrect(medias, path.value);
    }
  }

  lemma FanOutSelects(all: List<Media>, l: List<Media>, path: Option<string>, k: Id)
    requires Distinct(l)
    ensures Find(FanOut(all, l, path), k) ==
            if Find(l, k).Some? && Selected(all, path, Find(l, k).value) then Some(false) else None
  {
    if l != [] {
      var r := FanOut(all, l[1..], path);
      FanOutSelects(all, l[1..], path, k);
      assert forall i :: 0 <= i < |l[1..]| ==> l[1..][i] == l[i + 1];
      if Selected(all, path, l[0].val) {
        assert ([Node(l[0].id, false)] + r)[1..] == r;
      } else {
        assert [] + r == r;
      }
    }
  }

  /** A TEARDOWN that selects medias marks exactly these, besides those marked before, and waits for one answer of each. */
  lemma TeardownGathers(s: Server, conn: Id, deadline: nat, sid: string, path: Option<string>, env: Env, range: Range, scale: real)
    requires Invariant(s) && s.frame.None? && Target(s, sid).Some?
    requires var y := Find(s.sessions, Target(s, sid).value).value; FanOut(y.medias, y.medias, path) != []
    ensures var x := Target(s, sid).value;
            var y := Find(s.sessions, x).value;
            var t := BeginTeardown(s, conn, deadline, sid, path, env);
            var selected := Ids(FanOut(y.medias, y.medias, path));
            && Gathering(t, Gather(s.next, x, Teardown, selected, range, scale), selected, true)
            && (forall k :: k in selected <==> Find(y.medias, k).Some? && Selected(y.medias, path, Find(y.medias, k).value))
            && Find(t.sessions, x).Some?
            && (forall k :: Find(Find(t.sessions, x).value.medias, k) ==
                            (var m := Find(y.medias, k);
                             if m.Some? && k in selected then Some(m.value.(tearingDown := true)) else m))
  {
    hide Structure, SessionOk, Gathering;
    var a := AddRequest(s, conn, Teardown, deadline);
    AddRequestKeeps(s, conn, Teardown, deadline);
    var x := Target(s, sid).value;
    var y := Find(s.sessions, x).value;
    SessionIsOk(a, x);
    MarkKeeps(y, a.next, path);
    MediasDistinct(y, a.next);
    var z := y.(op := Teardown, medias := Mark(y.medias, y.medias, path));
    PutSessionKeeps(a, x, y, z);
    var fan := FanOut(y.medias, y.medias, path);
    FanOutDistinct(y.medias, y.medias, path);
    forall k ensures Find(fan, k) == if Find(y.medias, k).Some? && Selected(y.medias, path, Find(y.medias, k).value) then Some(false) else None {
      FanOutSelects(y.medias, y.medias, path, k);
    }
    forall i | 0 <= i < |fan| ensures !fan[i].val {
      FindAt(fan, i);
    }
    IdsFind(fan);
    MarkFind(y.medias, y.medias, path);
    EntersGathering(s, a.(sessions := Put(a.sessions, x, z)), conn, Teardown, deadline, fan, x, range, scale);
  }

  /** When a TEARDOWN concludes, exactly the marked medias are gone, and the session is gone iff none remains. */
  lemma TeardownRemovesMarked(s: Server, req: Id, x: Id)
    requires Structure(s) && Find(s.sessions, x).Some?
    ensures var y := Find(s.sessions, x).value;
            var t := Conclude(s, Teardown, req, Some(x));
            && (Find(t.sessions, x).None? <==> forall k :: Find(y.medias, k).Some? ==> Find(y.medias, k).value.tearingDown)
            && (Find(t.sessions, x).Some? ==>
                  forall k :: Find(Find(t.sessions, x).value.medias, k) ==
                              (var m := Find(y.medias, k); if m.Some? && m.value.tearingDown then None else m))
            && (forall k :: k != x ==> Find(t.sessions, k) == Find(s.sessions, k))
  {
    hide Structure, SessionOk, SetOp;
    var y := Find(s.sessions, x).value;
    SetOpKeeps(s, Some(x), Unknown);
    OpCleared(s, x, y);
    var u := SetOp(s, Some(x), Unknown);
    RemoveRequestKeeps(u, req);
    RemoveMarkedExact(RemoveRequest(u, req), x, y.(op := Unknown));
  }

  lemma OpCleared(s: Server, x: Id, y: Session)
    requires Structure(s) && Find(s.sessions, x) == Some(y)
    ensures var u := SetOp(s, Some(x), Unknown);
            Find(u.sessions, x) == Some(y.(op := Unknown)) && forall k :: k != x ==> Find(u.sessions, k) == Find(s.sessions, k)
  {
    PutAll(s.sessions, x, y.(op := Unknown));
  }

  lemma RemoveMarkedExact(s: Server, x: Id, y: Session)
    requires Structure(s) && Find(s.sessions, x) == Some(y)
    ensures var t := RemoveMarked(s, x);
            && (Find(t.sessions, x).None? <==> forall k :: Find(y.medias, k).Some? ==> Find(y.medias, k).value.tearingDown)
            && (Find(t.sessions, x).Some? ==>
                  forall k :: Find(Find(t.sessions, x).value.medias, k) ==
                              (var m := Find(y.medias, k); if m.Some? && m.value.tearingDown then None else m))
            && (forall k :: k != x ==> Find(t.sessions, k) == Find(s.sessions, k))
  {
    hide Structure, SessionOk, RemoveSession;
    SessionIsOk(s, x);
    MediasDistinct(y, s.next);
    UnmarkedExact(y.medias);
    NoneKept(y.medias);
    var kept := Unmarked(y.medias);
    var z := y.(medias := kept, mediaCount := y.mediaCount - (|y.medias| - |kept|));
    KeptOk(y, s.next);
    PutSessionKeeps(s, x, y, z);
    RemoveSessionKeeps(s.(sessions := Put(s.sessions, x, z)), x);
  }

  lemma NoneKept(l: List<Media>)
    requires Distinct(l)
    ensures Unmarked(l) == [] <==> forall k :: Find(l, k).Some? ==> Find(l, k).value.tearingDown
  {
    var kept := Unmarked(l);
    UnmarkedExact(l);
    if kept != [] {
      FindAt(kept, 0);
      assert Find(l, kept[0].id).Some?;
    } else {
      forall k ensures Find(l, k).Some? ==> Find(l, k).value.tearingDown {
        assert Find(kept, k).None?;
      }
    }
  }

  lemma KeptOk(y: Session, next: Id)
    requires SessionOk(y, next)
    ensures var kept := Unmarked(y.medias);
            SessionOk(y.(medias := kept, mediaCount := y.mediaCount - (|y.medias| - |kept|)), next)
  {
    UnmarkedExact(y.medias);
  }

  /**
    A TEARDOWN that selects nothing is refused with 404, but leaves the session's operation in progress:
    from then on the session refuses every forced teardown with EALREADY.
   */
  lemma RefusedTeardownBlocks(s: Server, conn: Id, deadline: nat, sid: string, path: Option<string>, env: Env)
    requires Invariant(s) && s.frame.None? && Target(s, sid).Some?
    requires var y := Find(s.sessions, Target(s, sid).value).value; FanOut(y.medias, y.medias, path) == []
    ensures var t := BeginTeardown(s, conn, deadline, sid, path, env);
            && Responds(s.log, t.log, s.next) && Find(t.pending, s.next).None?
            && ForceTeardown(t, sid, None) == (t, Code(EALREADY))
  {
    hide Structure, SessionOk, Fail, ForceTeardown, EnterCallback;
    var a := AddRequest(s, conn, Teardown, deadline);
    AddRequestKeeps(s, conn, Teardown, deadline);
    var x := Target(s, sid).value;
    var y := Find(s.sessions, x).value;
    SessionIsOk(a, x);
    MarkKeeps(y, a.next, path);
    var z := y.(op := Teardown, medias := Mark(y.medias, y.medias, path));
    PutSessionKeeps(a, x, y, z);
    var u := a.(sessions := Put(a.sessions, x, z));
    FailKeeps(u, s.next, ENOENT, env);
    FailStays(u, s.next, ENOENT, env);
    SessionAt(s, x);
    SameSids(s.sessions, x, z, sid);
    BlockedForced(BeginTeardown(s, conn, deadline, sid, path, env), sid, x, z);
  }

  lemma SessionAt(s: Server, x: Id)
    requires Structure(s)
    ensures forall i :: 0 <= i < |s.sessions| && s.sessions[i].id == x ==> Find(s.sessions, x) == Some(s.sessions[i].val)
  {
    forall i | 0 <= i < |s.sessions| && s.sessions[i].id == x ensures Find(s.sessions, x) == Some(s.sessions[i].val) {
      FindAt(s.sessions, i);
    }
  }

  lemma BlockedForced(t: Server, sid: string, x: Id, z: Session)
    requires FindSid(t.sessions, sid) == Some(x) && Find(t.sessions, x) == Some(z) && z.op == Teardown
    ensures ForceTeardown(t, sid, None) == (t, Code(EALREADY))
  {
  }

  lemma SameSids(l: List<Session>, x: Id, z: Session, sid: string)
    requires forall i :: 0 <= i < |l| && l[i].id == x ==> l[i].val.sid == z.sid
    ensures FindSid(Put(l, x, z), sid) == FindSid(l, sid)
  {
    if l != [] {
      assert Put(l, x, z)[1..] == Put(l[1..], x, z);
      SameSids(l[1..], x, z, sid);
    }
  }
}
