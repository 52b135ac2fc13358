/** The structure every reachable state of the server keeps. */
module ServerInvariant {
  import opened Wrappers
  import opened Lists
  import opened ServerState

  ghost predicate MediasOk(l: List<Media>, next: Id) {
    && Distinct(l)
    && (forall a :: Find(l, a).Some? ==> a < next)
    && (forall a, b :: Find(l, a).Some? && Find(l, b).Some? && a != b ==> Find(l, a).value.path != Find(l, b).value.path)
  }

  ghost predicate SessionOk(x: Session, next: Id) {
    x.mediaCount == |x.medias| && MediasOk(x.medias, next)
  }

  ghost predicate RequestOk(q: Request) {
    q.mediaCount == |q.medias| && Distinct(q.medias)
  }

  /** The counters are the lengths of the lists, and identities are unique and were handed out. */
  ghost predicate Counted(s: Server) {
    && s.sessionCount == |s.sessions| && s.pendingCount == |s.pending|
    && Distinct(s.sessions) && Distinct(s.pending)
    && (forall id :: Find(s.sessions, id).Some? ==> id < s.next && SessionOk(Find(s.sessions, id).value, s.next))
    && (forall id :: Find(s.pending, id).Some? ==> id < s.next && RequestOk(Find(s.pending, id).value))
  }

  /** No two session ids agree on the characters that are compared. */
  ghost predicate IdsDiffer(l: List<Session>) {
    forall a, b :: Find(l, a).Some? && Find(l, b).Some? && a != b ==>
      Significant(Find(l, a).value.sid) != Significant(Find(l, b).value.sid)
  }

  /** Timers and queued removals are for sessions in the list, and every session has its timer. */
  ghost predicate TimersOk(s: Server) {
    && (forall id :: id in s.timers <==> Find(s.sessions, id).Some?)
    && (forall id :: id in s.idle ==> Find(s.sessions, id).Some?)
  }

  ghost predicate Structure(s: Server) {
    Counted(s) && IdsDiffer(s.sessions) && TimersOk(s)
  }

  predicate Handles(s: Server, id: Id) { s.frame.Some? && s.frame.value.Frame? && s.frame.value.request == id }

  /** Exactly the request whose handler runs is in a callback, and only it can be answered and still pending. */
  ghost predicate CallbackOk(s: Server) {
    && (forall id :: Find(s.pending, id).Some? ==>
          && (Find(s.pending, id).value.inCallback <==> Handles(s, id))
          && (Find(s.pending, id).value.replied ==> Find(s.pending, id).value.inCallback))
    && (s.frame.Some? && s.frame.value.Frame? ==> Find(s.pending, s.frame.value.request).Some?)
  }

  // --- building blocks ---

  lemma AddRequestKeeps(s: Server, conn: Id, verb: Verb, deadline: nat)
    requires Structure(s)
    ensures Structure(AddRequest(s, conn, verb, deadline))
    ensures var t := AddRequest(s, conn, verb, deadline);
            forall k :: Find(t.pending, k) == if k == s.next then Some(Request(Some(conn), verb, deadline, true, false, false, 0, []))
                                              else Find(s.pending, k)
  {
    AppendAll(s.pending, Node(s.next, Request(Some(conn), verb, deadline, true, false, false, 0, [])));
  }

  lemma RemoveRequestKeeps(s: Server, req: Id)
    requires Structure(s)
    ensures Structure(RemoveRequest(s, req))
    ensures forall k :: Find(RemoveRequest(s, req).pending, k) == if k == req then None else Find(s.pending, k)
  {
    RemoveAll(s.pending, req);
  }

  lemma SetRequestKeeps(s: Server, req: Id, q: Request)
    requires Structure(s) && RequestOk(q)
    ensures Structure(SetRequest(s, req, q))
    ensures forall k :: Find(SetRequest(s, req, q).pending, k) == if k == req && Has(s.pending, req) then Some(q) else Find(s.pending, k)
  {
    PutAll(s.pending, req, q);
  }

  lemma PutSessionKeeps(s: Server, sess: Id, x: Session, y: Session)
    requires Structure(s) && Find(s.sessions, sess) == Some(x)
    requires y.sid == x.sid && SessionOk(y, s.next)
    ensures Structure(s.(sessions := Put(s.sessions, sess, y)))
    ensures forall k :: Find(Put(s.sessions, sess, y), k) == if k == sess then Some(y) else Find(s.sessions, k)
  {
    PutAll(s.sessions, sess, y);
  }

  lemma SetOpKeeps(s: Server, sess: Option<Id>, op: Verb)
    requires Structure(s)
    ensures Structure(SetOp(s, sess, op))
  {
    if sess.Some? && Find(s.sessions, sess.value).Some? {
      var x := Find(s.sessions, sess.value).value;
      PutSessionKeeps(s, sess.value, x, x.(op := op));
    }
  }

  lemma RemoveSessionKeeps(s: Server, sess: Id)
    requires Structure(s)
    ensures Structure(RemoveSession(s, sess))
    ensures forall k :: Find(RemoveSession(s, sess).sessions, k) == if k == sess then None else Find(s.sessions, k)
  {
    RemoveAll(s.sessions, sess);
  }

  /** The search by session id finds a session with that id, or there is none. */
  lemma FindSidCorrect(l: List<Session>, sid: string)
    requires Distinct(l)
    ensures match FindSid(l, sid)
            case Some(id) => Find(l, id).Some? && Significant(Find(l, id).value.sid) == Significant(sid)
            case None => forall k :: Find(l, k).Some? ==> Significant(Find(l, k).value.sid) != Significant(sid)
  {
    if l != [] {
      FindSidCorrect(l[1..], sid);
      match FindSid(l[1..], sid)
      case Some(id) =>
        var i :| 0 <= i < |l[1..]| && l[1..][i].id == id;
        assert l[0].id != l[i + 1].id;
      case None =>
    }
  }

  lemma AddSessionKeeps(s: Server, sid: string)
    requires Structure(s) && FindSid(s.sessions, sid).None?
    ensures Structure(AddSession(s, sid))
    ensures forall k :: Find(AddSession(s, sid).sessions, k) == if k == s.next then Some(NewSession(sid)) else Find(s.sessions, k)
  {
    hide IdsDiffer, RequestOk;
    AppendAll(s.sessions, Node(s.next, NewSession(sid)));
    NewIdDiffers(s.sessions, s.next, sid);
  }

  lemma NewIdDiffers(l: List<Session>, id: Id, sid: string)
    requires Distinct(l) && IdsDiffer(l) && FindSid(l, sid).None? && Find(l, id).None?
    ensures IdsDiffer(l + [Node(id, NewSession(sid))])
  {
    FindSidCorrect(l, sid);
    AppendAll(l, Node(id, NewSession(sid)));
  }

  lemma FindPathCorrect(l: List<Media>, path: string)
    requires Distinct(l)
    ensures match FindPath(l, path)
            case Some(id) => Find(l, id).Some? && Find(l, id).value.path == path
            case None => forall k :: Find(l, k).Some? ==> Find(l, k).value.path != path
  {
    if l != [] {
      FindPathCorrect(l[1..], path);
      match FindPath(l[1..], path)
      case Some(id) =>
        var i :| 0 <= i < |l[1..]| && l[1..][i].id == id;
        assert l[0].id != l[i + 1].id;
      case None =>
    }
  }

  lemma AddMediaKeeps(s: Server, sess: Id, path: string)
    requires Structure(s) && Find(s.sessions, sess).Some? && FindPath(Find(s.sessions, sess).value.medias, path).None?
    ensures Structure(AddMedia(s, sess, path))
  {
    hide Structure, SessionOk;
    var x := Find(s.sessions, sess).value;
    SessionIsOk(s, sess);
    NewMediaOk(x, s.next, path);
    NextKeeps(s);
    PutSessionKeeps(s.(next := s.next + 1), sess, x,
                    x.(medias := x.medias + [Node(s.next, Media(path, false))], mediaCount := x.mediaCount + 1));
  }

  lemma SessionIsOk(s: Server, sess: Id)
    requires Structure(s) && Find(s.sessions, sess).Some?
    ensures SessionOk(Find(s.sessions, sess).value, s.next)
  {
  }

  lemma NewMediaOk(x: Session, next: Id, path: string)
    requires SessionOk(x, next) && FindPath(x.medias, path).None?
    ensures SessionOk(x.(medias := x.medias + [Node(next, Media(path, false))], mediaCount := x.mediaCount + 1), next + 1)
  {
    FindPathCorrect(x.medias, path);
    AppendAll(x.medias, Node(next, Media(path, false)));
  }

  lemma NextKeeps(s: Server)
    requires Structure(s)
    ensures Structure(s.(next := s.next + 1))
  {
  }

  lemma RemoveMediaKeeps(s: Server, sess: Id, media: Id)
    requires Structure(s)
    ensures Structure(RemoveMedia(s, sess, media))
  {
    if Find(s.sessions, sess).Some? {
      var x := Find(s.sessions, sess).value;
      RemoveAll(x.medias, media);
      if Has(x.medias, media) {
        PutSessionKeeps(s, sess, x, x.(medias := Remove(x.medias, media), mediaCount := x.mediaCount - 1));
      }
    }
  }

  /** The medias kept are exactly the unmarked ones. */
  lemma UnmarkedExact(l: List<Media>)
    requires Distinct(l)
    ensures Distinct(Unmarked(l))
    ensures forall k :: Find(Unmarked(l), k) == (var m := Find(l, k); if m.Some? && m.value.tearingDown then None else m)
  {
    forall k ensures Find(Unmarked(l), k) == (var m := Find(l, k); if m.Some? && m.value.tearingDown then None else m) {
      UnmarkedFind(l, k);
    }
    UnmarkedDistinct(l);
  }

  lemma UnmarkedFind(l: List<Media>, k: Id)
    requires Distinct(l)
    ensures Find(Unmarked(l), k) == (var m := Find(l, k); if m.Some? && m.value.tearingDown then None else m)
  {
    if l != [] {
      UnmarkedFind(l[1..], k);
      var r := Unmarked(l[1..]);
      if l[0].val.tearingDown {
        assert [] + r == r;
        assert forall i :: 0 <= i < |l[1..]| ==> l[1..][i] == l[i + 1];
      } else {
        assert ([l[0]] + r)[1..] == r;
      }
    }
  }

  lemma UnmarkedDistinct(l: List<Media>)
    requires Distinct(l)
    ensures Distinct(Unmarked(l))
  {
    if l != [] {
      UnmarkedDistinct(l[1..]);
      UnmarkedFind(l[1..], l[0].id);
      assert forall i :: 0 <= i < |l[1..]| ==> l[1..][i] == l[i + 1];
      var r := Unmarked(l[1..]);
      assert !Has(r, l[0].id);
      assert forall j :: 0 <= j < |r| ==> r[j].id != l[0].id;
    }
  }

  lemma RemoveMarkedKeeps(s: Server, sess: Id)
    requires Structure(s)
    ensures Structure(RemoveMarked(s, sess))
  {
    if Find(s.sessions, sess).Some? {
      var x := Find(s.sessions, sess).value;
      UnmarkedExact(x.medias);
      var kept := Unmarked(x.medias);
      var y := x.(medias := kept, mediaCount := x.mediaCount - (|x.medias| - |kept|));
      PutSessionKeeps(s, sess, x, y);
      RemoveSessionKeeps(s.(sessions := Put(s.sessions, sess, y)), sess);
    }
  }

  lemma ConcludeKeeps(s: Server, verb: Verb, req: Id, sess: Option<Id>)
    requires Structure(s)
    ensures Structure(Conclude(s, verb, req, sess))
    ensures var t := Conclude(s, verb, req, sess);
            && t.frame == s.frame && t.log == s.log && t.next == s.next && Distinct(t.pending)
            && forall k :: Find(t.pending, k) == if k == req then None else Find(s.pending, k)
  {
    SetOpKeeps(s, sess, Unknown);
    RemoveRequestKeeps(SetOp(s, sess, Unknown), req);
    if sess.Some? {
      RemoveMarkedKeeps(RemoveRequest(SetOp(s, sess, Unknown), req), sess.value);
    }
  }

  // --- replies: what a reply does to its request and to the log ---

  /** At most one response, and it is to `req`. */
  ghost predicate Responds(old': seq<Response>, new': seq<Response>, req: Id) {
    new' == old' || (|new'| == |old'| + 1 && new'[..|old'|] == old' && new'[|old'|].request == req)
  }

  /**
    A reply either is counted, sending nothing, or settles the request with at most one response:
    the request is then removed, or marked as replied while its callback runs.
   */
  ghost predicate ReplyEffect(s: Server, t: Server, req: Id) {
    && t.frame == s.frame && t.next == s.next
    && (forall k :: k != req ==> Find(t.pending, k) == Find(s.pending, k))
    && match (Find(s.pending, req), Find(t.pending, req))
       case (None, p) => p.None? && t.log == s.log
       case (Some(q), None) => !q.inCallback && Responds(s.log, t.log, req)
       case (Some(q), Some(p)) =>
         && p.inCallback == q.inCallback
         && ((p.replied == q.replied && t.log == s.log) || (q.inCallback && p.replied && Responds(s.log, t.log, req)))
  }

  lemma FinishKeeps(s: Server, t: Server, verb: Verb, req: Id, sess: Option<Id>)
    requires Structure(s) && Structure(t)
    requires t.frame == s.frame && t.next == s.next && Responds(s.log, t.log, req)
    requires Find(s.pending, req).Some? && Find(t.pending, req).Some?
    requires Find(t.pending, req).value.inCallback == Find(s.pending, req).value.inCallback
    requires forall k :: k != req ==> Find(t.pending, k) == Find(s.pending, k)
    ensures Structure(Finish(t, verb, req, sess)) && ReplyEffect(s, Finish(t, verb, req, sess), req)
  {
    var q := Find(t.pending, req).value;
    SetRequestKeeps(t, req, q.(replied := true));
    ConcludeKeeps(SetRequest(t, req, q.(replied := true)), verb, req, sess);
  }

  lemma SingleReplyKeeps(s: Server, req: Id, status: int, valid: bool, env: Env)
    requires Structure(s)
    ensures var t := ReplySingle(s, req, status, valid, env).0; Structure(t) && ReplyEffect(s, t, req)
  {
    hide Finish, Structure, ReplyEffect;
    if Find(s.pending, req).Some? {
      var q := Find(s.pending, req).value;
      AnswerKeeps(s, req, status, env.errorSent, q.verb, None);
      AnswerKeeps(s, req, status, env.sent, q.verb, None);
      AnswerKeeps(s, req, STATUS_INTERNAL_SERVER_ERROR, env.errorSent, q.verb, None);
      FinishKeeps(s, s, q.verb, req, None);
    } else {
      NoEffect(s, req);
    }
  }

  lemma NoEffect(s: Server, req: Id)
    requires Find(s.pending, req).None?
    ensures ReplyEffect(s, s, req)
  {
  }

  lemma AnswerKeeps(s: Server, req: Id, status: int, sent: bool, verb: Verb, sess: Option<Id>)
    requires Structure(s) && Find(s.pending, req).Some?
    ensures var t := Finish(Sent(s, req, status, sent), verb, req, sess); Structure(t) && ReplyEffect(s, t, req)
    ensures sess.Some? ==>
              var t := Finish(SetupFailed(Sent(s, req, status, sent), sess.value), verb, req, sess);
              Structure(t) && ReplyEffect(s, t, req)
  {
    hide Finish, Structure, ReplyEffect;
    SentKeeps(s, req, status, sent);
    FinishKeeps(s, Sent(s, req, status, sent), verb, req, sess);
    if sess.Some? {
      SetupFailedKeeps(Sent(s, req, status, sent), sess.value);
      FinishKeeps(s, SetupFailed(Sent(s, req, status, sent), sess.value), verb, req, sess);
    }
  }

  lemma SentKeeps(s: Server, req: Id, status: int, sent: bool)
    requires Structure(s)
    ensures Structure(Sent(s, req, status, sent)) && Responds(s.log, Sent(s, req, status, sent).log, req)
  {
  }

  lemma SetupReplyKeeps(s: Server, req: Id, sess: Id, status: int, ports: bool, env: Env)
    requires Structure(s)
    ensures var t := ReplySetup(s, req, sess, status, ports, env).0; Structure(t) && ReplyEffect(s, t, req)
  {
    hide Finish, Structure, ReplyEffect, SetupFailed;
    if Find(s.pending, req).Some? {
      AnswerKeeps(s, req, status, true, Setup, Some(sess));
      AnswerKeeps(s, req, status, env.errorSent, Setup, Some(sess));
      AnswerKeeps(s, req, STATUS_INTERNAL_SERVER_ERROR, env.errorSent, Setup, Some(sess));
      AnswerKeeps(s, req, status, false, Setup, Some(sess));
    } else {
      NoEffect(s, req);
    }
  }

  lemma SetupFailedKeeps(s: Server, sess: Id)
    requires Structure(s)
    ensures Structure(SetupFailed(s, sess))
    ensures var t := SetupFailed(s, sess); t.pending == s.pending && t.frame == s.frame && t.log == s.log && t.next == s.next
  {
  }

  lemma RejectKeeps(s: Server, t: Server, req: Id, a: Answer, status: int, env: Env)
    requires Structure(s) && Structure(t)
    requires t.frame == s.frame && t.next == s.next && t.log == s.log
    requires Find(s.pending, req).Some? && Find(t.pending, req).Some?
    requires Find(t.pending, req).value.inCallback == Find(s.pending, req).value.inCallback
    requires forall k :: k != req ==> Find(t.pending, k) == Find(s.pending, k)
    ensures Structure(Reject(t, req, a, status, env)) && ReplyEffect(s, Reject(t, req, a, status, env), req)
  {
    hide Finish, Structure, ReplyEffect;
    SentKeeps(t, req, status, true);
    var u := ErrorResponse(t, req, status, env);
    FinishKeeps(s, u, a.kind, req, Some(a.session));
  }

  lemma AcceptKeeps(s: Server, t: Server, req: Id, q: Request, x: Session, a: Answer, env: Env)
    requires Structure(s) && Structure(t)
    requires t.frame == s.frame && t.next == s.next && t.log == s.log
    requires Find(s.pending, req).Some? && Find(t.pending, req) == Some(q) && Find(t.sessions, a.session) == Some(x)
    requires q.inCallback == Find(s.pending, req).value.inCallback && q.replied == Find(s.pending, req).value.replied
    requires forall k :: k != req ==> Find(t.pending, k) == Find(s.pending, k)
    ensures var u := Accept(t, req, q, x, a, env).0; Structure(u) && ReplyEffect(s, u, req)
  {
    hide Finish, Structure, ReplyEffect, Reject;
    var p := q.(medias := Put(q.medias, a.media, true));
    AnsweredOk(t, req, q, a.media);
    SetRequestKeeps(t, req, p);
    var u := SetRequest(t, req, p);
    if CountAnswered(p.medias) == p.mediaCount {
      PlayingKeeps(u, a.session, x, a.kind);
      var v := u.(sessions := Put(u.sessions, a.session, SetPlaying(x, a.kind)));
      RejectKeeps(s, v, req, a, STATUS_INTERNAL_SERVER_ERROR, env);
      SentKeeps(v, req, a.status, env.sent);
      FinishKeeps(s, Sent(v, req, a.status, env.sent), a.kind, req, Some(a.session));
    } else {
      CountedOnly(s, u, req);
    }
  }

  lemma AnsweredOk(t: Server, req: Id, q: Request, media: Id)
    requires Structure(t) && Find(t.pending, req) == Some(q)
    ensures RequestOk(q.(medias := Put(q.medias, media, true)))
  {
    PutDistinct(q.medias, media, true);
  }

  lemma PlayingKeeps(s: Server, sess: Id, x: Session, kind: Verb)
    requires Structure(s) && Find(s.sessions, sess) == Some(x)
    ensures Structure(s.(sessions := Put(s.sessions, sess, SetPlaying(x, kind))))
  {
    PutSessionKeeps(s, sess, x, SetPlaying(x, kind));
  }

  lemma CountedOnly(s: Server, t: Server, req: Id)
    requires t.frame == s.frame && t.next == s.next && t.log == s.log
    requires forall k :: k != req ==> Find(t.pending, k) == Find(s.pending, k)
    requires Find(s.pending, req).Some? && Find(t.pending, req).Some?
    requires var (q, p) := (Find(s.pending, req).value, Find(t.pending, req).value);
             p.inCallback == q.inCallback && p.replied == q.replied
    ensures ReplyEffect(s, t, req)
  {
  }

  lemma MediaReplyKeeps(s: Server, req: Id, a: Answer, env: Env)
    requires Structure(s)
    ensures var t := ReplyMedia(s, req, a, env).0; Structure(t) && ReplyEffect(s, t, req)
  {
    hide Finish, Reject, Structure, ReplyEffect, Counts;
    match (Find(s.pending, req), Find(s.sessions, a.session))
    case (None, _) => NothingKeeps(s, req);
    case (_, None) => NothingKeeps(s, req);
    case (Some(q), Some(x)) =>
      FinishKeeps(s, s, a.kind, req, Some(a.session));
      RejectKeeps(s, s, req, a, a.status, env);
      RejectKeeps(s, s, req, a, STATUS_INTERNAL_SERVER_ERROR, env);
      CountsKeeps(s, req, q, x, a, env);
  }

  lemma CountsKeeps(s: Server, req: Id, q: Request, x: Session, a: Answer, env: Env)
    requires Structure(s) && Find(s.pending, req) == Some(q) && Find(s.sessions, a.session) == Some(x)
    ensures var t := Counts(s, req, q, x, a, env).0; Structure(t) && ReplyEffect(s, t, req)
  {
    hide Finish, Reject, Accept, Structure, ReplyEffect, TakeRange;
    var t := Taken(s, req, q, x, a);
    TakenKeeps(s, req, q, x, a);
    RejectKeeps(s, t, req, a, STATUS_INTERNAL_SERVER_ERROR, env);
    AcceptKeeps(s, t, req, NotFirst(q, a), TakeRange(q, x, a), a, env);
  }

  lemma NothingKeeps(s: Server, req: Id)
    ensures ReplyEffect(s, s, req)
  {
  }

  lemma TakenKeeps(s: Server, req: Id, q: Request, x: Session, a: Answer)
    requires Structure(s) && Find(s.pending, req) == Some(q) && Find(s.sessions, a.session) == Some(x)
    ensures var t := Taken(s, req, q, x, a);
            && Structure(t) && Find(t.pending, req) == Some(NotFirst(q, a)) && Find(t.sessions, a.session) == Some(TakeRange(q, x, a))
            && t.frame == s.frame && t.next == s.next && t.log == s.log
            && (forall k :: k != req ==> Find(t.pending, k) == Find(s.pending, k))
            && (forall k :: k != a.session ==> Find(t.sessions, k) == Find(s.sessions, k))
  {
    hide Structure;
    SessionIsOk(s, a.session);
    RequestIsOk(s, req);
    PutSessionKeeps(s, a.session, x, TakeRange(q, x, a));
    SetRequestKeeps(s.(sessions := Put(s.sessions, a.session, TakeRange(q, x, a))), req, NotFirst(q, a));
  }

  lemma RequestIsOk(s: Server, req: Id)
    requires Structure(s) && Find(s.pending, req).Some?
    ensures RequestOk(Find(s.pending, req).value)
  {
  }

  lemma FailKeeps(s: Server, req: Id, status: int, env: Env)
    requires Structure(s)
    ensures var t := Fail(s, req, status, env);
            && Structure(t) && t.frame == s.frame && t.next == s.next && Responds(s.log, t.log, req)
            && forall k :: Find(t.pending, k) == if k == req then None else Find(s.pending, k)
  {
    SentKeeps(s, req, status, true);
    RemoveRequestKeeps(ErrorResponse(s, req, status, env), req);
  }
}
