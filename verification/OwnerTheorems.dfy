/** Whose sessions a call can touch, and how fresh the credentials behind a live
    session are, in every run of the interleaved machine. */
module OwnerTheorems {
  import opened Types
  import opened Runs
  import opened SessionRows
  import opened SerialSessions
  import opened Interleaved
  import opened FamilyTheorems

  /** The user on whose behalf a step runs. */
  function Actor(s: State, e: Event): string
    requires Enabled(s, e)
  {
    match e
    case Atomic(op) => op.uid
    case RotateBegin(_, _, _, _, _) => ""
    case RotateEnd(c, _) => s.calls[c].found.userId
    case RevokeBegin(_, _, uid, _) => uid
    case RevokeEnd(c, _) => s.calls[c].uid
    case DeleteRevoke(uid, _) => uid
    case DeleteUser(uid) => uid
  }

  /** Going from `rows` to `rows'` leaves the row alone unless it is the user's. */
  ghost predicate OwnChange(rows: Rows, rows': Rows, id: string, uid: string) {
    && (id in rows && (id !in rows' || rows'[id] != rows[id]) ==> rows[id].userId == uid)
    && (id in rows' && id !in rows ==> rows'[id].userId == uid)
  }

  lemma RotationIsOwnChange(s: State, p: Pending, now: Time, id: string)
    requires p.Rotating? && PendingOk(s.db.rows, s.ids, s.tokens, p)
    requires forall i :: i in s.db.rows ==> s.db.rows[i].id == i
    ensures OwnChange(s.db.rows, FinishRotation(s.db, p, now).0.rows, id, p.found.userId)
  {
  }

  lemma CallIsOwnChange(db: Db, op: Op, id: string)
    requires !op.Rotate? && !op.Revoke?
    requires op.Login? ==> op.id !in db.rows
    ensures OwnChange(db.rows, Step(Postgres, db, op).0.rows, id, op.uid)
  {
  }

  /** No step changes or removes a row of another user than its own, and the rows
      it adds are its own user's. */
  lemma OnlyOwnRowsChange(es: seq<Event>, s: State, e: Event, id: string)
    requires Reaches(es, s) && Enabled(s, e)
    ensures OwnChange(s.db.rows, Move(s, e).db.rows, id, Actor(s, e))
  {
    ReachableInv(es, s);
    match e
    case Atomic(op) =>
      CallIsOwnChange(s.db, op, id);
    case RotateEnd(c, now) =>
      RotationIsOwnChange(s, s.calls[c], now, id);
    case RevokeEnd(c, now) =>
      assert PendingOk(s.db.rows, s.ids, s.tokens, s.calls[c]);
    case _ =>
  }

  // -------------------------------------------------------------- freshness

  /** The position in the log of the login that started the family, or -1. */
  function LoginAt(log: seq<Entry>, f: string): int {
    if log == [] then -1
    else if Last(log).res.LoggedIn? && Last(log).res.session.id == f then |log| - 1
    else LoginAt(Front(log), f)
  }

  predicate RevokesAllOf(e: Entry, uid: string) {
    (e.op.LogoutAll? || (e.op.ChangePassword? && e.res == Done)) && e.op.uid == uid
  }

  /** The position of the user's latest LogoutAll or successful ChangePassword, or -1. */
  function LastRevocation(log: seq<Entry>, uid: string): int {
    if log == [] then -1
    else if RevokesAllOf(Last(log), uid) then |log| - 1
    else LastRevocation(Front(log), uid)
  }

  /** The row descends from the login of its family and carries its user, address
      and agent; a live row's login came after the user's latest revocation and
      was checked against the password hash that is still in force. */
  ghost predicate Fresh(log: seq<Entry>, users: map<string, string>, row: Session) {
    var i := LoginAt(log, row.familyId);
    && 0 <= i < |log|
    && log[i].op.Login? && log[i].op.ok && log[i].res.LoggedIn?
    && log[i].op.uid == row.userId && log[i].op.ip == row.ip && log[i].op.userAgent == row.userAgent
    && (Live(row) ==>
          && LastRevocation(log, row.userId) < i
          && row.userId in users && users[row.userId] == log[i].res.hash)
  }

  ghost predicate AllFresh(s: State) {
    && (forall id :: id in s.db.rows ==> Fresh(s.log, s.db.users, s.db.rows[id]))
    && (forall f :: f !in s.ids ==> LoginAt(s.log, f) == -1)
  }

  lemma LogAppend(log: seq<Entry>, e: Entry, f: string, uid: string)
    ensures LoginAt(log + [e], f) == if e.res.LoggedIn? && e.res.session.id == f then |log| else LoginAt(log, f)
    ensures LastRevocation(log + [e], uid) == if RevokesAllOf(e, uid) then |log| else LastRevocation(log, uid)
  {
    assert Front(log + [e]) == log;
  }

  lemma {:induction false} RevocationInLog(log: seq<Entry>, uid: string)
    ensures LastRevocation(log, uid) < |log|
  {
    if log != [] {
      RevocationInLog(Front(log), uid);
    }
  }

  /** A row stays fresh while its family's login and its user's password stand. */
  lemma StaysFresh(log: seq<Entry>, e: Entry, users: map<string, string>, users': map<string, string>, row: Session, row': Session)
    requires Fresh(log, users, row)
    requires row'.familyId == row.familyId && SameOrigin(row', row) && (Live(row') ==> Live(row))
    requires e.res.LoggedIn? ==> e.res.session.id != row.familyId
    requires Live(row') ==> !RevokesAllOf(e, row.userId) && row.userId in users' && users'[row.userId] == users[row.userId]
    ensures Fresh(log + [e], users', row')
  {
    LogAppend(log, e, row.familyId, row.userId);
  }

  /** The row before the step that a row after it descends from. */
  lemma Origin(s: State, e: Event, id: string) returns (from: string)
    requires Inv(s) && Enabled(s, e) && id in Move(s, e).db.rows
    requires !(e.Atomic? && e.op.Login?)
    ensures from in s.db.rows
    ensures var row, row' := s.db.rows[from], Move(s, e).db.rows[id];
      row'.familyId == row.familyId && SameOrigin(row', row) && (Live(row') ==> Live(row))
  {
    MoveEvolves(s, e);
    var rows, rows' := s.db.rows, Move(s, e).db.rows;
    if id in rows {
      from := id;
    } else {
      assert Inherits(rows, rows', id);
      from :| from in rows && rows[from].familyId == rows'[id].familyId && SameOrigin(rows'[id], rows[from]) && Live(rows[from]);
    }
  }

  /** A user's live rows survive neither LogoutAll nor ChangePassword, and the
      password hash changes in no other step. */
  lemma LiveRowKeepsPassword(s: State, e: Event, id: string)
    requires Inv(s) && Enabled(s, e) && id in Move(s, e).db.rows && Live(Move(s, e).db.rows[id])
    requires !(e.Atomic? && e.op.Login?)
    ensures var s' := Move(s, e);
      var uid := s'.db.rows[id].userId;
      && uid in s.db.users ==> uid in s'.db.users && s'.db.users[uid] == s.db.users[uid]
  {
  }

  lemma LiveRowIsNotRevoked(s: State, e: Event, id: string)
    requires Inv(s) && Enabled(s, e) && id in Move(s, e).db.rows && Live(Move(s, e).db.rows[id])
    requires |Move(s, e).log| > |s.log|
    ensures !RevokesAllOf(Last(Move(s, e).log), Move(s, e).db.rows[id].userId)
  {
  }

  lemma LoginIsFresh(s: State, e: Event, id: string)
    requires Inv(s) && AllFresh(s) && Enabled(s, e) && e.Atomic? && e.op.Login?
    requires id in Move(s, e).db.rows
    ensures Fresh(Move(s, e).log, Move(s, e).db.users, Move(s, e).db.rows[id])
  {
    var s' := Move(s, e);
    var row := s'.db.rows[id];
    if id in s.db.rows {
      assert row == s.db.rows[id];
      StaysFresh(s.log, Last(s'.log), s.db.users, s'.db.users, row, row);
    } else {
      LogAppend(s.log, Last(s'.log), id, row.userId);
      RevocationInLog(s.log, row.userId);
    }
  }

  lemma LogsNoLogin(s: State, e: Event)
    requires Enabled(s, e) && !(e.Atomic? && e.op.Login?)
    ensures var log := Move(s, e).log;
      log == s.log || (log == s.log + [Last(log)] && !Last(log).res.LoggedIn?)
  {
  }

  lemma OtherStepsStayFresh(s: State, e: Event, id: string)
    requires Inv(s) && AllFresh(s) && Enabled(s, e) && !(e.Atomic? && e.op.Login?)
    requires id in Move(s, e).db.rows
    ensures Fresh(Move(s, e).log, Move(s, e).db.users, Move(s, e).db.rows[id])
  {
    var from := Origin(s, e, id);
    LogsNoLogin(s, e);
    if Live(Move(s, e).db.rows[id]) {
      LiveRowKeepsPassword(s, e, id);
      if |Move(s, e).log| > |s.log| {
        LiveRowIsNotRevoked(s, e, id);
      }
    }
    DescendsFresh(s, Move(s, e), from, id);
  }

  lemma DescendsFresh(s: State, s': State, from: string, id: string)
    requires from in s.db.rows && id in s'.db.rows && Fresh(s.log, s.db.users, s.db.rows[from])
    requires s'.db.rows[id].familyId == s.db.rows[from].familyId && SameOrigin(s'.db.rows[id], s.db.rows[from])
    requires Live(s'.db.rows[id]) ==> Live(s.db.rows[from])
    requires s'.log == s.log || (s'.log != [] && s'.log == s.log + [Last(s'.log)] && !Last(s'.log).res.LoggedIn?)
    requires Live(s'.db.rows[id]) ==>
      var uid := s.db.rows[from].userId;
      && (uid in s.db.users ==> uid in s'.db.users && s'.db.users[uid] == s.db.users[uid])
      && (|s'.log| > |s.log| ==> !RevokesAllOf(Last(s'.log), uid))
    ensures Fresh(s'.log, s'.db.users, s'.db.rows[id])
  {
    if |s'.log| > |s.log| {
      StaysFresh(s.log, Last(s'.log), s.db.users, s'.db.users, s.db.rows[from], s'.db.rows[id]);
    }
  }

  lemma MoveKeepsFresh(s: State, e: Event)
    requires Inv(s) && AllFresh(s) && Enabled(s, e)
    ensures AllFresh(Move(s, e))
  {
    var s' := Move(s, e);
    forall id | id in s'.db.rows ensures Fresh(s'.log, s'.db.users, s'.db.rows[id]) {
      if e.Atomic? && e.op.Login? {
        LoginIsFresh(s, e, id);
      } else {
        OtherStepsStayFresh(s, e, id);
      }
    }
    MoveExtendsLog(s, e);
    forall f | f !in s'.ids ensures LoginAt(s'.log, f) == -1 {
      if |s'.log| > |s.log| {
        assert s'.log == s.log + [Last(s'.log)];
        LogAppend(s.log, Last(s'.log), f, "");
      }
    }
  }

  /** In every interleaving, every session descends from the login of its family
      and shares its user, address and agent; and every unrevoked session's login
      came after its user's latest LogoutAll and latest successful ChangePassword,
      and proved the password that is still in force. */
  lemma {:induction false} CredentialFreshness(es: seq<Event>, s: State)
    requires Reaches(es, s)
    ensures AllFresh(s)
  {
    if es != [] {
      var m := Exec(INIT, Front(es));
      CredentialFreshness(Front(es), m);
      ReachableInv(Front(es), m);
      MoveKeepsFresh(m, Last(es));
    }
  }

  // ------------------------------------------------------- the stored hash

  /** The hash of the user's latest successful ChangePassword in the log, or else
      that of their signup. */
  function HashInLog(log: seq<Entry>, uid: string): Option<string> {
    if log == [] then None
    else
      match Last(log).op
      case SignUp(u, hash) => if u == uid then Some(hash) else HashInLog(Front(log), uid)
      case ChangePassword(u, ok, hash, _) => if u == uid && ok then Some(hash) else HashInLog(Front(log), uid)
      case _ => HashInLog(Front(log), uid)
  }

  ghost predicate HashesLogged(s: State) {
    forall uid :: uid in s.db.users ==> uid in s.ids && HashInLog(s.log, uid) == Some(s.db.users[uid])
  }

  /** What a step does to the stored hashes: set one, as its log entry says, or
      take a user away. */
  lemma HashEffect(s: State, e: Event, uid: string)
    requires Enabled(s, e) && uid in Move(s, e).db.users && (uid in s.db.users ==> uid in s.ids)
    ensures var s' := Move(s, e);
      var hash := if |s'.log| > |s.log| then HashInLog([Last(s'.log)], uid) else None;
      if hash.Some? then s'.db.users[uid] == hash.value
      else uid in s.db.users && s'.db.users[uid] == s.db.users[uid]
  {
  }

  lemma HashAppend(log: seq<Entry>, e: Entry, uid: string)
    ensures HashInLog(log + [e], uid) == if HashInLog([e], uid).Some? then HashInLog([e], uid) else HashInLog(log, uid)
  {
    assert Front(log + [e]) == log && Front([e]) == [];
  }

  lemma MoveKeepsHashes(s: State, e: Event)
    requires HashesLogged(s) && Enabled(s, e)
    ensures HashesLogged(Move(s, e))
  {
    var s' := Move(s, e);
    MoveExtendsLog(s, e);
    forall uid | uid in s'.db.users ensures uid in s'.ids && HashInLog(s'.log, uid) == Some(s'.db.users[uid]) {
      HashEffect(s, e, uid);
      if |s'.log| > |s.log| {
        assert s'.log == s.log + [Last(s'.log)];
        HashAppend(s.log, Last(s'.log), uid);
      }
    }
  }

  /** In every interleaving a user's stored hash is the one their latest successful
      ChangePassword set, or else the one they signed up with: by
      `CredentialFreshness`, the hash that every live session's login matched. */
  lemma {:induction false} HashFollowsLog(es: seq<Event>, s: State)
    requires Reaches(es, s)
    ensures HashesLogged(s)
  {
    if es != [] {
      HashFollowsLog(Front(es), Exec(INIT, Front(es)));
      MoveKeepsHashes(Exec(INIT, Front(es)), Last(es));
    }
  }
}
