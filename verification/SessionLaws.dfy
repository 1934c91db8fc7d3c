/** The sessions table, the replies about sessions and the whole audit log of the
    engine are, after every serial run, what the history of calls says. */
module SessionLaws {
  import opened Types
  import opened Runs
  import opened SessionRows
  import opened Engines
  import opened EngineRuns
  import opened Transcripts
  import opened AccountLaws
  import RateLimiters

  // --------------------------------------------------- who created which row

  /** The rows the calls created, as they were created: a login's row is its own
      family, a rotation's continues that of the row whose token it presented. */
  ghost function Minted(cfg: Config, ops: seq<Op>): Rows {
    if ops == [] then map[]
    else
      var before, op := Minted(cfg, Front(ops)), Last(ops);
      var prev := if op.RefreshToken? then Find(before, HashToken(op.presented)) else None;
      if LogsIn(cfg, ops) then
        before[op.id := Session(op.id, op.id, op.user.value.id, HashToken(op.raw), op.ip, op.userAgent, op.createAt, None)]
      else if prev.Some? && ReplyTo(cfg, ops) == Ok(op.raw) then
        before[op.id := Session(op.id, prev.value.familyId, prev.value.userId, HashToken(op.raw), prev.value.ip, prev.value.userAgent, op.now, None)]
      else before
  }

  ghost predicate RowsFollow(cfg: Config, ops: seq<Op>) {
    var rows, minted := Run(cfg, ops).sessions, Minted(cfg, ops);
    rows.Keys == minted.Keys && forall id :: id in rows ==> SameRow(rows[id], minted[id])
  }

  lemma MintedFind(rows: Rows, minted: Rows, h: Digest)
    requires rows.Keys == minted.Keys && forall id :: id in rows ==> SameRow(rows[id], minted[id])
    requires UniqueHashes(rows)
    ensures Find(rows, h).Some? <==> Find(minted, h).Some?
    ensures Find(rows, h).Some? ==> SameRow(Find(rows, h).value, Find(minted, h).value)
  {
    if Find(minted, h).Some? {
      var id :| id in minted && minted[id] == Find(minted, h).value;
      assert SameRow(rows[id], minted[id]);
      FindByRow(rows, id);
    }
    if Find(rows, h).Some? {
      var id :| id in rows && rows[id] == Find(rows, h).value;
      assert SameRow(rows[id], minted[id]);
    }
  }

  lemma LoginRows(cfg: Config, ops: seq<Op>)
    requires Legal(cfg, ops) && ops != [] && Last(ops).Login? && RowsFollow(cfg, Front(ops))
    ensures RowsFollow(cfg, ops)
  {
    LoginVerdict(cfg, ops);
    LoginSessions(cfg, Run(cfg, Front(ops)), Last(ops));
    MintedByLogin(cfg, ops);
  }

  lemma MintedByLogin(cfg: Config, ops: seq<Op>)
    requires ops != [] && Last(ops).Login?
    ensures var minted, op := Minted(cfg, Front(ops)), Last(ops);
      Minted(cfg, ops) ==
        if LogsIn(cfg, ops) then
          minted[op.id := Session(op.id, op.id, op.user.value.id, HashToken(op.raw), op.ip, op.userAgent, op.createAt, None)]
        else minted
  {
  }

  lemma LoginSessions(cfg: Config, s: State, op: Op)
    requires op.Login?
    ensures Step(cfg, s, op).0.sessions ==
      if Step(cfg, s, op).1.Ok? then
        s.sessions[op.id := Session(op.id, op.id, op.user.value.id, HashToken(op.raw), op.ip, op.userAgent, op.createAt, None)]
      else s.sessions
    ensures Step(cfg, s, op).1.Ok? ==> op.user.Some?
  {
  }

  /** The scan of a rotation finds the row the history has for the token. */
  lemma RefreshScan(cfg: Config, ops: seq<Op>)
    requires Legal(cfg, ops) && ops != [] && Last(ops).RefreshToken? && RowsFollow(cfg, Front(ops))
    ensures var op, rows := Last(ops), Run(cfg, Front(ops)).sessions;
      var prev := Find(Minted(cfg, Front(ops)), HashToken(op.presented));
      && (op.session.Some? <==> prev.Some?)
      && (op.session.Some? ==>
            op.session.value.id in rows && rows[op.session.value.id] == op.session.value && SameRow(op.session.value, prev.value))
  {
    var front, op := Front(ops), Last(ops);
    var rows := Run(cfg, front).sessions;
    RunKeepsTables(cfg, front);
    LookupIsUnique(rows, HashToken(op.presented), op.session, Find(rows, HashToken(op.presented)));
    MintedFind(rows, Minted(cfg, front), HashToken(op.presented));
  }

  lemma RefreshRows(cfg: Config, ops: seq<Op>)
    requires Legal(cfg, ops) && ops != [] && Last(ops).RefreshToken? && RowsFollow(cfg, Front(ops))
    ensures RowsFollow(cfg, ops)
  {
    var rows, rows' := Run(cfg, Front(ops)).sessions, Run(cfg, ops).sessions;
    RefreshScan(cfg, ops);
    RefreshSessions(cfg, Run(cfg, Front(ops)), Last(ops));
    MintedByRefresh(cfg, ops);
    forall id | id in rows' ensures SameRow(rows'[id], Minted(cfg, ops)[id]) {
      if id in rows {
        assert SameRow(rows[id], Minted(cfg, Front(ops))[id]);
      }
    }
  }

  lemma MintedByRefresh(cfg: Config, ops: seq<Op>)
    requires ops != [] && Last(ops).RefreshToken?
    ensures var minted, op := Minted(cfg, Front(ops)), Last(ops);
      var prev := Find(minted, HashToken(op.presented));
      Minted(cfg, ops) ==
        if prev.Some? && ReplyTo(cfg, ops) == Ok(op.raw) then minted[op.id := Successor(prev.value, op.id, op.raw).(createdAt := op.now)]
        else minted
  {
  }

  /** A rotation that goes through adds its row; any other changes no row but for
      revocations. */
  lemma RefreshSessions(cfg: Config, s: State, op: Op)
    requires op.RefreshToken? && (op.session.Some? ==> op.session.value.id in s.sessions && s.sessions[op.session.value.id] == op.session.value)
    ensures var rows', reply := Step(cfg, s, op).0.sessions, Step(cfg, s, op).1;
      && (reply.Ok? ==> reply == Ok(op.raw) && op.session.Some?)
      && rows'.Keys == (if reply.Ok? then s.sessions.Keys + {op.id} else s.sessions.Keys)
      && (forall id :: id in rows' && !(reply.Ok? && id == op.id) ==> SameRow(rows'[id], s.sessions[id]))
      && (reply.Ok? ==> rows'[op.id] == Successor(op.session.value, op.id, op.raw).(createdAt := op.now))
  {
  }

  lemma OtherRows(cfg: Config, ops: seq<Op>)
    requires ops != [] && !Last(ops).Login? && !Last(ops).RefreshToken? && RowsFollow(cfg, Front(ops))
    requires forall id :: id in Run(cfg, Front(ops)).sessions ==> Run(cfg, Front(ops)).sessions[id].id == id
    ensures RowsFollow(cfg, ops)
  {
    OtherSessionEffect(cfg, Run(cfg, Front(ops)), Last(ops));
    RevocationsKeepRows(Run(cfg, Front(ops)).sessions, Last(ops));
  }

  lemma RevocationsKeepRows(rows: Rows, op: Op)
    requires !op.Login? && !op.RefreshToken?
    ensures var rows' := SessionsAfter(rows, op);
      rows'.Keys == rows.Keys && forall id :: id in rows ==> SameRow(rows'[id], rows[id])
  {
  }

  /** After every serial run the sessions table holds exactly the rows the calls
      created, up to their revocations. */
  lemma {:induction false} RowsFollowHistory(cfg: Config, ops: seq<Op>)
    requires Legal(cfg, ops)
    ensures RowsFollow(cfg, ops)
  {
    if ops != [] {
      RowsFollowHistory(cfg, Front(ops));
      RunKeepsTables(cfg, Front(ops));
      if Last(ops).Login? {
        LoginRows(cfg, ops);
      } else if Last(ops).RefreshToken? {
        RefreshRows(cfg, ops);
      } else {
        OtherRows(cfg, ops);
      }
    }
  }

  // -------------------------------------------------- logout and revocation

  /** The event a revocation records. */
  function Revocation(op: Op): AuditEvent
    requires op.Logout? || op.RevokeSession?
  {
    if op.Logout? then AuditEvent(LoggedOut, op.uid, "", map[])
    else AuditEvent(SessionRevoked, op.uid, "", map["session_id" := op.sid])
  }

  /** Logout and session.Revoke: "not found" exactly for an id no call created,
      "not owned" exactly for one created for another user; otherwise the session,
      and no other, is revoked. The event is recorded exactly on success, and a
      refusal changes nothing. */
  lemma RevokeVerdict(cfg: Config, ops: seq<Op>)
    requires Legal(cfg, ops) && ops != [] && (Last(ops).Logout? || Last(ops).RevokeSession?)
    ensures var minted, op := Minted(cfg, Front(ops)), Last(ops);
      ReplyTo(cfg, ops) ==
        if op.sid !in minted then Err(ErrNotFound)
        else if minted[op.sid].userId != op.uid then Err(ErrSessionNotOwned)
        else Ok("")
    ensures var s, s', op := Run(cfg, Front(ops)), Run(cfg, ops), Last(ops);
      if ReplyTo(cfg, ops).Err? then s' == s
      else
        && op.sid in s.sessions
        && s' == s.(sessions := s.sessions[op.sid := s.sessions[op.sid].(revokedAt := Some(op.now))],
                    audit := s.audit + [Revocation(op)])
  {
    var rows := Run(cfg, Front(ops)).sessions;
    RowsFollowHistory(cfg, Front(ops));
    if Last(ops).sid in rows {
      assert SameRow(rows[Last(ops).sid], Minted(cfg, Front(ops))[Last(ops).sid]);
    }
  }

  // ---------------------------------------------------------- the audit log

  /** The event for a rotation, for the owner of the presented token. */
  function RefreshEvents(owner: Option<Session>, reply: Reply): seq<AuditEvent> {
    if owner.None? then []
    else if reply.Ok? then [AuditEvent(TokenRotated, owner.value.userId, "", map[])]
    else if reply == Err(ErrTokenReused) then [AuditEvent(TokenReuseDetected, owner.value.userId, "", map[])]
    else []
  }

  /** What a login that was let through records. */
  function LoginEvents(cfg: Config, ops: seq<Op>): seq<AuditEvent>
    requires ops != [] && Last(ops).Login?
  {
    var op := Last(ops);
    if op.user.None? then [AuditEvent(LoginFailed, "", op.ip, map["reason" := "no_such_user"])]
    else
      var uid, wrong := op.user.value.id, Wrong(cfg, Front(ops), op.user.value.id);
      if LockedOut(cfg, wrong, op.checkAt) then []
      else if LogsIn(cfg, ops) then [AuditEvent(LoginSuccess, uid, op.ip, map[])]
      else
        [AuditEvent(LoginFailed, uid, op.ip, map["reason" := "wrong_password"])]
        + (if |wrong| + 1 >= cfg.threshold then [AuditEvent(AccountLocked, uid, op.ip, map[])] else [])
  }

  /** The events of the last call, in order. */
  ghost function EventsOf(cfg: Config, ops: seq<Op>): seq<AuditEvent>
    requires ops != []
  {
    var front := Front(ops);
    match Last(ops)
    case SignUp(_, ip, id, _, _) =>
      if Registers(cfg, ops) then [AuditEvent(SignupSuccess, id, ip, map[])] else []
    case Login(_, _, _, _, _, _, _, _, _, _, _) =>
      if LetThrough(cfg, ops) then LoginEvents(cfg, ops) else []
    case RefreshToken(presented, _, _, _, _) =>
      RefreshEvents(Find(Minted(cfg, front), HashToken(presented)), ReplyTo(cfg, ops))
    case Logout(sid, uid, _) =>
      if sid in Minted(cfg, front) && Minted(cfg, front)[sid].userId == uid then [AuditEvent(LoggedOut, uid, "", map[])] else []
    case RevokeSession(sid, uid, _) =>
      if sid in Minted(cfg, front) && Minted(cfg, front)[sid].userId == uid then
        [AuditEvent(SessionRevoked, uid, "", map["session_id" := sid])]
      else []
    case LogoutAll(uid, _) =>
      [AuditEvent(LoggedOutAll, uid, "", map[])]
    case ChangePassword(uid, current, _, _) =>
      if Member(cfg, front, uid) && cfg.compare(Password(cfg, front, uid), current) then
        [AuditEvent(PasswordChanged, uid, "", map[])]
      else []
    case DeleteAccount(uid, current, _) =>
      if Member(cfg, front, uid) && cfg.compare(Password(cfg, front, uid), current) then
        [AuditEvent(AccountDeleted, uid, "", map[])]
      else []
    case RequestEmailChange(uid, newEmail, _, _, _) =>
      if AddressTaken(cfg, front, newEmail) then [] else [AuditEvent(EmailChangeRequested, uid, "", map[])]
    case ConfirmEmailChange(presented, _, _, _) =>
      if Confirms(cfg, ops) then [AuditEvent(EmailChanged, RequestFor(cfg, front, presented).value.uid, "", map[])] else []
  }

  ghost function Events(cfg: Config, ops: seq<Op>): seq<AuditEvent> {
    if ops == [] then [] else Events(cfg, Front(ops)) + EventsOf(cfg, ops)
  }

  /** What the last call appended. */
  ghost predicate Appends(cfg: Config, ops: seq<Op>)
    requires ops != []
  {
    Run(cfg, ops).audit == Run(cfg, Front(ops)).audit + EventsOf(cfg, ops)
  }

  lemma LoginAudit(cfg: Config, s: State, op: Op)
    requires op.Login? && (op.user.Some? ==> Lookup(s.users, op.user.value.id) == op.user)
    ensures var c := LimiterCall(op).value;
      Step(cfg, s, op).0.audit == s.audit +
        (if !RateLimiters.Decide(cfg.limit, cfg.window, s.counters, c.key, c.at).1 then []
         else if op.user.None? then [AuditEvent(LoginFailed, "", op.ip, map["reason" := "no_such_user"])]
         else if op.user.value.lockedUntil.Some? && op.checkAt < op.user.value.lockedUntil.value then []
         else if cfg.compare(op.user.value.passwordHash, op.password) then [AuditEvent(LoginSuccess, op.user.value.id, op.ip, map[])]
         else
           [AuditEvent(LoginFailed, op.user.value.id, op.ip, map["reason" := "wrong_password"])]
           + (if op.user.value.failedAttempts + 1 >= cfg.threshold then [AuditEvent(AccountLocked, op.user.value.id, op.ip, map[])] else []))
  {
  }

  lemma LoginAppends(cfg: Config, ops: seq<Op>)
    requires Legal(cfg, ops) && ops != [] && Last(ops).Login?
    ensures Appends(cfg, ops)
  {
    var front, op := Front(ops), Last(ops);
    TablesFollowHistory(cfg, front);
    RunKeepsTables(cfg, front);
    UserScan(cfg, front, op.email, op.user);
    if op.user.Some? {
      assert Lookup(Run(cfg, front).users, op.user.value.id) == Account(cfg, front, op.user.value.id);
    }
    LetThroughIsDecided(cfg, ops);
    LoginAudit(cfg, Run(cfg, front), op);
  }

  lemma RefreshAudit(cfg: Config, s: State, op: Op)
    requires op.RefreshToken?
    ensures Step(cfg, s, op).0.audit == s.audit + RefreshEvents(op.session, Step(cfg, s, op).1)
  {
  }

  lemma RefreshAppends(cfg: Config, ops: seq<Op>)
    requires Legal(cfg, ops) && ops != [] && Last(ops).RefreshToken?
    ensures Appends(cfg, ops)
  {
    RowsFollowHistory(cfg, Front(ops));
    RefreshScan(cfg, ops);
    RefreshAudit(cfg, Run(cfg, Front(ops)), Last(ops));
  }

  lemma PasswordAppends(cfg: Config, ops: seq<Op>)
    requires Legal(cfg, ops) && ops != [] && (Last(ops).ChangePassword? || Last(ops).DeleteAccount?)
    ensures Appends(cfg, ops)
  {
    TablesFollowHistory(cfg, Front(ops));
    assert Lookup(Run(cfg, Front(ops)).users, Last(ops).uid) == Account(cfg, Front(ops), Last(ops).uid);
  }

  lemma SignUpAppends(cfg: Config, ops: seq<Op>)
    requires Legal(cfg, ops) && ops != [] && Last(ops).SignUp?
    ensures Appends(cfg, ops)
  {
    TablesFollowHistory(cfg, Front(ops));
    TakenFollows(cfg, Front(ops), Last(ops).email);
    LetThroughIsDecided(cfg, ops);
  }

  lemma EmailAppends(cfg: Config, ops: seq<Op>)
    requires Legal(cfg, ops) && ops != [] && (Last(ops).RequestEmailChange? || Last(ops).ConfirmEmailChange?)
    ensures Appends(cfg, ops)
  {
    TablesFollowHistory(cfg, Front(ops));
    if Last(ops).RequestEmailChange? {
      TakenFollows(cfg, Front(ops), Last(ops).newEmail);
    } else {
      AcceptsIsConfirms(cfg, ops);
    }
  }

  /** After every serial run the audit log is the events the history of calls calls
      for, each with its kind, user, address and metadata, in order. */
  lemma {:induction false} AuditFollowsHistory(cfg: Config, ops: seq<Op>)
    requires Legal(cfg, ops)
    ensures Run(cfg, ops).audit == Events(cfg, ops)
  {
    if ops != [] {
      AuditFollowsHistory(cfg, Front(ops));
      match Last(ops)
      case SignUp(_, _, _, _, _) => SignUpAppends(cfg, ops);
      case Login(_, _, _, _, _, _, _, _, _, _, _) => LoginAppends(cfg, ops);
      case RefreshToken(_, _, _, _, _) => RefreshAppends(cfg, ops);
      case Logout(_, _, _) => RevokeVerdict(cfg, ops);
      case RevokeSession(_, _, _) => RevokeVerdict(cfg, ops);
      case LogoutAll(_, _) =>
      case ChangePassword(_, _, _, _) => PasswordAppends(cfg, ops);
      case DeleteAccount(_, _, _) => PasswordAppends(cfg, ops);
      case RequestEmailChange(_, _, _, _, _) => EmailAppends(cfg, ops);
      case ConfirmEmailChange(_, _, _, _) => EmailAppends(cfg, ops);
    }
  }
}
