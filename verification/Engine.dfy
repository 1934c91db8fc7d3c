/** The engine over the memory stores, one whole call at a time: what each call
    does to the state and what it answers, and the class that does it. Draws and
    clock readings are parameters; audit writes and generators do not fail. */
module Engines {
  import opened Types
  import opened SessionRows
  import opened MemoryStores
  import opened RateLimiters
  import SessionStores = MemorySessionStores

  /** `compare` is the password oracle: does this hash accept this password? */
  datatype Config = Config(
    threshold: int,
    duration: int,
    limit: int,
    window: int,
    compare: (string, string) -> bool)

  /** changeEmailTokenTTL: one hour. */
  const TTL: int := 3_600_000_000_000

  datatype State = State(
    users: Users,
    sessions: Rows,
    verifications: Verifications,
    audit: seq<AuditEvent>,
    counters: Counters)

  /** A call with its arguments, draws and clock readings. The `found` fields hold
      the answer of a scan over a map, which may visit it in any order. */
  datatype Op =
    | SignUp(email: string, ip: string, id: string, hash: string, now: Time)
    | Login(email: string, password: string, ip: string, userAgent: string, user: Option<User>,
            id: string, raw: string, allowAt: Time, checkAt: Time, lockAt: Time, createAt: Time)
    | RefreshToken(presented: string, session: Option<Session>, id: string, raw: string, now: Time)
    | Logout(sid: string, uid: string, now: Time)
    | RevokeSession(sid: string, uid: string, now: Time)
    | LogoutAll(uid: string, now: Time)
    | ChangePassword(uid: string, current: string, hash: string, now: Time)
    | DeleteAccount(uid: string, current: string, now: Time)
    | RequestEmailChange(uid: string, newEmail: string, id: string, raw: string, now: Time)
    | ConfirmEmailChange(presented: string, token: Option<VerificationToken>, checkAt: Time, usedAt: Time)

  type Reply = Result<string>

  function Outcome(err: Option<Error>): Reply {
    match err case None => Ok("") case Some(e) => Err(e)
  }

  function Event(kind: EventType, uid: string, ip: string): AuditEvent {
    AuditEvent(kind, uid, ip, map[])
  }

  function FailedLogin(uid: string, ip: string, reason: string): AuditEvent {
    AuditEvent(LoginFailed, uid, ip, map["reason" := reason])
  }

  predicate Taken(users: Users, email: string) {
    exists id :: id in users && users[id].email == email
  }

  predicate Locked(u: User, now: Time) {
    u.lockedUntil.Some? && now < u.lockedUntil.value
  }

  function NewSession(op: Op, uid: string): Session
    requires op.Login?
  {
    Session(op.id, op.id, uid, HashToken(op.raw), op.ip, op.userAgent, 0, None)
  }

  /** A wrong password: the event, the counter, and the lock at the threshold. */
  function FailLogin(cfg: Config, s: State, uid: string, ip: string, lockAt: Time): State {
    var users := WithFailure(s.users, uid);
    var audit := s.audit + [FailedLogin(uid, ip, "wrong_password")];
    if uid in users && users[uid].failedAttempts >= cfg.threshold then
      s.(users := WithLock(users, uid, lockAt + cfg.duration), audit := audit + [Event(AccountLocked, uid, ip)])
    else
      s.(users := users, audit := audit)
  }

  function PassLogin(s: State, uid: string, op: Op): State
    requires op.Login?
  {
    s.(users := WithReset(s.users, uid),
       sessions := CreateIn(Memory, {}, s.sessions, NewSession(op, uid), op.createAt).0,
       audit := s.audit + [Event(LoginSuccess, uid, op.ip)])
  }

  /** A login the limiter let through. */
  function Authenticate(cfg: Config, s: State, op: Op): (State, Reply)
    requires op.Login?
  {
    if op.user.None? then
      (s.(audit := s.audit + [FailedLogin("", op.ip, "no_such_user")]), Err(ErrInvalidCredentials))
    else if Locked(op.user.value, op.checkAt) then (s, Err(ErrAccountLocked))
    else if !cfg.compare(op.user.value.passwordHash, op.password) then
      (FailLogin(cfg, s, op.user.value.id, op.ip, op.lockAt), Err(ErrInvalidCredentials))
    else (PassLogin(s, op.user.value.id, op), Ok(op.raw))
  }

  function DoLogin(cfg: Config, s: State, op: Op): (State, Reply)
    requires op.Login?
  {
    var (counters, allowed) := Decide(cfg.limit, cfg.window, s.counters, "login:" + op.ip + ":" + op.email, op.allowAt);
    if allowed then Authenticate(cfg, s.(counters := counters), op) else (s.(counters := counters), Err(ErrRateLimited))
  }

  /** A signup the limiter let through. */
  function Register(s: State, op: Op): (State, Reply)
    requires op.SignUp?
  {
    if Taken(s.users, op.email) then (s, Err(ErrUserExists))
    else
      (s.(users := s.users[op.id := User(op.id, op.email, op.hash, 0, None)],
          audit := s.audit + [Event(SignupSuccess, op.id, op.ip)]), Ok(op.id))
  }

  function DoSignUp(cfg: Config, s: State, op: Op): (State, Reply)
    requires op.SignUp?
  {
    var (counters, allowed) := Decide(cfg.limit, cfg.window, s.counters, "signup:" + op.ip, op.now);
    if allowed then Register(s.(counters := counters), op) else (s.(counters := counters), Err(ErrRateLimited))
  }

  function DoRefresh(s: State, op: Op): (State, Reply)
    requires op.RefreshToken?
  {
    var (rows, r) := RotateFrom(Memory, {}, s.sessions, op.session, op.id, op.raw, op.now);
    var s0 := s.(sessions := rows);
    match r
    case Rotated(session, raw) => (s0.(audit := s.audit + [Event(TokenRotated, session.userId, "")]), Ok(raw))
    case Reused(existing) => (s0.(audit := s.audit + [Event(TokenReuseDetected, existing.userId, "")]), Err(ErrTokenReused))
    case Invalid => (s0, Err(ErrInvalidToken))
    case StoreFailed(e) => (s0, Err(e))
  }

  /** `Logout` and `RevokeSession`, apart from the event they record. */
  function DoRevoke(s: State, sid: string, uid: string, now: Time, event: AuditEvent): (State, Reply) {
    var (rows, err) := RevokeOwned(Memory, s.sessions, sid, uid, now);
    if err.Some? then (s.(sessions := rows), Err(err.value)) else (s.(sessions := rows, audit := s.audit + [event]), Ok(""))
  }

  function DoChangePassword(cfg: Config, s: State, op: Op): (State, Reply)
    requires op.ChangePassword?
  {
    if op.uid !in s.users then (s, Err(ErrNotFound))
    else if !cfg.compare(s.users[op.uid].passwordHash, op.current) then (s, Err(ErrInvalidCredentials))
    else
      (s.(users := WithPassword(s.users, op.uid, op.hash),
          sessions := RevokeScope(s.sessions, OfUser(op.uid), op.now),
          audit := s.audit + [Event(PasswordChanged, op.uid, "")]), Ok(""))
  }

  function DoDeleteAccount(cfg: Config, s: State, op: Op): (State, Reply)
    requires op.DeleteAccount?
  {
    if op.uid !in s.users then (s, Err(ErrNotFound))
    else if !cfg.compare(s.users[op.uid].passwordHash, op.current) then (s, Err(ErrInvalidCredentials))
    else
      (s.(users := s.users - {op.uid},
          sessions := RevokeScope(s.sessions, OfUser(op.uid), op.now),
          audit := s.audit + [Event(AccountDeleted, op.uid, "")]), Ok(""))
  }

  function DoRequestEmailChange(s: State, op: Op): (State, Reply)
    requires op.RequestEmailChange?
  {
    if Taken(s.users, op.newEmail) then (s, Err(ErrUserExists))
    else
      var v := VerificationToken(op.id, op.uid, EmailChange, HashToken(op.raw), op.newEmail, op.now + TTL, None);
      (s.(verifications := s.verifications[op.id := v],
          audit := s.audit + [Event(EmailChangeRequested, op.uid, "")]), Ok(op.raw))
  }

  function DoConfirmEmailChange(s: State, op: Op): (State, Reply)
    requires op.ConfirmEmailChange?
  {
    if op.token.None? then (s, Err(ErrVerificationTokenInvalid))
    else
      var v := op.token.value;
      if v.purpose != EmailChange || v.usedAt.Some? then (s, Err(ErrVerificationTokenInvalid))
      else if op.checkAt > v.expiresAt then (s, Err(ErrVerificationTokenExpired))
      else if v.userId !in s.users then (s, Err(ErrNotFound))
      else
        (s.(users := WithEmail(s.users, v.userId, v.newEmail),
            verifications := WithUsed(s.verifications, v.id, op.usedAt),
            audit := s.audit + [Event(EmailChanged, v.userId, "")]), Ok(""))
  }

  function Step(cfg: Config, s: State, op: Op): (State, Reply) {
    match op
    case SignUp(_, _, _, _, _) => DoSignUp(cfg, s, op)
    case Login(_, _, _, _, _, _, _, _, _, _, _) => DoLogin(cfg, s, op)
    case RefreshToken(_, _, _, _, _) => DoRefresh(s, op)
    case Logout(sid, uid, now) => DoRevoke(s, sid, uid, now, Event(LoggedOut, uid, ""))
    case RevokeSession(sid, uid, now) =>
      DoRevoke(s, sid, uid, now, AuditEvent(SessionRevoked, uid, "", map["session_id" := sid]))
    case LogoutAll(uid, now) =>
      (s.(sessions := RevokeScope(s.sessions, OfUser(uid), now), audit := s.audit + [Event(LoggedOutAll, uid, "")]), Ok(""))
    case ChangePassword(_, _, _, _) => DoChangePassword(cfg, s, op)
    case DeleteAccount(_, _, _) => DoDeleteAccount(cfg, s, op)
    case RequestEmailChange(_, _, _, _, _) => DoRequestEmailChange(s, op)
    case ConfirmEmailChange(_, _, _, _) => DoConfirmEmailChange(s, op)
  }

  /** The scans of the call give answers the maps can give. */
  predicate ScansOk(s: State, op: Op) {
    match op
    case Login(email, _, _, _, user, _, _, _, _, _, _) => IsEmailLookup(s.users, email, user)
    case RefreshToken(presented, session, _, _, _) => IsLookup(s.sessions, HashToken(presented), session)
    case ConfirmEmailChange(presented, token, _, _) => IsTokenLookup(s.verifications, HashToken(presented), token)
    case _ => true
  }

  class Engine {
    const cfg: Config
    const users: UserStore
    const sessions: SessionStores.SessionStore
    const verifications: VerificationStore
    const audit: AuditStore
    const limiter: InMemoryRateLimiter

    ghost predicate Valid()
      reads limiter
    {
      limiter.Valid() && limiter.limit == cfg.limit && limiter.window == cfg.window
    }

    ghost function View(): State
      reads users, sessions, verifications, audit, limiter, limiter.counters.Values
    {
      State(users.byID, sessions.byID, verifications.byID, audit.events, limiter.Value())
    }

    constructor (cfg: Config)
      ensures Valid() && this.cfg == cfg && View() == State(map[], map[], map[], [], map[])
      ensures fresh(users) && fresh(sessions) && fresh(verifications) && fresh(audit) && fresh(limiter)
    {
      this.cfg := cfg;
      users := new UserStore();
      sessions := new SessionStores.SessionStore();
      verifications := new VerificationStore();
      audit := new AuditStore();
      limiter := new InMemoryRateLimiter(cfg.limit, cfg.window);
    }

    method SignUp(email: string, ip: string, id: string, hash: string, now: Time) returns (r: Reply)
      requires Valid()
      modifies users, audit, limiter, limiter.counters.Values
      ensures Valid() && fresh(limiter.counters.Values - old(limiter.counters.Values))
      ensures (View(), r) == Step(cfg, old(View()), Op.SignUp(email, ip, id, hash, now))
    {
      var allowed := limiter.Allow("signup:" + ip, now);
      if !allowed {
        return Err(ErrRateLimited);
      }
      r := RegisterUser(email, ip, id, hash, now);
    }

    /** `SignUp` after the limiter. */
    method RegisterUser(email: string, ip: string, id: string, hash: string, now: Time) returns (r: Reply)
      modifies users, audit
      ensures (View(), r) == Register(old(View()), Op.SignUp(email, ip, id, hash, now))
    {
      var existing := users.GetByEmail(email);
      if existing.Some? {
        return Err(ErrUserExists);
      }
      users.Create(User(id, email, hash, 0, None));
      audit.Record(SignupSuccess, id, ip, map[]);
      return Ok(id);
    }

    method Login(email: string, password: string, ip: string, userAgent: string,
                 id: string, raw: string, allowAt: Time, checkAt: Time, lockAt: Time, createAt: Time)
      returns (r: Reply, ghost user: Option<User>)
      requires Valid()
      modifies users, sessions, audit, limiter, limiter.counters.Values
      ensures Valid() && fresh(limiter.counters.Values - old(limiter.counters.Values))
      ensures var op := Op.Login(email, password, ip, userAgent, user, id, raw, allowAt, checkAt, lockAt, createAt);
        ScansOk(old(View()), op) && (View(), r) == Step(cfg, old(View()), op)
    {
      var allowed := limiter.Allow("login:" + ip + ":" + email, allowAt);
      if !allowed {
        user := AnyLookup(users.byID, email);
        r := Err(ErrRateLimited);
        return;
      }
      r, user := CheckCredentials(email, password, ip, userAgent, id, raw, allowAt, checkAt, lockAt, createAt);
    }

    /** `Login` after the limiter. */
    method CheckCredentials(email: string, password: string, ip: string, userAgent: string,
                            id: string, raw: string, allowAt: Time, checkAt: Time, lockAt: Time, createAt: Time)
      returns (r: Reply, ghost user: Option<User>)
      modifies users, sessions, audit
      ensures var op := Op.Login(email, password, ip, userAgent, user, id, raw, allowAt, checkAt, lockAt, createAt);
        IsEmailLookup(old(users.byID), email, user) && (View(), r) == Authenticate(cfg, old(View()), op)
    {
      var found := users.GetByEmail(email);
      user := found;
      if found.None? {
        audit.Record(LoginFailed, "", ip, map["reason" := "no_such_user"]);
        r := Err(ErrInvalidCredentials);
        return;
      }
      var u := found.value;
      if u.lockedUntil.Some? && checkAt < u.lockedUntil.value {
        r := Err(ErrAccountLocked);
        return;
      }
      if !cfg.compare(u.passwordHash, password) {
        WrongPassword(u.id, ip, lockAt);
        r := Err(ErrInvalidCredentials);
        return;
      }
      StartFamily(u.id, ip, userAgent, id, raw, createAt);
      r := Ok(raw);
    }

    /** `Login` after a wrong password. */
    method WrongPassword(uid: string, ip: string, lockAt: Time)
      modifies users, audit
      ensures View() == FailLogin(cfg, old(View()), uid, ip, lockAt)
    {
      audit.Record(LoginFailed, uid, ip, map["reason" := "wrong_password"]);
      var attempts := users.IncrementFailedAttempts(uid);
      if attempts.Ok? && attempts.value >= cfg.threshold {
        var err := users.LockAccount(uid, lockAt + cfg.duration);
        if err.None? {
          audit.Record(AccountLocked, uid, ip, map[]);
        }
      }
    }

    /** `Login` after a right password. */
    method StartFamily(uid: string, ip: string, userAgent: string, id: string, raw: string, createAt: Time)
      modifies users, sessions, audit
      ensures View() == old(View()).(
        users := WithReset(old(users.byID), uid),
        sessions := CreateIn(Memory, {}, old(sessions.byID), Session(id, id, uid, HashToken(raw), ip, userAgent, 0, None), createAt).0,
        audit := old(audit.events) + [Event(LoginSuccess, uid, ip)])
    {
      var _ := users.ResetFailedAttempts(uid);
      var _ := sessions.Create(Session(id, id, uid, HashToken(raw), ip, userAgent, 0, None), createAt);
      audit.Record(LoginSuccess, uid, ip, map[]);
    }

    /** `token.Rotate` on the memory store. */
    method Rotate(presented: string, id: string, raw: string, now: Time)
      returns (r: RotateResult, ghost session: Option<Session>)
      modifies sessions
      ensures IsLookup(old(sessions.byID), HashToken(presented), session)
      ensures (sessions.byID, r) == RotateFrom(Memory, {}, old(sessions.byID), session, id, raw, now)
    {
      var found := sessions.GetByTokenHash(HashToken(presented));
      session := found;
      if found.None? {
        r := Invalid;
        return;
      }
      var existing := found.value;
      if existing.revokedAt.Some? {
        sessions.RevokeFamily(existing.familyId, now);
        r := Reused(existing);
        return;
      }
      var next := Session(id, existing.familyId, existing.userId, HashToken(raw), existing.ip, existing.userAgent, 0, None);
      var err := sessions.RotateToken(existing.id, next, now);
      if err.Some? {
        r := StoreFailed(err.value);
        return;
      }
      r := Rotated(next, raw);
    }

    method RefreshToken(presented: string, id: string, raw: string, now: Time)
      returns (r: Reply, ghost session: Option<Session>)
      modifies sessions, audit
      ensures var op := Op.RefreshToken(presented, session, id, raw, now);
        ScansOk(old(View()), op) && (View(), r) == Step(cfg, old(View()), op)
    {
      var result;
      result, session := Rotate(presented, id, raw, now);
      match result {
        case Rotated(next, newRaw) =>
          audit.Record(TokenRotated, next.userId, "", map[]);
          r := Ok(newRaw);
        case Reused(existing) =>
          audit.Record(TokenReuseDetected, existing.userId, "", map[]);
          r := Err(ErrTokenReused);
        case Invalid =>
          r := Err(ErrInvalidToken);
        case StoreFailed(e) =>
          r := Err(e);
      }
    }

    method Logout(sid: string, uid: string, now: Time) returns (r: Reply)
      modifies sessions, audit
      ensures (View(), r) == Step(cfg, old(View()), Op.Logout(sid, uid, now))
    {
      var found := sessions.GetByID(sid);
      if found.Err? {
        return Err(found.error);
      }
      if found.value.userId != uid {
        return Err(ErrSessionNotOwned);
      }
      var err := sessions.Revoke(sid, now);
      if err.Some? {
        return Outcome(err);
      }
      audit.Record(LoggedOut, uid, "", map[]);
      return Ok("");
    }

    method RevokeSession(sid: string, uid: string, now: Time) returns (r: Reply)
      modifies sessions, audit
      ensures (View(), r) == Step(cfg, old(View()), Op.RevokeSession(sid, uid, now))
    {
      var found := sessions.GetByID(sid);
      if found.Err? {
        return Err(found.error);
      }
      if found.value.userId != uid {
        return Err(ErrSessionNotOwned);
      }
      var err := sessions.Revoke(sid, now);
      if err.Some? {
        return Outcome(err);
      }
      audit.Record(SessionRevoked, uid, "", map["session_id" := sid]);
      return Ok("");
    }

    method ListSessions(uid: string) returns (out: seq<Session>, ghost order: seq<string>)
      ensures IsListing(View().sessions, uid, out, order)
      ensures forall s :: s in out <==> s in View().sessions.Values && s.userId == uid && Live(s)
    {
      out, order := sessions.ListByUser(uid);
    }

    method LogoutAll(uid: string, now: Time) returns (r: Reply)
      modifies sessions, audit
      ensures (View(), r) == Step(cfg, old(View()), Op.LogoutAll(uid, now))
    {
      sessions.RevokeAllForUser(uid, now);
      audit.Record(LoggedOutAll, uid, "", map[]);
      return Ok("");
    }

    method ChangePassword(uid: string, current: string, hash: string, now: Time) returns (r: Reply)
      modifies users, sessions, audit
      ensures (View(), r) == Step(cfg, old(View()), Op.ChangePassword(uid, current, hash, now))
    {
      var found := users.GetByID(uid);
      if found.Err? {
        return Err(found.error);
      }
      if !cfg.compare(found.value.passwordHash, current) {
        return Err(ErrInvalidCredentials);
      }
      var err := users.UpdatePasswordHash(uid, hash);
      if err.Some? {
        return Outcome(err);
      }
      sessions.RevokeAllForUser(uid, now);
      audit.Record(PasswordChanged, uid, "", map[]);
      return Ok("");
    }

    method DeleteAccount(uid: string, current: string, now: Time) returns (r: Reply)
      modifies users, sessions, audit
      ensures (View(), r) == Step(cfg, old(View()), Op.DeleteAccount(uid, current, now))
    {
      var found := users.GetByID(uid);
      if found.Err? {
        return Err(found.error);
      }
      if !cfg.compare(found.value.passwordHash, current) {
        return Err(ErrInvalidCredentials);
      }
      sessions.RevokeAllForUser(uid, now);
      audit.Record(AccountDeleted, uid, "", map[]);
      var err := users.Delete(uid);
      if err.Some? {
        return Outcome(err);
      }
      return Ok("");
    }

    method RequestEmailChange(uid: string, newEmail: string, id: string, raw: string, now: Time) returns (r: Reply)
      modifies verifications, audit
      ensures (View(), r) == Step(cfg, old(View()), Op.RequestEmailChange(uid, newEmail, id, raw, now))
    {
      var existing := users.GetByEmail(newEmail);
      if existing.Some? {
        return Err(ErrUserExists);
      }
      verifications.Create(VerificationToken(id, uid, EmailChange, HashToken(raw), newEmail, now + TTL, None));
      audit.Record(EmailChangeRequested, uid, "", map[]);
      return Ok(raw);
    }

    method ConfirmEmailChange(presented: string, checkAt: Time, usedAt: Time)
      returns (r: Reply, ghost token: Option<VerificationToken>)
      modifies users, verifications, audit
      ensures var op := Op.ConfirmEmailChange(presented, token, checkAt, usedAt);
        ScansOk(old(View()), op) && (View(), r) == Step(cfg, old(View()), op)
    {
      var found := verifications.GetByTokenHash(HashToken(presented));
      token := found;
      if found.None? {
        r := Err(ErrVerificationTokenInvalid);
        return;
      }
      var v := found.value;
      if v.purpose != EmailChange || v.usedAt.Some? {
        r := Err(ErrVerificationTokenInvalid);
        return;
      }
      if checkAt > v.expiresAt {
        r := Err(ErrVerificationTokenExpired);
        return;
      }
      var err := users.UpdateEmail(v.userId, v.newEmail);
      if err.Some? {
        r := Outcome(err);
        return;
      }
      var _ := verifications.MarkUsed(v.id, usedAt);
      audit.Record(EmailChanged, v.userId, "", map[]);
      r := Ok("");
    }
  }
}
