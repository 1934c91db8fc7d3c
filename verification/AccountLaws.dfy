/** The users, the email tokens and the rate limiter of the engine are, after every
    serial run, what the history of calls says; and so is every reply about them. */
module AccountLaws {
  import opened Types
  import opened Runs
  import opened MemoryStores
  import opened Engines
  import opened EngineRuns
  import opened Transcripts
  import RateLimiters
  import Lockout

  // ---------------------------------------------------------------- limiter

  lemma {:induction false} LimiterFollows(cfg: Config, ops: seq<Op>)
    ensures Run(cfg, ops).counters == RateLimiters.Run(cfg.limit, cfg.window, LimiterCalls(ops))
  {
    if ops != [] {
      var calls := LimiterCalls(Front(ops));
      LimiterFollows(cfg, Front(ops));
      LimiterEffect(cfg, Run(cfg, Front(ops)), Last(ops));
      if LimiterCall(Last(ops)).Some? {
        var c := LimiterCall(Last(ops)).value;
        assert LimiterCalls(ops) == calls + [c] && Front(calls + [c]) == calls;
      } else {
        assert LimiterCalls(ops) == calls;
      }
    }
  }

  lemma LimiterEffect(cfg: Config, s: State, op: Op)
    ensures Step(cfg, s, op).0.counters ==
      match LimiterCall(op)
      case Some(c) => RateLimiters.Decide(cfg.limit, cfg.window, s.counters, c.key, c.at).0
      case None => s.counters
  {
  }

  /** The limiter lets the last call through as its history says. */
  lemma LetThroughIsDecided(cfg: Config, ops: seq<Op>)
    requires ops != [] && LimiterCall(Last(ops)).Some?
    ensures var c := LimiterCall(Last(ops)).value;
      LetThrough(cfg, ops) <==> RateLimiters.Decide(cfg.limit, cfg.window, Run(cfg, Front(ops)).counters, c.key, c.at).1
  {
    var calls, c := LimiterCalls(Front(ops)), LimiterCall(Last(ops)).value;
    LimiterFollows(cfg, Front(ops));
    assert Front(calls + [c]) == calls;
  }

  // ------------------------------------------------------------- agreement

  function Lookup(m: Users, id: string): Option<User> {
    if id in m then Some(m[id]) else None
  }

  /** The user record the history of calls implies. */
  ghost function Account(cfg: Config, ops: seq<Op>, uid: string): Option<User> {
    var wrong := Wrong(cfg, ops, uid);
    if Member(cfg, ops, uid) then
      Some(User(uid, Address(cfg, ops, uid), Password(cfg, ops, uid), |wrong|, LockEnd(cfg, wrong)))
    else None
  }

  /** The token record the history of calls implies. */
  ghost function TokenRecord(cfg: Config, ops: seq<Op>, raw: string): Option<VerificationToken> {
    match RequestFor(cfg, ops, raw)
    case None => None
    case Some(r) =>
      Some(VerificationToken(r.id, r.uid, EmailChange, HashToken(raw), r.newEmail, r.at + 3_600_000_000_000, SpentAt(cfg, ops, raw)))
  }

  ghost predicate UsersFollow(cfg: Config, ops: seq<Op>) {
    forall uid :: Lookup(Run(cfg, ops).users, uid) == Account(cfg, ops, uid)
  }

  ghost predicate TokensFollow(cfg: Config, ops: seq<Op>) {
    var vs := Run(cfg, ops).verifications;
    && (forall id :: id in vs ==> TokenRecord(cfg, ops, vs[id].tokenHash.raw) == Some(vs[id]))
    && (forall raw :: TokenRecord(cfg, ops, raw).Some? ==>
          var v := TokenRecord(cfg, ops, raw).value; v.id in vs && vs[v.id] == v)
  }

  /** What nobody has drawn has no history. */
  ghost predicate UndrawnIsBlank(cfg: Config, ops: seq<Op>) {
    && (forall uid :: uid !in Ids(ops) ==> Wrong(cfg, ops, uid) == [])
    && (forall raw :: raw !in Tokens(ops) ==> RequestFor(cfg, ops, raw).None? && SpentAt(cfg, ops, raw).None?)
  }

  ghost predicate Follows(cfg: Config, ops: seq<Op>) {
    UsersFollow(cfg, ops) && TokensFollow(cfg, ops) && UndrawnIsBlank(cfg, ops)
  }

  // ----------------------------------------------------------------- scans

  lemma TakenFollows(cfg: Config, ops: seq<Op>, email: string)
    requires UsersFollow(cfg, ops)
    ensures Taken(Run(cfg, ops).users, email) <==> AddressTaken(cfg, ops, email)
  {
    var users := Run(cfg, ops).users;
    if Taken(users, email) {
      var id :| id in users && users[id].email == email;
      assert Lookup(users, id) == Account(cfg, ops, id);
      var i := MembersSignedUp(cfg, ops, id);
      assert ops[i].id == id;
    }
    if AddressTaken(cfg, ops, email) {
      var i :| 0 <= i < |ops| && ops[i].SignUp? && Member(cfg, ops, ops[i].id) && Address(cfg, ops, ops[i].id) == email;
      assert Lookup(users, ops[i].id) == Account(cfg, ops, ops[i].id);
    }
  }

  /** A scan by address finds a member who has it, or there is none. */
  lemma UserScan(cfg: Config, ops: seq<Op>, email: string, user: Option<User>)
    requires UsersFollow(cfg, ops) && UsersOk(Run(cfg, ops).users, Ids(ops))
    requires IsEmailLookup(Run(cfg, ops).users, email, user)
    ensures user.None? <==> !AddressTaken(cfg, ops, email)
    ensures user.Some? ==>
      Member(cfg, ops, user.value.id) && user == Account(cfg, ops, user.value.id) && Address(cfg, ops, user.value.id) == email
  {
    var users := Run(cfg, ops).users;
    TakenFollows(cfg, ops, email);
    if user.Some? {
      var id :| id in users && users[id] == user.value;
      assert Lookup(users, id) == Account(cfg, ops, id);
    }
  }

  /** A scan for an email token finds the record of its request. */
  lemma TokenScan(cfg: Config, ops: seq<Op>, raw: string, token: Option<VerificationToken>)
    requires TokensFollow(cfg, ops)
    requires IsTokenLookup(Run(cfg, ops).verifications, HashToken(raw), token)
    ensures token == TokenRecord(cfg, ops, raw)
  {
    var vs := Run(cfg, ops).verifications;
    if token.Some? {
      var id :| id in vs && vs[id] == token.value;
    }
  }

  // -------------------------------------------------------- users, by call

  lemma MemberStep(cfg: Config, ops: seq<Op>, uid: string)
    requires ops != []
    ensures var front, op := Front(ops), Last(ops);
      Member(cfg, ops, uid) ==
        if Registers(cfg, ops) && op.id == uid then true
        else if op.DeleteAccount? && op.uid == uid && cfg.compare(Password(cfg, front, uid), op.current) then false
        else Member(cfg, front, uid)
    ensures Registers(cfg, ops) ==> Last(ops).SignUp?
  {
  }

  lemma AddressStep(cfg: Config, ops: seq<Op>, uid: string)
    requires ops != []
    ensures var front, op := Front(ops), Last(ops);
      Address(cfg, ops, uid) ==
        if op.SignUp? && op.id == uid then op.email
        else if Confirms(cfg, ops) && RequestFor(cfg, front, op.presented).value.uid == uid then
          RequestFor(cfg, front, op.presented).value.newEmail
        else Address(cfg, front, uid)
    ensures Confirms(cfg, ops) ==> Last(ops).ConfirmEmailChange?
  {
  }

  /** Only signups, logins, password changes, deletions and confirmations touch
      what the history says about a user. */
  lemma QuietAccount(cfg: Config, ops: seq<Op>, uid: string)
    requires ops != []
    requires var op := Last(ops);
      op.RefreshToken? || op.Logout? || op.RevokeSession? || op.LogoutAll? || op.RequestEmailChange?
    ensures Account(cfg, ops, uid) == Account(cfg, Front(ops), uid)
  {
    MemberStep(cfg, ops, uid);
    AddressStep(cfg, ops, uid);
  }

  lemma SignUpEffect(cfg: Config, s: State, op: Op, uid: string)
    requires op.SignUp?
    ensures var c := LimiterCall(op).value;
      var ok := RateLimiters.Decide(cfg.limit, cfg.window, s.counters, c.key, c.at).1 && !Taken(s.users, op.email);
      Lookup(Step(cfg, s, op).0.users, uid) ==
        if ok && op.id == uid then Some(User(uid, op.email, op.hash, 0, None)) else Lookup(s.users, uid)
  {
  }

  lemma SignUpAccount(cfg: Config, ops: seq<Op>, uid: string)
    requires ops != [] && Last(ops).SignUp?
    requires Last(ops).id == uid ==> Wrong(cfg, Front(ops), uid) == [] && !Member(cfg, Front(ops), uid)
    ensures var op := Last(ops);
      Account(cfg, ops, uid) ==
        if Registers(cfg, ops) && op.id == uid then Some(User(uid, op.email, op.hash, 0, None))
        else Account(cfg, Front(ops), uid)
  {
    MemberStep(cfg, ops, uid);
    AddressStep(cfg, ops, uid);
  }

  lemma SignUpUsers(cfg: Config, ops: seq<Op>, uid: string)
    requires ops != [] && Last(ops).SignUp? && UsersFollow(cfg, Front(ops)) && UndrawnIsBlank(cfg, Front(ops))
    requires OpIds(Last(ops)) !! Ids(Front(ops)) && UsersOk(Run(cfg, Front(ops)).users, Ids(Front(ops)))
    ensures Lookup(Run(cfg, ops).users, uid) == Account(cfg, ops, uid)
  {
    var front, op := Front(ops), Last(ops);
    assert Lookup(Run(cfg, front).users, uid) == Account(cfg, front, uid);
    LetThroughIsDecided(cfg, ops);
    TakenFollows(cfg, front, op.email);
    SignUpEffect(cfg, Run(cfg, front), op, uid);
    SignUpAccount(cfg, ops, uid);
  }

  /** What a login that is let through does to the user it is for. */
  function AfterLogin(cfg: Config, u: User, op: Op): User
    requires op.Login?
  {
    if u.lockedUntil.Some? && op.checkAt < u.lockedUntil.value then u
    else if cfg.compare(u.passwordHash, op.password) then u.(failedAttempts := 0, lockedUntil := None)
    else if u.failedAttempts + 1 >= cfg.threshold then
      u.(failedAttempts := u.failedAttempts + 1, lockedUntil := Some(op.lockAt + cfg.duration))
    else u.(failedAttempts := u.failedAttempts + 1)
  }

  lemma LoginEffect(cfg: Config, s: State, op: Op, uid: string)
    requires op.Login? && (op.user.Some? ==> Lookup(s.users, op.user.value.id) == op.user)
    ensures var c := LimiterCall(op).value;
      Lookup(Step(cfg, s, op).0.users, uid) ==
        if RateLimiters.Decide(cfg.limit, cfg.window, s.counters, c.key, c.at).1 && op.user.Some? && op.user.value.id == uid then
          Some(AfterLogin(cfg, op.user.value, op))
        else Lookup(s.users, uid)
  {
  }

  lemma LoginAccount(cfg: Config, ops: seq<Op>, uid: string)
    requires ops != [] && Last(ops).Login?
    ensures var front, op := Front(ops), Last(ops);
      Account(cfg, ops, uid) ==
        if Account(cfg, front, uid).Some? && LetThrough(cfg, ops) && op.user.Some? && op.user.value.id == uid then
          Some(AfterLogin(cfg, Account(cfg, front, uid).value, op))
        else Account(cfg, front, uid)
  {
    MemberStep(cfg, ops, uid);
    AddressStep(cfg, ops, uid);
  }

  lemma LoginUsers(cfg: Config, ops: seq<Op>, uid: string)
    requires ops != [] && Last(ops).Login? && UsersFollow(cfg, Front(ops))
    requires ScansOk(Run(cfg, Front(ops)), Last(ops)) && UsersOk(Run(cfg, Front(ops)).users, Ids(Front(ops)))
    ensures Lookup(Run(cfg, ops).users, uid) == Account(cfg, ops, uid)
  {
    var front, op := Front(ops), Last(ops);
    assert Lookup(Run(cfg, front).users, uid) == Account(cfg, front, uid);
    UserScan(cfg, front, op.email, op.user);
    LetThroughIsDecided(cfg, ops);
    LoginEffect(cfg, Run(cfg, front), op, uid);
    LoginAccount(cfg, ops, uid);
  }

  lemma PasswordEffect(cfg: Config, s: State, op: Op, uid: string)
    requires op.ChangePassword? || op.DeleteAccount?
    ensures Lookup(Step(cfg, s, op).0.users, uid) ==
      if uid == op.uid && uid in s.users && cfg.compare(s.users[uid].passwordHash, op.current) then
        (if op.DeleteAccount? then None else Some(s.users[uid].(passwordHash := op.hash)))
      else Lookup(s.users, uid)
  {
  }

  lemma PasswordUsers(cfg: Config, ops: seq<Op>, uid: string)
    requires ops != [] && (Last(ops).ChangePassword? || Last(ops).DeleteAccount?) && UsersFollow(cfg, Front(ops))
    ensures Lookup(Run(cfg, ops).users, uid) == Account(cfg, ops, uid)
  {
    assert Lookup(Run(cfg, Front(ops)).users, uid) == Account(cfg, Front(ops), uid);
    PasswordEffect(cfg, Run(cfg, Front(ops)), Last(ops), uid);
    MemberStep(cfg, ops, uid);
    AddressStep(cfg, ops, uid);
  }

  /** A confirmation the tables accept. */
  predicate Accepts(s: State, op: Op)
    requires op.ConfirmEmailChange?
  {
    && op.token.Some? && op.token.value.purpose == EmailChange && op.token.value.usedAt.None?
    && op.checkAt <= op.token.value.expiresAt && op.token.value.userId in s.users
  }

  lemma ConfirmEffect(cfg: Config, s: State, op: Op, uid: string)
    requires op.ConfirmEmailChange?
    ensures Lookup(Step(cfg, s, op).0.users, uid) ==
      if Accepts(s, op) && op.token.value.userId == uid then Some(s.users[uid].(email := op.token.value.newEmail))
      else Lookup(s.users, uid)
  {
  }

  lemma AcceptsIsConfirms(cfg: Config, ops: seq<Op>)
    requires ops != [] && Last(ops).ConfirmEmailChange? && UsersFollow(cfg, Front(ops)) && TokensFollow(cfg, Front(ops))
    requires ScansOk(Run(cfg, Front(ops)), Last(ops))
    ensures Accepts(Run(cfg, Front(ops)), Last(ops)) <==> Confirms(cfg, ops)
    ensures Last(ops).token == TokenRecord(cfg, Front(ops), Last(ops).presented)
  {
    var front, op := Front(ops), Last(ops);
    TokenScan(cfg, front, op.presented, op.token);
    if op.token.Some? {
      assert Lookup(Run(cfg, front).users, op.token.value.userId) == Account(cfg, front, op.token.value.userId);
    }
  }

  lemma ConfirmUsers(cfg: Config, ops: seq<Op>, uid: string)
    requires ops != [] && Last(ops).ConfirmEmailChange? && UsersFollow(cfg, Front(ops)) && TokensFollow(cfg, Front(ops))
    requires ScansOk(Run(cfg, Front(ops)), Last(ops))
    ensures Lookup(Run(cfg, ops).users, uid) == Account(cfg, ops, uid)
  {
    assert Lookup(Run(cfg, Front(ops)).users, uid) == Account(cfg, Front(ops), uid);
    AcceptsIsConfirms(cfg, ops);
    ConfirmEffect(cfg, Run(cfg, Front(ops)), Last(ops), uid);
    MemberStep(cfg, ops, uid);
    AddressStep(cfg, ops, uid);
  }

  lemma QuietEffect(cfg: Config, s: State, op: Op)
    requires op.RefreshToken? || op.Logout? || op.RevokeSession? || op.LogoutAll? || op.RequestEmailChange?
    ensures Step(cfg, s, op).0.users == s.users
  {
  }

  lemma QuietUsers(cfg: Config, ops: seq<Op>, uid: string)
    requires ops != [] && UsersFollow(cfg, Front(ops))
    requires var op := Last(ops);
      op.RefreshToken? || op.Logout? || op.RevokeSession? || op.LogoutAll? || op.RequestEmailChange?
    ensures Lookup(Run(cfg, ops).users, uid) == Account(cfg, ops, uid)
  {
    assert Lookup(Run(cfg, Front(ops)).users, uid) == Account(cfg, Front(ops), uid);
    QuietEffect(cfg, Run(cfg, Front(ops)), Last(ops));
    QuietAccount(cfg, ops, uid);
  }

  lemma StepKeepsUsersFollow(cfg: Config, ops: seq<Op>)
    requires ops != [] && Legal(cfg, ops) && Follows(cfg, Front(ops))
    ensures UsersFollow(cfg, ops)
  {
    RunKeepsTables(cfg, Front(ops));
    forall uid ensures Lookup(Run(cfg, ops).users, uid) == Account(cfg, ops, uid) {
      match Last(ops)
      case SignUp(_, _, _, _, _) => SignUpUsers(cfg, ops, uid);
      case Login(_, _, _, _, _, _, _, _, _, _, _) => LoginUsers(cfg, ops, uid);
      case ChangePassword(_, _, _, _) => PasswordUsers(cfg, ops, uid);
      case DeleteAccount(_, _, _) => PasswordUsers(cfg, ops, uid);
      case ConfirmEmailChange(_, _, _, _) => ConfirmUsers(cfg, ops, uid);
      case _ => QuietUsers(cfg, ops, uid);
    }
  }

  // ------------------------------------------------------- tokens, by call

  lemma RequestStep(cfg: Config, ops: seq<Op>, raw: string)
    requires ops != []
    ensures var front, op := Front(ops), Last(ops);
      RequestFor(cfg, ops, raw) ==
        if op.RequestEmailChange? && op.raw == raw && !AddressTaken(cfg, front, op.newEmail) then
          Some(Request(op.id, op.uid, op.newEmail, op.now))
        else RequestFor(cfg, front, raw)
  {
  }

  lemma SpentStep(cfg: Config, ops: seq<Op>, raw: string)
    requires ops != []
    ensures SpentAt(cfg, ops, raw) ==
      if Confirms(cfg, ops) && Last(ops).presented == raw then Some(Last(ops).usedAt) else SpentAt(cfg, Front(ops), raw)
    ensures Confirms(cfg, ops) ==> Last(ops).ConfirmEmailChange? && RequestFor(cfg, Front(ops), Last(ops).presented).Some?
  {
  }

  lemma StepKeepsBlank(cfg: Config, ops: seq<Op>)
    requires ops != [] && UndrawnIsBlank(cfg, Front(ops)) && UsersOk(Run(cfg, Front(ops)).users, Ids(Front(ops)))
    requires ScansOk(Run(cfg, Front(ops)), Last(ops))
    ensures UndrawnIsBlank(cfg, ops)
  {
    forall raw | raw !in Tokens(ops) ensures RequestFor(cfg, ops, raw).None? && SpentAt(cfg, ops, raw).None? {
      RequestStep(cfg, ops, raw);
      SpentStep(cfg, ops, raw);
    }
  }

  lemma TokensQuiet(cfg: Config, ops: seq<Op>, raw: string)
    requires ops != [] && !Last(ops).RequestEmailChange? && !Last(ops).ConfirmEmailChange?
    ensures TokenRecord(cfg, ops, raw) == TokenRecord(cfg, Front(ops), raw)
  {
    RequestStep(cfg, ops, raw);
    SpentStep(cfg, ops, raw);
  }

  lemma VerificationEffect(cfg: Config, s: State, op: Op)
    ensures Step(cfg, s, op).0.verifications ==
      match op
      case RequestEmailChange(uid, newEmail, id, raw, now) =>
        if Taken(s.users, newEmail) then s.verifications
        else s.verifications[id := VerificationToken(id, uid, EmailChange, HashToken(raw), newEmail, now + 3_600_000_000_000, None)]
      case ConfirmEmailChange(_, token, _, usedAt) =>
        if Accepts(s, op) then WithUsed(s.verifications, token.value.id, usedAt) else s.verifications
      case _ => s.verifications
  {
  }

  lemma RecordAfterRequest(cfg: Config, ops: seq<Op>, raw: string)
    requires ops != [] && Last(ops).RequestEmailChange?
    requires SpentAt(cfg, Front(ops), Last(ops).raw).None?
    ensures var op := Last(ops);
      TokenRecord(cfg, ops, raw) ==
        if raw == op.raw && !AddressTaken(cfg, Front(ops), op.newEmail) then
          Some(VerificationToken(op.id, op.uid, EmailChange, HashToken(raw), op.newEmail, op.now + 3_600_000_000_000, None))
        else TokenRecord(cfg, Front(ops), raw)
  {
    RequestStep(cfg, ops, raw);
    SpentStep(cfg, ops, raw);
  }

  lemma RequestTokens(cfg: Config, ops: seq<Op>)
    requires ops != [] && Last(ops).RequestEmailChange? && Follows(cfg, Front(ops))
    requires OpIds(Last(ops)) !! Ids(Front(ops)) && OpTokens(Last(ops)) !! Tokens(Front(ops))
    requires VerificationsOk(Run(cfg, Front(ops)).verifications, Ids(Front(ops)), Tokens(Front(ops)))
    ensures TokensFollow(cfg, ops)
  {
    var front, op := Front(ops), Last(ops);
    var vs, vs' := Run(cfg, front).verifications, Run(cfg, ops).verifications;
    TakenFollows(cfg, front, op.newEmail);
    VerificationEffect(cfg, Run(cfg, front), op);
    forall id | id in vs' ensures TokenRecord(cfg, ops, vs'[id].tokenHash.raw) == Some(vs'[id]) {
      RecordAfterRequest(cfg, ops, vs'[id].tokenHash.raw);
    }
    forall raw | TokenRecord(cfg, ops, raw).Some?
      ensures var v := TokenRecord(cfg, ops, raw).value; v.id in vs' && vs'[v.id] == v
    {
      RecordAfterRequest(cfg, ops, raw);
    }
  }

  lemma RecordAfterConfirm(cfg: Config, ops: seq<Op>, raw: string)
    requires ops != [] && Last(ops).ConfirmEmailChange?
    ensures TokenRecord(cfg, ops, raw) ==
      if raw == Last(ops).presented && Confirms(cfg, ops) then
        Some(TokenRecord(cfg, Front(ops), raw).value.(usedAt := Some(Last(ops).usedAt)))
      else TokenRecord(cfg, Front(ops), raw)
  {
    RequestStep(cfg, ops, raw);
    SpentStep(cfg, ops, raw);
  }

  lemma ConfirmTokens(cfg: Config, ops: seq<Op>)
    requires ops != [] && Last(ops).ConfirmEmailChange? && Follows(cfg, Front(ops))
    requires ScansOk(Run(cfg, Front(ops)), Last(ops))
    requires VerificationsOk(Run(cfg, Front(ops)).verifications, Ids(Front(ops)), Tokens(Front(ops)))
    ensures TokensFollow(cfg, ops)
  {
    var front, op := Front(ops), Last(ops);
    var vs, vs' := Run(cfg, front).verifications, Run(cfg, ops).verifications;
    AcceptsIsConfirms(cfg, ops);
    VerificationEffect(cfg, Run(cfg, front), op);
    forall id | id in vs' ensures TokenRecord(cfg, ops, vs'[id].tokenHash.raw) == Some(vs'[id]) {
      RecordAfterConfirm(cfg, ops, vs'[id].tokenHash.raw);
    }
    forall raw | TokenRecord(cfg, ops, raw).Some?
      ensures var v := TokenRecord(cfg, ops, raw).value; v.id in vs' && vs'[v.id] == v
    {
      RecordAfterConfirm(cfg, ops, raw);
    }
  }

  lemma QuietTokens(cfg: Config, ops: seq<Op>)
    requires ops != [] && !Last(ops).RequestEmailChange? && !Last(ops).ConfirmEmailChange? && TokensFollow(cfg, Front(ops))
    ensures TokensFollow(cfg, ops)
  {
    VerificationEffect(cfg, Run(cfg, Front(ops)), Last(ops));
    forall raw ensures TokenRecord(cfg, ops, raw) == TokenRecord(cfg, Front(ops), raw) {
      TokensQuiet(cfg, ops, raw);
    }
  }

  /** After every serial run each table of the engine is what the history of calls
      says: the users with their passwords, addresses, counters and locks; the
      email tokens; and, for what nobody drew, nothing. */
  lemma {:induction false} TablesFollowHistory(cfg: Config, ops: seq<Op>)
    requires Legal(cfg, ops)
    ensures UsersFollow(cfg, ops) && TokensFollow(cfg, ops) && UndrawnIsBlank(cfg, ops)
  {
    if ops == [] {
      assert forall uid :: Account(cfg, ops, uid) == None;
    } else {
      var front, op := Front(ops), Last(ops);
      TablesFollowHistory(cfg, front);
      RunKeepsTables(cfg, front);
      StepKeepsUsersFollow(cfg, ops);
      StepKeepsBlank(cfg, ops);
      if op.RequestEmailChange? {
        RequestTokens(cfg, ops);
      } else if op.ConfirmEmailChange? {
        ConfirmTokens(cfg, ops);
      } else {
        QuietTokens(cfg, ops);
      }
    }
  }

  // ----------------------------------------------------------- the replies

  /** The reply to the last call of the run. */
  function ReplyTo(cfg: Config, ops: seq<Op>): Reply
    requires ops != []
  {
    Step(cfg, Run(cfg, Front(ops)), Last(ops)).1
  }

  /** The replies to a login: it is refused by the limiter, for want of a user at
      that address, or because the lock that the latest of at least `threshold`
      wrong guesses earned has not ended; otherwise the password decides. */
  lemma LoginVerdict(cfg: Config, ops: seq<Op>)
    requires Legal(cfg, ops) && ops != [] && Last(ops).Login?
    ensures var front, op := Front(ops), Last(ops);
      && (op.user.None? <==> !AddressTaken(cfg, front, op.email))
      && (op.user.Some? ==> Member(cfg, front, op.user.value.id) && Address(cfg, front, op.user.value.id) == op.email)
      && ReplyTo(cfg, ops) ==
           if !LetThrough(cfg, ops) then Err(ErrRateLimited)
           else if op.user.None? then Err(ErrInvalidCredentials)
           else if LockedOut(cfg, Wrong(cfg, front, op.user.value.id), op.checkAt) then Err(ErrAccountLocked)
           else if cfg.compare(Password(cfg, front, op.user.value.id), op.password) then Ok(op.raw)
           else Err(ErrInvalidCredentials)
  {
    var front, op := Front(ops), Last(ops);
    TablesFollowHistory(cfg, front);
    RunKeepsTables(cfg, front);
    UserScan(cfg, front, op.email, op.user);
    LetThroughIsDecided(cfg, ops);
    LoginReplies(cfg, Run(cfg, front), op);
  }

  lemma LoginReplies(cfg: Config, s: State, op: Op)
    requires op.Login?
    ensures var c := LimiterCall(op).value;
      Step(cfg, s, op).1 ==
        if !RateLimiters.Decide(cfg.limit, cfg.window, s.counters, c.key, c.at).1 then Err(ErrRateLimited)
        else if op.user.None? then Err(ErrInvalidCredentials)
        else if op.user.value.lockedUntil.Some? && op.checkAt < op.user.value.lockedUntil.value then Err(ErrAccountLocked)
        else if cfg.compare(op.user.value.passwordHash, op.password) then Ok(op.raw)
        else Err(ErrInvalidCredentials)
  {
  }

  /** The guesses the lockout bounds speak of are those of the history. */
  lemma {:induction false} GuessesAreWrongLogins(cfg: Config, ops: seq<Op>, uid: string)
    requires Legal(cfg, ops)
    ensures Lockout.Guesses(cfg, ops, uid) == CheckTimes(Wrong(cfg, ops, uid))
  {
    if ops != [] {
      var front, op := Front(ops), Last(ops);
      GuessesAreWrongLogins(cfg, front, uid);
      if op.Login? {
        ComparisonFollows(cfg, ops, uid);
      }
    }
  }

  /** A login compares the user's password exactly when it is let through and the
      user is not locked out, and it compares with the hash in force. */
  lemma ComparisonFollows(cfg: Config, ops: seq<Op>, uid: string)
    requires Legal(cfg, ops) && ops != [] && Last(ops).Login?
    ensures var front, op := Front(ops), Last(ops);
      && (Lockout.Compares(cfg, Run(cfg, front), op, uid) <==>
            LetThrough(cfg, ops) && op.user.Some? && op.user.value.id == uid && !LockedOut(cfg, Wrong(cfg, front, uid), op.checkAt))
      && (op.user.Some? && op.user.value.id == uid ==>
            (Lockout.Matches(cfg, op) <==> cfg.compare(Password(cfg, front, uid), op.password)))
  {
    var front, op := Front(ops), Last(ops);
    TablesFollowHistory(cfg, front);
    RunKeepsTables(cfg, front);
    UserScan(cfg, front, op.email, op.user);
    LetThroughIsDecided(cfg, ops);
  }

  function CheckTimes(wrong: seq<Guess>): seq<Time> {
    seq(|wrong|, i requires 0 <= i < |wrong| => wrong[i].checkAt)
  }

  /** A right password, once the lock has ended, gets in. */
  lemma LockEnds(cfg: Config, ops: seq<Op>, uid: string)
    requires Legal(cfg, ops) && ops != [] && Last(ops).Login? && LetThrough(cfg, ops)
    requires Last(ops).user.Some? && Last(ops).user.value.id == uid
    requires cfg.compare(Password(cfg, Front(ops), uid), Last(ops).password)
    requires var wrong := Wrong(cfg, Front(ops), uid);
      wrong == [] || |wrong| < cfg.threshold || Last(ops).checkAt >= Last(wrong).lockAt + cfg.duration
    ensures ReplyTo(cfg, ops) == Ok(Last(ops).raw)
  {
    LoginVerdict(cfg, ops);
  }

  lemma SignUpVerdict(cfg: Config, ops: seq<Op>)
    requires Legal(cfg, ops) && ops != [] && Last(ops).SignUp?
    ensures ReplyTo(cfg, ops) ==
      if !LetThrough(cfg, ops) then Err(ErrRateLimited)
      else if AddressTaken(cfg, Front(ops), Last(ops).email) then Err(ErrUserExists)
      else Ok(Last(ops).id)
  {
    TablesFollowHistory(cfg, Front(ops));
    TakenFollows(cfg, Front(ops), Last(ops).email);
    LetThroughIsDecided(cfg, ops);
  }

  /** ChangePassword and DeleteAccount judge the current password the same way. */
  lemma PasswordVerdict(cfg: Config, ops: seq<Op>)
    requires Legal(cfg, ops) && ops != [] && (Last(ops).ChangePassword? || Last(ops).DeleteAccount?)
    ensures var front, op := Front(ops), Last(ops);
      ReplyTo(cfg, ops) ==
        if !Member(cfg, front, op.uid) then Err(ErrNotFound)
        else if cfg.compare(Password(cfg, front, op.uid), op.current) then Ok("")
        else Err(ErrInvalidCredentials)
  {
    TablesFollowHistory(cfg, Front(ops));
    assert Lookup(Run(cfg, Front(ops)).users, Last(ops).uid) == Account(cfg, Front(ops), Last(ops).uid);
  }

  lemma RequestVerdict(cfg: Config, ops: seq<Op>)
    requires Legal(cfg, ops) && ops != [] && Last(ops).RequestEmailChange?
    ensures ReplyTo(cfg, ops) ==
      if AddressTaken(cfg, Front(ops), Last(ops).newEmail) then Err(ErrUserExists) else Ok(Last(ops).raw)
  {
    TablesFollowHistory(cfg, Front(ops));
    TakenFollows(cfg, Front(ops), Last(ops).newEmail);
  }

  /** The four replies to a confirmation: accepted for an unspent token of a user
      who still exists, up to an hour after its request. */
  lemma ConfirmVerdict(cfg: Config, ops: seq<Op>)
    requires Legal(cfg, ops) && ops != [] && Last(ops).ConfirmEmailChange?
    ensures var front, op := Front(ops), Last(ops);
      var request := RequestFor(cfg, front, op.presented);
      ReplyTo(cfg, ops) ==
        if request.None? || SpentAt(cfg, front, op.presented).Some? then Err(ErrVerificationTokenInvalid)
        else if op.checkAt > request.value.at + 3_600_000_000_000 then Err(ErrVerificationTokenExpired)
        else if !Member(cfg, front, request.value.uid) then Err(ErrNotFound)
        else Ok("")
  {
    var front, op := Front(ops), Last(ops);
    TablesFollowHistory(cfg, front);
    TokenScan(cfg, front, op.presented, op.token);
    if op.token.Some? {
      assert Lookup(Run(cfg, front).users, op.token.value.userId) == Account(cfg, front, op.token.value.userId);
    }
  }

  // ------------------------------------------------------------ what follows

  /** The table holds exactly the users who signed up and have not left. */
  lemma MembersAreUsers(cfg: Config, ops: seq<Op>, uid: string)
    requires Legal(cfg, ops)
    ensures uid in Run(cfg, ops).users <==> Member(cfg, ops, uid)
  {
    TablesFollowHistory(cfg, ops);
    assert Lookup(Run(cfg, ops).users, uid) == Account(cfg, ops, uid);
  }

  /** A user's stored hash is that of their latest change, or of their signup. */
  lemma PasswordFollowsHistory(cfg: Config, ops: seq<Op>, uid: string)
    requires Legal(cfg, ops) && uid in Run(cfg, ops).users
    ensures Run(cfg, ops).users[uid].passwordHash == Password(cfg, ops, uid)
  {
    TablesFollowHistory(cfg, ops);
    assert Lookup(Run(cfg, ops).users, uid) == Account(cfg, ops, uid);
  }

  lemma LegalFront(cfg: Config, ops: seq<Op>)
    requires ops != [] && Legal(cfg, ops)
    ensures Legal(cfg, Front(ops))
  {
  }

  lemma {:induction false} LegalPrefix(cfg: Config, before: seq<Op>, later: seq<Op>)
    requires Legal(cfg, before + later)
    ensures Legal(cfg, before)
  {
    var ops := before + later;
    if later == [] {
      assert ops == before;
    } else {
      LegalFront(cfg, ops);
      assert Front(ops) == before + Front(later);
      LegalPrefix(cfg, before, Front(later));
    }
  }

  /** An id is drawn once: no later signup takes it. */
  lemma {:induction false} DrawnStays(cfg: Config, before: seq<Op>, later: seq<Op>, uid: string)
    requires Legal(cfg, before + later) && uid in Ids(before)
    ensures uid in Ids(before + later)
    ensures forall i :: 0 <= i < |later| ==> uid !in OpIds(later[i])
  {
    if later == [] {
      assert before + later == before;
    } else {
      assert Front(before + later) == before + Front(later) && Last(before + later) == Last(later);
      DrawnStays(cfg, before, Front(later), uid);
    }
  }

  lemma {:induction false} PasswordStays(cfg: Config, before: seq<Op>, later: seq<Op>, uid: string)
    requires forall i :: 0 <= i < |later| ==> uid !in OpIds(later[i]) && !(later[i].ChangePassword? && later[i].uid == uid)
    ensures Password(cfg, before + later, uid) == Password(cfg, before, uid)
  {
    if later == [] {
      assert before + later == before;
    } else {
      assert Front(before + later) == before + Front(later) && Last(before + later) == Last(later);
      PasswordStays(cfg, before, Front(later), uid);
      assert later[|later| - 1] == Last(later);
    }
  }

  lemma {:induction false} GoneStaysGone(cfg: Config, before: seq<Op>, later: seq<Op>, uid: string)
    requires !Member(cfg, before, uid) && forall i :: 0 <= i < |later| ==> uid !in OpIds(later[i])
    ensures !Member(cfg, before + later, uid)
  {
    if later == [] {
      assert before + later == before;
    } else {
      assert Front(before + later) == before + Front(later) && Last(before + later) == Last(later);
      GoneStaysGone(cfg, before, Front(later), uid);
      assert later[|later| - 1] == Last(later);
      MemberStep(cfg, before + later, uid);
    }
  }

  lemma MemberIsDrawn(cfg: Config, ops: seq<Op>, uid: string)
    requires Legal(cfg, ops) && Member(cfg, ops, uid)
    ensures uid in Ids(ops)
  {
    MembersAreUsers(cfg, ops, uid);
    RunKeepsTables(cfg, ops);
  }

  lemma PasswordInForce(cfg: Config, before: seq<Op>, change: Op, later: seq<Op>)
    requires Legal(cfg, before + [change] + later)
    requires change.ChangePassword? && ReplyTo(cfg, before + [change]).Ok?
    requires forall i :: 0 <= i < |later| ==> !(later[i].ChangePassword? && later[i].uid == change.uid)
    ensures Password(cfg, before + [change] + later, change.uid) == change.hash
  {
    var changed := before + [change];
    assert Front(changed) == before;
    LegalPrefix(cfg, changed, later);
    PasswordVerdict(cfg, changed);
    MemberIsDrawn(cfg, before, change.uid);
    DrawnStays(cfg, changed, later, change.uid);
    PasswordStays(cfg, changed, later, change.uid);
  }

  /** After a successful change, and until the next, a login is judged by the new
      password only. */
  lemma NewPasswordRules(cfg: Config, before: seq<Op>, change: Op, later: seq<Op>, ops: seq<Op>)
    requires ops != [] && Legal(cfg, ops) && Front(ops) == before + [change] + later
    requires change.ChangePassword? && ReplyTo(cfg, before + [change]).Ok?
    requires forall i :: 0 <= i < |later| ==> !(later[i].ChangePassword? && later[i].uid == change.uid)
    requires var login := Last(ops);
      && login.Login? && LetThrough(cfg, ops) && login.user.Some? && login.user.value.id == change.uid
      && !LockedOut(cfg, Wrong(cfg, Front(ops), change.uid), login.checkAt)
    ensures ReplyTo(cfg, ops) ==
      if cfg.compare(change.hash, Last(ops).password) then Ok(Last(ops).raw) else Err(ErrInvalidCredentials)
  {
    PasswordInForce(cfg, before, change, later);
    LoginVerdict(cfg, ops);
  }

  lemma DeletedIsGone(cfg: Config, before: seq<Op>, deletion: Op, later: seq<Op>)
    requires Legal(cfg, before + [deletion] + later)
    requires deletion.DeleteAccount? && ReplyTo(cfg, before + [deletion]).Ok?
    ensures !Member(cfg, before + [deletion] + later, deletion.uid)
  {
    var left := before + [deletion];
    assert Front(left) == before;
    LegalPrefix(cfg, left, later);
    PasswordVerdict(cfg, left);
    MemberIsDrawn(cfg, before, deletion.uid);
    DrawnStays(cfg, left, later, deletion.uid);
    MemberStep(cfg, left, deletion.uid);
    GoneStaysGone(cfg, left, later, deletion.uid);
  }

  /** After a successful deletion nobody logs in as that user again: a login to an
      address that no other user has is refused and opens no session. */
  lemma DeletedCannotLogin(cfg: Config, before: seq<Op>, deletion: Op, later: seq<Op>, ops: seq<Op>)
    requires ops != [] && Legal(cfg, ops) && Front(ops) == before + [deletion] + later
    requires deletion.DeleteAccount? && ReplyTo(cfg, before + [deletion]).Ok? && Last(ops).Login?
    ensures Last(ops).user.Some? ==> Last(ops).user.value.id != deletion.uid
    ensures (forall uid :: uid != deletion.uid && Member(cfg, Front(ops), uid) ==> Address(cfg, Front(ops), uid) != Last(ops).email) ==>
      && ReplyTo(cfg, ops) in {Err(ErrRateLimited), Err(ErrInvalidCredentials)}
      && Run(cfg, ops).sessions == Run(cfg, Front(ops)).sessions
  {
    DeletedIsGone(cfg, before, deletion, later);
    LoginVerdict(cfg, ops);
    if Last(ops).user.None? {
      NobodyNoSession(cfg, Run(cfg, Front(ops)), Last(ops));
    }
  }

  lemma NobodyNoSession(cfg: Config, s: State, op: Op)
    requires op.Login? && op.user.None?
    ensures Step(cfg, s, op).0.sessions == s.sessions
  {
  }
}
