/** Serial runs of the engine over the memory stores, and the table invariants
    every run keeps. */
module EngineRuns {
  import opened Types
  import opened Runs
  import opened SessionRows
  import opened MemoryStores
  import opened Engines

  function OpIds(op: Op): set<string> {
    match op
    case SignUp(_, _, id, _, _) => {id}
    case Login(_, _, _, _, _, id, _, _, _, _, _) => {id}
    case RefreshToken(_, _, id, _, _) => {id}
    case RequestEmailChange(_, _, id, _, _) => {id}
    case _ => {}
  }

  function OpTokens(op: Op): set<string> {
    match op
    case Login(_, _, _, _, _, _, raw, _, _, _, _) => {raw}
    case RefreshToken(_, _, _, raw, _) => {raw}
    case RequestEmailChange(_, _, _, raw, _) => {raw}
    case _ => {}
  }

  /** The first and the last clock reading of a call. */
  function Begins(op: Op): Time {
    match op
    case Login(_, _, _, _, _, _, _, allowAt, _, _, _) => allowAt
    case ConfirmEmailChange(_, _, checkAt, _) => checkAt
    case _ => op.now
  }

  function Ends(op: Op): Time {
    match op
    case Login(_, _, _, _, _, _, _, _, _, _, createAt) => createAt
    case ConfirmEmailChange(_, _, _, usedAt) => usedAt
    case _ => op.now
  }

  predicate ClockOk(op: Op) {
    match op
    case Login(_, _, _, _, _, _, _, allowAt, checkAt, lockAt, createAt) => allowAt <= checkAt <= lockAt <= createAt
    case ConfirmEmailChange(_, _, checkAt, usedAt) => checkAt <= usedAt
    case _ => true
  }

  function Run(cfg: Config, ops: seq<Op>): State {
    if ops == [] then State(map[], map[], map[], [], map[]) else Step(cfg, Run(cfg, Front(ops)), Last(ops)).0
  }

  function Ids(ops: seq<Op>): set<string> {
    if ops == [] then {} else Ids(Front(ops)) + OpIds(Last(ops))
  }

  function Tokens(ops: seq<Op>): set<string> {
    if ops == [] then {} else Tokens(Front(ops)) + OpTokens(Last(ops))
  }

  /** What a serial run may look like: draws are new, scans answer from the maps
      as they stand, and the clock never goes back. */
  predicate Legal(cfg: Config, ops: seq<Op>) {
    ops == [] || (
      && Legal(cfg, Front(ops))
      && OpIds(Last(ops)) !! Ids(Front(ops))
      && OpTokens(Last(ops)) !! Tokens(Front(ops))
      && ScansOk(Run(cfg, Front(ops)), Last(ops))
      && ClockOk(Last(ops))
      && (Front(ops) != [] ==> Ends(Last(Front(ops))) <= Begins(Last(ops))))
  }

  ghost predicate UsersOk(users: Users, ids: set<string>) {
    forall id :: id in users ==> users[id].id == id && id in ids
  }

  ghost predicate VerificationsOk(vs: Verifications, ids: set<string>, tokens: set<string>) {
    && (forall id :: id in vs ==> vs[id].id == id && id in ids && vs[id].tokenHash.raw in tokens && vs[id].purpose == EmailChange)
    && (forall a, b :: a in vs && b in vs && vs[a].tokenHash == vs[b].tokenHash ==> a == b)
  }

  ghost predicate TablesOk(s: State, ids: set<string>, tokens: set<string>) {
    && RowsInv(s.sessions, ids, tokens)
    && UsersOk(s.users, ids)
    && VerificationsOk(s.verifications, ids, tokens)
  }

  /** The rows after a call that goes through. */
  function SessionsAfter(rows: Rows, op: Op): Rows {
    match op
    case Login(_, _, _, _, user, _, _, _, _, _, createAt) =>
      if user.None? then rows else CreateIn(Memory, {}, rows, NewSession(op, user.value.id), createAt).0
    case RefreshToken(_, session, id, raw, now) => RotateFrom(Memory, {}, rows, session, id, raw, now).0
    case Logout(sid, uid, now) => RevokeOwned(Memory, rows, sid, uid, now).0
    case RevokeSession(sid, uid, now) => RevokeOwned(Memory, rows, sid, uid, now).0
    case LogoutAll(uid, now) => RevokeScope(rows, OfUser(uid), now)
    case ChangePassword(uid, _, _, now) => RevokeScope(rows, OfUser(uid), now)
    case DeleteAccount(uid, _, now) => RevokeScope(rows, OfUser(uid), now)
    case _ => rows
  }

  lemma LoginSessionEffect(cfg: Config, s: State, op: Op)
    requires op.Login?
    ensures var rows' := Step(cfg, s, op).0.sessions; rows' == s.sessions || rows' == SessionsAfter(s.sessions, op)
  {
    var s0 := LoginOutcomes(cfg, s, op);
  }

  lemma OtherSessionEffect(cfg: Config, s: State, op: Op)
    requires !op.Login?
    ensures var rows' := Step(cfg, s, op).0.sessions; rows' == s.sessions || rows' == SessionsAfter(s.sessions, op)
  {
  }

  lemma SessionEffect(cfg: Config, s: State, op: Op)
    ensures var rows' := Step(cfg, s, op).0.sessions; rows' == s.sessions || rows' == SessionsAfter(s.sessions, op)
  {
    if op.Login? {
      LoginSessionEffect(cfg, s, op);
    } else {
      OtherSessionEffect(cfg, s, op);
    }
  }

  lemma RevocationsKeep(rows: Rows, op: Op, ids: set<string>, tokens: set<string>)
    requires RowsInv(rows, ids, tokens) && !op.Login? && !op.RefreshToken?
    ensures RowsInv(SessionsAfter(rows, op), ids, tokens)
  {
    match op
    case Logout(sid, _, now) => RevokeKeeps(Memory, rows, ids, tokens, sid, now);
    case RevokeSession(sid, _, now) => RevokeKeeps(Memory, rows, ids, tokens, sid, now);
    case LogoutAll(uid, now) => RevokeScopeKeeps(rows, ids, tokens, OfUser(uid), now);
    case ChangePassword(uid, _, _, now) => RevokeScopeKeeps(rows, ids, tokens, OfUser(uid), now);
    case DeleteAccount(uid, _, now) => RevokeScopeKeeps(rows, ids, tokens, OfUser(uid), now);
    case _ =>
  }

  lemma SessionsAfterKeeps(rows: Rows, op: Op, ids: set<string>, tokens: set<string>)
    requires RowsInv(rows, ids, tokens)
    requires op.RefreshToken? ==> IsLookup(rows, HashToken(op.presented), op.session)
    requires OpIds(op) !! ids && OpTokens(op) !! tokens
    ensures RowsInv(SessionsAfter(rows, op), ids + OpIds(op), tokens + OpTokens(op))
  {
    match op
    case Login(_, _, _, _, user, _, _, _, _, _, createAt) =>
      if user.Some? {
        CreateKeeps(rows, ids, tokens, NewSession(op, user.value.id).(createdAt := createAt));
      }
    case RefreshToken(_, session, id, raw, now) =>
      RotateFromKeeps(Memory, {}, rows, ids, tokens, session, id, raw, now);
    case _ =>
      RevocationsKeep(rows, op, ids, tokens);
      RowsInvGrows(SessionsAfter(rows, op), ids, tokens, OpIds(op), OpTokens(op));
  }

  lemma RowsInvGrows(rows: Rows, ids: set<string>, tokens: set<string>, moreIds: set<string>, moreTokens: set<string>)
    requires RowsInv(rows, ids, tokens)
    ensures RowsInv(rows, ids + moreIds, tokens + moreTokens)
  {
  }

  lemma StepKeepsSessions(cfg: Config, s: State, op: Op, ids: set<string>, tokens: set<string>)
    requires RowsInv(s.sessions, ids, tokens) && ScansOk(s, op)
    requires OpIds(op) !! ids && OpTokens(op) !! tokens
    ensures RowsInv(Step(cfg, s, op).0.sessions, ids + OpIds(op), tokens + OpTokens(op))
  {
    SessionEffect(cfg, s, op);
    SessionsAfterKeeps(s.sessions, op, ids, tokens);
  }

  /** The four ways a login can leave the state. */
  lemma LoginOutcomes(cfg: Config, s: State, op: Op) returns (s0: State)
    requires op.Login?
    ensures s0 == s.(counters := s0.counters)
    ensures var s' := Step(cfg, s, op).0;
      || s' == s0
      || s' == s0.(audit := s.audit + [FailedLogin("", op.ip, "no_such_user")])
      || (op.user.Some? && s' == FailLogin(cfg, s0, op.user.value.id, op.ip, op.lockAt))
      || (op.user.Some? && s' == PassLogin(s0, op.user.value.id, op))
  {
    s0 := s.(counters := DoLogin(cfg, s, op).0.counters);
  }

  lemma LoginKeepsUsers(cfg: Config, s: State, op: Op, ids: set<string>)
    requires UsersOk(s.users, ids) && op.Login?
    ensures UsersOk(Step(cfg, s, op).0.users, ids + OpIds(op))
  {
    var s0 := LoginOutcomes(cfg, s, op);
  }

  /** A call that is no login appends at most one event, of a kind that counts for
      no streak and no lock; only `RefreshToken` records a rotation. */
  lemma OtherEvents(cfg: Config, s: State, op: Op)
    requires !op.Login?
    ensures var audit := Step(cfg, s, op).0.audit;
      || audit == s.audit
      || (audit == s.audit + [Last(audit)]
          && Last(audit).kind !in {LoginFailed, LoginSuccess, AccountLocked}
          && (Last(audit).kind == TokenRotated ==> op.RefreshToken?))
  {
  }

  lemma OthersKeepUsers(cfg: Config, s: State, op: Op, ids: set<string>)
    requires UsersOk(s.users, ids) && !op.Login?
    ensures UsersOk(Step(cfg, s, op).0.users, ids + OpIds(op))
  {
  }

  lemma StepKeepsUsers(cfg: Config, s: State, op: Op, ids: set<string>)
    requires UsersOk(s.users, ids)
    ensures UsersOk(Step(cfg, s, op).0.users, ids + OpIds(op))
  {
    if op.Login? {
      LoginKeepsUsers(cfg, s, op, ids);
    } else {
      OthersKeepUsers(cfg, s, op, ids);
    }
  }

  /** The confirmation of an email change that goes through. */
  predicate Applies(cfg: Config, s: State, op: Op) {
    op.ConfirmEmailChange? && Step(cfg, s, op).1.Ok? && op.token.Some?
  }

  /** What a step does to the tokens: adds the one of an accepted request, or marks
      the one of an applied change. */
  lemma TokenEffect(cfg: Config, s: State, op: Op)
    requires ScansOk(s, op)
    requires forall id :: id in s.verifications ==> s.verifications[id].id == id
    ensures var s' := Step(cfg, s, op).0;
      if op.RequestEmailChange? && Step(cfg, s, op).1.Ok? then
        s'.verifications == s.verifications[op.id := VerificationToken(op.id, op.uid, EmailChange, HashToken(op.raw), op.newEmail, op.now + TTL, None)]
      else if Applies(cfg, s, op) then
        && op.token.value.id in s.verifications && s.verifications[op.token.value.id] == op.token.value
        && op.token.value.usedAt.None? && op.checkAt <= op.token.value.expiresAt
        && s'.verifications == s.verifications[op.token.value.id := op.token.value.(usedAt := Some(op.usedAt))]
      else s'.verifications == s.verifications
  {
  }

  lemma StepKeepsVerifications(cfg: Config, s: State, op: Op, ids: set<string>, tokens: set<string>)
    requires VerificationsOk(s.verifications, ids, tokens) && ScansOk(s, op)
    requires OpIds(op) !! ids && OpTokens(op) !! tokens
    ensures VerificationsOk(Step(cfg, s, op).0.verifications, ids + OpIds(op), tokens + OpTokens(op))
  {
    TokenEffect(cfg, s, op);
  }

  /** Every serial run keeps the tables in order: in particular token hashes stay
      unique and a family never has two live sessions. */
  lemma {:induction false} RunKeepsTables(cfg: Config, ops: seq<Op>)
    requires Legal(cfg, ops)
    ensures TablesOk(Run(cfg, ops), Ids(ops), Tokens(ops))
  {
    if ops != [] {
      var s, op, ids, tokens := Run(cfg, Front(ops)), Last(ops), Ids(Front(ops)), Tokens(Front(ops));
      RunKeepsTables(cfg, Front(ops));
      StepKeepsSessions(cfg, s, op, ids, tokens);
      StepKeepsUsers(cfg, s, op, ids);
      StepKeepsVerifications(cfg, s, op, ids, tokens);
    }
  }

  /** `GetByTokenHash` does not depend on the order in which the map is visited:
      in every reachable state at most one row can answer. */
  lemma ScanOrderDoesNotMatter(cfg: Config, ops: seq<Op>, h: Digest, a: Option<Session>, b: Option<Session>)
    requires Legal(cfg, ops)
    requires IsLookup(Run(cfg, ops).sessions, h, a) && IsLookup(Run(cfg, ops).sessions, h, b)
    ensures a == b
  {
    RunKeepsTables(cfg, ops);
    LookupIsUnique(Run(cfg, ops).sessions, h, a, b);
  }
}
