/** The whole engine over the memory stores refines the family machine: its
    session table is the one a serial session run leaves, account deletion
    included, so `RefreshToken` answers as the machine says. */
module EngineRefinement {
  import opened Types
  import opened Runs
  import opened SessionRows
  import opened Engines
  import opened EngineRuns
  import S = SerialSessions
  import Families

  /** The session call an engine call amounts to, if it reaches the sessions. */
  function Project(cfg: Config, s: State, op: Op): seq<S.Op> {
    var ok := Step(cfg, s, op).1.Ok?;
    match op
    case SignUp(_, _, id, hash, _) => if ok then [S.SignUp(id, hash)] else []
    case Login(_, _, ip, userAgent, user, id, raw, _, _, _, createAt) =>
      if ok && user.Some? then [S.Login(user.value.id, true, ip, userAgent, id, raw, createAt)] else []
    case RefreshToken(presented, _, id, raw, now) => [S.Rotate(presented, id, raw, now)]
    case Logout(sid, uid, now) => [S.Revoke(sid, uid, now)]
    case RevokeSession(sid, uid, now) => [S.Revoke(sid, uid, now)]
    case LogoutAll(uid, now) => [S.LogoutAll(uid, now)]
    case ChangePassword(uid, _, hash, now) => if ok then [S.ChangePassword(uid, true, hash, now)] else []
    case DeleteAccount(uid, _, now) => if ok then [S.LogoutAll(uid, now)] else []
    case _ => []
  }

  function ProjectRun(cfg: Config, ops: seq<Op>): seq<S.Op> {
    if ops == [] then [] else ProjectRun(cfg, Front(ops)) + Project(cfg, Run(cfg, Front(ops)), Last(ops))
  }

  /** The same rows; the session run may still know deleted users. */
  ghost predicate Projects(s: State, db: S.Db) {
    s.sessions == db.rows && s.users.Keys <= db.users.Keys
  }

  lemma RefreshProjects(cfg: Config, s: State, op: Op, db: S.Db)
    requires op.RefreshToken? && s.sessions == db.rows && ScansOk(s, op) && UniqueHashes(s.sessions)
    ensures Step(cfg, s, op).0.sessions == S.Step(Memory, db, Project(cfg, s, op)[0]).0.rows
  {
    LookupIsUnique(s.sessions, HashToken(op.presented), op.session, Find(s.sessions, HashToken(op.presented)));
  }

  lemma LoginProjects(cfg: Config, s: State, op: Op, db: S.Db)
    requires op.Login? && Projects(s, db) && ScansOk(s, op)
    requires forall id :: id in s.users ==> s.users[id].id == id
    ensures Step(cfg, s, op).0.sessions ==
      if Project(cfg, s, op) == [] then s.sessions else S.Step(Memory, db, Project(cfg, s, op)[0]).0.rows
  {
  }

  lemma OthersProject(cfg: Config, s: State, op: Op, db: S.Db)
    requires !op.Login? && !op.RefreshToken? && Projects(s, db)
    requires op.SignUp? ==> op.id !in db.users
    ensures Step(cfg, s, op).0.sessions ==
      if Project(cfg, s, op) == [] then s.sessions else S.Step(Memory, db, Project(cfg, s, op)[0]).0.rows
  {
  }

  lemma UsersProject(cfg: Config, s: State, op: Op, db: S.Db)
    requires s.users.Keys <= db.users.Keys
    requires op.SignUp? ==> op.id !in db.users
    ensures Step(cfg, s, op).0.users.Keys <=
      if Project(cfg, s, op) == [] then db.users.Keys else S.Step(Memory, db, Project(cfg, s, op)[0]).0.users.Keys
  {
  }

  lemma StepProjects(cfg: Config, s: State, op: Op, db: S.Db)
    requires Projects(s, db) && ScansOk(s, op) && UniqueHashes(s.sessions)
    requires forall id :: id in s.users ==> s.users[id].id == id
    requires op.SignUp? ==> op.id !in db.users
    ensures var call := Project(cfg, s, op);
      Projects(Step(cfg, s, op).0, if call == [] then db else S.Step(Memory, db, call[0]).0)
  {
    UsersProject(cfg, s, op, db);
    if op.RefreshToken? {
      RefreshProjects(cfg, s, op, db);
    } else if op.Login? {
      LoginProjects(cfg, s, op, db);
    } else {
      OthersProject(cfg, s, op, db);
    }
  }

  lemma ProjectedDraws(cfg: Config, s: State, op: Op)
    ensures forall c :: c in Project(cfg, s, op) ==> S.OpIds(c) <= OpIds(op) && S.OpTokens(c) <= OpTokens(op)
    ensures |Project(cfg, s, op)| <= 1
  {
  }

  ghost predicate RunProjected(cfg: Config, ops: seq<Op>) {
    var calls := ProjectRun(cfg, ops);
    && S.FreshRun(calls)
    && S.Ids(calls) <= Ids(ops) && S.Tokens(calls) <= Tokens(ops)
    && S.Run(Memory, calls).users.Keys <= Ids(ops)
    && Projects(Run(cfg, ops), S.Run(Memory, calls))
  }

  lemma AppendCall(calls: seq<S.Op>, c: S.Op)
    requires S.FreshRun(calls) && S.OpIds(c) !! S.Ids(calls) && S.OpTokens(c) !! S.Tokens(calls)
    ensures S.FreshRun(calls + [c])
    ensures S.Ids(calls + [c]) == S.Ids(calls) + S.OpIds(c) && S.Tokens(calls + [c]) == S.Tokens(calls) + S.OpTokens(c)
    ensures S.Run(Memory, calls + [c]) == S.Step(Memory, S.Run(Memory, calls), c).0
  {
    assert Front(calls + [c]) == calls;
  }

  lemma NewUsersAreDrawn(db: S.Db, c: S.Op)
    ensures S.Step(Memory, db, c).0.users.Keys <= db.users.Keys + S.OpIds(c)
  {
  }

  /** Every serial run of the engine leaves the session table of the serial run of
      its session calls. */
  lemma {:induction false} EngineRunsProject(cfg: Config, ops: seq<Op>)
    requires Legal(cfg, ops)
    ensures RunProjected(cfg, ops)
  {
    if ops != [] {
      var s, op, calls := Run(cfg, Front(ops)), Last(ops), ProjectRun(cfg, Front(ops));
      EngineRunsProject(cfg, Front(ops));
      RunKeepsTables(cfg, Front(ops));
      StepProjects(cfg, s, op, S.Run(Memory, calls));
      ProjectedDraws(cfg, s, op);
      var call := Project(cfg, s, op);
      if call == [] {
        assert ProjectRun(cfg, ops) == calls;
      } else {
        assert call == [call[0]];
        AppendCall(calls, call[0]);
        NewUsersAreDrawn(S.Run(Memory, calls), call[0]);
      }
    }
  }

  /** The refresh token a call hands out in its reply. */
  function TokensIn(op: Op, reply: Reply): set<string> {
    if (op.Login? || op.RefreshToken?) && reply.Ok? then {reply.value} else {}
  }

  /** The refresh tokens the engine has handed out in its own replies. */
  function Issued(cfg: Config, ops: seq<Op>): set<string> {
    if ops == [] then {}
    else Issued(cfg, Front(ops)) + TokensIn(Last(ops), Step(cfg, Run(cfg, Front(ops)), Last(ops)).1)
  }

  lemma LoginHandsOut(cfg: Config, s: State, op: Op, db: S.Db)
    requires op.Login? && Projects(s, db) && ScansOk(s, op)
    requires forall id :: id in s.users ==> s.users[id].id == id
    ensures TokensIn(op, Step(cfg, s, op).1) ==
      if Project(cfg, s, op) == [] then {} else Families.TokensIn(S.Step(Memory, db, Project(cfg, s, op)[0]).1)
  {
  }

  lemma RefreshHandsOut(cfg: Config, s: State, op: Op, db: S.Db)
    requires op.RefreshToken? && s.sessions == db.rows && ScansOk(s, op) && UniqueHashes(s.sessions)
    ensures TokensIn(op, Step(cfg, s, op).1) == Families.TokensIn(S.Step(Memory, db, Project(cfg, s, op)[0]).1)
  {
    LookupIsUnique(s.sessions, HashToken(op.presented), op.session, Find(s.sessions, HashToken(op.presented)));
    SameRotation(cfg, s, op, db);
  }

  lemma StepHandsOut(cfg: Config, s: State, op: Op, db: S.Db)
    requires Projects(s, db) && ScansOk(s, op) && UniqueHashes(s.sessions)
    requires forall id :: id in s.users ==> s.users[id].id == id
    ensures var call := Project(cfg, s, op);
      TokensIn(op, Step(cfg, s, op).1) == if call == [] then {} else Families.TokensIn(S.Step(Memory, db, call[0]).1)
  {
    if op.Login? {
      LoginHandsOut(cfg, s, op, db);
    } else if op.RefreshToken? {
      RefreshHandsOut(cfg, s, op, db);
    }
  }

  lemma IssuedAppend(calls: seq<S.Op>, c: S.Op)
    ensures Families.Issued(Memory, calls + [c]) ==
      Families.Issued(Memory, calls) + Families.TokensIn(S.Step(Memory, S.Run(Memory, calls), c).1)
  {
    assert Front(calls + [c]) == calls;
  }

  /** The tokens in the engine's replies are those the session run hands out. */
  lemma {:induction false} IssuedIsProjected(cfg: Config, ops: seq<Op>)
    requires Legal(cfg, ops)
    ensures Issued(cfg, ops) == Families.Issued(Memory, ProjectRun(cfg, ops))
  {
    if ops != [] {
      var front, op := Front(ops), Last(ops);
      var s, calls := Run(cfg, front), ProjectRun(cfg, front);
      IssuedIsProjected(cfg, front);
      EngineRunsProject(cfg, front);
      RunKeepsTables(cfg, front);
      StepHandsOut(cfg, s, op, S.Run(Memory, calls));
      ProjectedDraws(cfg, s, op);
      var call := Project(cfg, s, op);
      if call == [] {
        assert ProjectRun(cfg, ops) == calls;
      } else {
        assert call == [call[0]];
        IssuedAppend(calls, call[0]);
      }
    }
  }

  /** `RefreshToken` after any serial run of the engine: a new pair exactly on the
      current token of a live family, "reused" exactly on any other token the
      engine ever handed out, "invalid" exactly on a token it never did. */
  lemma RefreshVerdict(cfg: Config, ops: seq<Op>, op: Op)
    requires Legal(cfg, ops + [op]) && op.RefreshToken?
    ensures var reply := Step(cfg, Run(cfg, ops), op).1;
      var current := Families.IsCurrent(Families.MachineRun(ProjectRun(cfg, ops)), op.presented);
      var issued := op.presented in Issued(cfg, ops);
      && (reply.Ok? <==> current)
      && (reply == Err(ErrTokenReused) <==> issued && !current)
      && (reply == Err(ErrInvalidToken) <==> !issued)
  {
    var c := S.Rotate(op.presented, op.id, op.raw, op.now);
    LegalSplit(cfg, ops, op);
    RefreshIsFresh(cfg, ops, op);
    SameRows(cfg, ops);
    ScanIsLookup(cfg, ops, op);
    IssuedIsProjected(cfg, ops);
    Families.RotateVerdict(Memory, ProjectRun(cfg, ops), c);
    SameRotation(cfg, Run(cfg, ops), op, S.Run(Memory, ProjectRun(cfg, ops)));
  }

  lemma SameRows(cfg: Config, ops: seq<Op>)
    requires Legal(cfg, ops)
    ensures Run(cfg, ops).sessions == S.Run(Memory, ProjectRun(cfg, ops)).rows
  {
    EngineRunsProject(cfg, ops);
  }

  lemma RefreshIsFresh(cfg: Config, ops: seq<Op>, op: Op)
    requires Legal(cfg, ops) && op.RefreshToken?
    requires OpIds(op) !! Ids(ops) && OpTokens(op) !! Tokens(ops)
    ensures S.FreshRun(ProjectRun(cfg, ops) + [S.Rotate(op.presented, op.id, op.raw, op.now)])
  {
    EngineRunsProject(cfg, ops);
    ProjectionExtends(cfg, ops, S.Rotate(op.presented, op.id, op.raw, op.now));
  }

  lemma ProjectionExtends(cfg: Config, ops: seq<Op>, c: S.Op)
    requires RunProjected(cfg, ops)
    requires S.OpIds(c) !! Ids(ops) && S.OpTokens(c) !! Tokens(ops)
    ensures S.FreshRun(ProjectRun(cfg, ops) + [c])
  {
    AppendCall(ProjectRun(cfg, ops), c);
  }

  lemma LegalSplit(cfg: Config, ops: seq<Op>, op: Op)
    requires Legal(cfg, ops + [op])
    ensures Legal(cfg, ops) && ScansOk(Run(cfg, ops), op)
    ensures OpIds(op) !! Ids(ops) && OpTokens(op) !! Tokens(ops)
  {
    assert Front(ops + [op]) == ops && Last(ops + [op]) == op;
  }

  lemma ScanIsLookup(cfg: Config, ops: seq<Op>, op: Op)
    requires Legal(cfg, ops) && op.RefreshToken? && ScansOk(Run(cfg, ops), op)
    ensures op.session == Find(Run(cfg, ops).sessions, HashToken(op.presented))
  {
    var rows := Run(cfg, ops).sessions;
    RunKeepsTables(cfg, ops);
    LookupIsUnique(rows, HashToken(op.presented), op.session, Find(rows, HashToken(op.presented)));
  }

  lemma SameRotation(cfg: Config, s: State, op: Op, db: S.Db)
    requires op.RefreshToken? && s.sessions == db.rows && op.session == Find(db.rows, HashToken(op.presented))
    ensures var r := S.Step(Memory, db, S.Rotate(op.presented, op.id, op.raw, op.now)).1.result;
      Step(cfg, s, op).1 == match r
        case Rotated(_, raw) => Ok(raw)
        case Reused(_) => Err(ErrTokenReused)
        case Invalid => Err(ErrInvalidToken)
        case StoreFailed(e) => Err(e)
  {
  }
}
