/** The two session stores driven by the same calls, account deletion included:
    the memory store is the Postgres store plus the revoked rows of deleted users. */
module Backends {
  import opened Types
  import opened Runs
  import opened SessionRows
  import opened SerialSessions

  // ------------------------------------------------- one call, no deletion

  /** The same rows, live in the same places; only revocation times may differ. */
  ghost predicate SameUpToTimes(m: Db, p: Db) {
    && m.users == p.users
    && m.rows.Keys == p.rows.Keys
    && (forall id :: id in m.rows ==> SameRow(m.rows[id], p.rows[id]) && (Live(m.rows[id]) <==> Live(p.rows[id])))
  }

  /** Equal results; a reported old row may differ in its revocation time. */
  predicate SameResult(m: Res, p: Res) {
    if m.Refreshed? && p.Refreshed? && m.result.Reused? && p.result.Reused?
    then SameRow(m.result.existing, p.result.existing)
    else m == p
  }

  /** Logging out, or revoking, an owned session that is already revoked. */
  predicate RevokesRevoked(db: Db, op: Op) {
    op.Revoke? && op.sid in db.rows && db.rows[op.sid].userId == op.uid && !Live(db.rows[op.sid])
  }

  lemma FindSimulates(m: Rows, p: Rows, h: Digest)
    requires UniqueHashes(m) && UniqueHashes(p) && m.Keys == p.Keys
    requires forall id :: id in m ==> SameRow(m[id], p[id]) && (Live(m[id]) <==> Live(p[id]))
    ensures Find(m, h).Some? <==> Find(p, h).Some?
    ensures Find(m, h).Some? ==> SameRow(Find(m, h).value, Find(p, h).value) && (Live(Find(m, h).value) <==> Live(Find(p, h).value))
  {
    if Find(m, h).Some? {
      var id :| id in m && m[id] == Find(m, h).value;
      assert SameRow(m[id], p[id]);
      FindByRow(p, id);
    }
  }

  lemma RotateSimulates(m: Db, p: Db, op: Op)
    requires op.Rotate? && SameUpToTimes(m, p)
    requires UniqueHashes(m.rows) && UniqueHashes(p.rows)
    requires forall id :: id in m.rows ==> m.rows[id].id == id
    requires !Step(Memory, m, op).1.result.StoreFailed? && !Step(Postgres, p, op).1.result.StoreFailed?
    ensures SameUpToTimes(Step(Memory, m, op).0, Step(Postgres, p, op).0)
    ensures SameResult(Step(Memory, m, op).1, Step(Postgres, p, op).1)
  {
    FindSimulates(m.rows, p.rows, HashToken(op.presented));
  }

  lemma LoginSimulates(m: Db, p: Db, op: Op)
    requires op.Login? && SameUpToTimes(m, p)
    requires op.id !in p.rows && forall id :: id in p.rows ==> p.rows[id].tokenHash.raw != op.raw
    ensures SameUpToTimes(Step(Memory, m, op).0, Step(Postgres, p, op).0)
    ensures SameResult(Step(Memory, m, op).1, Step(Postgres, p, op).1)
  {
    assert op.uid in p.users ==> Insertable(p.users.Keys, p.rows, LoginRow(op));
  }

  lemma OthersSimulate(m: Db, p: Db, op: Op)
    requires !op.Login? && !op.Rotate? && SameUpToTimes(m, p)
    ensures SameUpToTimes(Step(Memory, m, op).0, Step(Postgres, p, op).0)
  {
  }

  lemma OthersAnswerAlike(m: Db, p: Db, op: Op)
    requires !op.Login? && !op.Rotate? && SameUpToTimes(m, p)
    ensures SameResult(Step(Memory, m, op).1, Step(Postgres, p, op).1) <==> !RevokesRevoked(p, op)
    ensures RevokesRevoked(p, op) ==> Step(Memory, m, op).1 == Done && Step(Postgres, p, op).1 == Failed(ErrNotFound)
  {
  }

  lemma StepSimulates(m: Db, p: Db, op: Op, ids: set<string>, tokens: set<string>)
    requires DbInv(m, ids, tokens) && DbInv(p, ids, tokens) && SameUpToTimes(m, p)
    requires OpIds(op) !! ids && OpTokens(op) !! tokens
    ensures SameUpToTimes(Step(Memory, m, op).0, Step(Postgres, p, op).0)
    ensures SameResult(Step(Memory, m, op).1, Step(Postgres, p, op).1) <==> !RevokesRevoked(p, op)
    ensures RevokesRevoked(p, op) ==> Step(Memory, m, op).1 == Done && Step(Postgres, p, op).1 == Failed(ErrNotFound)
  {
    match op
    case Rotate(_, _, _, _) =>
      SerialRotateNeverFails(Memory, m, op, ids, tokens);
      SerialRotateNeverFails(Postgres, p, op, ids, tokens);
      RotateSimulates(m, p, op);
    case Login(_, _, _, _, _, _, _) =>
      LoginSimulates(m, p, op);
    case _ =>
      OthersSimulate(m, p, op);
      OthersAnswerAlike(m, p, op);
  }

  // --------------------------------------------------------- with deletion

  datatype Call =
    | OnSessions(op: Op)
    | DeleteAccount(uid: string, ok: bool, now: Time)

  /** The memory store keeps the user's rows, all revoked; Postgres drops them. */
  function Deleted(b: Backend, db: Db, uid: string, now: Time): Db {
    match b
    case Memory => Db(db.users - {uid}, RevokeScope(db.rows, OfUser(uid), now))
    case Postgres => Cascade(db.(rows := RevokeScope(db.rows, OfUser(uid), now)), uid)
  }

  ghost function Do(b: Backend, db: Db, c: Call): (Db, Res) {
    match c
    case OnSessions(op) => Step(b, db, op)
    case DeleteAccount(uid, ok, now) =>
      if uid !in db.users then (db, Failed(ErrNotFound))
      else if !ok then (db, Failed(ErrInvalidCredentials))
      else (Deleted(b, db, uid, now), Done)
  }

  ghost function After(b: Backend, calls: seq<Call>): Db {
    if calls == [] then Db(map[], map[]) else Do(b, After(b, Front(calls)), Last(calls)).0
  }

  /** The answer the last call of the run gets. */
  ghost function Answer(b: Backend, calls: seq<Call>): Res
    requires calls != []
  {
    Do(b, After(b, Front(calls)), Last(calls)).1
  }

  function CallIds(c: Call): set<string> {
    if c.OnSessions? then OpIds(c.op) else {}
  }

  function CallTokens(c: Call): set<string> {
    if c.OnSessions? then OpTokens(c.op) else {}
  }

  function DrawnIds(calls: seq<Call>): set<string> {
    if calls == [] then {} else DrawnIds(Front(calls)) + CallIds(Last(calls))
  }

  function DrawnTokens(calls: seq<Call>): set<string> {
    if calls == [] then {} else DrawnTokens(Front(calls)) + CallTokens(Last(calls))
  }

  predicate FreshCalls(calls: seq<Call>) {
    calls == [] || (
      && FreshCalls(Front(calls))
      && CallIds(Last(calls)) !! DrawnIds(Front(calls))
      && CallTokens(Last(calls)) !! DrawnTokens(Front(calls)))
  }

  function OwnedIn(rows: Rows, users: set<string>): Rows {
    map id | id in rows && rows[id].userId in users :: rows[id]
  }

  /** The rows whose user still exists. */
  function Living(db: Db): Db {
    db.(rows := OwnedIn(db.rows, db.users.Keys))
  }

  /** A row of a deleted user. */
  predicate Orphan(db: Db, s: Session) {
    s.userId !in db.users
  }

  /** The call names a row of a deleted user, by its token or its id. */
  ghost predicate NamesOrphan(m: Db, c: Call) {
    c.OnSessions? &&
    match c.op
    case Rotate(presented, _, _, _) =>
      var found := Find(m.rows, HashToken(presented)); found.Some? && Orphan(m, found.value)
    case Revoke(sid, _, _) => sid in m.rows && Orphan(m, m.rows[sid])
    case _ => false
  }

  ghost predicate NamesRevoked(p: Db, c: Call) {
    c.OnSessions? && RevokesRevoked(p, c.op)
  }

  /** What every run over the memory store keeps: the rows of deleted users are
      revoked, and no deleted user comes back. */
  ghost predicate MemoryOk(m: Db, ids: set<string>, tokens: set<string>) {
    && RowsInv(m.rows, ids, tokens)
    && m.users.Keys <= ids
    && OrphansDead(m.rows, m.users.Keys, ids)
  }

  ghost predicate OrphansDead(rows: Rows, users: set<string>, ids: set<string>) {
    forall id :: id in rows ==> rows[id].userId in ids && (rows[id].userId in users || !Live(rows[id]))
  }

  lemma LivingIsOk(m: Db, ids: set<string>, tokens: set<string>)
    requires MemoryOk(m, ids, tokens)
    ensures DbInv(Living(m), ids, tokens)
  {
  }

  lemma DoKeepsRows(m: Db, c: Call, ids: set<string>, tokens: set<string>)
    requires RowsInv(m.rows, ids, tokens) && CallIds(c) !! ids && CallTokens(c) !! tokens
    ensures RowsInv(Do(Memory, m, c).0.rows, ids + CallIds(c), tokens + CallTokens(c))
  {
    match c
    case OnSessions(op) => StepKeepsRows(Memory, m, op, ids, tokens);
    case DeleteAccount(uid, _, now) => RevokeScopeKeeps(m.rows, ids, tokens, OfUser(uid), now);
  }

  lemma ScopeKeepsDead(rows: Rows, users: set<string>, ids: set<string>, scope: Scope, now: Time)
    requires OrphansDead(rows, users, ids)
    ensures OrphansDead(RevokeScope(rows, scope, now), users, ids)
    ensures scope.OfUser? ==> OrphansDead(RevokeScope(rows, scope, now), users - {scope.userId}, ids)
  {
  }

  lemma UpdateKeepsDead(rows: Rows, users: set<string>, ids: set<string>, id: string, s: Session)
    requires OrphansDead(rows, users, ids) && s.userId in ids && (s.userId in users || !Live(s))
    ensures OrphansDead(rows[id := s], users, ids)
  {
  }

  lemma RotateKeepsDead(rows: Rows, users: set<string>, ids: set<string>, found: Option<Session>, id: string, raw: string, now: Time)
    requires OrphansDead(rows, users, ids)
    requires found.Some? ==> found.value.id in rows && rows[found.value.id] == found.value
    ensures OrphansDead(RotateFrom(Memory, users, rows, found, id, raw, now).0, users, ids)
  {
    if found.Some? {
      var s := found.value;
      if Live(s) {
        var revoked := s.(revokedAt := Some(now));
        UpdateKeepsDead(rows, users, ids, s.id, revoked);
        UpdateKeepsDead(rows[s.id := revoked], users, ids, id, Successor(s, id, raw).(createdAt := now));
      } else {
        ScopeKeepsDead(rows, users, ids, OfFamily(s.familyId), now);
      }
    }
  }

  lemma StepKeepsDead(m: Db, op: Op, ids: set<string>, tokens: set<string>)
    requires MemoryOk(m, ids, tokens) && OpIds(op) !! ids && OpTokens(op) !! tokens
    ensures var m' := Step(Memory, m, op).0; OrphansDead(m'.rows, m'.users.Keys, ids + OpIds(op))
    ensures Step(Memory, m, op).0.users.Keys <= ids + OpIds(op)
  {
    var users := m.users.Keys;
    match op
    case SignUp(uid, hash) =>
    case Login(uid, ok, _, _, id, _, now) =>
      if uid in m.users && ok {
        UpdateKeepsDead(m.rows, users, ids, id, LoginRow(op).(createdAt := now));
      }
    case Rotate(presented, id, raw, now) =>
      RotateKeepsDead(m.rows, users, ids, Find(m.rows, HashToken(presented)), id, raw, now);
    case Revoke(sid, uid, now) =>
      if sid in m.rows {
        UpdateKeepsDead(m.rows, users, ids, sid, m.rows[sid].(revokedAt := Some(now)));
      }
    case LogoutAll(uid, now) =>
      ScopeKeepsDead(m.rows, users, ids, OfUser(uid), now);
    case ChangePassword(uid, ok, hash, now) =>
      ScopeKeepsDead(m.rows, users, ids, OfUser(uid), now);
      if uid in m.users {
        assert m.users[uid := hash].Keys == users;
      }
  }

  lemma DoKeeps(m: Db, c: Call, ids: set<string>, tokens: set<string>)
    requires MemoryOk(m, ids, tokens) && CallIds(c) !! ids && CallTokens(c) !! tokens
    ensures MemoryOk(Do(Memory, m, c).0, ids + CallIds(c), tokens + CallTokens(c))
  {
    DoKeepsRows(m, c, ids, tokens);
    match c
    case OnSessions(op) =>
      StepKeepsDead(m, op, ids, tokens);
    case DeleteAccount(uid, ok, now) =>
      ScopeKeepsDead(m.rows, m.users.Keys, ids, OfUser(uid), now);
      assert (m.users - {uid}).Keys == m.users.Keys - {uid};
  }

  lemma OwnedScope(rows: Rows, users: set<string>, scope: Scope, now: Time)
    ensures OwnedIn(RevokeScope(rows, scope, now), users) == RevokeScope(OwnedIn(rows, users), scope, now)
  {
    assert OwnedIn(RevokeScope(rows, scope, now), users).Keys == RevokeScope(OwnedIn(rows, users), scope, now).Keys;
  }

  lemma OwnedUpdate(rows: Rows, users: set<string>, id: string, s: Session)
    requires s.userId in users
    ensures OwnedIn(rows[id := s], users) == OwnedIn(rows, users)[id := s]
  {
    assert OwnedIn(rows[id := s], users).Keys == OwnedIn(rows, users)[id := s].Keys;
  }

  lemma OwnedFind(rows: Rows, users: set<string>, h: Digest)
    requires UniqueHashes(rows) && (Find(rows, h).Some? ==> Find(rows, h).value.userId in users)
    ensures Find(OwnedIn(rows, users), h) == Find(rows, h)
  {
    var found := Find(rows, h);
    if found.Some? {
      var id :| id in rows && rows[id] == found.value;
      assert id in OwnedIn(rows, users);
    }
    LookupIsUnique(OwnedIn(rows, users), h, Find(OwnedIn(rows, users), h), found);
  }

  lemma OwnedMoreUsers(rows: Rows, users: set<string>, uid: string)
    requires forall id :: id in rows ==> rows[id].userId != uid
    ensures OwnedIn(rows, users + {uid}) == OwnedIn(rows, users)
  {
    assert OwnedIn(rows, users + {uid}).Keys == OwnedIn(rows, users).Keys;
  }

  lemma OwnedRotation(rows: Rows, users: set<string>, prev: Session, id: string, raw: string, now: Time)
    requires prev.userId in users && prev.id in rows && rows[prev.id] == prev
    ensures var (rows', err) := RotateIn(Memory, users, rows, prev.id, Successor(prev, id, raw), now);
      RotateIn(Memory, users, OwnedIn(rows, users), prev.id, Successor(prev, id, raw), now) == (OwnedIn(rows', users), err)
  {
    var revoked := prev.(revokedAt := Some(now));
    OwnedUpdate(rows, users, prev.id, revoked);
    OwnedUpdate(rows[prev.id := revoked], users, id, Successor(prev, id, raw).(createdAt := now));
  }

  lemma OwnedRotate(rows: Rows, users: set<string>, found: Option<Session>, id: string, raw: string, now: Time)
    requires found.Some? ==> found.value.userId in users && found.value.id in rows && rows[found.value.id] == found.value
    ensures var (rows', r) := RotateFrom(Memory, users, rows, found, id, raw, now);
      RotateFrom(Memory, users, OwnedIn(rows, users), found, id, raw, now) == (OwnedIn(rows', users), r)
  {
    if found.Some? {
      if Live(found.value) {
        OwnedRotation(rows, users, found.value, id, raw, now);
      } else {
        OwnedScope(rows, users, OfFamily(found.value.familyId), now);
      }
    }
  }

  /** A call that names no orphan does the same to the living rows alone. */
  lemma LivingStep(m: Db, op: Op, ids: set<string>, tokens: set<string>)
    requires MemoryOk(m, ids, tokens) && OpIds(op) !! ids && OpTokens(op) !! tokens
    requires !NamesOrphan(m, OnSessions(op))
    ensures Step(Memory, Living(m), op) == (Living(Step(Memory, m, op).0), Step(Memory, m, op).1)
  {
    var users := m.users.Keys;
    match op
    case SignUp(uid, hash) =>
      OwnedMoreUsers(m.rows, users, uid);
      assert m.users[uid := hash].Keys == users + {uid};
    case Login(uid, ok, _, _, id, _, now) =>
      if uid in m.users && ok {
        OwnedUpdate(m.rows, users, id, LoginRow(op).(createdAt := now));
      }
    case Rotate(presented, id, raw, now) =>
      OwnedFind(m.rows, users, HashToken(presented));
      OwnedRotate(m.rows, users, Find(m.rows, HashToken(presented)), id, raw, now);
    case Revoke(sid, uid, now) =>
      if sid in m.rows {
        OwnedUpdate(m.rows, users, sid, m.rows[sid].(revokedAt := Some(now)));
      }
    case LogoutAll(uid, now) =>
      OwnedScope(m.rows, users, OfUser(uid), now);
    case ChangePassword(uid, ok, hash, now) =>
      OwnedScope(m.rows, users, OfUser(uid), now);
      if uid in m.users {
        assert m.users[uid := hash].Keys == users;
      }
  }

  /** A call that names an orphan leaves the living rows alone on both backends,
      and each backend answers in its own way. */
  predicate OrphanAnswers(op: Op, m: Res, p: Res) {
    if op.Rotate? then m.Refreshed? && m.result.Reused? && p == Refreshed(Invalid)
    else (m == Done || m == Failed(ErrSessionNotOwned)) && p == Failed(ErrNotFound)
  }

  lemma OrphanRotate(m: Db, p: Db, op: Op, ids: set<string>, tokens: set<string>)
    requires MemoryOk(m, ids, tokens) && SameUpToTimes(Living(m), p)
    requires op.Rotate? && NamesOrphan(m, OnSessions(op))
    ensures Step(Memory, m, op).0 == m && Step(Postgres, p, op).0 == p
    ensures OrphanAnswers(op, Step(Memory, m, op).1, Step(Postgres, p, op).1)
  {
    var h := HashToken(op.presented);
    var s := Find(m.rows, h).value;
    OrphanNotFound(m, p, h, s);
    assert RevokeScope(m.rows, OfFamily(s.familyId), op.now) == m.rows;
  }

  lemma OrphanNotFound(m: Db, p: Db, h: Digest, s: Session)
    requires SameUpToTimes(Living(m), p) && UniqueHashes(m.rows)
    requires Find(m.rows, h) == Some(s) && Orphan(m, s)
    ensures Find(p.rows, h).None?
  {
    forall id | id in p.rows ensures p.rows[id].tokenHash != h {
      assert SameRow(Living(m).rows[id], p.rows[id]);
      if m.rows[id].tokenHash == h {
        FindByRow(m.rows, id);
        assert false;
      }
    }
  }

  lemma OrphanRevoke(m: Db, p: Db, op: Op)
    requires SameUpToTimes(Living(m), p) && op.Revoke? && NamesOrphan(m, OnSessions(op))
    ensures Living(Step(Memory, m, op).0) == Living(m) && Step(Postgres, p, op).0 == p
    ensures OrphanAnswers(op, Step(Memory, m, op).1, Step(Postgres, p, op).1)
  {
    assert op.sid !in Living(m).rows;
    assert Living(Step(Memory, m, op).0).rows == Living(m).rows;
  }

  /** The cascade takes what has just been revoked. */
  lemma DeletedIsCascade(p: Db, uid: string, now: Time)
    ensures Deleted(Postgres, p, uid, now) == Cascade(p, uid)
  {
    assert Deleted(Postgres, p, uid, now).rows == Cascade(p, uid).rows;
  }

  lemma LivingDeleted(m: Db, uid: string, now: Time)
    ensures Living(Deleted(Memory, m, uid, now)) == Cascade(Living(m), uid)
  {
    assert Living(Deleted(Memory, m, uid, now)).rows == Cascade(Living(m), uid).rows;
  }

  lemma DeletionSimulates(m: Db, p: Db, uid: string, now: Time)
    requires SameUpToTimes(Living(m), p)
    ensures SameUpToTimes(Living(Deleted(Memory, m, uid, now)), Deleted(Postgres, p, uid, now))
  {
    DeletedIsCascade(p, uid, now);
    LivingDeleted(m, uid, now);
    CascadeSimulates(Living(m), p, uid);
  }

  lemma CascadeSimulates(m: Db, p: Db, uid: string)
    requires SameUpToTimes(m, p)
    ensures SameUpToTimes(Cascade(m, uid), Cascade(p, uid))
  {
    forall id | id in m.rows ensures SameRow(m.rows[id], p.rows[id]) {}
    assert Cascade(m, uid).rows.Keys == Cascade(p, uid).rows.Keys;
  }

  /** The two states a run with the same calls can leave. */
  ghost predicate Mirrors(m: Db, p: Db, ids: set<string>, tokens: set<string>) {
    MemoryOk(m, ids, tokens) && DbInv(p, ids, tokens) && SameUpToTimes(Living(m), p)
  }

  lemma DoSimulates(m: Db, p: Db, c: Call, ids: set<string>, tokens: set<string>)
    requires Mirrors(m, p, ids, tokens) && CallIds(c) !! ids && CallTokens(c) !! tokens
    ensures SameUpToTimes(Living(Do(Memory, m, c).0), Do(Postgres, p, c).0)
    ensures var mr, pr := Do(Memory, m, c).1, Do(Postgres, p, c).1;
      && (NamesOrphan(m, c) ==> OrphanAnswers(c.op, mr, pr))
      && (NamesRevoked(p, c) ==> mr == Done && pr == Failed(ErrNotFound))
      && (SameResult(mr, pr) <==> !NamesOrphan(m, c) && !NamesRevoked(p, c))
  {
    match c
    case OnSessions(op) =>
      if NamesOrphan(m, c) {
        if op.Rotate? {
          OrphanRotate(m, p, op, ids, tokens);
        } else {
          OrphanRevoke(m, p, op);
          assert op.sid !in Living(m).rows;
        }
      } else {
        LivingIsOk(m, ids, tokens);
        LivingStep(m, op, ids, tokens);
        StepSimulates(Living(m), p, op, ids, tokens);
      }
    case DeleteAccount(uid, ok, now) =>
      DeletionSimulates(m, p, uid, now);
  }

  lemma DoKeepsPostgres(p: Db, c: Call, ids: set<string>, tokens: set<string>)
    requires DbInv(p, ids, tokens) && CallIds(c) !! ids && CallTokens(c) !! tokens
    ensures DbInv(Do(Postgres, p, c).0, ids + CallIds(c), tokens + CallTokens(c))
  {
    match c
    case OnSessions(op) => StepKeeps(Postgres, p, op, ids, tokens);
    case DeleteAccount(uid, _, now) =>
      DeletedIsCascade(p, uid, now);
      CascadeKeeps(p, uid, ids, tokens);
  }

  lemma {:induction false} RunsMirror(calls: seq<Call>)
    requires FreshCalls(calls)
    ensures Mirrors(After(Memory, calls), After(Postgres, calls), DrawnIds(calls), DrawnTokens(calls))
  {
    if calls != [] {
      var front, c := Front(calls), Last(calls);
      var m, p, ids, tokens := After(Memory, front), After(Postgres, front), DrawnIds(front), DrawnTokens(front);
      RunsMirror(front);
      DoKeeps(m, c, ids, tokens);
      DoKeepsPostgres(p, c, ids, tokens);
      DoSimulates(m, p, c, ids, tokens);
    }
  }

  /** Driving both stores with the same calls, account deletion included: the rows
      of existing users are the same up to revocation times, the memory store's
      other rows are all revoked, and the answers to the next call agree exactly
      when it neither revokes an owned session that is already revoked nor names a
      row of a deleted user. */
  lemma StoreSimulation(calls: seq<Call>)
    requires calls != [] && FreshCalls(calls)
    ensures var m, p, c := After(Memory, Front(calls)), After(Postgres, Front(calls)), Last(calls);
      && SameUpToTimes(Living(m), p)
      && (forall id :: id in m.rows && Orphan(m, m.rows[id]) ==> !Live(m.rows[id]))
      && (SameResult(Answer(Memory, calls), Answer(Postgres, calls)) <==> !NamesRevoked(p, c) && !NamesOrphan(m, c))
      && (NamesRevoked(p, c) ==> Answer(Memory, calls) == Done && Answer(Postgres, calls) == Failed(ErrNotFound))
      && (NamesOrphan(m, c) ==> OrphanAnswers(c.op, Answer(Memory, calls), Answer(Postgres, calls)))
  {
    var front, c := Front(calls), Last(calls);
    RunsMirror(front);
    DoSimulates(After(Memory, front), After(Postgres, front), c, DrawnIds(front), DrawnTokens(front));
  }

  lemma OwnedByAll(rows: Rows, users: set<string>)
    requires forall id :: id in rows ==> rows[id].userId in users
    ensures OwnedIn(rows, users) == rows
  {
    assert OwnedIn(rows, users).Keys == rows.Keys;
  }

  ghost predicate NoOrphans(m: Db) {
    forall id :: id in m.rows ==> m.rows[id].userId in m.users
  }

  lemma StepLeavesNoOrphans(m: Db, op: Op, ids: set<string>, tokens: set<string>)
    requires NoOrphans(m) && MemoryOk(m, ids, tokens)
    ensures NoOrphans(Step(Memory, m, op).0)
  {
    forall id | id in m.rows ensures m.rows[id].id == id && m.rows[id].userId in m.users {}
    StepKeepsOwners(Memory, m, op);
  }

  predicate DeletesNobody(calls: seq<Call>) {
    forall i :: 0 <= i < |calls| ==> calls[i].OnSessions?
  }

  lemma {:induction false} NobodyLeaves(calls: seq<Call>)
    requires FreshCalls(calls) && DeletesNobody(calls)
    ensures NoOrphans(After(Memory, calls))
  {
    if calls != [] {
      var front := Front(calls);
      NobodyLeaves(front);
      RunsMirror(front);
      StepLeavesNoOrphans(After(Memory, front), Last(calls).op, DrawnIds(front), DrawnTokens(front));
    }
  }

  /** Without deletion the two tables have the same rows, and only the first kind
      of disagreement is left. */
  lemma SameWithoutDeletion(calls: seq<Call>, c: Call)
    requires FreshCalls(calls) && DeletesNobody(calls)
    ensures SameUpToTimes(After(Memory, calls), After(Postgres, calls))
    ensures !NamesOrphan(After(Memory, calls), c)
  {
    RunsMirror(calls);
    NobodyLeaves(calls);
    NoOrphanNamed(After(Memory, calls), c);
  }

  lemma NoOrphanNamed(m: Db, c: Call)
    requires NoOrphans(m)
    ensures Living(m) == m && !NamesOrphan(m, c)
  {
    OwnedByAll(m.rows, m.users.Keys);
  }

  // ------------------------------------------------- runs that tell them apart

  lemma OneCallMore(b: Backend, calls: seq<Call>, c: Call)
    requires FreshCalls(calls) && CallIds(c) !! DrawnIds(calls) && CallTokens(c) !! DrawnTokens(calls)
    ensures FreshCalls(calls + [c])
    ensures DrawnIds(calls + [c]) == DrawnIds(calls) + CallIds(c)
    ensures DrawnTokens(calls + [c]) == DrawnTokens(calls) + CallTokens(c)
    ensures After(b, calls + [c]) == Do(b, After(b, calls), c).0
    ensures Answer(b, calls + [c]) == Do(b, After(b, calls), c).1
  {
    assert Front(calls + [c]) == calls;
  }

  /** A user "u" with one session "s", whose token is "A". */
  lemma OneSession(b: Backend) returns (calls: seq<Call>)
    ensures FreshCalls(calls) && DrawnIds(calls) == {"u", "s"} && DrawnTokens(calls) == {"A"}
    ensures After(b, calls) == Db(map["u" := "h"], map["s" := Session("s", "s", "u", HashToken("A"), "", "", 0, None)])
    ensures calls == [OnSessions(SignUp("u", "h")), OnSessions(Login("u", true, "", "", "s", "A", 0))]
  {
    var signUp, login := OnSessions(SignUp("u", "h")), OnSessions(Login("u", true, "", "", "s", "A", 0));
    OneCallMore(b, [], signUp);
    OneCallMore(b, [] + [signUp], login);
    calls := [] + [signUp] + [login];
  }

  /** Logging out twice: the second time succeeds in memory, not in Postgres. */
  lemma SecondLogoutDiffers() returns (calls: seq<Call>)
    ensures calls != [] && FreshCalls(calls)
    ensures Answer(Memory, calls) == Done && Answer(Postgres, calls) == Failed(ErrNotFound)
    ensures NamesRevoked(After(Postgres, Front(calls)), Last(calls))
  {
    var start := OneSession(Memory);
    var _ := OneSession(Postgres);
    var first, second := OnSessions(Revoke("s", "u", 1)), OnSessions(Revoke("s", "u", 2));
    calls := start + [first] + [second];
    forall b ensures FreshCalls(calls) && Answer(b, calls) == Do(b, Do(b, After(b, start), first).0, second).1 {
      OneCallMore(b, start, first);
      OneCallMore(b, start + [first], second);
    }
    OneCallMore(Postgres, start, first);
    assert Front(calls) == start + [first];
  }

  /** A token of a deleted user: "reused" in memory, where its revoked row is
      still there, "invalid" in Postgres, where the deletion took it along. */
  lemma DeletedTokenDiffers() returns (calls: seq<Call>)
    ensures calls != [] && FreshCalls(calls)
    ensures Answer(Postgres, calls) == Refreshed(Invalid)
    ensures Answer(Memory, calls).Refreshed? && Answer(Memory, calls).result.Reused?
  {
    var start := OneSession(Memory);
    var _ := OneSession(Postgres);
    var deletion, replay := DeleteAccount("u", true, 1), OnSessions(Rotate("A", "t", "B", 2));
    calls := start + [deletion] + [replay];
    forall b ensures FreshCalls(calls) && Front(calls) == start + [deletion]
      && After(b, Front(calls)) == Do(b, After(b, start), deletion).0
    {
      OneCallMore(b, start, deletion);
      OneCallMore(b, start + [deletion], replay);
    }
    var m := After(Memory, Front(calls));
    StoreSimulation(calls);
    assert m.rows["s"].tokenHash == HashToken("A");
  }
}
