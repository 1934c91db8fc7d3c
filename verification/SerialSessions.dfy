/** Whole session calls, each run to its end before the next starts, on either
    backend. Account deletion, on which the backends differ, is not among them. */
module SerialSessions {
  import opened Types
  import opened Runs
  import opened SessionRows

  /** `users` maps a user id to the stored password hash. */
  datatype Db = Db(users: map<string, string>, rows: Rows)

  /** A call with its arguments, its draws and its clock reading. `ok` is the
      outcome of the password comparison. */
  datatype Op =
    | SignUp(uid: string, hash: string)
    | Login(uid: string, ok: bool, ip: string, userAgent: string, id: string, raw: string, now: Time)
    | Rotate(presented: string, id: string, raw: string, now: Time)
    | Revoke(sid: string, uid: string, now: Time)
    | LogoutAll(uid: string, now: Time)
    | ChangePassword(uid: string, ok: bool, hash: string, now: Time)

  /** What a call returns; a login also tells which stored hash its password
      was compared with. */
  datatype Res =
    | Done
    | Failed(error: Error)
    | LoggedIn(session: Session, raw: string, hash: string)
    | Refreshed(result: RotateResult)

  function LoginRow(op: Op): Session
    requires op.Login?
  {
    Session(op.id, op.id, op.uid, HashToken(op.raw), op.ip, op.userAgent, 0, None)
  }

  function Report(err: Option<Error>): Res {
    match err case None => Done case Some(e) => Failed(e)
  }

  ghost function Step(b: Backend, db: Db, op: Op): (Db, Res) {
    match op
    case SignUp(uid, hash) =>
      if uid in db.users then (db, Failed(ErrConstraint)) else (db.(users := db.users[uid := hash]), Done)
    case Login(uid, ok, _, _, _, raw, now) =>
      if uid !in db.users || !ok then (db, Failed(ErrInvalidCredentials))
      else
        var s := LoginRow(op);
        var (rows, err) := CreateIn(b, db.users.Keys, db.rows, s, now);
        (db.(rows := rows), if err.Some? then Failed(err.value) else LoggedIn(s, raw, db.users[uid]))
    case Rotate(presented, id, raw, now) =>
      var (rows, r) := RotateFrom(b, db.users.Keys, db.rows, Find(db.rows, HashToken(presented)), id, raw, now);
      (db.(rows := rows), Refreshed(r))
    case Revoke(sid, uid, now) =>
      var (rows, err) := RevokeOwned(b, db.rows, sid, uid, now);
      (db.(rows := rows), Report(err))
    case LogoutAll(uid, now) =>
      (db.(rows := RevokeScope(db.rows, OfUser(uid), now)), Done)
    case ChangePassword(uid, ok, hash, now) =>
      if uid !in db.users then (db, Failed(ErrNotFound))
      else if !ok then (db, Failed(ErrInvalidCredentials))
      else (Db(db.users[uid := hash], RevokeScope(db.rows, OfUser(uid), now)), Done)
  }

  function OpIds(op: Op): set<string> {
    match op
    case SignUp(uid, _) => {uid}
    case Login(_, _, _, _, id, _, _) => {id}
    case Rotate(_, id, _, _) => {id}
    case _ => {}
  }

  function OpTokens(op: Op): set<string> {
    match op
    case Login(_, _, _, _, _, raw, _) => {raw}
    case Rotate(_, _, raw, _) => {raw}
    case _ => {}
  }

  /** Deleting a user in Postgres takes the user's rows along (ON DELETE CASCADE). */
  function Cascade(db: Db, uid: string): Db {
    Db(db.users - {uid}, map id | id in db.rows && db.rows[id].userId != uid :: db.rows[id])
  }

  // ------------------------------------------------------------------- runs

  ghost function Run(b: Backend, ops: seq<Op>): Db {
    if ops == [] then Db(map[], map[]) else Step(b, Run(b, Front(ops)), Last(ops)).0
  }

  /** The result of the `i`-th call of the run. */
  ghost function ResultAt(b: Backend, ops: seq<Op>, i: nat): Res
    requires i < |ops|
  {
    Step(b, Run(b, ops[..i]), ops[i]).1
  }

  function Ids(ops: seq<Op>): set<string> {
    if ops == [] then {} else Ids(Front(ops)) + OpIds(Last(ops))
  }

  function Tokens(ops: seq<Op>): set<string> {
    if ops == [] then {} else Tokens(Front(ops)) + OpTokens(Last(ops))
  }

  /** No id and no raw token is drawn twice. */
  predicate FreshRun(ops: seq<Op>) {
    ops == [] || (
      && FreshRun(Front(ops))
      && OpIds(Last(ops)) !! Ids(Front(ops))
      && OpTokens(Last(ops)) !! Tokens(Front(ops)))
  }

  ghost predicate DbInv(db: Db, ids: set<string>, tokens: set<string>) {
    && RowsInv(db.rows, ids, tokens)
    && (forall id :: id in db.rows ==> db.rows[id].userId in db.users)
  }

  /** One call keeps the rows invariant, on both backends. */
  lemma StepKeepsRows(b: Backend, db: Db, op: Op, ids: set<string>, tokens: set<string>)
    requires RowsInv(db.rows, ids, tokens)
    requires OpIds(op) !! ids && OpTokens(op) !! tokens
    ensures RowsInv(Step(b, db, op).0.rows, ids + OpIds(op), tokens + OpTokens(op))
  {
    match op
    case SignUp(_, _) =>
    case Login(uid, ok, _, _, _, _, now) =>
      if uid in db.users && ok {
        CreateKeeps(db.rows, ids, tokens, LoginRow(op).(createdAt := now));
      }
    case Rotate(presented, id, raw, now) =>
      RotateFromKeeps(b, db.users.Keys, db.rows, ids, tokens, Find(db.rows, HashToken(presented)), id, raw, now);
    case Revoke(sid, _, now) =>
      RevokeKeeps(b, db.rows, ids, tokens, sid, now);
    case LogoutAll(uid, now) =>
      RevokeScopeKeeps(db.rows, ids, tokens, OfUser(uid), now);
    case ChangePassword(uid, _, _, now) =>
      RevokeScopeKeeps(db.rows, ids, tokens, OfUser(uid), now);
  }

  lemma StepKeepsOwners(b: Backend, db: Db, op: Op)
    requires forall id :: id in db.rows ==> db.rows[id].id == id && db.rows[id].userId in db.users
    ensures var db' := Step(b, db, op).0; forall id :: id in db'.rows ==> db'.rows[id].userId in db'.users
  {
  }

  lemma StepKeeps(b: Backend, db: Db, op: Op, ids: set<string>, tokens: set<string>)
    requires DbInv(db, ids, tokens)
    requires OpIds(op) !! ids && OpTokens(op) !! tokens
    ensures DbInv(Step(b, db, op).0, ids + OpIds(op), tokens + OpTokens(op))
  {
    StepKeepsRows(b, db, op, ids, tokens);
    StepKeepsOwners(b, db, op);
  }

  lemma CascadeKeeps(db: Db, uid: string, ids: set<string>, tokens: set<string>)
    requires DbInv(db, ids, tokens)
    ensures DbInv(Cascade(db, uid), ids, tokens)
  {
  }

  lemma {:induction false} RunKeeps(b: Backend, ops: seq<Op>)
    requires FreshRun(ops)
    ensures DbInv(Run(b, ops), Ids(ops), Tokens(ops))
  {
    if ops != [] {
      RunKeeps(b, Front(ops));
      StepKeeps(b, Run(b, Front(ops)), Last(ops), Ids(Front(ops)), Tokens(Front(ops)));
    }
  }

  /** A rotation that is not raced never fails in the store: it is refreshed,
      refused as reused or refused as invalid. */
  lemma SerialRotateNeverFails(b: Backend, db: Db, op: Op, ids: set<string>, tokens: set<string>)
    requires DbInv(db, ids, tokens)
    requires OpIds(op) !! ids && OpTokens(op) !! tokens && op.Rotate?
    ensures Step(b, db, op).1.Refreshed? && !Step(b, db, op).1.result.StoreFailed?
  {
    var found := Find(db.rows, HashToken(op.presented));
    if found.Some? && Live(found.value) {
      var s := Successor(found.value, op.id, op.raw);
      var revoked := RevokeIn(b, db.rows, found.value.id, op.now).0;
      assert Insertable(db.users.Keys, revoked, s);
    }
  }

  lemma {:induction false} PrefixFresh(ops: seq<Op>, i: nat)
    requires FreshRun(ops) && i <= |ops|
    ensures FreshRun(ops[..i])
  {
    if i == |ops| {
      assert ops[..i] == ops;
    } else {
      PrefixFresh(Front(ops), i);
      assert Front(ops)[..i] == ops[..i];
    }
  }
}
