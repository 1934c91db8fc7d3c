/** The abstract machine the sessions table implements: a family is either live,
    with one current token, or dead; and it remembers its past tokens. */
module Families {
  import opened Types
  import opened Runs
  import opened SessionRows
  import opened SerialSessions

  datatype Status = Current(id: string, token: string) | Dead

  datatype Family = Family(owner: string, status: Status, past: set<string>)

  datatype Machine = Machine(users: set<string>, families: map<string, Family>)

  function Retire(f: Family): Family {
    match f.status
    case Current(_, t) => Family(f.owner, Dead, f.past + {t})
    case Dead => f
  }

  predicate IsCurrent(m: Machine, token: string) {
    exists f :: f in m.families && m.families[f].status.Current? && m.families[f].status.token == token
  }

  predicate IsPast(m: Machine, token: string) {
    exists f :: f in m.families && token in m.families[f].past
  }

  function RetireAll(m: Machine, dying: set<string>): Machine {
    m.(families := map f | f in m.families :: if f in dying then Retire(m.families[f]) else m.families[f])
  }

  function OwnedBy(m: Machine, uid: string): set<string> {
    set f | f in m.families && m.families[f].owner == uid
  }

  ghost function Advance(m: Machine, op: Op): Machine {
    match op
    case SignUp(uid, _) => m.(users := m.users + {uid})
    case Login(uid, ok, _, _, id, raw, _) =>
      if uid in m.users && ok then m.(families := m.families[id := Family(uid, Current(id, raw), {})]) else m
    case Rotate(presented, id, raw, _) =>
      if f :| f in m.families && m.families[f].status.Current? && m.families[f].status.token == presented then
        m.(families := m.families[f := Family(m.families[f].owner, Current(id, raw), m.families[f].past + {presented})])
      else if f :| f in m.families && presented in m.families[f].past then
        RetireAll(m, {f})
      else m
    case Revoke(sid, uid, _) =>
      RetireAll(m, set f | f in OwnedBy(m, uid) && m.families[f].status.Current? && m.families[f].status.id == sid)
    case LogoutAll(uid, _) =>
      RetireAll(m, OwnedBy(m, uid))
    case ChangePassword(uid, ok, _, _) =>
      if uid in m.users && ok then RetireAll(m, OwnedBy(m, uid)) else m
  }

  ghost function MachineRun(ops: seq<Op>): Machine {
    if ops == [] then Machine({}, map[]) else Advance(MachineRun(Front(ops)), Last(ops))
  }

  // ------------------------------------------------------------- refinement

  ghost predicate Superseded(rows: Rows, f: string, token: string) {
    exists id :: id in rows && rows[id].familyId == f && rows[id].tokenHash == HashToken(token) && !Live(rows[id])
  }

  ghost predicate RowsFollow(rows: Rows, families: map<string, Family>) {
    forall id :: id in rows ==>
      var s := rows[id];
      && s.familyId in families
      && families[s.familyId].owner == s.userId
      && (Live(s) ==> families[s.familyId].status == Current(id, s.tokenHash.raw))
      && (!Live(s) ==> s.tokenHash.raw in families[s.familyId].past)
  }

  ghost predicate StatusesFollow(rows: Rows, families: map<string, Family>) {
    forall f :: f in families && families[f].status.Current? ==>
      var id := families[f].status.id;
      id in rows && rows[id].familyId == f && Live(rows[id]) && rows[id].tokenHash == HashToken(families[f].status.token)
  }

  ghost predicate PastsFollow(rows: Rows, families: map<string, Family>) {
    forall f, t :: f in families && t in families[f].past ==> Superseded(rows, f, t)
  }

  ghost predicate Refines(db: Db, m: Machine, ids: set<string>) {
    && m.users == db.users.Keys
    && m.families.Keys <= ids
    && RowsFollow(db.rows, m.families)
    && StatusesFollow(db.rows, m.families)
    && PastsFollow(db.rows, m.families)
  }

  lemma CurrentIsLive(rows: Rows, m: Machine, token: string)
    requires UniqueHashes(rows) && RowsFollow(rows, m.families) && StatusesFollow(rows, m.families)
    ensures IsCurrent(m, token) <==> Find(rows, HashToken(token)).Some? && Live(Find(rows, HashToken(token)).value)
  {
    var found := Find(rows, HashToken(token));
    if found.Some? && Live(found.value) {
      assert found.value.familyId in m.families;
    }
    if IsCurrent(m, token) {
      var f :| f in m.families && m.families[f].status.Current? && m.families[f].status.token == token;
      FindByRow(rows, m.families[f].status.id);
    }
  }

  lemma PastIsRevoked(rows: Rows, m: Machine, token: string)
    requires UniqueHashes(rows) && RowsFollow(rows, m.families) && PastsFollow(rows, m.families)
    ensures IsPast(m, token) <==> Find(rows, HashToken(token)).Some? && !Live(Find(rows, HashToken(token)).value)
  {
    var found := Find(rows, HashToken(token));
    if found.Some? && !Live(found.value) {
      assert found.value.familyId in m.families;
    }
    if IsPast(m, token) {
      var f :| f in m.families && token in m.families[f].past;
      assert Superseded(rows, f, token);
      var id :| id in rows && rows[id].familyId == f && rows[id].tokenHash == HashToken(token) && !Live(rows[id]);
      FindByRow(rows, id);
    }
  }

  ghost predicate Follows(rows: Rows, families: map<string, Family>) {
    RowsFollow(rows, families) && StatusesFollow(rows, families) && PastsFollow(rows, families)
  }

  /** Revoking the live rows of the families in `dying`, and no other live row,
      is retiring those families. */
  lemma KillRefines(rows: Rows, rows': Rows, m: Machine, dying: set<string>)
    requires Follows(rows, m.families)
    requires rows'.Keys == rows.Keys && forall id :: id in rows ==> SameRow(rows[id], rows'[id])
    requires forall id :: id in rows && !Live(rows[id]) ==> !Live(rows'[id])
    requires forall id :: id in rows && Live(rows[id]) ==> (Live(rows'[id]) <==> rows[id].familyId !in dying)
    ensures Follows(rows', RetireAll(m, dying).families)
  {
    var m' := RetireAll(m, dying);
    forall f, t | f in m'.families && t in m'.families[f].past ensures Superseded(rows', f, t) {
      if t in m.families[f].past {
        assert Superseded(rows, f, t);
        var id :| id in rows && rows[id].familyId == f && rows[id].tokenHash == HashToken(t) && !Live(rows[id]);
        assert SameRow(rows[id], rows'[id]);
      } else {
        var id := m.families[f].status.id;
        assert SameRow(rows[id], rows'[id]) && !Live(rows'[id]);
      }
    }
    assert RowsFollow(rows', m'.families);
    assert StatusesFollow(rows', m'.families);
  }

  lemma LoginRefines(rows: Rows, m: Machine, s: Session)
    requires Follows(rows, m.families)
    requires s.id == s.familyId && s.id !in rows && s.id !in m.families && Live(s)
    ensures Follows(rows[s.id := s], m.families[s.id := Family(s.userId, Current(s.id, s.tokenHash.raw), {})])
  {
    var rows' := rows[s.id := s];
    var families' := m.families[s.id := Family(s.userId, Current(s.id, s.tokenHash.raw), {})];
    assert RowsFollow(rows', families');
    forall f, t | f in families' && t in families'[f].past ensures Superseded(rows', f, t) {
      assert Superseded(rows, f, t);
      var id :| id in rows && rows[id].familyId == f && rows[id].tokenHash == HashToken(t) && !Live(rows[id]);
      assert rows'[id] == rows[id];
    }
  }

  lemma RotationRefines(rows: Rows, m: Machine, s: Session, next: Session, now: Time)
    requires Follows(rows, m.families)
    requires s.id in rows && rows[s.id] == s && Live(s)
    requires next.id !in rows && next.familyId == s.familyId && next.userId == s.userId && Live(next)
    requires forall id :: id in rows && rows[id].familyId == s.familyId && Live(rows[id]) ==> id == s.id
    ensures var fam := m.families[s.familyId];
      Follows(rows[s.id := s.(revokedAt := Some(now))][next.id := next],
              m.families[s.familyId := Family(fam.owner, Current(next.id, next.tokenHash.raw), fam.past + {s.tokenHash.raw})])
  {
    var fam := m.families[s.familyId];
    var rows' := rows[s.id := s.(revokedAt := Some(now))][next.id := next];
    var families' := m.families[s.familyId := Family(fam.owner, Current(next.id, next.tokenHash.raw), fam.past + {s.tokenHash.raw})];
    assert RowsFollow(rows', families');
    assert StatusesFollow(rows', families');
    forall f, t | f in families' && t in families'[f].past ensures Superseded(rows', f, t) {
      if f == s.familyId && t == s.tokenHash.raw {
        assert rows'[s.id].tokenHash == HashToken(t) && !Live(rows'[s.id]);
      } else {
        assert Superseded(rows, f, t);
        var id :| id in rows && rows[id].familyId == f && rows[id].tokenHash == HashToken(t) && !Live(rows[id]);
        assert id != s.id && id != next.id && rows'[id] == rows[id];
      }
    }
  }

  /** The family `Advance` picks for a presented token is the family of its row. */
  lemma CurrentFamily(rows: Rows, m: Machine, token: string, f: string)
    requires UniqueHashes(rows) && Follows(rows, m.families)
    requires f in m.families && m.families[f].status.Current? && m.families[f].status.token == token
    ensures var found := Find(rows, HashToken(token)); found.Some? && Live(found.value) && found.value.familyId == f
  {
    FindByRow(rows, m.families[f].status.id);
  }

  lemma PastFamily(rows: Rows, m: Machine, token: string, f: string)
    requires UniqueHashes(rows) && Follows(rows, m.families)
    requires f in m.families && token in m.families[f].past
    ensures var found := Find(rows, HashToken(token)); found.Some? && !Live(found.value) && found.value.familyId == f
  {
    assert Superseded(rows, f, token);
    var id :| id in rows && rows[id].familyId == f && rows[id].tokenHash == HashToken(token) && !Live(rows[id]);
    FindByRow(rows, id);
  }

  /** Presenting the token of a live row advances its family ... */
  lemma AcceptRefines(b: Backend, db: Db, m: Machine, op: Op, s: Session)
    requires op.Rotate? && Follows(db.rows, m.families) && UniqueHashes(db.rows) && OneLive(db.rows)
    requires Find(db.rows, HashToken(op.presented)) == Some(s) && Live(s) && s.id in db.rows && db.rows[s.id] == s
    requires op.id !in db.rows
    requires !Step(b, db, op).1.result.StoreFailed?
    ensures Follows(Step(b, db, op).0.rows, Advance(m, op).families)
  {
    CurrentIsLive(db.rows, m, op.presented);
    var f :| f in m.families && m.families[f].status.Current? && m.families[f].status.token == op.presented
      && Advance(m, op) == m.(families := m.families[f := Family(m.families[f].owner, Current(op.id, op.raw), m.families[f].past + {op.presented})]);
    CurrentFamily(db.rows, m, op.presented, f);
    RotationRefines(db.rows, m, s, Successor(s, op.id, op.raw).(createdAt := op.now), op.now);
  }

  lemma ReuseRetires(rows: Rows, m: Machine, op: Op, s: Session)
    requires op.Rotate? && Follows(rows, m.families) && UniqueHashes(rows)
    requires Find(rows, HashToken(op.presented)) == Some(s) && !Live(s)
    ensures s.familyId in m.families && Advance(m, op) == RetireAll(m, {s.familyId})
  {
    CurrentIsLive(rows, m, op.presented);
    PastIsRevoked(rows, m, op.presented);
    var f :| f in m.families && op.presented in m.families[f].past && Advance(m, op) == RetireAll(m, {f});
    PastFamily(rows, m, op.presented, f);
  }

  /** ... and presenting the token of a revoked one retires it. */
  lemma ReuseRefines(b: Backend, db: Db, m: Machine, op: Op, s: Session)
    requires op.Rotate? && Follows(db.rows, m.families) && UniqueHashes(db.rows)
    requires Find(db.rows, HashToken(op.presented)) == Some(s) && !Live(s)
    ensures Follows(Step(b, db, op).0.rows, Advance(m, op).families)
  {
    ReuseRetires(db.rows, m, op, s);
    KillRefines(db.rows, RevokeScope(db.rows, OfFamily(s.familyId), op.now), m, {s.familyId});
  }

  lemma RotateRefines(b: Backend, db: Db, m: Machine, op: Op)
    requires op.Rotate? && UniqueHashes(db.rows) && Follows(db.rows, m.families)
    requires OneLive(db.rows) && forall id :: id in db.rows ==> db.rows[id].id == id
    requires op.id !in db.rows
    requires !Step(b, db, op).1.result.StoreFailed?
    ensures Follows(Step(b, db, op).0.rows, Advance(m, op).families)
  {
    var found := Find(db.rows, HashToken(op.presented));
    if found.None? {
      CurrentIsLive(db.rows, m, op.presented);
      PastIsRevoked(db.rows, m, op.presented);
    } else if Live(found.value) {
      AcceptRefines(b, db, m, op, found.value);
    } else {
      ReuseRefines(b, db, m, op, found.value);
    }
  }

  lemma RevokeRefines(b: Backend, rows: Rows, m: Machine, sid: string, uid: string, now: Time)
    requires Follows(rows, m.families)
    ensures var dying := set f | f in OwnedBy(m, uid) && m.families[f].status.Current? && m.families[f].status.id == sid;
      Follows(RevokeOwned(b, rows, sid, uid, now).0, RetireAll(m, dying).families)
  {
    var dying := set f | f in OwnedBy(m, uid) && m.families[f].status.Current? && m.families[f].status.id == sid;
    KillRefines(rows, RevokeOwned(b, rows, sid, uid, now).0, m, dying);
  }

  lemma LogoutAllRefines(rows: Rows, m: Machine, uid: string, now: Time)
    requires Follows(rows, m.families)
    ensures Follows(RevokeScope(rows, OfUser(uid), now), RetireAll(m, OwnedBy(m, uid)).families)
  {
    KillRefines(rows, RevokeScope(rows, OfUser(uid), now), m, OwnedBy(m, uid));
  }

  lemma LoginStepRefines(b: Backend, db: Db, m: Machine, op: Op)
    requires op.Login? && m.users == db.users.Keys && Follows(db.rows, m.families)
    requires op.id !in db.rows && op.id !in m.families
    requires forall id :: id in db.rows ==> db.rows[id].tokenHash.raw != op.raw
    ensures Follows(Step(b, db, op).0.rows, Advance(m, op).families)
  {
    if op.uid in db.users && op.ok {
      assert Insertable(db.users.Keys, db.rows, LoginRow(op));
      LoginRefines(db.rows, m, LoginRow(op).(createdAt := op.now));
    }
  }

  /** One call moves the table and the abstract machine together. */
  lemma StepFollows(b: Backend, db: Db, m: Machine, op: Op, ids: set<string>, tokens: set<string>)
    requires DbInv(db, ids, tokens) && Refines(db, m, ids)
    requires OpIds(op) !! ids && OpTokens(op) !! tokens
    ensures Follows(Step(b, db, op).0.rows, Advance(m, op).families)
  {
    match op
    case SignUp(_, _) =>
    case Login(_, _, _, _, _, _, _) =>
      LoginStepRefines(b, db, m, op);
    case Rotate(_, _, _, _) =>
      SerialRotateNeverFails(b, db, op, ids, tokens);
      RotateRefines(b, db, m, op);
    case Revoke(sid, uid, now) =>
      RevokeRefines(b, db.rows, m, sid, uid, now);
    case LogoutAll(uid, now) =>
      LogoutAllRefines(db.rows, m, uid, now);
    case ChangePassword(uid, _, _, now) =>
      LogoutAllRefines(db.rows, m, uid, now);
  }

  lemma StepRefines(b: Backend, db: Db, m: Machine, op: Op, ids: set<string>, tokens: set<string>)
    requires DbInv(db, ids, tokens) && Refines(db, m, ids)
    requires OpIds(op) !! ids && OpTokens(op) !! tokens
    ensures Refines(Step(b, db, op).0, Advance(m, op), ids + OpIds(op))
  {
    StepFollows(b, db, m, op, ids, tokens);
    assert Advance(m, op).families.Keys <= m.families.Keys + OpIds(op);
  }

  /** After any serial run, on either backend, the table is in the state of the
      abstract machine. */
  lemma {:induction false} RunRefines(b: Backend, ops: seq<Op>)
    requires FreshRun(ops)
    ensures Refines(Run(b, ops), MachineRun(ops), Ids(ops))
  {
    if ops != [] {
      RunRefines(b, Front(ops));
      RunKeeps(b, Front(ops));
      StepRefines(b, Run(b, Front(ops)), MachineRun(Front(ops)), Last(ops), Ids(Front(ops)), Tokens(Front(ops)));
    }
  }

  // ---------------------------------------------------------- issued tokens

  /** The raw refresh tokens handed out in results, whatever the table says. */
  function TokensIn(r: Res): set<string> {
    match r
    case LoggedIn(_, raw, _) => {raw}
    case Refreshed(Rotated(_, raw)) => {raw}
    case _ => {}
  }

  ghost function Issued(b: Backend, ops: seq<Op>): set<string> {
    if ops == [] then {} else Issued(b, Front(ops)) + TokensIn(Step(b, Run(b, Front(ops)), Last(ops)).1)
  }

  lemma StoredSomewhere(rows: Rows, h: Digest)
    ensures Find(rows, h).Some? <==> exists id :: id in rows && rows[id].tokenHash == h
  {
    assert IsLookup(rows, h, Find(rows, h));
  }

  /** A call adds at most the row of its own draw, and then hands out its token. */
  lemma StepAddsIssued(b: Backend, db: Db, op: Op)
    requires OpIds(op) !! db.rows.Keys
    requires forall id :: id in db.rows ==> db.rows[id].id == id
    ensures var rows' := Step(b, db, op).0.rows;
      var given := TokensIn(Step(b, db, op).1);
      && (forall id :: id in db.rows ==> id in rows' && rows'[id].tokenHash == db.rows[id].tokenHash)
      && (if given == {} then rows'.Keys == db.rows.Keys
          else (op.Login? || op.Rotate?) && rows'.Keys == db.rows.Keys + {op.id} && given == {rows'[op.id].tokenHash.raw})
  {
  }

  lemma StepIssues(b: Backend, db: Db, op: Op, issued: set<string>, token: string)
    requires forall id :: id in db.rows ==> db.rows[id].id == id
    requires OpIds(op) !! db.rows.Keys
    requires token in issued <==> Find(db.rows, HashToken(token)).Some?
    ensures token in issued + TokensIn(Step(b, db, op).1) <==> Find(Step(b, db, op).0.rows, HashToken(token)).Some?
  {
    var rows, rows', given := db.rows, Step(b, db, op).0.rows, TokensIn(Step(b, db, op).1);
    StepAddsIssued(b, db, op);
    StoredSomewhere(rows, HashToken(token));
    StoredSomewhere(rows', HashToken(token));
    if id :| id in rows && rows[id].tokenHash == HashToken(token) {
      assert id in rows';
    }
  }

  lemma {:induction false} IssuedIsStored(b: Backend, ops: seq<Op>, token: string)
    requires FreshRun(ops)
    ensures token in Issued(b, ops) <==> Find(Run(b, ops).rows, HashToken(token)).Some?
  {
    if ops != [] {
      IssuedIsStored(b, Front(ops), token);
      RunKeeps(b, Front(ops));
      StepIssues(b, Run(b, Front(ops)), Last(ops), Issued(b, Front(ops)), token);
    }
  }

  /** The three answers of `Rotate`, in every serial run: accepted exactly on the
      current token of a live family, reused exactly on any other token ever
      issued, invalid exactly on a token never issued. */
  lemma RotateVerdict(b: Backend, ops: seq<Op>, op: Op)
    requires FreshRun(ops + [op]) && op.Rotate?
    ensures var r := Step(b, Run(b, ops), op).1;
      && r.Refreshed?
      && (r.result.Rotated? <==> IsCurrent(MachineRun(ops), op.presented))
      && (r.result.Reused? <==> op.presented in Issued(b, ops) && !IsCurrent(MachineRun(ops), op.presented))
      && (r.result.Reused? <==> IsPast(MachineRun(ops), op.presented))
      && (r.result.Invalid? <==> op.presented !in Issued(b, ops))
  {
    assert Front(ops + [op]) == ops && Last(ops + [op]) == op;
    RunKeeps(b, ops);
    RunRefines(b, ops);
    SerialRotateNeverFails(b, Run(b, ops), op, Ids(ops), Tokens(ops));
    CurrentIsLive(Run(b, ops).rows, MachineRun(ops), op.presented);
    PastIsRevoked(Run(b, ops).rows, MachineRun(ops), op.presented);
    IssuedIsStored(b, ops, op.presented);
  }
}
