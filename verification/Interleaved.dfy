/** The session protocol over the guarded (Postgres) store with any number of
    calls in flight. Each store call is one atomic step; between the steps of a
    call any other call may run. Login and ChangePassword are one step each. */
module Interleaved {
  import opened Types
  import opened Runs
  import opened SessionRows
  import opened SerialSessions

  /** A call between its first and its second store step. A rotation goes on to
      `RotateToken` when the row it found was live, to `RevokeFamily` when not;
      `id` and `raw` are its draws. */
  datatype Pending =
    | Rotating(presented: string, found: Session, id: string, raw: string)
    | Revoking(sid: string, uid: string)

  datatype Event =
    | Atomic(op: Op)
    | RotateBegin(call: nat, presented: string, id: string, raw: string, now: Time)
    | RotateEnd(call: nat, now: Time)
    | RevokeBegin(call: nat, sid: string, uid: string, now: Time)
    | RevokeEnd(call: nat, now: Time)
    | DeleteRevoke(uid: string, now: Time)  // DeleteAccount: revoke all sessions ...
    | DeleteUser(uid: string)               // ... then delete the user, cascading to the rows

  /** A finished call: what was asked, what was answered. */
  datatype Entry = Entry(op: Op, res: Res)

  datatype State = State(
    db: Db,
    calls: map<nat, Pending>,
    ids: set<string>,
    tokens: set<string>,
    log: seq<Entry>)

  const INIT := State(Db(map[], map[]), map[], {}, {}, [])

  function Finish(s: State, db: Db, op: Op, res: Res): State {
    s.(db := db, ids := s.ids + OpIds(op), tokens := s.tokens + OpTokens(op), log := s.log + [Entry(op, res)])
  }

  predicate FreshDraw(s: State, id: string, raw: string) {
    && id !in s.ids && raw !in s.tokens
    && (forall c :: c in s.calls && s.calls[c].Rotating? ==> s.calls[c].id != id && s.calls[c].raw != raw)
  }

  predicate Enabled(s: State, e: Event) {
    match e
    case Atomic(op) =>
      && !op.Rotate? && !op.Revoke?
      && (op.SignUp? ==> op.uid !in s.ids && forall c :: c in s.calls && s.calls[c].Rotating? ==> s.calls[c].id != op.uid)
      && (op.Login? ==> FreshDraw(s, op.id, op.raw))
    case RotateBegin(c, _, id, raw, _) => c !in s.calls && FreshDraw(s, id, raw)
    case RotateEnd(c, _) => c in s.calls && s.calls[c].Rotating?
    case RevokeBegin(c, _, _, _) => c !in s.calls
    case RevokeEnd(c, _) => c in s.calls && s.calls[c].Revoking?
    case DeleteRevoke(_, _) => true
    case DeleteUser(_) => true
  }

  /** The second store step of a rotation: revoke the family of a revoked row, or
      try to rotate a row that was live when it was looked up. */
  function FinishRotation(db: Db, p: Pending, now: Time): (Db, Res)
    requires p.Rotating?
  {
    var (rows, r) := RotateFrom(Postgres, db.users.Keys, db.rows, Some(p.found), p.id, p.raw, now);
    (db.(rows := rows), Refreshed(r))
  }

  ghost function Move(s: State, e: Event): State
    requires Enabled(s, e)
  {
    match e
    case Atomic(op) =>
      var (db, res) := Step(Postgres, s.db, op);
      Finish(s, db, op, res)
    case RotateBegin(c, presented, id, raw, now) =>
      var found := Find(s.db.rows, HashToken(presented));
      if found.None? then Finish(s, s.db, Rotate(presented, id, raw, now), Refreshed(Invalid))
      else s.(calls := s.calls[c := Rotating(presented, found.value, id, raw)])
    case RotateEnd(c, now) =>
      var p := s.calls[c];
      var (db, res) := FinishRotation(s.db, p, now);
      Finish(s, db, Rotate(p.presented, p.id, p.raw, now), res).(calls := s.calls - {c})
    case RevokeBegin(c, sid, uid, now) =>
      if sid !in s.db.rows then Finish(s, s.db, Revoke(sid, uid, now), Failed(ErrNotFound))
      else if s.db.rows[sid].userId != uid then Finish(s, s.db, Revoke(sid, uid, now), Failed(ErrSessionNotOwned))
      else s.(calls := s.calls[c := Revoking(sid, uid)])
    case RevokeEnd(c, now) =>
      var p := s.calls[c];
      var (rows, err) := RevokeIn(Postgres, s.db.rows, p.sid, now);
      Finish(s, s.db.(rows := rows), Revoke(p.sid, p.uid, now), Report(err)).(calls := s.calls - {c})
    case DeleteRevoke(uid, now) =>
      s.(db := s.db.(rows := RevokeScope(s.db.rows, OfUser(uid), now)))
    case DeleteUser(uid) =>
      s.(db := Cascade(s.db, uid))
  }

  // ------------------------------------------------------------------- runs

  ghost predicate Legal(s: State, es: seq<Event>)
    decreases |es|, 0
  {
    es == [] || (Legal(s, Front(es)) && Enabled(Exec(s, Front(es)), Last(es)))
  }

  ghost function Exec(s: State, es: seq<Event>): State
    requires Legal(s, es)
    decreases |es|, 1
  {
    if es == [] then s else Move(Exec(s, Front(es)), Last(es))
  }

  // -------------------------------------------------------------- invariant

  /** How one step may change the table: a row keeps all its columns and, once
      revoked, never changes; a new row either starts a family of its own or
      takes over from a live row of its family, which dies in the same step. */
  ghost predicate Evolves(rows: Rows, rows': Rows, ids: set<string>) {
    && (forall id :: id in rows && id in rows' ==>
          SameRow(rows[id], rows'[id]) && (!Live(rows[id]) ==> rows'[id] == rows[id]))
    && (forall id :: id in rows' && id !in rows ==>
          rows'[id].familyId !in ids || Inherits(rows, rows', id))
  }

  ghost predicate Inherits(rows: Rows, rows': Rows, id: string)
    requires id in rows'
  {
    exists r :: r in rows && r in rows' && rows[r].familyId == rows'[id].familyId
      && SameOrigin(rows'[id], rows[r]) && Live(rows[r]) && !Live(rows'[r])
  }

  /** What a waiting call still knows for sure about the table. */
  ghost predicate PendingOk(rows: Rows, ids: set<string>, tokens: set<string>, p: Pending) {
    match p
    case Rotating(presented, found, id, raw) =>
      && id !in ids && raw !in tokens
      && found.tokenHash == HashToken(presented)
      && found.id in ids && found.familyId in ids
      && (found.id in rows ==> SameRow(rows[found.id], found) && (!Live(found) ==> rows[found.id] == found))
      && (forall r :: r in rows && rows[r].familyId == found.familyId ==> SameOrigin(rows[r], found))
    case Revoking(sid, uid) =>
      && sid in ids
      && (sid in rows ==> rows[sid].userId == uid)
  }

  ghost predicate DistinctDraws(calls: map<nat, Pending>) {
    forall c, d :: c in calls && d in calls && c != d && calls[c].Rotating? && calls[d].Rotating? ==>
      calls[c].id != calls[d].id && calls[c].raw != calls[d].raw
  }

  ghost predicate Inv(s: State) {
    && DbInv(s.db, s.ids, s.tokens)
    && (forall c :: c in s.calls ==> PendingOk(s.db.rows, s.ids, s.tokens, s.calls[c]))
    && DistinctDraws(s.calls)
  }

  lemma StepEvolves(b: Backend, db: Db, op: Op, ids: set<string>, tokens: set<string>)
    requires b == Postgres && RowsInv(db.rows, ids, tokens)
    requires OpIds(op) !! ids
    ensures Evolves(db.rows, Step(b, db, op).0.rows, ids)
  {
    if op.Rotate? {
      var found := Find(db.rows, HashToken(op.presented));
      RotateFromEvolves(db, found, op.id, op.raw, op.now, ids);
    }
  }

  lemma RotateFromEvolves(db: Db, found: Option<Session>, id: string, raw: string, now: Time, ids: set<string>)
    requires forall i :: i in db.rows ==> db.rows[i].id == i && i in ids
    requires id !in ids
    requires found.Some? && found.value.id in db.rows ==> SameRow(db.rows[found.value.id], found.value)
    ensures Evolves(db.rows, RotateFrom(Postgres, db.users.Keys, db.rows, found, id, raw, now).0, ids)
  {
    var rows' := RotateFrom(Postgres, db.users.Keys, db.rows, found, id, raw, now).0;
    if found.Some? && id in rows' {
      var r := found.value.id;
      assert r in db.rows && Live(db.rows[r]) && !Live(rows'[r]);
      assert Inherits(db.rows, rows', id);
    }
  }

  lemma PendingSurvives(rows: Rows, rows': Rows, ids: set<string>, tokens: set<string>, p: Pending,
                        ids': set<string>, tokens': set<string>)
    requires PendingOk(rows, ids, tokens, p) && Evolves(rows, rows', ids)
    requires forall id :: id in rows' && id !in rows ==> id !in ids
    requires ids <= ids' && tokens <= tokens'
    requires p.Rotating? ==> p.id !in ids' && p.raw !in tokens'
    ensures PendingOk(rows', ids', tokens', p)
  {
    if p.Rotating? {
      forall r | r in rows' && rows'[r].familyId == p.found.familyId ensures SameOrigin(rows'[r], p.found) {
        if r !in rows {
          assert Inherits(rows, rows', r);
        }
      }
    }
  }

  lemma RevokeEvolves(rows: Rows, id: string, now: Time, ids: set<string>)
    ensures Evolves(rows, RevokeIn(Postgres, rows, id, now).0, ids)
  {
  }

  lemma BulkEvolves(rows: Rows, scope: Scope, now: Time, ids: set<string>)
    ensures Evolves(rows, RevokeScope(rows, scope, now), ids)
  {
  }

  lemma AddsOnlyFresh(s: State, e: Event)
    requires Inv(s) && Enabled(s, e)
    ensures forall id :: id in Move(s, e).db.rows && id !in s.db.rows ==> id !in s.ids
  {
    if e.RotateEnd? {
      assert PendingOk(s.db.rows, s.ids, s.tokens, s.calls[e.call]);
    }
  }

  lemma MoveEvolves(s: State, e: Event)
    requires Inv(s) && Enabled(s, e)
    ensures Evolves(s.db.rows, Move(s, e).db.rows, s.ids)
    ensures forall id :: id in Move(s, e).db.rows && id !in s.db.rows ==> id !in s.ids
  {
    AddsOnlyFresh(s, e);
    match e
    case Atomic(op) =>
      StepEvolves(Postgres, s.db, op, s.ids, s.tokens);
    case RotateBegin(_, _, _, _, _) =>
    case RotateEnd(c, now) =>
      var p := s.calls[c];
      assert PendingOk(s.db.rows, s.ids, s.tokens, p);
      RotateFromEvolves(s.db, Some(p.found), p.id, p.raw, now, s.ids);
    case RevokeBegin(_, _, _, _) =>
    case RevokeEnd(c, now) =>
      RevokeEvolves(s.db.rows, s.calls[c].sid, now, s.ids);
    case DeleteRevoke(uid, now) =>
      BulkEvolves(s.db.rows, OfUser(uid), now, s.ids);
    case DeleteUser(_) =>
  }

  lemma FinishRotationKeeps(db: Db, p: Pending, now: Time, ids: set<string>, tokens: set<string>)
    requires p.Rotating? && RowsInv(db.rows, ids, tokens) && PendingOk(db.rows, ids, tokens, p)
    ensures RowsInv(FinishRotation(db, p, now).0.rows, ids + {p.id}, tokens + {p.raw})
  {
    if !Live(p.found) || (p.found.id in db.rows && db.rows[p.found.id] == p.found) {
      if Live(p.found) {
        RotateKeeps(Postgres, db.users.Keys, db.rows, ids, tokens, p.found, p.id, p.raw, now);
      } else {
        RevokeScopeKeeps(db.rows, ids, tokens, OfFamily(p.found.familyId), now);
      }
    }
  }

  lemma MoveKeepsRows(s: State, e: Event)
    requires Inv(s) && Enabled(s, e)
    ensures RowsInv(Move(s, e).db.rows, Move(s, e).ids, Move(s, e).tokens)
  {
    match e
    case Atomic(op) =>
      StepKeepsRows(Postgres, s.db, op, s.ids, s.tokens);
    case RotateBegin(_, _, _, _, _) =>
    case RotateEnd(c, now) =>
      FinishRotationKeeps(s.db, s.calls[c], now, s.ids, s.tokens);
    case RevokeBegin(_, _, _, _) =>
    case RevokeEnd(c, now) =>
      RevokeKeeps(Postgres, s.db.rows, s.ids, s.tokens, s.calls[c].sid, now);
    case DeleteRevoke(uid, now) =>
      RevokeScopeKeeps(s.db.rows, s.ids, s.tokens, OfUser(uid), now);
    case DeleteUser(_) =>
  }

  lemma MoveKeepsOwners(s: State, e: Event)
    requires Inv(s) && Enabled(s, e)
    ensures var db := Move(s, e).db; forall id :: id in db.rows ==> db.rows[id].userId in db.users
  {
    match e
    case Atomic(op) =>
      StepKeepsOwners(Postgres, s.db, op);
    case RotateEnd(c, now) =>
      MoveEvolves(s, e);
    case _ =>
  }

  lemma MoveKeepsDraws(s: State, e: Event)
    requires Inv(s) && Enabled(s, e)
    ensures DistinctDraws(Move(s, e).calls)
    ensures s.ids <= Move(s, e).ids && s.tokens <= Move(s, e).tokens
    ensures forall c :: c in Move(s, e).calls && c in s.calls ==> Move(s, e).calls[c] == s.calls[c]
  {
  }

  /** No step spends the draws of a call that keeps waiting. */
  lemma WaitingDrawsStayFresh(s: State, e: Event, c: nat)
    requires Inv(s) && Enabled(s, e) && c in Move(s, e).calls && c in s.calls && s.calls[c].Rotating?
    ensures s.calls[c].id !in Move(s, e).ids && s.calls[c].raw !in Move(s, e).tokens
  {
    assert PendingOk(s.db.rows, s.ids, s.tokens, s.calls[c]);
  }

  /** A call that starts to wait knows the row it has just looked up. */
  lemma NewCallIsOk(s: State, e: Event, c: nat)
    requires Inv(s) && Enabled(s, e) && c in Move(s, e).calls && c !in s.calls
    ensures PendingOk(s.db.rows, s.ids, s.tokens, Move(s, e).calls[c])
    ensures Move(s, e) == s.(calls := s.calls[c := Move(s, e).calls[c]])
  {
  }

  lemma MoveKeepsCalls(s: State, e: Event)
    requires Inv(s) && Enabled(s, e)
    ensures var s' := Move(s, e);
      forall c :: c in s'.calls ==> PendingOk(s'.db.rows, s'.ids, s'.tokens, s'.calls[c])
  {
    var s' := Move(s, e);
    MoveEvolves(s, e);
    MoveKeepsDraws(s, e);
    forall c | c in s'.calls ensures PendingOk(s'.db.rows, s'.ids, s'.tokens, s'.calls[c]) {
      if c in s.calls {
        if s.calls[c].Rotating? {
          WaitingDrawsStayFresh(s, e, c);
        }
        PendingSurvives(s.db.rows, s'.db.rows, s.ids, s.tokens, s.calls[c], s'.ids, s'.tokens);
      } else {
        NewCallIsOk(s, e, c);
      }
    }
  }

  lemma MoveKeeps(s: State, e: Event)
    requires Inv(s) && Enabled(s, e)
    ensures Inv(Move(s, e))
  {
    MoveKeepsRows(s, e);
    MoveKeepsOwners(s, e);
    MoveKeepsDraws(s, e);
    MoveKeepsCalls(s, e);
  }

  lemma {:induction false} ExecKeeps(s: State, es: seq<Event>)
    requires Inv(s) && Legal(s, es)
    ensures Inv(Exec(s, es))
  {
    if es != [] {
      ExecKeeps(s, Front(es));
      MoveKeeps(Exec(s, Front(es)), Last(es));
    }
  }
}
