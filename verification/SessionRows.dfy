/** The sessions table as a value: what each store call does to its rows, and
    the invariant that every backend keeps. */
module SessionRows {
  import opened Types

  type Rows = map<string, Session>

  datatype Backend = Memory | Postgres

  /** The rows a bulk revocation is aimed at. */
  datatype Scope = OfFamily(familyId: string) | OfUser(userId: string)

  predicate Live(s: Session) {
    s.revokedAt.None?
  }

  predicate InScope(s: Session, scope: Scope) {
    match scope
    case OfFamily(f) => s.familyId == f
    case OfUser(u) => s.userId == u
  }

  /** Equal in every column but `revokedAt`. */
  predicate SameRow(a: Session, b: Session) {
    a.(revokedAt := None) == b.(revokedAt := None)
  }

  /** The columns a rotation copies from the row it replaces. */
  predicate SameOrigin(a: Session, b: Session) {
    a.userId == b.userId && a.ip == b.ip && a.userAgent == b.userAgent
  }

  // ---------------------------------------------------------------- lookups

  /** `found` is an answer a scan for `h` may give: some row carrying the hash,
      or none when no row carries it. */
  predicate IsLookup(rows: Rows, h: Digest, found: Option<Session>) {
    match found
    case Some(s) => exists id :: id in rows && rows[id] == s && s.tokenHash == h
    case None => forall id :: id in rows ==> rows[id].tokenHash != h
  }

  ghost function Find(rows: Rows, h: Digest): (found: Option<Session>)
    ensures IsLookup(rows, h, found)
  {
    if id :| id in rows && rows[id].tokenHash == h then Some(rows[id]) else None
  }

  /** `out` lists the user's live rows, each exactly once, in the order `order`. */
  predicate IsListing(rows: Rows, uid: string, out: seq<Session>, order: seq<string>) {
    && |order| == |out|
    && (forall k :: 0 <= k < |out| ==>
          order[k] in rows && rows[order[k]] == out[k] && out[k].userId == uid && Live(out[k]))
    && (forall j, k :: 0 <= j < k < |order| ==> order[j] != order[k])
    && (forall id :: id in rows && rows[id].userId == uid && Live(rows[id]) ==> id in order)
  }

  // ------------------------------------------------------------ store calls

  /** What an INSERT into the Postgres table needs: a new primary key, a new
      token hash and an existing user. */
  predicate Insertable(users: set<string>, rows: Rows, s: Session) {
    && s.id !in rows
    && (forall id :: id in rows ==> rows[id].tokenHash != s.tokenHash)
    && s.userId in users
  }

  function CreateIn(b: Backend, users: set<string>, rows: Rows, s: Session, now: Time): (Rows, Option<Error>) {
    if b == Postgres && !Insertable(users, rows, s) then
      (rows, Some(ErrConstraint))
    else
      (rows[s.id := s.(createdAt := now)], None)
  }

  /** Revocation by id: Postgres only touches an unrevoked row, the memory
      store overwrites the revocation time of any row. */
  function RevokeIn(b: Backend, rows: Rows, id: string, now: Time): (Rows, Option<Error>) {
    if id !in rows || (b == Postgres && !Live(rows[id])) then
      (rows, Some(ErrNotFound))
    else
      (rows[id := rows[id].(revokedAt := Some(now))], None)
  }

  function RevokeScope(rows: Rows, scope: Scope, now: Time): Rows {
    map id | id in rows ::
      if InScope(rows[id], scope) && Live(rows[id]) then rows[id].(revokedAt := Some(now)) else rows[id]
  }

  /** The atomic revoke-and-create; the Postgres one is rolled back as a whole
      when either half fails. */
  function RotateIn(b: Backend, users: set<string>, rows: Rows, oldId: string, s: Session, now: Time): (Rows, Option<Error>) {
    var (revoked, err) := RevokeIn(b, rows, oldId, now);
    if err.Some? then
      (rows, err)
    else
      var (created, err') := CreateIn(b, users, revoked, s, now);
      if err'.Some? then (rows, err') else (created, None)
  }

  // -------------------------------------------- calls built from store calls

  datatype RotateResult =
    | Rotated(session: Session, raw: string)
    | Reused(existing: Session)
    | Invalid
    | StoreFailed(error: Error)

  function Successor(s: Session, id: string, raw: string): Session {
    Session(id, s.familyId, s.userId, HashToken(raw), s.ip, s.userAgent, 0, None)
  }

  /** `Rotate` from its lookup on: `found` is what the lookup returned. */
  function RotateFrom(b: Backend, users: set<string>, rows: Rows, found: Option<Session>, id: string, raw: string, now: Time): (Rows, RotateResult) {
    match found
    case None => (rows, Invalid)
    case Some(existing) =>
      if !Live(existing) then
        (RevokeScope(rows, OfFamily(existing.familyId), now), Reused(existing))
      else
        var s := Successor(existing, id, raw);
        var (rows', err) := RotateIn(b, users, rows, existing.id, s, now);
        (rows', if err.Some? then StoreFailed(err.value) else Rotated(s, raw))
  }

  /** `Logout` and `session.Revoke` differ only in the event they record. */
  function RevokeOwned(b: Backend, rows: Rows, sid: string, uid: string, now: Time): (Rows, Option<Error>) {
    if sid !in rows then (rows, Some(ErrNotFound))
    else if rows[sid].userId != uid then (rows, Some(ErrSessionNotOwned))
    else RevokeIn(b, rows, sid, now)
  }

  // -------------------------------------------------------------- invariant

  /** Every row sits under its own id; ids and tokens come from the draws made
      so far. */
  ghost predicate Keyed(rows: Rows, ids: set<string>, tokens: set<string>) {
    forall id :: id in rows ==>
      && rows[id].id == id
      && id in ids
      && rows[id].familyId in ids
      && rows[id].tokenHash.raw in tokens
  }

  ghost predicate UniqueHashes(rows: Rows) {
    forall a, b :: a in rows && b in rows && rows[a].tokenHash == rows[b].tokenHash ==> a == b
  }

  ghost predicate SingleOwner(rows: Rows) {
    forall a, b :: a in rows && b in rows && rows[a].familyId == rows[b].familyId ==> SameOrigin(rows[a], rows[b])
  }

  ghost predicate OneLive(rows: Rows) {
    forall a, b :: a in rows && b in rows && rows[a].familyId == rows[b].familyId && Live(rows[a]) && Live(rows[b]) ==> a == b
  }

  ghost predicate RowsInv(rows: Rows, ids: set<string>, tokens: set<string>) {
    Keyed(rows, ids, tokens) && UniqueHashes(rows) && SingleOwner(rows) && OneLive(rows)
  }

  lemma LookupIsUnique(rows: Rows, h: Digest, a: Option<Session>, b: Option<Session>)
    requires UniqueHashes(rows)
    requires IsLookup(rows, h, a) && IsLookup(rows, h, b)
    ensures a == b
  {
  }

  lemma FindByRow(rows: Rows, id: string)
    requires UniqueHashes(rows) && id in rows
    ensures Find(rows, rows[id].tokenHash) == Some(rows[id])
  {
    LookupIsUnique(rows, rows[id].tokenHash, Find(rows, rows[id].tokenHash), Some(rows[id]));
  }

  /** A login's row starts a family of its own. */
  lemma CreateKeeps(rows: Rows, ids: set<string>, tokens: set<string>, s: Session)
    requires RowsInv(rows, ids, tokens)
    requires s.familyId == s.id && s.id !in ids && s.tokenHash.raw !in tokens
    ensures RowsInv(rows[s.id := s], ids + {s.id}, tokens + {s.tokenHash.raw})
  {
  }

  lemma RevokeKeeps(b: Backend, rows: Rows, ids: set<string>, tokens: set<string>, id: string, now: Time)
    requires RowsInv(rows, ids, tokens)
    ensures RowsInv(RevokeIn(b, rows, id, now).0, ids, tokens)
  {
  }

  lemma RevokeScopeKeeps(rows: Rows, ids: set<string>, tokens: set<string>, scope: Scope, now: Time)
    requires RowsInv(rows, ids, tokens)
    ensures RowsInv(RevokeScope(rows, scope, now), ids, tokens)
  {
    var rows' := RevokeScope(rows, scope, now);
    forall id | id in rows' ensures SameRow(rows[id], rows'[id]) && (Live(rows'[id]) ==> Live(rows[id])) {}
  }

  /** Rotating the live row of a family moves its liveness to the new row. */
  lemma RotateKeeps(b: Backend, users: set<string>, rows: Rows, ids: set<string>, tokens: set<string>,
                    prev: Session, id: string, raw: string, now: Time)
    requires RowsInv(rows, ids, tokens)
    requires prev.id in rows && rows[prev.id] == prev && Live(prev)
    requires id !in ids && raw !in tokens
    ensures RowsInv(RotateIn(b, users, rows, prev.id, Successor(prev, id, raw), now).0, ids + {id}, tokens + {raw})
  {
    var revoked := RevokeIn(b, rows, prev.id, now).0;
    RevokeKeeps(b, rows, ids, tokens, prev.id, now);
    var s := Successor(prev, id, raw).(createdAt := now);
    var created := revoked[id := s];
    assert RowsInv(created, ids + {id}, tokens + {raw});
  }

  lemma RotateFromKeeps(b: Backend, users: set<string>, rows: Rows, ids: set<string>, tokens: set<string>,
                        found: Option<Session>, id: string, raw: string, now: Time)
    requires RowsInv(rows, ids, tokens)
    requires found.Some? ==> found.value.id in rows && rows[found.value.id] == found.value
    requires id !in ids && raw !in tokens
    ensures RowsInv(RotateFrom(b, users, rows, found, id, raw, now).0, ids + {id}, tokens + {raw})
  {
    if found.Some? {
      if Live(found.value) {
        RotateKeeps(b, users, rows, ids, tokens, found.value, id, raw, now);
      } else {
        RevokeScopeKeeps(rows, ids, tokens, OfFamily(found.value.familyId), now);
      }
    }
  }
}
