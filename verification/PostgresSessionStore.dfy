/** The Postgres session store. Every method is one statement or one
    transaction, taken as a single atomic step on the tables. */
module PostgresSessionStores {
  import opened Types
  import opened SessionRows

  class SessionStore {
    var users: set<string>   // primary keys of the users table
    var rows: Rows

    method Create(s: Session, now: Time) returns (err: Option<Error>)
      modifies this`rows
      ensures (rows, err) == CreateIn(Postgres, users, old(rows), s, now)
    {
      if !Insertable(users, rows, s) {
        return Some(ErrConstraint);
      }
      rows := rows[s.id := s.(createdAt := now)];
      return None;
    }

    method GetByID(id: string) returns (r: Result<Session>)
      ensures r == if id in rows then Ok(rows[id]) else Err(ErrNotFound)
    {
      return if id in rows then Ok(rows[id]) else Err(ErrNotFound);
    }

    method GetByTokenHash(h: Digest) returns (found: Option<Session>)
      ensures IsLookup(rows, h, found)
    {
      if id :| id in rows && rows[id].tokenHash == h {
        return Some(rows[id]);
      }
      return None;
    }

    method Revoke(id: string, now: Time) returns (err: Option<Error>)
      modifies this`rows
      ensures (rows, err) == RevokeIn(Postgres, old(rows), id, now)
    {
      var affected := if id in rows && Live(rows[id]) then 1 else 0;
      if affected == 0 {
        return Some(ErrNotFound);
      }
      rows := rows[id := rows[id].(revokedAt := Some(now))];
      return None;
    }

    method RevokeFamily(familyId: string, now: Time)
      modifies this`rows
      ensures rows.Keys == old(rows).Keys
      ensures forall id :: id in rows ==>
        rows[id] == if old(rows)[id].familyId == familyId && Live(old(rows)[id]) then old(rows)[id].(revokedAt := Some(now)) else old(rows)[id]
    {
      rows := RevokeScope(rows, OfFamily(familyId), now);
    }

    method RevokeAllForUser(uid: string, now: Time)
      modifies this`rows
      ensures rows.Keys == old(rows).Keys
      ensures forall id :: id in rows ==>
        rows[id] == if old(rows)[id].userId == uid && Live(old(rows)[id]) then old(rows)[id].(revokedAt := Some(now)) else old(rows)[id]
    {
      rows := RevokeScope(rows, OfUser(uid), now);
    }

    /** The transaction: the revocation is undone when the insert fails. */
    method RotateToken(oldId: string, s: Session, now: Time) returns (err: Option<Error>)
      modifies this`rows
      ensures (rows, err) == RotateIn(Postgres, users, old(rows), oldId, s, now)
    {
      var before := rows;
      err := Revoke(oldId, now);
      if err.Some? {
        return;
      }
      err := Create(s, now);
      if err.Some? {
        rows := before;
      }
    }
  }
}
