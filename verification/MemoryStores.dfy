/** The in-memory user, verification and audit stores. */
module MemoryStores {
  import opened Types

  type Users = map<string, User>
  type Verifications = map<string, VerificationToken>

  // ------------------------------------------- the tables, as values

  predicate IsEmailLookup(users: Users, email: string, found: Option<User>) {
    match found
    case Some(u) => u.email == email && exists id :: id in users && users[id] == u
    case None => forall id :: id in users ==> users[id].email != email
  }

  ghost function AnyLookup(users: Users, email: string): (found: Option<User>)
    ensures IsEmailLookup(users, email, found)
  {
    if id :| id in users && users[id].email == email then Some(users[id]) else None
  }

  predicate IsTokenLookup(vs: Verifications, h: Digest, found: Option<VerificationToken>) {
    match found
    case Some(v) => v.tokenHash == h && exists id :: id in vs && vs[id] == v
    case None => forall id :: id in vs ==> vs[id].tokenHash != h
  }

  function WithEmail(users: Users, id: string, email: string): Users {
    if id in users then users[id := users[id].(email := email)] else users
  }

  function WithPassword(users: Users, id: string, hash: string): Users {
    if id in users then users[id := users[id].(passwordHash := hash)] else users
  }

  function WithFailure(users: Users, id: string): Users {
    if id in users then users[id := users[id].(failedAttempts := users[id].failedAttempts + 1)] else users
  }

  function WithReset(users: Users, id: string): Users {
    if id in users then users[id := users[id].(failedAttempts := 0, lockedUntil := None)] else users
  }

  function WithLock(users: Users, id: string, until: Time): Users {
    if id in users then users[id := users[id].(lockedUntil := Some(until))] else users
  }

  function WithUsed(vs: Verifications, id: string, now: Time): Verifications {
    if id in vs then vs[id := vs[id].(usedAt := Some(now))] else vs
  }

  function Missing<V>(m: map<string, V>, id: string): Option<Error> {
    if id in m then None else Some(ErrNotFound)
  }

  // -------------------------------------------------------------- stores

  class UserStore {
    var byID: Users

    constructor ()
      ensures byID == map[]
    {
      byID := map[];
    }

    method Create(user: User)
      modifies this
      ensures byID == old(byID)[user.id := user]
    {
      byID := byID[user.id := user];
    }

    method GetByEmail(email: string) returns (found: Option<User>)
      ensures IsEmailLookup(byID, email, found)
    {
      var todo := byID.Keys;
      while todo != {}
        invariant todo <= byID.Keys
        invariant forall id :: id in byID && id !in todo ==> byID[id].email != email
        decreases todo
      {
        var id :| id in todo;
        if byID[id].email == email {
          return Some(byID[id]);
        }
        todo := todo - {id};
      }
      return None;
    }

    method GetByID(id: string) returns (r: Result<User>)
      ensures r == if id in byID then Ok(byID[id]) else Err(ErrNotFound)
    {
      if id !in byID {
        return Err(ErrNotFound);
      }
      return Ok(byID[id]);
    }

    method UpdateEmail(id: string, email: string) returns (err: Option<Error>)
      modifies this
      ensures byID == WithEmail(old(byID), id, email) && err == Missing(old(byID), id)
    {
      if id !in byID {
        return Some(ErrNotFound);
      }
      byID := byID[id := byID[id].(email := email)];
      return None;
    }

    method UpdatePasswordHash(id: string, hash: string) returns (err: Option<Error>)
      modifies this
      ensures byID == WithPassword(old(byID), id, hash) && err == Missing(old(byID), id)
    {
      if id !in byID {
        return Some(ErrNotFound);
      }
      byID := byID[id := byID[id].(passwordHash := hash)];
      return None;
    }

    method Delete(id: string) returns (err: Option<Error>)
      modifies this
      ensures byID == old(byID) - {id} && err == Missing(old(byID), id)
    {
      if id !in byID {
        return Some(ErrNotFound);
      }
      byID := byID - {id};
      return None;
    }

    method IncrementFailedAttempts(id: string) returns (r: Result<int>)
      modifies this
      ensures byID == WithFailure(old(byID), id)
      ensures r == if id in byID then Ok(byID[id].failedAttempts) else Err(ErrNotFound)
    {
      if id !in byID {
        return Err(ErrNotFound);
      }
      byID := byID[id := byID[id].(failedAttempts := byID[id].failedAttempts + 1)];
      return Ok(byID[id].failedAttempts);
    }

    method ResetFailedAttempts(id: string) returns (err: Option<Error>)
      modifies this
      ensures byID == WithReset(old(byID), id) && err == Missing(old(byID), id)
    {
      if id !in byID {
        return Some(ErrNotFound);
      }
      byID := byID[id := byID[id].(failedAttempts := 0, lockedUntil := None)];
      return None;
    }

    method LockAccount(id: string, until: Time) returns (err: Option<Error>)
      modifies this
      ensures byID == WithLock(old(byID), id, until) && err == Missing(old(byID), id)
    {
      if id !in byID {
        return Some(ErrNotFound);
      }
      byID := byID[id := byID[id].(lockedUntil := Some(until))];
      return None;
    }
  }

  class VerificationStore {
    var byID: Verifications

    constructor ()
      ensures byID == map[]
    {
      byID := map[];
    }

    method Create(v: VerificationToken)
      modifies this
      ensures byID == old(byID)[v.id := v]
    {
      byID := byID[v.id := v];
    }

    method GetByTokenHash(h: Digest) returns (found: Option<VerificationToken>)
      ensures IsTokenLookup(byID, h, found)
    {
      var todo := byID.Keys;
      while todo != {}
        invariant todo <= byID.Keys
        invariant forall id :: id in byID && id !in todo ==> byID[id].tokenHash != h
        decreases todo
      {
        var id :| id in todo;
        if byID[id].tokenHash == h {
          return Some(byID[id]);
        }
        todo := todo - {id};
      }
      return None;
    }

    method MarkUsed(id: string, now: Time) returns (err: Option<Error>)
      modifies this
      ensures byID == WithUsed(old(byID), id, now) && err == Missing(old(byID), id)
    {
      if id !in byID {
        return Some(ErrNotFound);
      }
      byID := byID[id := byID[id].(usedAt := Some(now))];
      return None;
    }
  }

  class AuditStore {
    var events: seq<AuditEvent>

    constructor ()
      ensures events == []
    {
      events := [];
    }

    method Record(kind: EventType, userId: string, ip: string, metadata: map<string, string>)
      modifies this
      ensures events == old(events) + [AuditEvent(kind, userId, ip, metadata)]
    {
      events := events + [AuditEvent(kind, userId, ip, metadata)];
    }
  }
}
