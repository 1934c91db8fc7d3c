/** `token.Rotate` over the Postgres store, cut where other calls can come in
    between: the two halves are the steps of the interleaved machine. */
module PostgresRotate {
  import opened Types
  import opened SessionRows
  import opened Interleaved
  import Stores = PostgresSessionStores

  method Lookup(sessions: Stores.SessionStore, presented: string, id: string, raw: string)
    returns (r: RotateResult, pending: Option<Pending>)
    ensures if pending.None? then
        r == Invalid && IsLookup(sessions.rows, HashToken(presented), None)
      else
        && pending.value.Rotating? && pending.value == Rotating(presented, pending.value.found, id, raw)
        && IsLookup(sessions.rows, HashToken(presented), Some(pending.value.found))
  {
    var found := sessions.GetByTokenHash(HashToken(presented));
    r := Invalid;
    pending := if found.None? then None else Some(Rotating(presented, found.value, id, raw));
  }

  method FinishRotate(sessions: Stores.SessionStore, p: Pending, now: Time) returns (r: RotateResult)
    requires p.Rotating?
    modifies sessions`rows
    ensures (sessions.rows, r) == RotateFrom(Postgres, sessions.users, old(sessions.rows), Some(p.found), p.id, p.raw, now)
  {
    var existing := p.found;
    if existing.revokedAt.Some? {
      sessions.RevokeFamily(existing.familyId, now);
      assert sessions.rows == RevokeScope(old(sessions.rows), OfFamily(existing.familyId), now);
      return Reused(existing);
    }
    var s := Session(p.id, existing.familyId, existing.userId, HashToken(p.raw), existing.ip, existing.userAgent, 0, None);
    var err := sessions.RotateToken(existing.id, s, now);
    if err.Some? {
      return StoreFailed(err.value);
    }
    return Rotated(s, p.raw);
  }

  /** A call that nothing interrupts. */
  method Rotate(sessions: Stores.SessionStore, presented: string, id: string, raw: string, now: Time)
    returns (r: RotateResult, ghost found: Option<Session>)
    modifies sessions`rows
    ensures IsLookup(old(sessions.rows), HashToken(presented), found)
    ensures (sessions.rows, r) == RotateFrom(Postgres, sessions.users, old(sessions.rows), found, id, raw, now)
  {
    var pending;
    r, pending := Lookup(sessions, presented, id, raw);
    found := None;
    if pending.Some? {
      found := Some(pending.value.found);
      r := FinishRotate(sessions, pending.value, now);
    }
  }
}
