/** The in-memory session store. Each method runs under the store's mutex, so
    it is one atomic call; loops visit the map in an arbitrary order. */
module MemorySessionStores {
  import opened Types
  import opened SessionRows

  class SessionStore {
    var byID: Rows

    constructor ()
      ensures byID == map[]
    {
      byID := map[];
    }

    method Create(s: Session, now: Time) returns (err: Option<Error>)
      modifies this
      ensures (byID, err) == CreateIn(Memory, {}, old(byID), s, now)
    {
      byID := byID[s.id := s.(createdAt := now)];
      err := None;
    }

    method GetByID(id: string) returns (r: Result<Session>)
      ensures r == if id in byID then Ok(byID[id]) else Err(ErrNotFound)
    {
      if id in byID {
        return Ok(byID[id]);
      }
      return Err(ErrNotFound);
    }

    method GetByTokenHash(h: Digest) returns (found: Option<Session>)
      ensures IsLookup(byID, h, found)
    {
      var todo := byID.Keys;
      while todo != {}
        invariant todo <= byID.Keys
        invariant forall id :: id in byID && id !in todo ==> byID[id].tokenHash != h
        decreases todo
      {
        var id :| id in todo;
        if byID[id].tokenHash == h {
          return Some(byID[id]);
        }
        todo := todo - {id};
      }
      return None;
    }

    method ListByUser(uid: string) returns (out: seq<Session>, ghost order: seq<string>)
      ensures IsListing(byID, uid, out, order)
      ensures forall s :: s in out <==> s in byID.Values && s.userId == uid && Live(s)
    {
      out, order := [], [];
      var todo := byID.Keys;
      while todo != {}
        invariant todo <= byID.Keys
        invariant |order| == |out|
        invariant forall k :: 0 <= k < |out| ==>
          order[k] in byID && order[k] !in todo && byID[order[k]] == out[k] && out[k].userId == uid && Live(out[k])
        invariant forall j, k :: 0 <= j < k < |order| ==> order[j] != order[k]
        invariant forall id :: id in byID && id !in todo && byID[id].userId == uid && Live(byID[id]) ==> id in order
        decreases todo
      {
        var id :| id in todo;
        if byID[id].userId == uid && Live(byID[id]) {
          out, order := out + [byID[id]], order + [id];
        }
        todo := todo - {id};
      }
    }

    method Revoke(id: string, now: Time) returns (err: Option<Error>)
      modifies this
      ensures (byID, err) == RevokeIn(Memory, old(byID), id, now)
    {
      if id !in byID {
        return Some(ErrNotFound);
      }
      byID := byID[id := byID[id].(revokedAt := Some(now))];
      return None;
    }

    method RevokeFamily(familyId: string, now: Time)
      modifies this
      ensures byID == RevokeScope(old(byID), OfFamily(familyId), now)
    {
      var todo := byID.Keys;
      while todo != {}
        invariant todo <= byID.Keys == old(byID).Keys
        invariant forall id :: id in todo ==> byID[id] == old(byID)[id]
        invariant forall id :: id in byID && id !in todo ==> byID[id] == RevokeScope(old(byID), OfFamily(familyId), now)[id]
        decreases todo
      {
        var id :| id in todo;
        if byID[id].familyId == familyId && Live(byID[id]) {
          byID := byID[id := byID[id].(revokedAt := Some(now))];
        }
        todo := todo - {id};
      }
    }

    method RevokeAllForUser(uid: string, now: Time)
      modifies this
      ensures byID == RevokeScope(old(byID), OfUser(uid), now)
    {
      var todo := byID.Keys;
      while todo != {}
        invariant todo <= byID.Keys == old(byID).Keys
        invariant forall id :: id in todo ==> byID[id] == old(byID)[id]
        invariant forall id :: id in byID && id !in todo ==> byID[id] == RevokeScope(old(byID), OfUser(uid), now)[id]
        decreases todo
      {
        var id :| id in todo;
        if byID[id].userId == uid && Live(byID[id]) {
          byID := byID[id := byID[id].(revokedAt := Some(now))];
        }
        todo := todo - {id};
      }
    }

    method RotateToken(oldId: string, s: Session, now: Time) returns (err: Option<Error>)
      modifies this
      ensures (byID, err) == RotateIn(Memory, {}, old(byID), oldId, s, now)
    {
      if oldId !in byID {
        return Some(ErrNotFound);
      }
      byID := byID[oldId := byID[oldId].(revokedAt := Some(now))];
      byID := byID[s.id := s.(createdAt := now)];
      return None;
    }
  }
}
