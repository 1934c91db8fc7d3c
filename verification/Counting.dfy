/** Sessions are conserved: what the audit log says was created is what the
    store holds, and a listing has one entry per live family. */
module Counting {
  import opened Types
  import opened Runs
  import opened SessionRows
  import opened Engines
  import opened EngineRuns
  import opened History

  function SessionsOf(rows: Rows, uid: string): set<string> {
    set id | id in rows && rows[id].userId == uid
  }

  /** The events that report a new session of the user. */
  function Created(audit: seq<AuditEvent>, uid: string): nat {
    Count(audit, LoginSuccess, uid) + Count(audit, TokenRotated, uid)
  }

  lemma CreatedAppend(audit: seq<AuditEvent>, e: AuditEvent, uid: string)
    ensures Created(audit + [e], uid) ==
      Created(audit, uid) + (if IsOf(e, LoginSuccess, uid) || IsOf(e, TokenRotated, uid) then 1 else 0)
  {
    CountAppend(audit, e, LoginSuccess, uid);
    CountAppend(audit, e, TokenRotated, uid);
  }

  lemma SameOwners(rows: Rows, rows': Rows, uid: string)
    requires rows'.Keys == rows.Keys && forall id :: id in rows ==> rows'[id].userId == rows[id].userId
    ensures SessionsOf(rows', uid) == SessionsOf(rows, uid)
  {
  }

  lemma NewRowCounts(rows: Rows, s: Session, uid: string)
    requires s.id !in rows
    ensures |SessionsOf(rows[s.id := s], uid)| == |SessionsOf(rows, uid)| + (if s.userId == uid then 1 else 0)
  {
    assert SessionsOf(rows[s.id := s], uid) == SessionsOf(rows, uid) + (if s.userId == uid then {s.id} else {});
  }

  lemma FailedLoginCreatesNothing(cfg: Config, s: State, at: string, ip: string, lockAt: Time, uid: string)
    ensures Created(FailLogin(cfg, s, at, ip, lockAt).audit, uid) == Created(s.audit, uid)
  {
    var failed := FailedLogin(at, ip, "wrong_password");
    CreatedAppend(s.audit, failed, uid);
    CreatedAppend(s.audit + [failed], Event(AccountLocked, at, ip), uid);
  }

  lemma PassedLoginCounts(s: State, at: string, op: Op, uid: string)
    requires op.Login? && op.id !in s.sessions
    ensures var s' := PassLogin(s, at, op);
      |SessionsOf(s'.sessions, uid)| - |SessionsOf(s.sessions, uid)| == Created(s'.audit, uid) - Created(s.audit, uid)
  {
    CreatedAppend(s.audit, Event(LoginSuccess, at, op.ip), uid);
    NewRowCounts(s.sessions, NewSession(op, at).(createdAt := op.createAt), uid);
  }

  lemma LoginCounts(cfg: Config, s: State, op: Op, uid: string)
    requires op.Login? && op.id !in s.sessions
    ensures var s' := Step(cfg, s, op).0;
      |SessionsOf(s'.sessions, uid)| - |SessionsOf(s.sessions, uid)| == Created(s'.audit, uid) - Created(s.audit, uid)
  {
    var s' := Step(cfg, s, op).0;
    var s0 := LoginOutcomes(cfg, s, op);
    CreatedAppend(s.audit, FailedLogin("", op.ip, "no_such_user"), uid);
    if op.user.Some? && s' == FailLogin(cfg, s0, op.user.value.id, op.ip, op.lockAt) {
      FailedLoginCreatesNothing(cfg, s0, op.user.value.id, op.ip, op.lockAt, uid);
      assert s'.sessions == s.sessions;
    } else if op.user.Some? && s' == PassLogin(s0, op.user.value.id, op) {
      PassedLoginCounts(s0, op.user.value.id, op, uid);
    } else {
      assert s'.sessions == s.sessions;
    }
  }

  lemma RotationCounts(rows: Rows, prev: Session, id: string, raw: string, now: Time, uid: string)
    requires prev.id in rows && rows[prev.id] == prev && id !in rows
    ensures var (rows', r) := RotateFrom(Memory, {}, rows, Some(prev), id, raw, now);
      && (r.Rotated? <==> Live(prev)) && (r.Rotated? ==> r.session.userId == prev.userId)
      && |SessionsOf(rows', uid)| == |SessionsOf(rows, uid)| + (if Live(prev) && prev.userId == uid then 1 else 0)
  {
    if Live(prev) {
      var revoked := rows[prev.id := prev.(revokedAt := Some(now))];
      SameOwners(rows, revoked, uid);
      NewRowCounts(revoked, Successor(prev, id, raw).(createdAt := now), uid);
    } else {
      SameOwners(rows, RevokeScope(rows, OfFamily(prev.familyId), now), uid);
    }
  }

  lemma RefreshCounts(cfg: Config, s: State, op: Op, uid: string)
    requires op.RefreshToken? && op.id !in s.sessions && IsLookup(s.sessions, HashToken(op.presented), op.session)
    requires forall id :: id in s.sessions ==> s.sessions[id].id == id
    ensures var s' := Step(cfg, s, op).0;
      |SessionsOf(s'.sessions, uid)| - |SessionsOf(s.sessions, uid)| == Created(s'.audit, uid) - Created(s.audit, uid)
  {
    if op.session.Some? {
      var prev := op.session.value;
      RotationCounts(s.sessions, prev, op.id, op.raw, op.now, uid);
      CreatedAppend(s.audit, Event(if Live(prev) then TokenRotated else TokenReuseDetected, prev.userId, ""), uid);
    }
  }

  lemma OthersCreateNothing(cfg: Config, s: State, op: Op, uid: string)
    requires !op.Login? && !op.RefreshToken?
    ensures var s' := Step(cfg, s, op).0;
      && SessionsOf(s'.sessions, uid) == SessionsOf(s.sessions, uid)
      && (s'.audit == s.audit
          || (s'.audit == s.audit + [Last(s'.audit)] && Last(s'.audit).kind != LoginSuccess && Last(s'.audit).kind != TokenRotated))
  {
    OtherEvents(cfg, s, op);
    OtherSessionEffect(cfg, s, op);
    RevocationsKeepOwners(s.sessions, op, uid);
  }

  lemma RevocationsKeepOwners(rows: Rows, op: Op, uid: string)
    requires !op.Login? && !op.RefreshToken?
    ensures SessionsOf(SessionsAfter(rows, op), uid) == SessionsOf(rows, uid)
  {
    SameOwners(rows, SessionsAfter(rows, op), uid);
  }

  lemma OthersCount(cfg: Config, s: State, op: Op, uid: string)
    requires !op.Login? && !op.RefreshToken?
    ensures var s' := Step(cfg, s, op).0;
      |SessionsOf(s'.sessions, uid)| - |SessionsOf(s.sessions, uid)| == Created(s'.audit, uid) - Created(s.audit, uid)
  {
    OthersCreateNothing(cfg, s, op, uid);
    var s' := Step(cfg, s, op).0;
    if s'.audit != s.audit {
      CreatedAppend(s.audit, Last(s'.audit), uid);
    }
  }

  /** After every serial run, and whatever was revoked or deleted since, a user has
      as many session rows as the log has logins and rotations of theirs. */
  lemma {:induction false} SessionsAreConserved(cfg: Config, ops: seq<Op>, uid: string)
    requires Legal(cfg, ops)
    ensures |SessionsOf(Run(cfg, ops).sessions, uid)| == Created(Run(cfg, ops).audit, uid)
  {
    if ops == [] {
      assert SessionsOf(map[], uid) == {};
    } else {
      var s, op := Run(cfg, Front(ops)), Last(ops);
      SessionsAreConserved(cfg, Front(ops), uid);
      RunKeepsTables(cfg, Front(ops));
      match op
      case Login(_, _, _, _, _, _, _, _, _, _, _) => LoginCounts(cfg, s, op, uid);
      case RefreshToken(_, _, _, _, _) => RefreshCounts(cfg, s, op, uid);
      case _ => OthersCount(cfg, s, op, uid);
    }
  }

  // ---------------------------------------------------------------- listings

  /** The user's families that still have a live session. */
  function LiveFamilies(rows: Rows, uid: string): set<string> {
    set id | id in rows && rows[id].userId == uid && Live(rows[id]) :: rows[id].familyId
  }

  function FamiliesIn(out: seq<Session>): set<string> {
    set s | s in out :: s.familyId
  }

  lemma {:induction false} DistinctFamilies(out: seq<Session>)
    requires forall j, k :: 0 <= j < k < |out| ==> out[j].familyId != out[k].familyId
    ensures |FamiliesIn(out)| == |out|
  {
    if out != [] {
      DistinctFamilies(Front(out));
      assert out == Front(out) + [Last(out)];
      assert FamiliesIn(out) == FamiliesIn(Front(out)) + {Last(out).familyId};
      assert Last(out).familyId !in FamiliesIn(Front(out));
    }
  }

  /** In every serial run a listing of a user's sessions names each of their live
      families exactly once, and nothing else. */
  lemma ListingIsByFamily(cfg: Config, ops: seq<Op>, uid: string, out: seq<Session>, order: seq<string>)
    requires Legal(cfg, ops) && IsListing(Run(cfg, ops).sessions, uid, out, order)
    ensures forall j, k :: 0 <= j < k < |out| ==> out[j].familyId != out[k].familyId
    ensures FamiliesIn(out) == LiveFamilies(Run(cfg, ops).sessions, uid)
    ensures |out| == |LiveFamilies(Run(cfg, ops).sessions, uid)|
  {
    var rows := Run(cfg, ops).sessions;
    RunKeepsTables(cfg, ops);
    ListedFamilies(rows, uid, out, order);
    DistinctFamilies(out);
  }

  lemma ListedFamilies(rows: Rows, uid: string, out: seq<Session>, order: seq<string>)
    requires OneLive(rows) && IsListing(rows, uid, out, order)
    ensures forall j, k :: 0 <= j < k < |out| ==> out[j].familyId != out[k].familyId
    ensures FamiliesIn(out) == LiveFamilies(rows, uid)
  {
    forall f | f in LiveFamilies(rows, uid) ensures f in FamiliesIn(out) {
      var id :| id in rows && rows[id].userId == uid && Live(rows[id]) && rows[id].familyId == f;
      var k :| 0 <= k < |order| && order[k] == id;
      assert out[k] in out;
    }
    forall f | f in FamiliesIn(out) ensures f in LiveFamilies(rows, uid) {
      var s :| s in out && s.familyId == f;
      var k :| 0 <= k < |out| && out[k] == s;
      assert rows[order[k]] == s;
    }
  }
}
