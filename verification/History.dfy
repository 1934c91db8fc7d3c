/** The audit log as an independent history: counters and locks recomputed from
    the events agree with the user store after any serial run. */
module History {
  import opened Types
  import opened Runs
  import opened MemoryStores
  import opened Engines
  import opened EngineRuns

  predicate IsWrongPassword(e: AuditEvent, uid: string) {
    e.kind == LoginFailed && e.userId == uid && "reason" in e.metadata && e.metadata["reason"] == "wrong_password"
  }

  predicate IsOf(e: AuditEvent, kind: EventType, uid: string) {
    e.kind == kind && e.userId == uid
  }

  function Count(audit: seq<AuditEvent>, kind: EventType, uid: string): nat {
    if audit == [] then 0 else Count(Front(audit), kind, uid) + (if IsOf(Last(audit), kind, uid) then 1 else 0)
  }

  /** The user's failure streaks: runs of wrong passwords between successes; the
      last one is still open. */
  function Streaks(audit: seq<AuditEvent>, uid: string): (lengths: seq<nat>)
    ensures lengths != []
  {
    if audit == [] then [0]
    else
      var before := Streaks(Front(audit), uid);
      if IsWrongPassword(Last(audit), uid) then Front(before) + [Last(before) + 1]
      else if IsOf(Last(audit), LoginSuccess, uid) then before + [0]
      else before
  }

  /** The locks a list of streaks should have caused: one for every failure from
      the threshold on. */
  function LocksFor(threshold: int, lengths: seq<nat>): nat {
    if lengths == [] then 0
    else LocksFor(threshold, Front(lengths)) + (if Last(lengths) >= threshold then Last(lengths) - threshold + 1 else 0)
  }

  // ------------------------------------------------------------ agreement

  ghost predicate CountersAgree(users: Users, audit: seq<AuditEvent>, uid: string, threshold: int) {
    && (uid in users ==> users[uid].failedAttempts == Last(Streaks(audit, uid)))
    && (threshold >= 1 ==> Count(audit, AccountLocked, uid) == LocksFor(threshold, Streaks(audit, uid)))
  }

  lemma CountAppend(audit: seq<AuditEvent>, e: AuditEvent, kind: EventType, uid: string)
    ensures Count(audit + [e], kind, uid) == Count(audit, kind, uid) + (if IsOf(e, kind, uid) then 1 else 0)
  {
    assert Front(audit + [e]) == audit;
  }

  lemma StreaksAppend(audit: seq<AuditEvent>, e: AuditEvent, uid: string)
    ensures Streaks(audit + [e], uid) ==
      if IsWrongPassword(e, uid) then Front(Streaks(audit, uid)) + [Last(Streaks(audit, uid)) + 1]
      else if IsOf(e, LoginSuccess, uid) then Streaks(audit, uid) + [0]
      else Streaks(audit, uid)
  {
    assert Front(audit + [e]) == audit;
  }

  lemma LocksGrow(threshold: int, lengths: seq<nat>)
    requires threshold >= 1 && lengths != []
    ensures LocksFor(threshold, Front(lengths) + [Last(lengths) + 1]) ==
      LocksFor(threshold, lengths) + (if Last(lengths) + 1 >= threshold then 1 else 0)
    ensures LocksFor(threshold, lengths + [0]) == LocksFor(threshold, lengths)
  {
    assert Front(Front(lengths) + [Last(lengths) + 1]) == Front(lengths);
    assert Front(lengths + [0]) == lengths;
  }

  /** The events a call may append that matter for neither streaks nor locks. */
  predicate Neutral(e: AuditEvent, uid: string) {
    !IsWrongPassword(e, uid) && !IsOf(e, LoginSuccess, uid) && !IsOf(e, AccountLocked, uid)
  }

  /** What a wrong password adds to a user's history. */
  lemma FailureInHistory(cfg: Config, s: State, at: string, ip: string, lockAt: Time, uid: string)
    ensures var lengths, audit := Streaks(s.audit, uid), FailLogin(cfg, s, at, ip, lockAt).audit;
      var locks := at in s.users && s.users[at].failedAttempts + 1 >= cfg.threshold;
      && Streaks(audit, uid) == (if at == uid then Front(lengths) + [Last(lengths) + 1] else lengths)
      && Count(audit, AccountLocked, uid) == Count(s.audit, AccountLocked, uid) + (if at == uid && locks then 1 else 0)
  {
    var failed := FailedLogin(at, ip, "wrong_password");
    var audit := s.audit + [failed];
    StreaksAppend(s.audit, failed, uid);
    CountAppend(s.audit, failed, AccountLocked, uid);
    StreaksAppend(audit, Event(AccountLocked, at, ip), uid);
    CountAppend(audit, Event(AccountLocked, at, ip), AccountLocked, uid);
  }

  lemma WrongPasswordAgrees(cfg: Config, s: State, at: string, ip: string, lockAt: Time, uid: string)
    requires CountersAgree(s.users, s.audit, uid, cfg.threshold) && at in s.users
    ensures CountersAgree(FailLogin(cfg, s, at, ip, lockAt).users, FailLogin(cfg, s, at, ip, lockAt).audit, uid, cfg.threshold)
  {
    FailureInHistory(cfg, s, at, ip, lockAt, uid);
    FailureCounted(cfg, s, at, ip, lockAt, uid);
    var s' := FailLogin(cfg, s, at, ip, lockAt);
    StreakGrowsAgrees(s.users, s'.users, s.audit, s'.audit, uid, cfg.threshold, at == uid);
  }

  lemma StreakGrowsAgrees(users: Users, users': Users, audit: seq<AuditEvent>, audit': seq<AuditEvent>, uid: string, threshold: int, hit: bool)
    requires CountersAgree(users, audit, uid, threshold) && (hit ==> uid in users) && (uid in users' <==> uid in users)
    requires uid in users ==> users'[uid].failedAttempts == users[uid].failedAttempts + (if hit then 1 else 0)
    requires Streaks(audit', uid) == var lengths := Streaks(audit, uid); if hit then Front(lengths) + [Last(lengths) + 1] else lengths
    requires Count(audit', AccountLocked, uid) ==
      Count(audit, AccountLocked, uid) + (if hit && users[uid].failedAttempts + 1 >= threshold then 1 else 0)
    ensures CountersAgree(users', audit', uid, threshold)
  {
    var lengths := Streaks(audit, uid);
    if hit {
      assert Last(Front(lengths) + [Last(lengths) + 1]) == Last(lengths) + 1;
      if threshold >= 1 {
        LocksGrow(threshold, lengths);
      }
    }
  }

  lemma FailureCounted(cfg: Config, s: State, at: string, ip: string, lockAt: Time, uid: string)
    ensures var users := FailLogin(cfg, s, at, ip, lockAt).users;
      && (uid in users <==> uid in s.users)
      && (uid in users ==> users[uid].failedAttempts == s.users[uid].failedAttempts + (if at == uid then 1 else 0))
  {
  }

  lemma SuccessAgrees(cfg: Config, s: State, at: string, op: Op, uid: string)
    requires op.Login? && CountersAgree(s.users, s.audit, uid, cfg.threshold) && at in s.users
    ensures CountersAgree(PassLogin(s, at, op).users, PassLogin(s, at, op).audit, uid, cfg.threshold)
  {
    var lengths := Streaks(s.audit, uid);
    StreaksAppend(s.audit, Event(LoginSuccess, at, op.ip), uid);
    CountAppend(s.audit, Event(LoginSuccess, at, op.ip), AccountLocked, uid);
    if cfg.threshold >= 1 {
      LocksGrow(cfg.threshold, lengths);
    }
    assert Last(lengths + [0]) == 0;
    var s' := PassLogin(s, at, op);
    assert s'.audit == s.audit + [Event(LoginSuccess, at, op.ip)];
    if at == uid {
      assert Streaks(s'.audit, uid) == lengths + [0];
    } else {
      assert Streaks(s'.audit, uid) == lengths;
    }
  }

  /** Every call that reaches no password comparison appends at most one event,
      neutral for every user ... */
  lemma OtherEventsAreNeutral(cfg: Config, s: State, op: Op, uid: string)
    requires !(op.Login? && op.user.Some?)
    ensures var audit := Step(cfg, s, op).0.audit;
      audit == s.audit || (audit == s.audit + [Last(audit)] && Neutral(Last(audit), uid))
  {
    if op.Login? {
      var s0 := LoginOutcomes(cfg, s, op);
    } else {
      OtherEvents(cfg, s, op);
    }
  }

  /** ... and leaves all counters alone. */
  lemma OtherCallsKeepCounters(cfg: Config, s: State, op: Op, uid: string)
    requires !(op.Login? && op.user.Some?)
    ensures var users := Step(cfg, s, op).0.users;
      && (uid in s.users && uid in users && uid !in OpIds(op) ==> users[uid].failedAttempts == s.users[uid].failedAttempts)
      && (uid in users && uid !in s.users ==> op.SignUp? && op.id == uid && users[uid].failedAttempts == 0)
  {
  }

  lemma NeutralAgrees(users: Users, users': Users, audit: seq<AuditEvent>, e: AuditEvent, uid: string, threshold: int)
    requires CountersAgree(users, audit, uid, threshold) && Neutral(e, uid)
    requires uid in users' ==> users'[uid].failedAttempts == Last(Streaks(audit, uid))
    ensures CountersAgree(users', audit + [e], uid, threshold)
  {
    StreaksAppend(audit, e, uid);
    CountAppend(audit, e, AccountLocked, uid);
  }

  lemma LoginAgrees(cfg: Config, s: State, op: Op, uid: string)
    requires op.Login? && op.user.Some? && op.user.value.id in s.users
    requires CountersAgree(s.users, s.audit, uid, cfg.threshold)
    ensures var s' := Step(cfg, s, op).0; CountersAgree(s'.users, s'.audit, uid, cfg.threshold)
  {
    var at := op.user.value.id;
    var s0 := LoginReached(cfg, s, op);
    WrongPasswordAgrees(cfg, s0, at, op.ip, op.lockAt, uid);
    SuccessAgrees(cfg, s0, at, op, uid);
  }

  lemma LoginReached(cfg: Config, s: State, op: Op) returns (s0: State)
    requires op.Login? && op.user.Some?
    ensures s0 == s.(counters := s0.counters)
    ensures var s' := Step(cfg, s, op).0;
      s' == s0 || s' == FailLogin(cfg, s0, op.user.value.id, op.ip, op.lockAt) || s' == PassLogin(s0, op.user.value.id, op)
  {
    s0 := s.(counters := DoLogin(cfg, s, op).0.counters);
  }

  lemma OtherCallsAgree(cfg: Config, s: State, op: Op, uid: string)
    requires ScansOk(s, op) && !(op.Login? && op.user.Some?)
    requires CountersAgree(s.users, s.audit, uid, cfg.threshold)
    requires uid in OpIds(op) ==> uid !in s.users && Last(Streaks(s.audit, uid)) == 0
    ensures var s' := Step(cfg, s, op).0;
      && CountersAgree(s'.users, s'.audit, uid, cfg.threshold)
      && Streaks(s'.audit, uid) == Streaks(s.audit, uid)
  {
    var s' := Step(cfg, s, op).0;
    OtherEventsAreNeutral(cfg, s, op, uid);
    OtherCallsKeepCounters(cfg, s, op, uid);
    if s'.audit != s.audit {
      NeutralAgrees(s.users, s'.users, s.audit, Last(s'.audit), uid, cfg.threshold);
      StreaksAppend(s.audit, Last(s'.audit), uid);
    }
  }

  /** A login for one user is no event in another user's history. */
  lemma LoginLeavesStrangers(cfg: Config, s: State, op: Op, uid: string)
    requires op.Login? && op.user.Some? && op.user.value.id != uid
    ensures Streaks(Step(cfg, s, op).0.audit, uid) == Streaks(s.audit, uid)
  {
    var at := op.user.value.id;
    var s0 := LoginReached(cfg, s, op);
    FailureLeavesStrangers(cfg, s0, at, op.ip, op.lockAt, uid);
    StreaksAppend(s.audit, Event(LoginSuccess, at, op.ip), uid);
  }

  lemma FailureLeavesStrangers(cfg: Config, s: State, at: string, ip: string, lockAt: Time, uid: string)
    requires at != uid
    ensures Streaks(FailLogin(cfg, s, at, ip, lockAt).audit, uid) == Streaks(s.audit, uid)
  {
    var failed := FailedLogin(at, ip, "wrong_password");
    StreaksAppend(s.audit, failed, uid);
    StreaksAppend(s.audit + [failed], Event(AccountLocked, at, ip), uid);
  }

  /** After every serial run: a live user's failed-attempt counter is the number of
      wrong-password events since their last login_success, and the account_locked
      events number the sum over failure streaks of max(0, length - threshold + 1).
      A user id that was never drawn has no history. */
  lemma {:induction false} HistoryAgrees(cfg: Config, ops: seq<Op>, uid: string)
    requires Legal(cfg, ops)
    ensures CountersAgree(Run(cfg, ops).users, Run(cfg, ops).audit, uid, cfg.threshold)
    ensures uid !in Ids(ops) ==> Last(Streaks(Run(cfg, ops).audit, uid)) == 0
  {
    if ops != [] {
      var s, op := Run(cfg, Front(ops)), Last(ops);
      HistoryAgrees(cfg, Front(ops), uid);
      RunKeepsTables(cfg, Front(ops));
      if op.Login? && op.user.Some? {
        LoginAgrees(cfg, s, op, uid);
        if op.user.value.id != uid {
          LoginLeavesStrangers(cfg, s, op, uid);
        }
      } else {
        OtherCallsAgree(cfg, s, op, uid);
      }
    }
  }
}
