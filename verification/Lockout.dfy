/** Account lockout: how fast passwords can be guessed through `Login` in any
    serial run, and the comparisons of the same hash that no lock guards. */
module Lockout {
  import opened Types
  import opened Runs
  import opened MemoryStores
  import RateLimiters
  import opened Engines
  import opened EngineRuns

  /** The login gets as far as comparing a password with the user's hash. */
  predicate Compares(cfg: Config, s: State, op: Op, uid: string) {
    && op.Login?
    && RateLimiters.Decide(cfg.limit, cfg.window, s.counters, "login:" + op.ip + ":" + op.email, op.allowAt).1
    && op.user.Some? && op.user.value.id == uid
    && !Locked(op.user.value, op.checkAt)
  }

  predicate Matches(cfg: Config, op: Op)
    requires op.Login? && op.user.Some?
  {
    cfg.compare(op.user.value.passwordHash, op.password)
  }

  /** The times of the user's wrong login guesses since the last right one. */
  function Guesses(cfg: Config, ops: seq<Op>, uid: string): seq<Time> {
    if ops == [] then []
    else
      var before := Guesses(cfg, Front(ops), uid);
      var op := Last(ops);
      if !Compares(cfg, Run(cfg, Front(ops)), op, uid) then before
      else if Matches(cfg, op) then []
      else before + [op.checkAt]
  }

  /** From the threshold on, guesses are at least a lock apart. */
  ghost predicate Paced(cfg: Config, guesses: seq<Time>) {
    forall i :: 1 <= i < |guesses| && cfg.threshold <= i ==> guesses[i - 1] + cfg.duration <= guesses[i]
  }

  ghost predicate Sorted(times: seq<Time>) {
    forall i :: 1 <= i < |times| ==> times[i - 1] <= times[i]
  }

  /** The stored counter is the number of guesses, lock expiry or not; at the
      threshold the lock outlasts the latest guess by its full duration. */
  ghost predicate CounterOk(cfg: Config, users: Users, guesses: seq<Time>, uid: string) {
    uid in users ==>
      && users[uid].failedAttempts == |guesses|
      && (guesses != [] && |guesses| >= cfg.threshold ==>
            users[uid].lockedUntil.Some? && users[uid].lockedUntil.value >= Last(guesses) + cfg.duration)
  }

  ghost predicate LockoutInv(cfg: Config, ops: seq<Op>, uid: string) {
    var guesses := Guesses(cfg, ops, uid);
    && CounterOk(cfg, Run(cfg, ops).users, guesses, uid)
    && Paced(cfg, guesses) && Sorted(guesses)
    && (guesses != [] ==> ops != [] && Last(guesses) <= Ends(Last(ops)))
    && (uid !in Ids(ops) ==> guesses == [])
  }

  /** Calls that compare no password of the user leave its counter and lock alone. */
  lemma QuietKeepsCounter(cfg: Config, s: State, op: Op, guesses: seq<Time>, uid: string)
    requires (forall id :: id in s.users ==> s.users[id].id == id) && ScansOk(s, op)
    requires CounterOk(cfg, s.users, guesses, uid) && !Compares(cfg, s, op, uid)
    requires uid in OpIds(op) ==> guesses == []
    ensures CounterOk(cfg, Step(cfg, s, op).0.users, guesses, uid)
  {
  }

  lemma GuessMovesCounter(cfg: Config, s: State, op: Op, guesses: seq<Time>, uid: string)
    requires (forall id :: id in s.users ==> s.users[id].id == id) && ScansOk(s, op) && ClockOk(op)
    requires CounterOk(cfg, s.users, guesses, uid) && Compares(cfg, s, op, uid) && cfg.duration > 0
    ensures uid in s.users
    ensures CounterOk(cfg, Step(cfg, s, op).0.users, if Matches(cfg, op) then [] else guesses + [op.checkAt], uid)
    ensures guesses != [] && |guesses| >= cfg.threshold ==> Last(guesses) + cfg.duration <= op.checkAt
  {
  }

  lemma PacedAppend(cfg: Config, guesses: seq<Time>, t: Time)
    requires Paced(cfg, guesses) && Sorted(guesses)
    requires guesses != [] ==> Last(guesses) <= t
    requires guesses != [] && |guesses| >= cfg.threshold ==> Last(guesses) + cfg.duration <= t
    ensures Paced(cfg, guesses + [t]) && Sorted(guesses + [t])
  {
    var grown := guesses + [t];
    assert forall i :: 0 <= i < |guesses| ==> grown[i] == guesses[i];
  }

  lemma {:induction false} LockoutHolds(cfg: Config, ops: seq<Op>, uid: string)
    requires Legal(cfg, ops) && cfg.duration > 0
    ensures LockoutInv(cfg, ops, uid)
  {
    if ops != [] {
      var front, op, guesses := Front(ops), Last(ops), Guesses(cfg, Front(ops), uid);
      LockoutHolds(cfg, front, uid);
      RunKeepsTables(cfg, front);
      if Compares(cfg, Run(cfg, front), op, uid) {
        GuessMovesCounter(cfg, Run(cfg, front), op, guesses, uid);
        PacedAppend(cfg, guesses, op.checkAt);
        assert Guesses(cfg, ops, uid) == if Matches(cfg, op) then [] else guesses + [op.checkAt];
      } else {
        QuietKeepsCounter(cfg, Run(cfg, front), op, guesses, uid);
        assert Guesses(cfg, ops, uid) == guesses;
      }
    }
  }

  // --------------------------------------------------------------- the bound

  /** In any serial run, the n-th login guess since the last success, n at or past the
      threshold, comes no earlier than the threshold-th plus (n - threshold) lock
      durations. (`i` and `j` count from zero.) */
  lemma {:induction false} GuessPace(cfg: Config, ops: seq<Op>, uid: string, i: nat, j: nat)
    requires Legal(cfg, ops) && cfg.threshold >= 1 && cfg.duration > 0
    requires cfg.threshold - 1 <= i <= j < |Guesses(cfg, ops, uid)|
    ensures Guesses(cfg, ops, uid)[j] >= Guesses(cfg, ops, uid)[i] + (j - i) * cfg.duration
    decreases j
  {
    if i < j {
      GuessPace(cfg, ops, uid, i, j - 1);
      LockoutHolds(cfg, ops, uid);
      OneMore(j - 1 - i, cfg.duration);
    }
  }

  /** Times at least `gap` apart. */
  ghost predicate Spaced(times: seq<Time>, gap: int) {
    forall i :: 1 <= i < |times| ==> times[i - 1] + gap <= times[i]
  }

  lemma {:induction false} SpacedReach(times: seq<Time>, gap: int, lo: Time, hi: Time)
    requires Spaced(times, gap) && gap > 0
    ensures CountIn(times, lo, hi) >= 1 ==> times != [] && Last(times) >= lo + (CountIn(times, lo, hi) - 1) * gap
  {
    if times != [] {
      SpacedReach(Front(times), gap, lo, hi);
      OneMore(CountIn(Front(times), lo, hi) - 1, gap);
      if |times| > 1 {
        assert times[|times| - 2] + gap <= times[|times| - 1];
      }
    }
  }

  lemma {:induction false} SpacedCount(times: seq<Time>, gap: int, lo: Time, hi: Time)
    requires Spaced(times, gap) && gap > 0 && lo <= hi
    ensures CountIn(times, lo, hi) >= 1 ==> (CountIn(times, lo, hi) - 1) * gap <= hi - lo
  {
    if times != [] {
      if lo <= Last(times) <= hi {
        SpacedReach(times, gap, lo, hi);
      } else {
        SpacedCount(Front(times), gap, lo, hi);
      }
    }
  }

  lemma LateIsSpaced(guesses: seq<Time>, threshold: nat, gap: int)
    requires 1 <= threshold <= |guesses|
    requires forall i :: threshold <= i < |guesses| ==> guesses[i - 1] + gap <= guesses[i]
    ensures Spaced(guesses[threshold - 1..], gap)
  {
  }

  lemma DropEarly(guesses: seq<Time>, n: nat, lo: Time, hi: Time)
    requires n <= |guesses|
    ensures CountIn(guesses, lo, hi) <= n + CountIn(guesses[n..], lo, hi)
  {
    assert guesses[..n] + guesses[n..] == guesses;
    CountSplit(guesses[..n], guesses[n..], lo, hi);
    CountAtMost(guesses[..n], lo, hi);
  }

  lemma PacedCount(guesses: seq<Time>, threshold: nat, gap: int, lo: Time, hi: Time)
    requires threshold >= 1 && gap > 0 && lo <= hi
    requires forall i :: threshold <= i < |guesses| ==> guesses[i - 1] + gap <= guesses[i]
    ensures var n := CountIn(guesses, lo, hi); n > threshold ==> (n - threshold) * gap <= hi - lo
  {
    if |guesses| < threshold {
      CountAtMost(guesses, lo, hi);
    } else {
      var late := guesses[threshold - 1..];
      DropEarly(guesses, threshold - 1, lo, hi);
      LateIsSpaced(guesses, threshold, gap);
      SpacedCount(late, gap, lo, hi);
      var n, l := CountIn(guesses, lo, hi), CountIn(late, lo, hi);
      if n > threshold {
        Scaled(n - threshold, l - 1, gap);
      }
    }
  }

  lemma Scaled(a: int, b: int, w: int)
    requires a <= b && w > 0
    ensures a * w <= b * w
  {
  }

  lemma PacedBound(n: nat, threshold: int, gap: int, d: nat)
    requires gap > 0 && (n > threshold ==> (n - threshold) * gap <= d)
    ensures n <= threshold + d / gap
  {
    FloorBound(0, gap, d);
    if n > threshold {
      FloorBound(n - threshold, gap, d);
    }
  }

  /** Between two successes, any closed interval of length D holds at most
      threshold + floor(D / duration) wrong login guesses for a user. */
  lemma LockoutBound(cfg: Config, ops: seq<Op>, uid: string, lo: Time, hi: Time)
    requires Legal(cfg, ops) && cfg.threshold >= 1 && cfg.duration > 0 && lo <= hi
    ensures CountIn(Guesses(cfg, ops, uid), lo, hi) <= cfg.threshold + (hi - lo) / cfg.duration
  {
    LockoutHolds(cfg, ops, uid);
    PacedCount(Guesses(cfg, ops, uid), cfg.threshold, cfg.duration, lo, hi);
    PacedBound(CountIn(Guesses(cfg, ops, uid), lo, hi), cfg.threshold, cfg.duration, hi - lo);
  }

  // ----------------------------------------------- comparisons without a lock

  /** The call compares a wrong password with the user's hash. ChangePassword and
      DeleteAccount do so without limiter, counter or lock. */
  predicate ComparesWrong(cfg: Config, s: State, op: Op, uid: string) {
    match op
    case Login(_, _, _, _, _, _, _, _, _, _, _) => Compares(cfg, s, op, uid) && !Matches(cfg, op)
    case ChangePassword(u, current, _, _) => u == uid && uid in s.users && !cfg.compare(s.users[uid].passwordHash, current)
    case DeleteAccount(u, current, _) => u == uid && uid in s.users && !cfg.compare(s.users[uid].passwordHash, current)
    case _ => false
  }

  /** A wrong comparison moves the user's counter exactly when it comes from a
      login; any other leaves the whole state as it was. */
  lemma OnlyLoginsAreCounted(cfg: Config, s: State, op: Op, uid: string)
    requires (forall id :: id in s.users ==> s.users[id].id == id) && ScansOk(s, op)
    requires ComparesWrong(cfg, s, op, uid)
    ensures uid in s.users && uid in Step(cfg, s, op).0.users
    ensures Step(cfg, s, op).0.users[uid].failedAttempts == s.users[uid].failedAttempts + 1 <==> op.Login?
    ensures !op.Login? ==> Step(cfg, s, op) == (s, Err(ErrInvalidCredentials))
  {
  }

  /** All wrong comparisons since the user's last login. */
  function AllWrong(cfg: Config, ops: seq<Op>, uid: string): seq<Time> {
    if ops == [] then []
    else
      var before, s, op := AllWrong(cfg, Front(ops), uid), Run(cfg, Front(ops)), Last(ops);
      if Compares(cfg, s, op, uid) && Matches(cfg, op) then []
      else if !ComparesWrong(cfg, s, op, uid) then before
      else before + [if op.Login? then op.checkAt else op.now]
  }

  /** Those of them that did not come from a login. */
  function Unguarded(cfg: Config, ops: seq<Op>, uid: string): seq<Time> {
    if ops == [] then []
    else
      var before, s, op := Unguarded(cfg, Front(ops), uid), Run(cfg, Front(ops)), Last(ops);
      if Compares(cfg, s, op, uid) && Matches(cfg, op) then []
      else if op.Login? || !ComparesWrong(cfg, s, op, uid) then before
      else before + [op.now]
  }

  lemma CountOneMore(times: seq<Time>, t: Time, lo: Time, hi: Time)
    ensures CountIn(times + [t], lo, hi) == CountIn(times, lo, hi) + (if lo <= t <= hi then 1 else 0)
  {
    assert Front(times + [t]) == times;
  }

  /** One call starts all three lists over, leaves them alone, or adds a wrong
      comparison to the first and to one of the others. */
  lemma WrongGrows(cfg: Config, ops: seq<Op>, uid: string)
    requires ops != []
    ensures var all, all' := AllWrong(cfg, Front(ops), uid), AllWrong(cfg, ops, uid);
      var logins, logins' := Guesses(cfg, Front(ops), uid), Guesses(cfg, ops, uid);
      var others, others' := Unguarded(cfg, Front(ops), uid), Unguarded(cfg, ops, uid);
      || (all' == [] && logins' == [] && others' == [])
      || (all' == all && logins' == logins && others' == others)
      || (all' != [] && all' == all + [Last(all')]
          && ((logins' == logins + [Last(all')] && others' == others) || (logins' == logins && others' == others + [Last(all')])))
  {
  }

  lemma {:induction false} WrongSplits(cfg: Config, ops: seq<Op>, uid: string, lo: Time, hi: Time)
    ensures CountIn(AllWrong(cfg, ops, uid), lo, hi) ==
      CountIn(Guesses(cfg, ops, uid), lo, hi) + CountIn(Unguarded(cfg, ops, uid), lo, hi)
  {
    if ops != [] {
      var front := Front(ops);
      var all, all' := AllWrong(cfg, front, uid), AllWrong(cfg, ops, uid);
      WrongSplits(cfg, front, uid, lo, hi);
      WrongGrows(cfg, ops, uid);
      if all' != [] && all' == all + [Last(all')] {
        CountOneMore(all, Last(all'), lo, hi);
        CountOneMore(Guesses(cfg, front, uid), Last(all'), lo, hi);
        CountOneMore(Unguarded(cfg, front, uid), Last(all'), lo, hi);
      }
    }
  }

  /** The lockout bound on all wrong comparisons fails by exactly the unguarded
      ones. */
  lemma WrongBound(cfg: Config, ops: seq<Op>, uid: string, lo: Time, hi: Time)
    requires Legal(cfg, ops) && cfg.threshold >= 1 && cfg.duration > 0 && lo <= hi
    ensures CountIn(AllWrong(cfg, ops, uid), lo, hi) <=
      cfg.threshold + (hi - lo) / cfg.duration + CountIn(Unguarded(cfg, ops, uid), lo, hi)
  {
    WrongSplits(cfg, ops, uid, lo, hi);
    LockoutBound(cfg, ops, uid, lo, hi);
  }

  lemma LegalAppend(cfg: Config, ops: seq<Op>, op: Op)
    requires Legal(cfg, ops) && OpIds(op) !! Ids(ops) && OpTokens(op) !! Tokens(ops)
    requires ScansOk(Run(cfg, ops), op) && ClockOk(op) && (ops != [] ==> Ends(Last(ops)) <= Begins(op))
    ensures Legal(cfg, ops + [op]) && Run(cfg, ops + [op]) == Step(cfg, Run(cfg, ops), op).0
  {
    assert Front(ops + [op]) == ops;
  }

  /** And there can be any number of those in a single instant: whatever the
      threshold and the duration, some run has more wrong comparisons than the
      lockout bound allows. */
  lemma {:induction false} UnguardedWithoutBound(cfg: Config, hash: string, wrong: string, n: nat) returns (ops: seq<Op>)
    requires !cfg.compare(hash, wrong)
    ensures Legal(cfg, ops) && ops != [] && Ends(Last(ops)) == 0
    ensures "u" in Run(cfg, ops).users && Run(cfg, ops).users["u"].passwordHash == hash
    ensures CountIn(Unguarded(cfg, ops, "u"), 0, 0) == n
    ensures CountIn(AllWrong(cfg, ops, "u"), 0, 0) >= n
  {
    if n == 0 {
      LegalAppend(cfg, [], SignUp("", "", "u", hash, 0));
      ops := [] + [SignUp("", "", "u", hash, 0)];
    } else {
      var before := UnguardedWithoutBound(cfg, hash, wrong, n - 1);
      var guess := ChangePassword("u", wrong, "", 0);
      LegalAppend(cfg, before, guess);
      ops := before + [guess];
      assert Front(ops) == before;
      CountOneMore(Unguarded(cfg, before, "u"), 0, 0, 0);
    }
    WrongSplits(cfg, ops, "u", 0, 0);
  }
}
