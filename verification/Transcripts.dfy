/** What a history of calls says on its own: who has an account, with which
    password and address, who is locked out, which email tokens stand. It is read
    from the calls, their draws and clock readings, and the password oracle; no
    table is kept and no reply is consulted. */
module Transcripts {
  import opened Types
  import opened Runs
  import opened Engines
  import RateLimiters

  // ---------------------------------------------------------------- limiter

  /** What a call asks the rate limiter, if it does. */
  function LimiterCall(op: Op): Option<RateLimiters.Call> {
    match op
    case SignUp(_, ip, _, _, now) => Some(RateLimiters.Call("signup:" + ip, now))
    case Login(email, _, ip, _, _, _, _, allowAt, _, _, _) => Some(RateLimiters.Call("login:" + ip + ":" + email, allowAt))
    case _ => None
  }

  function LimiterCalls(ops: seq<Op>): seq<RateLimiters.Call> {
    if ops == [] then []
    else LimiterCalls(Front(ops)) + (if LimiterCall(Last(ops)).Some? then [LimiterCall(Last(ops)).value] else [])
  }

  /** The last call asked the limiter and was let through. */
  predicate LetThrough(cfg: Config, ops: seq<Op>) {
    && ops != [] && LimiterCall(Last(ops)).Some?
    && RateLimiters.LastAllowed(cfg.limit, cfg.window, LimiterCalls(Front(ops)) + [LimiterCall(Last(ops)).value])
  }

  // --------------------------------------------------------------- password

  /** The hash of the user's latest ChangePassword that named the right current
      password, or else the one they signed up with. */
  function Password(cfg: Config, ops: seq<Op>, uid: string): string {
    if ops == [] then ""
    else
      var before, op := Password(cfg, Front(ops), uid), Last(ops);
      if op.SignUp? && op.id == uid then op.hash
      else if op.ChangePassword? && op.uid == uid && cfg.compare(before, op.current) then op.hash
      else before
  }

  // ---------------------------------------------------------------- lockout

  datatype Guess = Guess(checkAt: Time, lockAt: Time)

  /** When the lock these wrong guesses have earned ends. */
  function LockEnd(cfg: Config, wrong: seq<Guess>): Option<Time> {
    if wrong != [] && |wrong| >= cfg.threshold then Some(Last(wrong).lockAt + cfg.duration) else None
  }

  predicate LockedOut(cfg: Config, wrong: seq<Guess>, at: Time) {
    LockEnd(cfg, wrong).Some? && at < LockEnd(cfg, wrong).value
  }

  /** The user's wrong login guesses since their last right one. */
  function Wrong(cfg: Config, ops: seq<Op>, uid: string): seq<Guess> {
    if ops == [] then []
    else
      var before, op := Wrong(cfg, Front(ops), uid), Last(ops);
      if !(op.Login? && LetThrough(cfg, ops) && op.user.Some? && op.user.value.id == uid) || LockedOut(cfg, before, op.checkAt) then before
      else if cfg.compare(Password(cfg, Front(ops), uid), op.password) then []
      else before + [Guess(op.checkAt, op.lockAt)]
  }

  /** The last call is a login with the right password for a user who is not
      locked out. */
  predicate LogsIn(cfg: Config, ops: seq<Op>) {
    ops != [] && Last(ops).Login? && LetThrough(cfg, ops) && Last(ops).user.Some? &&
    var op, uid := Last(ops), Last(ops).user.value.id;
    !LockedOut(cfg, Wrong(cfg, Front(ops), uid), op.checkAt) && cfg.compare(Password(cfg, Front(ops), uid), op.password)
  }

  // ------------------------------------------------------ members, addresses

  /** The user signed up, and has not deleted the account since. */
  ghost predicate Member(cfg: Config, ops: seq<Op>, uid: string)
    decreases |ops|, 1
  {
    ops != [] &&
    var front, op := Front(ops), Last(ops);
    if Registers(cfg, ops) && op.id == uid then true
    else if op.DeleteAccount? && op.uid == uid && cfg.compare(Password(cfg, front, uid), op.current) then false
    else Member(cfg, front, uid)
  }

  /** The last call is a signup that is let through to a free address. */
  ghost predicate Registers(cfg: Config, ops: seq<Op>)
    decreases |ops|, 0
  {
    && ops != [] && Last(ops).SignUp? && LetThrough(cfg, ops)
    && !AddressTaken(cfg, Front(ops), Last(ops).email)
  }

  /** Someone who signed up is a member and has the address. */
  ghost predicate AddressTaken(cfg: Config, ops: seq<Op>, email: string)
    decreases |ops|, 2
  {
    exists i :: 0 <= i < |ops| && ops[i].SignUp? && Member(cfg, ops, ops[i].id) && Address(cfg, ops, ops[i].id) == email
  }

  lemma {:induction false} MembersSignedUp(cfg: Config, ops: seq<Op>, uid: string) returns (i: nat)
    requires Member(cfg, ops, uid)
    ensures i < |ops| && ops[i].SignUp? && ops[i].id == uid
  {
    if Registers(cfg, ops) && Last(ops).id == uid {
      i := |ops| - 1;
    } else {
      i := MembersSignedUp(cfg, Front(ops), uid);
    }
  }

  /** The address of the user's latest confirmed change, or else that of their signup. */
  ghost function Address(cfg: Config, ops: seq<Op>, uid: string): string
    decreases |ops|, 1
  {
    if ops == [] then ""
    else
      var front, op := Front(ops), Last(ops);
      if op.SignUp? && op.id == uid then op.email
      else if Confirms(cfg, ops) && RequestFor(cfg, front, op.presented).value.uid == uid then
        RequestFor(cfg, front, op.presented).value.newEmail
      else Address(cfg, front, uid)
  }

  // ----------------------------------------------------------- email tokens

  datatype Request = Request(id: string, uid: string, newEmail: string, at: Time)

  /** The request for a then free address that drew the token. */
  ghost function RequestFor(cfg: Config, ops: seq<Op>, raw: string): Option<Request>
    decreases |ops|, 0
  {
    if ops == [] then None
    else
      var front, op := Front(ops), Last(ops);
      if op.RequestEmailChange? && op.raw == raw && !AddressTaken(cfg, front, op.newEmail) then
        Some(Request(op.id, op.uid, op.newEmail, op.now))
      else RequestFor(cfg, front, raw)
  }

  /** When the token was used up. */
  ghost function SpentAt(cfg: Config, ops: seq<Op>, raw: string): Option<Time>
    decreases |ops|, 1
  {
    if ops == [] then None
    else if Confirms(cfg, ops) && Last(ops).presented == raw then Some(Last(ops).usedAt)
    else SpentAt(cfg, Front(ops), raw)
  }

  /** The last call confirms a change: its token was requested, is unspent, belongs
      to a user who still exists, and is at most an hour (in nanoseconds) old. */
  ghost predicate Confirms(cfg: Config, ops: seq<Op>)
    decreases |ops|, 0
  {
    ops != [] && Last(ops).ConfirmEmailChange? &&
    var front, op := Front(ops), Last(ops);
    var request := RequestFor(cfg, front, op.presented);
    && request.Some?
    && SpentAt(cfg, front, op.presented).None?
    && Member(cfg, front, request.value.uid)
    && op.checkAt <= request.value.at + 3_600_000_000_000
  }
}
