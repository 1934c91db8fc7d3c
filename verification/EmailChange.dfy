/** The life of an email-change token in any serial run: requested, applied at
    most once, within the hour. */
module EmailChanges {
  import opened Types
  import opened Runs
  import opened MemoryStores
  import opened Engines
  import opened EngineRuns

  /** A confirmation that went through. */
  datatype Change = Change(tokenId: string, uid: string, address: string, at: Time)

  /** The changes applied so far, oldest first. */
  function Applied(cfg: Config, ops: seq<Op>): seq<Change> {
    if ops == [] then []
    else
      var before := Applied(cfg, Front(ops));
      var op := Last(ops);
      if Applies(cfg, Run(cfg, Front(ops)), op) then
        before + [Change(op.token.value.id, op.token.value.userId, op.token.value.newEmail, op.checkAt)]
      else before
  }

  /** The accepted request that drew the token id. */
  function RequestOf(cfg: Config, ops: seq<Op>, id: string): Option<Op> {
    if ops == [] then None
    else if Last(ops).RequestEmailChange? && Last(ops).id == id && Step(cfg, Run(cfg, Front(ops)), Last(ops)).1.Ok? then Some(Last(ops))
    else RequestOf(cfg, Front(ops), id)
  }

  function SignupAddress(cfg: Config, ops: seq<Op>, uid: string): Option<string> {
    if ops == [] then None
    else if Last(ops).SignUp? && Last(ops).id == uid && Step(cfg, Run(cfg, Front(ops)), Last(ops)).1.Ok? then Some(Last(ops).email)
    else SignupAddress(cfg, Front(ops), uid)
  }

  function LastAddress(changes: seq<Change>, uid: string): Option<string> {
    if changes == [] then None
    else if Last(changes).uid == uid then Some(Last(changes).address)
    else LastAddress(Front(changes), uid)
  }

  /** The address history gives the user: that of the last change applied to them,
      or else the one they signed up with. */
  function AddressOf(cfg: Config, ops: seq<Op>, uid: string): Option<string> {
    var changed := LastAddress(Applied(cfg, ops), uid);
    if changed.Some? then changed else SignupAddress(cfg, ops, uid)
  }

  // --------------------------------------------------------------- invariant

  /** The stored token is the one its request made. */
  ghost predicate Made(v: VerificationToken, request: Option<Op>, latest: Time) {
    && request.Some? && request.value.RequestEmailChange?
    && v.userId == request.value.uid && v.newEmail == request.value.newEmail
    && v.expiresAt == request.value.now + 3_600_000_000_000
    && request.value.now <= latest
  }

  ghost predicate AllMade(cfg: Config, ops: seq<Op>) {
    var vs := Run(cfg, ops).verifications;
    forall id :: id in vs ==> ops != [] && Made(vs[id], RequestOf(cfg, ops, id), Ends(Last(ops)))
  }

  ghost predicate AllUsed(vs: Verifications, changes: seq<Change>) {
    forall k :: 0 <= k < |changes| ==> changes[k].tokenId in vs && vs[changes[k].tokenId].usedAt.Some?
  }

  ghost predicate OncePerToken(changes: seq<Change>) {
    forall j, k :: 0 <= j < k < |changes| ==> changes[j].tokenId != changes[k].tokenId
  }

  /** The change was requested for this user and this address, at most an hour
      before it was applied. */
  ghost predicate InTime(c: Change, request: Option<Op>) {
    && request.Some? && request.value.RequestEmailChange?
    && c.uid == request.value.uid && c.address == request.value.newEmail
    && request.value.now <= c.at <= request.value.now + 3_600_000_000_000
  }

  ghost predicate AllInTime(cfg: Config, ops: seq<Op>) {
    forall k :: 0 <= k < |Applied(cfg, ops)| ==>
      InTime(Applied(cfg, ops)[k], RequestOf(cfg, ops, Applied(cfg, ops)[k].tokenId))
  }

  lemma StepKeepsMade(cfg: Config, ops: seq<Op>)
    requires ops != [] && Legal(cfg, ops) && AllMade(cfg, Front(ops))
    ensures AllMade(cfg, ops)
  {
    RunKeepsTables(cfg, Front(ops));
    TokenEffect(cfg, Run(cfg, Front(ops)), Last(ops));
    var vs := Run(cfg, ops).verifications;
    forall id | id in vs ensures Made(vs[id], RequestOf(cfg, ops, id), Ends(Last(ops))) {
      if id in Run(cfg, Front(ops)).verifications {
        assert Made(Run(cfg, Front(ops)).verifications[id], RequestOf(cfg, Front(ops), id), Ends(Last(Front(ops))));
      }
    }
  }

  lemma StepKeepsUsed(cfg: Config, ops: seq<Op>)
    requires ops != [] && Legal(cfg, ops)
    requires AllUsed(Run(cfg, Front(ops)).verifications, Applied(cfg, Front(ops))) && OncePerToken(Applied(cfg, Front(ops)))
    ensures AllUsed(Run(cfg, ops).verifications, Applied(cfg, ops)) && OncePerToken(Applied(cfg, ops))
  {
    RunKeepsTables(cfg, Front(ops));
    TokenEffect(cfg, Run(cfg, Front(ops)), Last(ops));
  }

  lemma StepKeepsInTime(cfg: Config, ops: seq<Op>)
    requires ops != [] && Legal(cfg, ops) && AllMade(cfg, Front(ops)) && AllInTime(cfg, Front(ops))
    requires AllUsed(Run(cfg, Front(ops)).verifications, Applied(cfg, Front(ops)))
    ensures AllInTime(cfg, ops)
  {
    var s, op, before := Run(cfg, Front(ops)), Last(ops), Applied(cfg, Front(ops));
    RunKeepsTables(cfg, Front(ops));
    TokenEffect(cfg, s, op);
    forall k | 0 <= k < |Applied(cfg, ops)|
      ensures InTime(Applied(cfg, ops)[k], RequestOf(cfg, ops, Applied(cfg, ops)[k].tokenId))
    {
      if k < |before| {
        assert InTime(before[k], RequestOf(cfg, Front(ops), before[k].tokenId));
        assert before[k].tokenId in s.verifications;
      } else {
        assert Made(op.token.value, RequestOf(cfg, Front(ops), op.token.value.id), Ends(Last(Front(ops))));
      }
    }
  }

  /** In every serial run each token takes effect at most once, and every applied
      change was requested for that user and address at most one hour earlier. */
  lemma {:induction false} TokensApplyOnceInTime(cfg: Config, ops: seq<Op>)
    requires Legal(cfg, ops)
    ensures OncePerToken(Applied(cfg, ops))
    ensures AllInTime(cfg, ops)
    ensures AllMade(cfg, ops) && AllUsed(Run(cfg, ops).verifications, Applied(cfg, ops))
  {
    if ops != [] {
      TokensApplyOnceInTime(cfg, Front(ops));
      StepKeepsMade(cfg, ops);
      StepKeepsUsed(cfg, ops);
      StepKeepsInTime(cfg, ops);
    }
  }

  // ----------------------------------------------------------- the address

  lemma EmailEffect(cfg: Config, s: State, op: Op, uid: string)
    requires ScansOk(s, op)
    requires uid in Step(cfg, s, op).0.users
    ensures var s' := Step(cfg, s, op).0;
      if Applies(cfg, s, op) && op.token.value.userId == uid then uid in s.users && s'.users[uid].email == op.token.value.newEmail
      else if op.SignUp? && op.id == uid && Step(cfg, s, op).1.Ok? then s'.users[uid].email == op.email
      else uid in s.users && s'.users[uid].email == s.users[uid].email
  {
  }

  /** In every serial run a live user's email is the address history gives them. */
  lemma {:induction false} EmailFollowsHistory(cfg: Config, ops: seq<Op>, uid: string)
    requires Legal(cfg, ops)
    ensures uid in Run(cfg, ops).users ==> AddressOf(cfg, ops, uid) == Some(Run(cfg, ops).users[uid].email)
    ensures uid !in Ids(ops) ==> LastAddress(Applied(cfg, ops), uid) == None
  {
    if ops != [] {
      EmailFollowsHistory(cfg, Front(ops), uid);
      RunKeepsTables(cfg, Front(ops));
      AddressMoves(cfg, ops, uid);
      if uid in Run(cfg, ops).users {
        EmailEffect(cfg, Run(cfg, Front(ops)), Last(ops), uid);
      }
    }
  }

  lemma AddressMoves(cfg: Config, ops: seq<Op>, uid: string)
    requires ops != []
    ensures var s, op := Run(cfg, Front(ops)), Last(ops);
      && LastAddress(Applied(cfg, ops), uid) ==
           (if Applies(cfg, s, op) && op.token.value.userId == uid then Some(op.token.value.newEmail)
            else LastAddress(Applied(cfg, Front(ops)), uid))
      && SignupAddress(cfg, ops, uid) ==
           (if op.SignUp? && op.id == uid && Step(cfg, s, op).1.Ok? then Some(op.email) else SignupAddress(cfg, Front(ops), uid))
  {
    if Applies(cfg, Run(cfg, Front(ops)), Last(ops)) {
      assert Front(Applied(cfg, ops)) == Applied(cfg, Front(ops));
    }
  }
}
