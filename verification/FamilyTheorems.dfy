/** What holds of every rotation family in every run of the interleaved machine:
    death is final, tokens belong to one family, a replay kills its family. */
module FamilyTheorems {
  import opened Types
  import opened Runs
  import opened SessionRows
  import opened SerialSessions
  import opened Interleaved

  /** The states some run reaches. */
  ghost predicate Reaches(es: seq<Event>, s: State) {
    Legal(INIT, es) && s == Exec(INIT, es)
  }

  lemma ReachableInv(es: seq<Event>, s: State)
    requires Reaches(es, s)
    ensures Inv(s)
  {
    ExecKeeps(INIT, es);
  }

  lemma ReachesNext(es: seq<Event>, s: State, e: Event)
    requires Reaches(es, s) && Enabled(s, e)
    ensures Reaches(es + [e], Move(s, e))
  {
    assert Front(es + [e]) == es && Last(es + [e]) == e;
  }

  lemma {:induction false} ReachesOn(before: seq<Event>, s: State, es: seq<Event>)
    requires Reaches(before, s) && Legal(s, es)
    ensures Reaches(before + es, Exec(s, es))
  {
    if es == [] {
      assert before + es == before;
    } else {
      ReachesOn(before, s, Front(es));
      ReachesNext(before + Front(es), Exec(s, Front(es)), Last(es));
      assert before + Front(es) + [Last(es)] == before + es;
    }
  }

  // --------------------------------------------------------- death is final

  ghost predicate DeadFamily(s: State, f: string) {
    f in s.ids && forall id :: id in s.db.rows && s.db.rows[id].familyId == f ==> !Live(s.db.rows[id])
  }

  /** A rotation that succeeded. */
  predicate Rotates(e: Entry) {
    e.op.Rotate? && e.res.Refreshed? && e.res.result.Rotated?
  }

  predicate RotatesIn(e: Entry, f: string) {
    Rotates(e) && e.res.result.session.familyId == f
  }

  lemma MoveKeepsDead(s: State, e: Event, f: string)
    requires Inv(s) && Enabled(s, e) && DeadFamily(s, f)
    ensures DeadFamily(Move(s, e), f)
  {
    MoveEvolves(s, e);
  }

  lemma MoveExtendsLog(s: State, e: Event)
    requires Enabled(s, e)
    ensures s.log <= Move(s, e).log && |Move(s, e).log| <= |s.log| + 1
  {
  }

  lemma DeadNeverRotates(s: State, e: Event, f: string)
    requires Inv(s) && Enabled(s, e) && DeadFamily(s, f)
    requires |Move(s, e).log| > |s.log|
    ensures !RotatesIn(Last(Move(s, e).log), f)
  {
    if e.RotateEnd? {
      assert PendingOk(s.db.rows, s.ids, s.tokens, s.calls[e.call]);
    }
  }

  /** Once a family has no live session, no continuation of any run gives it one
      again, and no rotation in it succeeds: not even by a call that looked its
      row up before the family died. */
  lemma {:induction false} DeathIsFinal(before: seq<Event>, s: State, es: seq<Event>, f: string)
    requires Reaches(before, s) && Legal(s, es) && DeadFamily(s, f)
    ensures var s' := Exec(s, es);
      && DeadFamily(s', f)
      && s.log <= s'.log
      && (forall i :: |s.log| <= i < |s'.log| ==> !RotatesIn(s'.log[i], f))
  {
    if es != [] {
      DeathIsFinal(before, s, Front(es), f);
      var m := Exec(s, Front(es));
      ReachableInv(before, s);
      ExecKeeps(s, Front(es));
      MoveKeepsDead(m, Last(es), f);
      MoveExtendsLog(m, Last(es));
      if |Move(m, Last(es)).log| > |m.log| {
        DeadNeverRotates(m, Last(es), f);
      }
    }
  }

  // ----------------------------------------------- tokens belong to families

  /** The family whose token a finished call handed out as `raw`. */
  function HandsOut(e: Entry, raw: string): Option<string> {
    match e.res
    case LoggedIn(s, r, _) => if r == raw then Some(s.familyId) else None
    case Refreshed(Rotated(s, r)) => if r == raw then Some(s.familyId) else None
    case _ => None
  }

  function IssuedIn(log: seq<Entry>, raw: string): Option<string> {
    if log == [] then None
    else if HandsOut(Last(log), raw).Some? then HandsOut(Last(log), raw)
    else IssuedIn(Front(log), raw)
  }

  ghost predicate TokensKnown(s: State) {
    && (forall id :: id in s.db.rows ==> IssuedIn(s.log, s.db.rows[id].tokenHash.raw) == Some(s.db.rows[id].familyId))
    && (forall c :: c in s.calls && s.calls[c].Rotating? ==> IssuedIn(s.log, s.calls[c].presented) == Some(s.calls[c].found.familyId))
    && (forall raw :: raw !in s.tokens ==> IssuedIn(s.log, raw) == None)
    && LogKnown(s.log)
  }

  ghost predicate LogKnown(log: seq<Entry>) {
    forall i :: 0 <= i < |log| && Rotates(log[i]) ==>
      IssuedIn(log, log[i].op.presented) == Some(log[i].res.result.session.familyId)
  }

  lemma IssuedAppend(log: seq<Entry>, e: Entry, raw: string)
    ensures IssuedIn(log + [e], raw) == if HandsOut(e, raw).Some? then HandsOut(e, raw) else IssuedIn(log, raw)
  {
    assert Front(log + [e]) == log;
  }

  /** A step that finishes a call appends its entry; a token it hands out was not
      drawn before, and sits in the new row of the family it belongs to. */
  lemma MoveHandsOutFresh(s: State, e: Event, raw: string)
    requires Inv(s) && Enabled(s, e) && |Move(s, e).log| > |s.log|
    ensures var s' := Move(s, e);
      && s'.log == s.log + [Last(s'.log)]
      && (HandsOut(Last(s'.log), raw).Some? ==> raw !in s.tokens && raw in s'.tokens)
  {
    if e.RotateEnd? {
      assert PendingOk(s.db.rows, s.ids, s.tokens, s.calls[e.call]);
    }
  }

  /** The row a step adds carries the token it hands out. */
  lemma MoveHandsOutRow(s: State, e: Event, id: string)
    requires Inv(s) && Enabled(s, e) && id in Move(s, e).db.rows && id !in s.db.rows
    ensures var s' := Move(s, e);
      && |s'.log| > |s.log|
      && HandsOut(Last(s'.log), s'.db.rows[id].tokenHash.raw) == Some(s'.db.rows[id].familyId)
  {
  }

  lemma MoveKeepsIssued(s: State, e: Event, raw: string)
    requires Inv(s) && Enabled(s, e) && (raw in s.tokens || raw !in Move(s, e).tokens)
    ensures IssuedIn(Move(s, e).log, raw) == IssuedIn(s.log, raw)
  {
    if |Move(s, e).log| > |s.log| {
      MoveHandsOutFresh(s, e, raw);
      IssuedAppend(s.log, Last(Move(s, e).log), raw);
    } else {
      MoveExtendsLog(s, e);
    }
  }

  lemma MoveKeepsRowTokens(s: State, e: Event)
    requires Inv(s) && TokensKnown(s) && Enabled(s, e)
    ensures var s' := Move(s, e);
      forall id :: id in s'.db.rows ==> IssuedIn(s'.log, s'.db.rows[id].tokenHash.raw) == Some(s'.db.rows[id].familyId)
  {
    var s' := Move(s, e);
    MoveEvolves(s, e);
    forall id | id in s'.db.rows
      ensures IssuedIn(s'.log, s'.db.rows[id].tokenHash.raw) == Some(s'.db.rows[id].familyId)
    {
      var raw := s'.db.rows[id].tokenHash.raw;
      if id in s.db.rows {
        MoveKeepsIssued(s, e, raw);
      } else {
        MoveHandsOutRow(s, e, id);
        MoveHandsOutFresh(s, e, raw);
        IssuedAppend(s.log, Last(s'.log), raw);
      }
    }
  }

  lemma MoveKeepsCallTokens(s: State, e: Event)
    requires Inv(s) && TokensKnown(s) && Enabled(s, e)
    ensures var s' := Move(s, e);
      forall c :: c in s'.calls && s'.calls[c].Rotating? ==>
        IssuedIn(s'.log, s'.calls[c].presented) == Some(s'.calls[c].found.familyId)
  {
    var s' := Move(s, e);
    forall c | c in s'.calls && s'.calls[c].Rotating?
      ensures IssuedIn(s'.log, s'.calls[c].presented) == Some(s'.calls[c].found.familyId)
    {
      if c in s.calls {
        MoveKeepsIssued(s, e, s.calls[c].presented);
      } else {
        var found := Find(s.db.rows, HashToken(e.presented));
        assert IssuedIn(s.log, found.value.tokenHash.raw) == Some(found.value.familyId);
      }
    }
  }

  lemma MoveKeepsLogKnown(s: State, e: Event)
    requires Inv(s) && TokensKnown(s) && Enabled(s, e)
    ensures LogKnown(Move(s, e).log)
  {
    var s' := Move(s, e);
    MoveExtendsLog(s, e);
    forall i | 0 <= i < |s'.log| && Rotates(s'.log[i])
      ensures IssuedIn(s'.log, s'.log[i].op.presented) == Some(s'.log[i].res.result.session.familyId)
    {
      if i < |s.log| {
        assert s'.log[i] == s.log[i];
      } else {
        assert IssuedIn(s.log, s'.log[i].op.presented) == Some(s'.log[i].res.result.session.familyId);
      }
      MoveKeepsIssued(s, e, s'.log[i].op.presented);
    }
  }

  lemma MoveKeepsTokensKnown(s: State, e: Event)
    requires Inv(s) && TokensKnown(s) && Enabled(s, e)
    ensures TokensKnown(Move(s, e))
  {
    MoveKeepsRowTokens(s, e);
    MoveKeepsCallTokens(s, e);
    MoveKeepsLogKnown(s, e);
    forall raw | raw !in Move(s, e).tokens ensures IssuedIn(Move(s, e).log, raw) == None {
      MoveKeepsIssued(s, e, raw);
    }
  }

  lemma {:induction false} ExecKeepsTokensKnown(s: State, es: seq<Event>)
    requires Inv(s) && TokensKnown(s) && Legal(s, es)
    ensures TokensKnown(Exec(s, es))
  {
    if es != [] {
      ExecKeepsTokensKnown(s, Front(es));
      ExecKeeps(s, Front(es));
      MoveKeepsTokensKnown(Exec(s, Front(es)), Last(es));
    }
  }

  lemma TokensKnownIn(es: seq<Event>, s: State)
    requires Reaches(es, s)
    ensures TokensKnown(s)
  {
    assert TokensKnown(INIT);
    ExecKeepsTokensKnown(INIT, es);
  }

  // ---------------------------------------------------------- reuse detection

  lemma ReplayRevokesFamily(s: State, call: nat, now: Time)
    requires Inv(s) && Enabled(s, RotateEnd(call, now)) && !Live(s.calls[call].found)
    ensures var s1 := Move(s, RotateEnd(call, now));
      DeadFamily(s1, s.calls[call].found.familyId) && Last(s1.log).res == Refreshed(Reused(s.calls[call].found))
  {
    assert PendingOk(s.db.rows, s.ids, s.tokens, s.calls[call]);
  }

  ghost predicate Refused(log: seq<Entry>, since: nat, f: string) {
    forall i :: since <= i < |log| && log[i].op.Rotate? && IssuedIn(log, log[i].op.presented) == Some(f) ==> !Rotates(log[i])
  }

  /** Every token ever issued in a dead family is refused in every continuation:
      none of them is rotated, and none of them finds a live row. */
  lemma DeadFamilyRefuses(before: seq<Event>, s: State, es: seq<Event>, f: string)
    requires Reaches(before, s) && Legal(s, es) && DeadFamily(s, f)
    ensures var s' := Exec(s, es);
      && Refused(s'.log, |s.log|, f)
      && (forall raw :: IssuedIn(s'.log, raw) == Some(f) ==>
            var found := Find(s'.db.rows, HashToken(raw)); found.Some? ==> !Live(found.value))
  {
    var s' := Exec(s, es);
    ReachableInv(before, s);
    ExecKeeps(s, es);
    TokensKnownIn(before, s);
    ExecKeepsTokensKnown(s, es);
    DeathIsFinal(before, s, es, f);
  }

  /** The RevokeFamily step of a call that presented a revoked token: the call
      answers "reused", and from then on every token ever issued in the family is
      refused, whatever was in flight. */
  lemma ReplayKillsFamily(before: seq<Event>, s: State, call: nat, now: Time, es: seq<Event>)
    requires Reaches(before, s) && Enabled(s, RotateEnd(call, now)) && !Live(s.calls[call].found)
    requires Legal(Move(s, RotateEnd(call, now)), es)
    ensures var f := s.calls[call].found.familyId;
      var s1 := Move(s, RotateEnd(call, now));
      var s2 := Exec(s1, es);
      && Last(s1.log).res == Refreshed(Reused(s.calls[call].found))
      && DeadFamily(s1, f) && DeadFamily(s2, f)
      && IssuedIn(s2.log, s.calls[call].presented) == Some(f)
      && Refused(s2.log, |s1.log|, f)
      && (forall raw :: IssuedIn(s2.log, raw) == Some(f) ==>
            var found := Find(s2.db.rows, HashToken(raw)); found.Some? ==> !Live(found.value))
  {
    var e := RotateEnd(call, now);
    var s1, f := Move(s, e), s.calls[call].found.familyId;
    ReachableInv(before, s);
    ReplayRevokesFamily(s, call, now);
    ReachesNext(before, s, e);
    DeathIsFinal(before + [e], s1, es, f);
    DeadFamilyRefuses(before + [e], s1, es, f);
    PresentedStaysIssued(before, s, call, e, es);
  }

  lemma PresentedStaysIssued(before: seq<Event>, s: State, call: nat, e: Event, es: seq<Event>)
    requires Reaches(before, s) && call in s.calls && s.calls[call].Rotating?
    requires Enabled(s, e) && Legal(Move(s, e), es)
    ensures IssuedIn(Exec(Move(s, e), es).log, s.calls[call].presented) == Some(s.calls[call].found.familyId)
  {
    ReachableInv(before, s);
    TokensKnownIn(before, s);
    MoveKeeps(s, e);
    MoveKeepsIssued(s, e, s.calls[call].presented);
    IssuedForGood(Move(s, e), es, s.calls[call].presented);
  }

  lemma {:induction false} IssuedForGood(s: State, es: seq<Event>, raw: string)
    requires Inv(s) && Legal(s, es) && raw in s.tokens
    ensures raw in Exec(s, es).tokens && IssuedIn(Exec(s, es).log, raw) == IssuedIn(s.log, raw)
  {
    if es != [] {
      IssuedForGood(s, Front(es), raw);
      ExecKeeps(s, Front(es));
      MoveKeepsIssued(Exec(s, Front(es)), Last(es), raw);
    }
  }
}
