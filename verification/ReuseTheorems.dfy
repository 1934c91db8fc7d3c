/** Reuse detection from end to end: from the call that presents a superseded
    token to every later answer in its family. */
module ReuseTheorems {
  import opened Types
  import opened Runs
  import opened SessionRows
  import opened SerialSessions
  import opened Interleaved
  import opened FamilyTheorems
  import opened ChainTheorems
  import opened Serialisation
  import Families

  predicate EndsCall(e: Event, c: nat) {
    e.RotateEnd? && e.call == c
  }

  /** A waiting rotation keeps what it looked up until it ends. */
  lemma {:induction false} WaitsOn(s: State, es: seq<Event>, c: nat)
    requires Inv(s) && Legal(s, es) && c in s.calls && s.calls[c].Rotating?
    requires forall i :: 0 <= i < |es| ==> !EndsCall(es[i], c)
    ensures c in Exec(s, es).calls && Exec(s, es).calls[c] == s.calls[c]
  {
    if es != [] {
      WaitsOn(s, Front(es), c);
      ExecKeeps(s, Front(es));
      StillWaits(Exec(s, Front(es)), Last(es), c);
    }
  }

  lemma StillWaits(s: State, e: Event, c: nat)
    requires Enabled(s, e) && c in s.calls && s.calls[c].Rotating? && !EndsCall(e, c)
    ensures c in Move(s, e).calls && Move(s, e).calls[c] == s.calls[c]
  {
  }

  /** A call presents a superseded token, however deep in its family's chain;
      whatever runs before its second step and after it, that step answers "reused"
      and kills the family, and from then on every token ever issued in it is
      refused. (The row excludes only that the family went away with its user.) */
  lemma SupersededTokenKills(before: seq<Event>, s: State, f: string, k: nat, begin: Event,
                             during: seq<Event>, end: Event, later: seq<Event>)
    requires Reaches(before, s) && Enabled(s, begin) && begin.RotateBegin?
    requires k + 1 < |Chain(s.log, f)| && begin.presented == Chain(s.log, f)[k].token
    requires Chain(s.log, f)[k].id in s.db.rows
    requires Legal(Move(s, begin), during) && forall i :: 0 <= i < |during| ==> !EndsCall(during[i], begin.call)
    requires EndsCall(end, begin.call) && Enabled(Exec(Move(s, begin), during), end)
    requires Legal(Move(Exec(Move(s, begin), during), end), later)
    ensures var s1 := Move(Exec(Move(s, begin), during), end);
      var s2 := Exec(s1, later);
      && Last(s1.log).op.Rotate? && Last(s1.log).op.presented == begin.presented
      && Last(s1.log).res.Refreshed? && Last(s1.log).res.result.Reused?
      && DeadFamily(s1, f) && DeadFamily(s2, f)
      && Refused(s2.log, |s1.log|, f)
      && (forall raw :: IssuedIn(s2.log, raw) == Some(f) ==>
            var found := Find(s2.db.rows, HashToken(raw)); found.Some? ==> !Live(found.value))
  {
    SupersededIsReplay(before, s, f, k, begin);
    var s0 := Move(s, begin);
    ReachesNext(before, s, begin);
    ReachableInv(before + [begin], s0);
    WaitsOn(s0, during, begin.call);
    ReachesOn(before + [begin], s0, during);
    ReplayKillsFamily(before + [begin] + during, Exec(s0, during), begin.call, end.now, later);
    ReachableInv(before + [begin] + during, Exec(s0, during));
  }

  // ------------------------------------- what "refused" means, exactly

  /** Every token handed out is still in the table. */
  ghost predicate Stored(s: State) {
    forall raw :: IssuedIn(s.log, raw).Some? ==> Find(s.db.rows, HashToken(raw)).Some?
  }

  lemma HandedOutIsStored(s: State, e: Event, raw: string)
    requires Inv(s) && Enabled(s, e) && |Move(s, e).log| > |s.log|
    requires HandsOut(Last(Move(s, e).log), raw).Some?
    ensures exists id :: id in Move(s, e).db.rows && Move(s, e).db.rows[id].tokenHash == HashToken(raw)
  {
    var s' := Move(s, e);
    match e
    case Atomic(op) =>
      assert s'.db.rows[op.id].tokenHash == HashToken(raw);
    case RotateEnd(c, _) =>
      assert s'.db.rows[s.calls[c].id].tokenHash == HashToken(raw);
    case _ =>
  }

  lemma StillFound(rows: Rows, rows': Rows, h: Digest)
    requires rows.Keys <= rows'.Keys && forall id :: id in rows ==> SameRow(rows[id], rows'[id])
    requires Find(rows, h).Some?
    ensures Find(rows', h).Some?
  {
    Families.StoredSomewhere(rows, h);
    Families.StoredSomewhere(rows', h);
    var id :| id in rows && rows[id].tokenHash == h;
    assert SameRow(rows[id], rows'[id]);
  }

  lemma MoveKeepsStored(s: State, e: Event)
    requires Inv(s) && Stored(s) && Enabled(s, e) && !Deletes(e)
    ensures Stored(Move(s, e))
  {
    var s' := Move(s, e);
    MoveExtendsLog(s, e);
    RowsOnlyGrow(s, e);
    MoveEvolves(s, e);
    forall raw | IssuedIn(s'.log, raw).Some? ensures Find(s'.db.rows, HashToken(raw)).Some? {
      if |s'.log| > |s.log| && HandsOut(Last(s'.log), raw).Some? {
        HandedOutIsStored(s, e, raw);
        Families.StoredSomewhere(s'.db.rows, HashToken(raw));
      } else {
        if |s'.log| > |s.log| {
          assert s'.log == s.log + [Last(s'.log)];
          IssuedAppend(s.log, Last(s'.log), raw);
        }
        StillFound(s.db.rows, s'.db.rows, HashToken(raw));
      }
    }
  }

  lemma {:induction false} NothingIsLost(es: seq<Event>, s: State)
    requires Reaches(es, s) && NoDeletions(es)
    ensures Stored(s)
  {
    if es != [] {
      var m := Exec(INIT, Front(es));
      NothingIsLost(Front(es), m);
      ReachableInv(Front(es), m);
      MoveKeepsStored(m, Last(es));
    }
  }

  /** The draws of the rotations in flight. */
  function InFlight(s: State): set<string> {
    set c | c in s.calls && s.calls[c].Rotating? :: s.calls[c].id
  }

  /** A token of the family was presented; the answer was "reused", or "not found"
      to one of the calls named by their draws. */
  predicate AnsweredDead(e: Entry, late: set<string>) {
    e.res.Refreshed? && (e.res.result.Reused? || (Lost(e) && e.op.id in late))
  }

  ghost predicate AllAnsweredDead(log: seq<Entry>, since: nat, f: string, late: set<string>) {
    forall i :: since <= i < |log| && log[i].op.Rotate? && IssuedIn(log, log[i].op.presented) == Some(f) ==>
      AnsweredDead(log[i], late)
  }

  /** The waiting calls that found a live row of the family were in flight before. */
  ghost predicate LateOnly(s: State, f: string, late: set<string>) {
    forall c :: c in s.calls && s.calls[c].Rotating? && s.calls[c].found.familyId == f && Live(s.calls[c].found) ==>
      s.calls[c].id in late
  }

  lemma MoveKeepsLateOnly(s: State, e: Event, f: string, late: set<string>)
    requires Inv(s) && Enabled(s, e) && DeadFamily(s, f) && LateOnly(s, f, late)
    ensures LateOnly(Move(s, e), f, late)
  {
    var s' := Move(s, e);
    MoveKeepsDraws(s, e);
    forall c | c in s'.calls && s'.calls[c].Rotating? && s'.calls[c].found.familyId == f && Live(s'.calls[c].found)
      ensures s'.calls[c].id in late
    {
      assert c in s.calls;
    }
  }

  /** A dead family is given no new token. */
  lemma DeadIssuesNothing(s: State, e: Event, f: string, raw: string)
    requires Inv(s) && Enabled(s, e) && DeadFamily(s, f) && |Move(s, e).log| > |s.log|
    requires IssuedIn(Move(s, e).log, raw) == Some(f)
    ensures IssuedIn(s.log, raw) == Some(f)
  {
    var entry := Last(Move(s, e).log);
    MoveHandsOutFresh(s, e, raw);
    DeadNeverRotates(s, e, f);
    IssuedAppend(s.log, entry, raw);
  }

  lemma DeadAnswer(s: State, e: Event, f: string, late: set<string>)
    requires Inv(s) && TokensKnown(s) && Stored(s) && LateOnly(s, f, late) && DeadFamily(s, f)
    requires Enabled(s, e) && |Move(s, e).log| > |s.log|
    requires var entry := Last(Move(s, e).log);
      entry.op.Rotate? && IssuedIn(s.log, entry.op.presented) == Some(f)
    ensures AnsweredDead(Last(Move(s, e).log), late)
  {
    match e
    case RotateBegin(_, presented, _, _, _) =>
      assert false;
    case RotateEnd(c, now) =>
      var p := s.calls[c];
      assert PendingOk(s.db.rows, s.ids, s.tokens, p);
      EndIsInsertable(s, c, now);
    case _ =>
      assert false;
  }

  lemma MoveKeepsAnswers(s: State, e: Event, since: nat, f: string, late: set<string>)
    requires Inv(s) && TokensKnown(s) && Stored(s) && LateOnly(s, f, late) && DeadFamily(s, f) && Enabled(s, e)
    requires AllAnsweredDead(s.log, since, f, late)
    ensures AllAnsweredDead(Move(s, e).log, since, f, late)
  {
    var log := Move(s, e).log;
    MoveExtendsLog(s, e);
    forall i | since <= i < |log| && log[i].op.Rotate? && IssuedIn(log, log[i].op.presented) == Some(f)
      ensures AnsweredDead(log[i], late)
    {
      if |log| > |s.log| {
        DeadIssuesNothing(s, e, f, log[i].op.presented);
      }
      if i < |s.log| {
        assert log[i] == s.log[i];
      } else {
        DeadAnswer(s, e, f, late);
      }
    }
  }

  /** Without account deletion every call that presents a token of a dead family
      is told "reused", except those that were in flight with a live row when it
      died: they find their row revoked and are told "not found". */
  lemma {:induction false} DeadFamilyAnswers(before: seq<Event>, s: State, es: seq<Event>, f: string)
    requires Reaches(before, s) && Legal(s, es) && DeadFamily(s, f)
    requires NoDeletions(before) && NoDeletions(es)
    ensures AllAnsweredDead(Exec(s, es).log, |s.log|, f, InFlight(s))
    ensures LateOnly(Exec(s, es), f, InFlight(s)) && DeadFamily(Exec(s, es), f)
  {
    if es != [] {
      var m := Exec(s, Front(es));
      DeadFamilyAnswers(before, s, Front(es), f);
      ReachesOn(before, s, Front(es));
      ReachableInv(before + Front(es), m);
      TokensKnownIn(before + Front(es), m);
      NothingIsLost(before + Front(es), m);
      MoveKeepsDead(m, Last(es), f);
      MoveKeepsLateOnly(m, Last(es), f, InFlight(s));
      MoveKeepsAnswers(m, Last(es), |s.log|, f, InFlight(s));
    }
  }
}
