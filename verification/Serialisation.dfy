/** Every interleaved run is equivalent to a serial one: drop the rotations that
    lost their race and put every other call at its last store step. (The module
    `DeletionPlans` adds account deletion, which moves some calls.) */
module Serialisation {
  import opened Types
  import opened Runs
  import opened SessionRows
  import opened SerialSessions
  import opened Families
  import opened Interleaved
  import opened FamilyTheorems

  /** A rotation that found its row live, and found it revoked or gone when it
      came to rotate it. */
  predicate Lost(e: Entry) {
    e.op.Rotate? && e.res.Refreshed? && e.res.result.StoreFailed?
  }

  function Kept(log: seq<Entry>): seq<Entry> {
    if log == [] then [] else Kept(Front(log)) + (if Lost(Last(log)) then [] else [Last(log)])
  }

  function Ops(log: seq<Entry>): (ops: seq<Op>)
    ensures |ops| == |log| && forall i :: 0 <= i < |log| ==> ops[i] == log[i].op
  {
    seq(|log|, i requires 0 <= i < |log| => log[i].op)
  }

  predicate Deletes(e: Event) {
    e.DeleteRevoke? || e.DeleteUser?
  }

  ghost predicate NoDeletions(es: seq<Event>) {
    forall i :: 0 <= i < |es| ==> !Deletes(es[i])
  }

  /** The rows the waiting calls have looked up are still there. */
  ghost predicate AllPresent(s: State) {
    forall c :: c in s.calls ==>
      match s.calls[c]
      case Rotating(_, found, _, _) => found.id in s.db.rows
      case Revoking(sid, _) => sid in s.db.rows
  }

  lemma RowsOnlyGrow(s: State, e: Event)
    requires Enabled(s, e) && !Deletes(e)
    ensures s.db.rows.Keys <= Move(s, e).db.rows.Keys
  {
  }

  lemma MoveKeepsPresent(s: State, e: Event)
    requires Inv(s) && AllPresent(s) && Enabled(s, e) && !Deletes(e)
    ensures AllPresent(Move(s, e))
  {
    var s' := Move(s, e);
    RowsOnlyGrow(s, e);
    MoveKeepsDraws(s, e);
    forall c | c in s'.calls
      ensures match s'.calls[c] case Rotating(_, found, _, _) => found.id in s'.db.rows case Revoking(sid, _) => sid in s'.db.rows
    {
      if c !in s.calls && e.RotateBegin? {
        assert IsLookup(s.db.rows, HashToken(e.presented), Find(s.db.rows, HashToken(e.presented)));
      }
    }
  }

  // --------------------------------------------------------------- the losers

  /** A rotation loses exactly when the row it found live is no longer live at
      its second step; it then answers "not found" and changes nothing. */
  lemma LosesExactlyWhenRaced(es: seq<Event>, s: State, call: nat, now: Time)
    requires Reaches(es, s) && Enabled(s, RotateEnd(call, now))
    ensures var s' := Move(s, RotateEnd(call, now));
      var found := s.calls[call].found;
      && (Lost(Last(s'.log)) <==> Live(found) && (found.id !in s.db.rows || !Live(s.db.rows[found.id])))
      && (Lost(Last(s'.log)) ==> Last(s'.log).res == Refreshed(StoreFailed(ErrNotFound)) && s'.db == s.db)
  {
    ReachableInv(es, s);
    EndIsInsertable(s, call, now);
  }

  lemma EndIsInsertable(s: State, call: nat, now: Time)
    requires Inv(s) && Enabled(s, RotateEnd(call, now))
    ensures var p := s.calls[call];
      p.found.id in s.db.rows ==>
        Insertable(s.db.users.Keys, RevokeIn(Postgres, s.db.rows, p.found.id, now).0, Successor(p.found, p.id, p.raw))
  {
    assert PendingOk(s.db.rows, s.ids, s.tokens, s.calls[call]);
  }

  /** Of two rotations that found the same live row, one ends: the other loses. */
  lemma SecondLoses(s: State, c: nat, d: nat, now: Time, later: Time)
    requires Inv(s) && c != d && Enabled(s, RotateEnd(c, now)) && Enabled(s, RotateEnd(d, later))
    requires s.calls[c].found == s.calls[d].found && Live(s.calls[c].found)
    ensures var s1 := Move(s, RotateEnd(c, now));
      && Enabled(s1, RotateEnd(d, later))
      && Lost(Last(Move(s1, RotateEnd(d, later)).log))
  {
    var s1 := Move(s, RotateEnd(c, now));
    EndIsInsertable(s, c, now);
    MoveKeeps(s, RotateEnd(c, now));
    EndIsInsertable(s1, d, later);
    assert PendingOk(s.db.rows, s.ids, s.tokens, s.calls[c]);
    assert PendingOk(s.db.rows, s.ids, s.tokens, s.calls[d]);
  }

  lemma OneSession(start: Session) returns (es: seq<Event>, s: State)
    requires start == Session("s", "s", "u", HashToken("A"), "", "", 0, None)
    ensures Reaches(es, s) && NoDeletions(es)
    ensures s.db.rows == map["s" := start] && s.calls == map[] && s.ids == {"u", "s"} && s.tokens == {"A"}
  {
    var signUp, login := Atomic(SignUp("u", "h")), Atomic(Login("u", true, "", "", "s", "A", 0));
    ReachesNext([], INIT, signUp);
    ReachesNext([] + [signUp], Move(INIT, signUp), login);
    es, s := [] + [signUp] + [login], Move(Move(INIT, signUp), login);
  }

  lemma BothWaiting(start: Session) returns (es: seq<Event>, s: State)
    requires start == Session("s", "s", "u", HashToken("A"), "", "", 0, None)
    ensures Reaches(es, s) && NoDeletions(es)
    ensures 0 in s.calls && 1 in s.calls
    ensures s.calls[0] == Rotating("A", start, "t", "B") && s.calls[1] == Rotating("A", start, "v", "C")
  {
    es, s := OneSession(start);
    ReachableInv(es, s);
    FindByRow(s.db.rows, "s");
    var first, second := RotateBegin(0, "A", "t", "B", 1), RotateBegin(1, "A", "v", "C", 1);
    ReachesNext(es, s, first);
    ReachesNext(es + [first], Move(s, first), second);
    es, s := es + [first] + [second], Move(Move(s, first), second);
  }

  /** Such a run exists: one session, its token presented by two calls at once. */
  lemma RaceHappens() returns (es: seq<Event>, s: State)
    ensures Reaches(es, s) && NoDeletions(es)
    ensures s.log != [] && Lost(Last(s.log))
  {
    es, s := BothWaiting(Session("s", "s", "u", HashToken("A"), "", "", 0, None));
    ReachableInv(es, s);
    var first, second := RotateEnd(0, 2), RotateEnd(1, 2);
    SecondLoses(s, 0, 1, 2, 2);
    ReachesNext(es, s, first);
    ReachesNext(es + [first], Move(s, first), second);
    es, s := es + [first] + [second], Move(Move(s, first), second);
  }

  // ------------------------------------------------------------ serialisation

  /** The second half of a rotation, run as a whole call at that moment. */
  lemma EndIsWholeCall(s: State, call: nat, now: Time)
    requires Inv(s) && Enabled(s, RotateEnd(call, now)) && s.calls[call].found.id in s.db.rows
    requires !Lost(Last(Move(s, RotateEnd(call, now)).log))
    ensures var p := s.calls[call];
      FinishRotation(s.db, p, now) == Step(Postgres, s.db, Rotate(p.presented, p.id, p.raw, now))
  {
    var p := s.calls[call];
    assert PendingOk(s.db.rows, s.ids, s.tokens, p);
    FindByRow(s.db.rows, p.found.id);
    assert s.db.rows[p.found.id] == p.found;
  }

  /** The second step of a replay whose row has gone away with its user. */
  predicate Orphaned(s: State, e: Event) {
    && e.RotateEnd? && e.call in s.calls && s.calls[e.call].Rotating?
    && !Live(s.calls[e.call].found) && s.calls[e.call].found.id !in s.db.rows
  }

  /** One step of the machine that neither deletes nor is orphaned: no call
      finishes and nothing changes, or a loser finishes and nothing changes, or a
      call finishes and the step is that whole call, run serially on the table as
      it stands. */
  lemma MoveIsSerial(s: State, e: Event)
    requires Inv(s) && Enabled(s, e) && !Deletes(e) && !Orphaned(s, e)
    ensures var s' := Move(s, e);
      || (s'.log == s.log && s'.db == s.db)
      || (s'.log == s.log + [Last(s'.log)] && Lost(Last(s'.log)) && s'.db == s.db)
      || (s'.log == s.log + [Last(s'.log)] && !Lost(Last(s'.log))
          && Step(Postgres, s.db, Last(s'.log).op) == (s'.db, Last(s'.log).res))
  {
    match e
    case RotateEnd(c, now) =>
      assert PendingOk(s.db.rows, s.ids, s.tokens, s.calls[c]);
      EndIsInsertable(s, c, now);
      if !Lost(Last(Move(s, e).log)) {
        EndIsWholeCall(s, c, now);
      }
    case RevokeEnd(c, now) =>
      assert PendingOk(s.db.rows, s.ids, s.tokens, s.calls[c]);
    case _ =>
  }

  /** The finished calls, run one after the other on an empty table, end in `db`
      and give every call the answer it was given. */
  ghost predicate SerialRun(calls: seq<Entry>, db: Db) {
    && FreshRun(Ops(calls))
    && Run(Postgres, Ops(calls)) == db
    && (forall i :: 0 <= i < |calls| ==> ResultAt(Postgres, Ops(calls), i) == calls[i].res)
  }

  lemma OpsAppend(calls: seq<Entry>, e: Entry)
    ensures Ops(calls + [e]) == Ops(calls) + [e.op]
  {
  }

  lemma SerialAppend(calls: seq<Entry>, db: Db, e: Entry, db': Db)
    requires SerialRun(calls, db) && Step(Postgres, db, e.op) == (db', e.res)
    requires OpIds(e.op) !! Ids(Ops(calls)) && OpTokens(e.op) !! Tokens(Ops(calls))
    ensures SerialRun(calls + [e], db')
    ensures Ids(Ops(calls + [e])) == Ids(Ops(calls)) + OpIds(e.op)
    ensures Tokens(Ops(calls + [e])) == Tokens(Ops(calls)) + OpTokens(e.op)
  {
    var ops, ops' := Ops(calls), Ops(calls + [e]);
    OpsAppend(calls, e);
    assert Front(ops') == ops && Last(ops') == e.op;
    forall i | 0 <= i < |calls + [e]| ensures ResultAt(Postgres, ops', i) == (calls + [e])[i].res {
      if i < |calls| {
        assert ops'[..i] == ops[..i];
        assert ResultAt(Postgres, ops, i) == calls[i].res;
      } else {
        assert ops'[..i] == ops;
      }
    }
  }

  /** What a call that finishes drew was not drawn by any call before it. */
  lemma FinishedDrawsAreFresh(s: State, e: Event)
    requires Inv(s) && Enabled(s, e) && |Move(s, e).log| > |s.log|
    ensures var op := Last(Move(s, e).log).op;
      && OpIds(op) !! s.ids && OpTokens(op) !! s.tokens
      && Move(s, e).ids == s.ids + OpIds(op) && Move(s, e).tokens == s.tokens + OpTokens(op)
  {
    if e.RotateEnd? {
      assert PendingOk(s.db.rows, s.ids, s.tokens, s.calls[e.call]);
    }
  }

  ghost predicate Serialised(log: seq<Entry>, db: Db, ids: set<string>, tokens: set<string>) {
    && SerialRun(Kept(log), db)
    && Ids(Ops(Kept(log))) <= ids
    && Tokens(Ops(Kept(log))) <= tokens
  }

  lemma FinishSerialised(log: seq<Entry>, db: Db, ids: set<string>, tokens: set<string>, e: Entry, db': Db)
    requires Serialised(log, db, ids, tokens) && OpIds(e.op) !! ids && OpTokens(e.op) !! tokens
    requires if Lost(e) then db' == db else Step(Postgres, db, e.op) == (db', e.res)
    ensures Serialised(log + [e], db', ids + OpIds(e.op), tokens + OpTokens(e.op))
  {
    assert Front(log + [e]) == log;
    if Lost(e) {
      assert Kept(log + [e]) == Kept(log);
    } else {
      SerialAppend(Kept(log), db, e, db');
    }
  }

  lemma MoveKeepsSerialised(s: State, e: Event)
    requires Inv(s) && !Orphaned(s, e) && Serialised(s.log, s.db, s.ids, s.tokens) && Enabled(s, e) && !Deletes(e)
    ensures var s' := Move(s, e); Serialised(s'.log, s'.db, s'.ids, s'.tokens)
  {
    var s' := Move(s, e);
    MoveIsSerial(s, e);
    MoveExtendsLog(s, e);
    if |s'.log| > |s.log| {
      FinishedDrawsAreFresh(s, e);
      FinishSerialised(s.log, s.db, s.ids, s.tokens, Last(s'.log), s'.db);
    }
  }

  /** Serialisation: in every interleaved run without account deletion, the kept
      calls, in the order of their last store steps, form a serial run that ends in
      the same tables and gives every kept call the same result. */
  lemma {:induction false} InterleavingsSerialise(es: seq<Event>, s: State)
    requires Reaches(es, s)
    requires NoDeletions(es)
    ensures SerialRun(Kept(s.log), s.db)
    ensures AllPresent(s) && Serialised(s.log, s.db, s.ids, s.tokens)
  {
    if es != [] {
      var m := Exec(INIT, Front(es));
      InterleavingsSerialise(Front(es), m);
      ReachableInv(Front(es), m);
      MoveKeepsPresent(m, Last(es));
      MoveKeepsSerialised(m, Last(es));
    }
  }

  /** Why the losers have to go: their answer is one no serial run ever gives. */
  lemma LosersAreNotSerial(ops: seq<Op>, i: nat)
    requires FreshRun(ops) && i < |ops|
    ensures !Lost(Entry(ops[i], ResultAt(Postgres, ops, i)))
  {
    if ops[i].Rotate? {
      PrefixFresh(ops, i);
      PrefixFresh(ops, i + 1);
      assert Front(ops[..i + 1]) == ops[..i];
      RunKeeps(Postgres, ops[..i]);
      SerialRotateNeverFails(Postgres, Run(Postgres, ops[..i]), ops[i], Ids(ops[..i]), Tokens(ops[..i]));
    }
  }

  /** Serialisation carries the abstract machine over to interleaved runs: the
      tables are in its state, and a token presented to an idle moment of the run
      is judged by it. */
  lemma InterleavingsRefineFamilies(es: seq<Event>, s: State, token: string)
    requires Reaches(es, s)
    requires NoDeletions(es)
    ensures var m := MachineRun(Ops(Kept(s.log)));
      var found := Find(s.db.rows, HashToken(token));
      && Refines(s.db, m, s.ids)
      && (IsCurrent(m, token) <==> found.Some? && Live(found.value))
      && (IsPast(m, token) <==> found.Some? && !Live(found.value))
  {
    InterleavingsSerialise(es, s);
    ReachableInv(es, s);
    var ops := Ops(Kept(s.log));
    RunRefines(Postgres, ops);
    CurrentIsLive(s.db.rows, MachineRun(ops), token);
    PastIsRevoked(s.db.rows, MachineRun(ops), token);
  }
}
