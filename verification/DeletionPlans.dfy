/** Serialisation with account deletion. The two store steps of a deletion are
    serial steps of their own; a replay that lost its row to the cascade goes just
    before the step that removed the user; every other kept call stays at its
    last store step. */
module DeletionPlans {
  import opened Types
  import opened Runs
  import opened SessionRows
  import opened SerialSessions
  import opened Interleaved
  import opened FamilyTheorems
  import opened Serialisation

  /** A step of a serial run: a whole call with its answer, or one of the two
      store steps of a deletion. */
  datatype Item =
    | Call(entry: Entry)
    | RevokeSessions(uid: string, now: Time)
    | RemoveUser(uid: string)

  ghost function Apply(db: Db, x: Item): Db {
    match x
    case Call(e) => Step(Postgres, db, e.op).0
    case RevokeSessions(uid, now) => db.(rows := RevokeScope(db.rows, OfUser(uid), now))
    case RemoveUser(uid) => Cascade(db, uid)
  }

  ghost function After(plan: seq<Item>): Db {
    if plan == [] then Db(map[], map[]) else Apply(After(Front(plan)), Last(plan))
  }

  /** Run serially, every call of the plan gets the answer it was given. */
  ghost predicate Honest(plan: seq<Item>) {
    plan == [] || (
      && Honest(Front(plan))
      && (Last(plan).Call? ==> Step(Postgres, After(Front(plan)), Last(plan).entry.op).1 == Last(plan).entry.res))
  }

  function ItemIds(x: Item): set<string> {
    if x.Call? then OpIds(x.entry.op) else {}
  }

  function ItemTokens(x: Item): set<string> {
    if x.Call? then OpTokens(x.entry.op) else {}
  }

  function PlanIds(plan: seq<Item>): set<string> {
    if plan == [] then {} else PlanIds(Front(plan)) + ItemIds(Last(plan))
  }

  function PlanTokens(plan: seq<Item>): set<string> {
    if plan == [] then {} else PlanTokens(Front(plan)) + ItemTokens(Last(plan))
  }

  predicate Fresh(plan: seq<Item>) {
    plan == [] || (
      && Fresh(Front(plan))
      && ItemIds(Last(plan)) !! PlanIds(Front(plan))
      && ItemTokens(Last(plan)) !! PlanTokens(Front(plan)))
  }

  function Calls(plan: seq<Item>): seq<Entry> {
    if plan == [] then [] else Calls(Front(plan)) + (if Last(plan).Call? then [Last(plan).entry] else [])
  }

  /** The deletion steps of a plan, in order. */
  function Removals(plan: seq<Item>): seq<Item> {
    if plan == [] then [] else Removals(Front(plan)) + (if Last(plan).Call? then [] else [Last(plan)])
  }

  // -------------------------------------------------------------- placing

  /** The last step of the plan is the one that takes the row away. */
  ghost predicate Erases(plan: seq<Item>, row: Session)
    requires plan != []
  {
    var rows := After(Front(plan)).rows;
    Last(plan) == RemoveUser(row.userId) && row.id in rows && rows[row.id] == row
  }

  ghost predicate Placeable(plan: seq<Item>, row: Session) {
    plan != [] && (Erases(plan, row) || Placeable(Front(plan), row))
  }

  /** The item goes just before the step that takes the row away. */
  ghost function Place(plan: seq<Item>, x: Item, row: Session): seq<Item> {
    if plan == [] then [x]
    else if Erases(plan, row) then Front(plan) + [x, Last(plan)]
    else Place(Front(plan), x, row) + [Last(plan)]
  }

  /** The plan after one more step of the machine. */
  ghost function Extend(plan: seq<Item>, s: State, e: Event): seq<Item>
    requires Enabled(s, e)
  {
    match e
    case DeleteRevoke(uid, now) => plan + [RevokeSessions(uid, now)]
    case DeleteUser(uid) => plan + [RemoveUser(uid)]
    case _ =>
      var s' := Move(s, e);
      if |s'.log| <= |s.log| || Lost(Last(s'.log)) then plan
      else if Orphaned(s, e) then Place(plan, Call(Last(s'.log)), s.calls[e.call].found)
      else plan + [Call(Last(s'.log))]
  }

  ghost function Plan(es: seq<Event>): seq<Item>
    requires Legal(INIT, es)
  {
    if es == [] then [] else Extend(Plan(Front(es)), Exec(INIT, Front(es)), Last(es))
  }

  lemma Append(plan: seq<Item>, x: Item)
    ensures After(plan + [x]) == Apply(After(plan), x)
    ensures Honest(plan + [x]) <==> Honest(plan) && (x.Call? ==> Step(Postgres, After(plan), x.entry.op).1 == x.entry.res)
    ensures forall row :: Placeable(plan + [x], row) <==> Erases(plan + [x], row) || Placeable(plan, row)
  {
    assert Front(plan + [x]) == plan;
  }

  lemma AppendDraws(plan: seq<Item>, x: Item)
    ensures PlanIds(plan + [x]) == PlanIds(plan) + ItemIds(x)
    ensures PlanTokens(plan + [x]) == PlanTokens(plan) + ItemTokens(x)
    ensures Fresh(plan + [x]) <==> Fresh(plan) && ItemIds(x) !! PlanIds(plan) && ItemTokens(x) !! PlanTokens(plan)
  {
    assert Front(plan + [x]) == plan;
  }

  lemma AppendCalls(plan: seq<Item>, x: Item)
    ensures Calls(plan + [x]) == Calls(plan) + (if x.Call? then [x.entry] else [])
  {
    assert Front(plan + [x]) == plan;
  }

  lemma AppendRemovals(plan: seq<Item>, x: Item)
    ensures Removals(plan + [x]) == Removals(plan) + (if x.Call? then [] else [x])
  {
    assert Front(plan + [x]) == plan;
  }

  lemma {:induction false} PlanKeeps(plan: seq<Item>)
    requires Fresh(plan)
    ensures DbInv(After(plan), PlanIds(plan), PlanTokens(plan))
  {
    if plan != [] {
      var db, ids, tokens := After(Front(plan)), PlanIds(Front(plan)), PlanTokens(Front(plan));
      PlanKeeps(Front(plan));
      match Last(plan)
      case Call(e) => StepKeeps(Postgres, db, e.op, ids, tokens);
      case RevokeSessions(uid, now) => RevokeScopeKeeps(db.rows, ids, tokens, OfUser(uid), now);
      case RemoveUser(uid) => CascadeKeeps(db, uid, ids, tokens);
    }
  }

  /** A finished replay of the row. */
  predicate Replays(e: Entry, row: Session) {
    e.op.Rotate? && HashToken(e.op.presented) == row.tokenHash && !Live(row) && e.res == Refreshed(Reused(row))
  }

  /** Where its row is, a replay gets its answer; it changes only live rows of the
      family, all of which the removal of the user takes away. */
  lemma ReplayBeforeRemoval(db: Db, e: Entry, row: Session, ids: set<string>, tokens: set<string>)
    requires DbInv(db, ids, tokens) && row.id in db.rows && db.rows[row.id] == row && Replays(e, row)
    ensures Step(Postgres, db, e.op).1 == e.res
    ensures Cascade(Step(Postgres, db, e.op).0, row.userId) == Cascade(db, row.userId)
    ensures var rows' := Step(Postgres, db, e.op).0.rows;
      forall id :: id in db.rows && !Live(db.rows[id]) ==> id in rows' && rows'[id] == db.rows[id]
  {
    FindByRow(db.rows, row.id);
    var db' := db.(rows := RevokeScope(db.rows, OfFamily(row.familyId), e.op.now));
    assert Step(Postgres, db, e.op).0 == db';
    forall id | id in db.rows && db.rows[id].userId != row.userId ensures db'.rows[id] == db.rows[id] {
      assert db.rows[id].familyId == row.familyId ==> SameOrigin(db.rows[id], db.rows[row.id]);
    }
    assert Cascade(db', row.userId).rows == Cascade(db, row.userId).rows;
  }

  lemma {:induction false} PlaceDraws(plan: seq<Item>, e: Entry, row: Session)
    requires Placeable(plan, row) && Fresh(plan)
    requires OpIds(e.op) !! PlanIds(plan) && OpTokens(e.op) !! PlanTokens(plan)
    ensures var plan' := Place(plan, Call(e), row);
      Fresh(plan') && PlanIds(plan') == PlanIds(plan) + OpIds(e.op) && PlanTokens(plan') == PlanTokens(plan) + OpTokens(e.op)
  {
    var front, last := Front(plan), Last(plan);
    if Erases(plan, row) {
      assert front + [Call(e), last] == front + [Call(e)] + [last];
      AppendDraws(front, Call(e));
      AppendDraws(front + [Call(e)], last);
    } else {
      PlaceDraws(front, e, row);
      AppendDraws(Place(front, Call(e), row), last);
    }
  }

  lemma {:induction false} PlaceCalls(plan: seq<Item>, e: Entry, row: Session)
    requires Placeable(plan, row)
    ensures var plan' := Place(plan, Call(e), row);
      multiset(Calls(plan')) == multiset(Calls(plan)) + multiset{e}
  {
    var front, last := Front(plan), Last(plan);
    if Erases(plan, row) {
      assert front + [Call(e), last] == front + [Call(e)] + [last];
      AppendCalls(front, Call(e));
      AppendCalls(front + [Call(e)], last);
    } else {
      PlaceCalls(front, e, row);
      AppendCalls(Place(front, Call(e), row), last);
    }
  }

  lemma {:induction false} PlaceRemovals(plan: seq<Item>, e: Entry, row: Session)
    requires Placeable(plan, row)
    ensures Removals(Place(plan, Call(e), row)) == Removals(plan)
  {
    var front, last := Front(plan), Last(plan);
    if Erases(plan, row) {
      assert front + [Call(e), last] == front + [Call(e)] + [last];
      AppendRemovals(front, Call(e));
      AppendRemovals(front + [Call(e)], last);
    } else {
      PlaceRemovals(front, e, row);
      AppendRemovals(Place(front, Call(e), row), last);
    }
  }

  lemma {:induction false} PlaceRuns(plan: seq<Item>, e: Entry, row: Session)
    requires Placeable(plan, row) && Fresh(plan) && Honest(plan) && Replays(e, row)
    ensures var plan' := Place(plan, Call(e), row); Honest(plan') && After(plan') == After(plan)
  {
    var front, last := Front(plan), Last(plan);
    if Erases(plan, row) {
      PlanKeeps(front);
      ReplayBeforeRemoval(After(front), e, row, PlanIds(front), PlanTokens(front));
      assert front + [Call(e), last] == front + [Call(e)] + [last];
      Append(front, Call(e));
      Append(front + [Call(e)], last);
    } else {
      PlaceRuns(front, e, row);
      Append(Place(front, Call(e), row), last);
    }
  }

  /** Placing one replay leaves room for the others. */
  lemma {:induction false} PlaceKeepsPlaceable(plan: seq<Item>, e: Entry, row: Session, other: Session)
    requires Placeable(plan, row) && Fresh(plan) && Honest(plan) && Replays(e, row)
    requires Placeable(plan, other) && !Live(other)
    ensures Placeable(Place(plan, Call(e), row), other)
  {
    var front, last := Front(plan), Last(plan);
    if Erases(plan, row) {
      PlanKeeps(front);
      ReplayBeforeRemoval(After(front), e, row, PlanIds(front), PlanTokens(front));
      assert front + [Call(e), last] == front + [Call(e)] + [last];
      Append(front, Call(e));
      Append(front + [Call(e)], last);
      assert Front(front + [Call(e)] + [last]) == front + [Call(e)];
    } else {
      var placed := Place(front, Call(e), row);
      PlaceRuns(front, e, row);
      Append(placed, last);
      assert Front(placed + [last]) == placed;
      if Placeable(front, other) {
        PlaceKeepsPlaceable(front, e, row, other);
      }
    }
  }

  // ------------------------------------------------------------ the theorem

  /** The row a waiting rotation looked up is still there, or its whole family is
      gone and, if the row was revoked, the plan says which step took it. */
  ghost predicate Tracked(rows: Rows, plan: seq<Item>, p: Pending) {
    p.Rotating? && p.found.id !in rows ==>
      && (forall r :: r in rows ==> rows[r].familyId != p.found.familyId)
      && (!Live(p.found) ==> Placeable(plan, p.found))
  }

  ghost predicate AllTracked(s: State, plan: seq<Item>) {
    forall c :: c in s.calls ==> Tracked(s.db.rows, plan, s.calls[c])
  }

  /** The plan is a serial run that ends in the tables of the interleaved run,
      gives every kept call its answer, and holds exactly the kept calls. */
  ghost predicate SerialPlan(plan: seq<Item>, s: State) {
    && Fresh(plan) && Honest(plan)
    && After(plan) == s.db
    && multiset(Calls(plan)) == multiset(Kept(s.log))
  }

  ghost predicate Planned(plan: seq<Item>, s: State) {
    && SerialPlan(plan, s)
    && PlanIds(plan) <= s.ids && PlanTokens(plan) <= s.tokens
    && AllTracked(s, plan)
  }

  /** An orphaned replay is answered from what it had looked up, and changes
      nothing: its family is gone. */
  lemma OrphanEnds(s: State, e: Event, plan: seq<Item>)
    requires Inv(s) && Planned(plan, s) && Enabled(s, e) && Orphaned(s, e)
    ensures var s' := Move(s, e);
      && s'.db == s.db
      && s'.log == s.log + [Last(s'.log)] && !Lost(Last(s'.log))
      && Replays(Last(s'.log), s.calls[e.call].found) && Placeable(plan, s.calls[e.call].found)
  {
    var p := s.calls[e.call];
    assert PendingOk(s.db.rows, s.ids, s.tokens, p) && Tracked(s.db.rows, plan, p);
    assert RevokeScope(s.db.rows, OfFamily(p.found.familyId), e.now) == s.db.rows;
  }

  lemma KeptAppend(log: seq<Entry>, e: Entry)
    ensures Kept(log + [e]) == Kept(log) + (if Lost(e) then [] else [e])
  {
    assert Front(log + [e]) == log;
  }

  lemma OrphanExtends(s: State, e: Event, plan: seq<Item>)
    requires Inv(s) && Planned(plan, s) && Enabled(s, e) && Orphaned(s, e)
    ensures SerialPlan(Extend(plan, s, e), Move(s, e))
    ensures PlanIds(Extend(plan, s, e)) <= Move(s, e).ids && PlanTokens(Extend(plan, s, e)) <= Move(s, e).tokens
  {
    var entry, row := Last(Move(s, e).log), s.calls[e.call].found;
    OrphanEnds(s, e, plan);
    FinishedDrawsAreFresh(s, e);
    PlaceDraws(plan, entry, row);
    PlaceCalls(plan, entry, row);
    PlaceRuns(plan, entry, row);
    KeptAppend(s.log, entry);
  }

  lemma CallAppends(plan: seq<Item>, entry: Entry, db': Db, ids: set<string>, tokens: set<string>)
    requires Fresh(plan) && Honest(plan) && PlanIds(plan) <= ids && PlanTokens(plan) <= tokens
    requires OpIds(entry.op) !! ids && OpTokens(entry.op) !! tokens
    requires Step(Postgres, After(plan), entry.op) == (db', entry.res)
    ensures var plan' := plan + [Call(entry)];
      && Fresh(plan') && Honest(plan') && After(plan') == db'
      && PlanIds(plan') <= ids + OpIds(entry.op) && PlanTokens(plan') <= tokens + OpTokens(entry.op)
      && Calls(plan') == Calls(plan) + [entry]
  {
    Append(plan, Call(entry));
    AppendDraws(plan, Call(entry));
    AppendCalls(plan, Call(entry));
  }

  /** The plan grows by the entry of a kept call, and by nothing else. */
  lemma ExtendIsAppend(s: State, e: Event, plan: seq<Item>)
    requires Enabled(s, e) && !Orphaned(s, e) && !Deletes(e)
    ensures var log := Move(s, e).log;
      Extend(plan, s, e) == if |log| > |s.log| && !Lost(Last(log)) then plan + [Call(Last(log))] else plan
  {
  }

  lemma CallExtends(s: State, e: Event, plan: seq<Item>)
    requires Inv(s) && Planned(plan, s) && Enabled(s, e) && !Orphaned(s, e) && !Deletes(e)
    ensures SerialPlan(Extend(plan, s, e), Move(s, e))
    ensures PlanIds(Extend(plan, s, e)) <= Move(s, e).ids && PlanTokens(Extend(plan, s, e)) <= Move(s, e).tokens
  {
    var s' := Move(s, e);
    ExtendIsAppend(s, e, plan);
    MoveIsSerial(s, e);
    MoveKeepsDraws(s, e);
    if |s'.log| > |s.log| {
      FinishedDrawsAreFresh(s, e);
    }
    StepExtends(s, s', plan);
  }

  lemma StepExtends(s: State, s': State, plan: seq<Item>)
    requires Planned(plan, s) && s.ids <= s'.ids && s.tokens <= s'.tokens
    requires s'.log == s.log ==> s'.db == s.db
    requires s'.log != s.log ==> s'.log != [] && s'.log == s.log + [Last(s'.log)]
    requires s'.log != s.log ==>
      var entry := Last(s'.log);
      && OpIds(entry.op) !! s.ids && OpTokens(entry.op) !! s.tokens
      && s'.ids == s.ids + OpIds(entry.op) && s'.tokens == s.tokens + OpTokens(entry.op)
      && (if Lost(entry) then s'.db == s.db else Step(Postgres, s.db, entry.op) == (s'.db, entry.res))
    ensures var plan' := if |s'.log| > |s.log| && !Lost(Last(s'.log)) then plan + [Call(Last(s'.log))] else plan;
      SerialPlan(plan', s') && PlanIds(plan') <= s'.ids && PlanTokens(plan') <= s'.tokens
  {
    if |s'.log| > |s.log| {
      var entry := Last(s'.log);
      KeptAppend(s.log, entry);
      if !Lost(entry) {
        CallAppends(plan, entry, s'.db, s.ids, s.tokens);
      }
    }
  }

  lemma RemovalExtends(s: State, e: Event, plan: seq<Item>)
    requires Planned(plan, s) && Enabled(s, e) && Deletes(e)
    ensures SerialPlan(Extend(plan, s, e), Move(s, e))
    ensures PlanIds(Extend(plan, s, e)) <= Move(s, e).ids && PlanTokens(Extend(plan, s, e)) <= Move(s, e).tokens
  {
    var x := if e.DeleteRevoke? then RevokeSessions(e.uid, e.now) else RemoveUser(e.uid);
    Append(plan, x);
    AppendDraws(plan, x);
    AppendCalls(plan, x);
  }

  /** What was placeable stays so. */
  lemma ExtendKeepsPlaceable(s: State, e: Event, plan: seq<Item>, row: Session)
    requires Inv(s) && Planned(plan, s) && Enabled(s, e) && Placeable(plan, row) && !Live(row)
    ensures Placeable(Extend(plan, s, e), row)
  {
    if Orphaned(s, e) {
      OrphanEnds(s, e, plan);
      PlaceKeepsPlaceable(plan, Last(Move(s, e).log), s.calls[e.call].found, row);
    } else if Extend(plan, s, e) != plan {
      Append(plan, Last(Extend(plan, s, e)));
    }
  }

  /** A waiting call whose row goes away now: the whole family goes, and the plan
      ends in the step that takes it. */
  lemma RowGoes(s: State, e: Event, plan: seq<Item>, p: Pending)
    requires Inv(s) && Planned(plan, s) && Enabled(s, e) && p.Rotating? && PendingOk(s.db.rows, s.ids, s.tokens, p)
    requires p.found.id in s.db.rows && p.found.id !in Move(s, e).db.rows
    ensures Tracked(Move(s, e).db.rows, Extend(plan, s, e), p)
  {
    RowsOnlyGoWithUsers(s, e, p.found.id);
    var x := RemoveUser(e.uid);
    Append(plan, x);
    assert Front(plan + [x]) == plan;
  }

  lemma RowsOnlyGoWithUsers(s: State, e: Event, id: string)
    requires Enabled(s, e) && id in s.db.rows && id !in Move(s, e).db.rows
    ensures e == DeleteUser(s.db.rows[id].userId)
  {
    if !Deletes(e) {
      RowsOnlyGrow(s, e);
    }
  }

  /** A family that is gone stays gone. */
  lemma GoneStaysGone(rows: Rows, rows': Rows, ids: set<string>, f: string)
    requires Evolves(rows, rows', ids) && f in ids && forall r :: r in rows ==> rows[r].familyId != f
    ensures forall r :: r in rows' ==> rows'[r].familyId != f
  {
    forall r | r in rows' ensures rows'[r].familyId != f {
      if r in rows {
        assert SameRow(rows[r], rows'[r]);
      } else if rows'[r].familyId in ids {
        assert Inherits(rows, rows', r);
      }
    }
  }

  lemma WaitingStaysTracked(s: State, e: Event, plan: seq<Item>, c: nat)
    requires Inv(s) && Planned(plan, s) && Enabled(s, e) && c in s.calls && s.calls[c].Rotating?
    ensures Tracked(Move(s, e).db.rows, Extend(plan, s, e), s.calls[c])
  {
    var p := s.calls[c];
    assert PendingOk(s.db.rows, s.ids, s.tokens, p) && Tracked(s.db.rows, plan, p);
    if p.found.id in s.db.rows {
      if p.found.id !in Move(s, e).db.rows {
        RowGoes(s, e, plan, p);
      }
    } else {
      MoveEvolves(s, e);
      GoneStaysGone(s.db.rows, Move(s, e).db.rows, s.ids, p.found.familyId);
      if !Live(p.found) {
        ExtendKeepsPlaceable(s, e, plan, p.found);
      }
    }
  }

  lemma ExtendTracks(s: State, e: Event, plan: seq<Item>)
    requires Inv(s) && Planned(plan, s) && Enabled(s, e)
    ensures AllTracked(Move(s, e), Extend(plan, s, e))
  {
    var s' := Move(s, e);
    MoveKeepsDraws(s, e);
    forall c | c in s'.calls ensures Tracked(s'.db.rows, Extend(plan, s, e), s'.calls[c]) {
      if s'.calls[c].Rotating? {
        if c in s.calls {
          WaitingStaysTracked(s, e, plan, c);
        } else {
          assert IsLookup(s.db.rows, HashToken(e.presented), Find(s.db.rows, HashToken(e.presented)));
        }
      }
    }
  }

  lemma MoveKeepsPlanned(s: State, e: Event, plan: seq<Item>)
    requires Inv(s) && Planned(plan, s) && Enabled(s, e)
    ensures Planned(Extend(plan, s, e), Move(s, e))
  {
    ExtendTracks(s, e, plan);
    if Orphaned(s, e) {
      OrphanExtends(s, e, plan);
    } else if Deletes(e) {
      RemovalExtends(s, e, plan);
    } else {
      CallExtends(s, e, plan);
    }
  }

  /** Serialisation of every run, deletions included: the plan of the run is a
      serial run of its kept calls and deletion steps that ends in the same tables
      and gives every kept call the same answer. */
  lemma {:induction false} DeletionsSerialise(es: seq<Event>, s: State)
    requires Reaches(es, s)
    ensures SerialPlan(Plan(es), s)
    ensures Planned(Plan(es), s)
  {
    if es != [] {
      var m := Exec(INIT, Front(es));
      DeletionsSerialise(Front(es), m);
      ReachableInv(Front(es), m);
      MoveKeepsPlanned(m, Last(es), Plan(Front(es)));
    }
  }

  function RemovalOf(e: Event): seq<Item> {
    match e
    case DeleteRevoke(uid, now) => [RevokeSessions(uid, now)]
    case DeleteUser(uid) => [RemoveUser(uid)]
    case _ => []
  }

  function RemovalsOf(es: seq<Event>): seq<Item> {
    if es == [] then [] else RemovalsOf(Front(es)) + RemovalOf(Last(es))
  }

  /** The plan keeps the deletion steps of the run, in their order. */
  lemma {:induction false} RemovalsStay(es: seq<Event>, s: State)
    requires Reaches(es, s)
    ensures Removals(Plan(es)) == RemovalsOf(es)
  {
    if es != [] {
      var m, plan := Exec(INIT, Front(es)), Plan(Front(es));
      RemovalsStay(Front(es), m);
      DeletionsSerialise(Front(es), m);
      ReachableInv(Front(es), m);
      ExtendRemoves(m, Last(es), plan);
    }
  }

  lemma ExtendRemoves(s: State, e: Event, plan: seq<Item>)
    requires Inv(s) && Planned(plan, s) && Enabled(s, e)
    ensures Removals(Extend(plan, s, e)) == Removals(plan) + RemovalOf(e)
  {
    if Orphaned(s, e) {
      OrphanEnds(s, e, plan);
      PlaceRemovals(plan, Last(Move(s, e).log), s.calls[e.call].found);
    } else if Extend(plan, s, e) != plan {
      AppendRemovals(plan, Last(Extend(plan, s, e)));
    }
  }

  ghost predicate OrphanFree(es: seq<Event>)
    requires Legal(INIT, es)
  {
    es == [] || (OrphanFree(Front(es)) && !Orphaned(Exec(INIT, Front(es)), Last(es)))
  }

  /** Where no replay is orphaned, no call moves: the plan has the kept calls in
      the order of their last store steps. */
  lemma {:induction false} OrderStays(es: seq<Event>, s: State)
    requires Reaches(es, s) && OrphanFree(es)
    ensures Calls(Plan(es)) == Kept(s.log)
  {
    if es != [] {
      var m := Exec(INIT, Front(es));
      OrderStays(Front(es), m);
      ExtendKeepsOrder(m, Last(es), Plan(Front(es)));
    }
  }

  lemma ExtendKeepsOrder(s: State, e: Event, plan: seq<Item>)
    requires Enabled(s, e) && !Orphaned(s, e) && Calls(plan) == Kept(s.log)
    ensures Calls(Extend(plan, s, e)) == Kept(Move(s, e).log)
  {
    var log, plan' := Move(s, e).log, Extend(plan, s, e);
    MoveExtendsLog(s, e);
    if |log| > |s.log| {
      assert log == s.log + [Last(log)];
      KeptAppend(s.log, Last(log));
    }
    if plan' != plan {
      AppendCalls(plan, Last(plan'));
    }
  }

  // ------------------------------------------- why some calls have to move

  /** Run serially where it ended, an orphaned replay would be told "invalid", not
      "reused": no row carries its token any more. */
  lemma OrphanCannotStay(es: seq<Event>, s: State, e: Event)
    requires Reaches(es, s) && Enabled(s, e) && Orphaned(s, e)
    ensures Last(Move(s, e).log).res == Refreshed(Reused(s.calls[e.call].found))
    ensures Step(Postgres, s.db, Last(Move(s, e).log).op).1 == Refreshed(Invalid)
  {
    var p := s.calls[e.call];
    ReachableInv(es, s);
    TokensKnownIn(es, s);
    DeletionsSerialise(es, s);
    assert Tracked(s.db.rows, Plan(es), p);
    OrphanEnds(s, e, Plan(es));
    forall id | id in s.db.rows ensures s.db.rows[id].tokenHash != HashToken(p.presented) {
      assert IssuedIn(s.log, s.db.rows[id].tokenHash.raw) == Some(s.db.rows[id].familyId);
    }
  }

  /** Such a run exists: the session is revoked, its token presented, and the user
      deleted before the call goes on. */
  lemma OrphanHappens() returns (es: seq<Event>, s: State, e: Event)
    ensures Reaches(es, s) && Enabled(s, e) && Orphaned(s, e)
  {
    var start := Session("s", "s", "u", HashToken("A"), "", "", 0, None);
    var logout, begin, removal := Atomic(LogoutAll("u", 1)), RotateBegin(0, "A", "t", "B", 2), DeleteUser("u");
    es, s := OneSession(start);
    ReachesNext(es, s, logout);
    es, s := es + [logout], Move(s, logout);
    ReachableInv(es, s);
    FindByRow(s.db.rows, "s");
    ReachesNext(es, s, begin);
    es, s := es + [begin], Move(s, begin);
    ReachesNext(es, s, removal);
    es, s, e := es + [removal], Move(s, removal), RotateEnd(0, 3);
  }
}
