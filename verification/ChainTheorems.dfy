/** The sessions of a family form one chain, in every run of the interleaved
    machine: no session is rotated twice, and a superseded token is a replay. */
module ChainTheorems {
  import opened Types
  import opened Runs
  import opened SessionRows
  import opened SerialSessions
  import opened Interleaved
  import opened FamilyTheorems

  // ------------------------------------------------------------------ chains

  datatype Link = Link(id: string, token: string)

  /** The session a finished call added to the family, if it did. */
  function AddsTo(e: Entry, f: string): Option<Link> {
    match e.res
    case LoggedIn(s, raw, _) => if s.familyId == f then Some(Link(s.id, raw)) else None
    case Refreshed(Rotated(s, raw)) => if s.familyId == f then Some(Link(s.id, raw)) else None
    case _ => None
  }

  /** The family's sessions in the order the log created them. */
  function Chain(log: seq<Entry>, f: string): seq<Link> {
    if log == [] then []
    else Chain(Front(log), f) + (if AddsTo(Last(log), f).Some? then [AddsTo(Last(log), f).value] else [])
  }

  /** A family starts with a login, and every rotation in it presents the token
      of the chain's end: the log is one path, not a tree. */
  ghost predicate Grows(log: seq<Entry>, f: string) {
    forall i :: 0 <= i < |log| && AddsTo(log[i], f).Some? ==> Extends(Chain(log[..i], f), log[i].op)
  }

  predicate Extends(ch: seq<Link>, op: Op) {
    if op.Rotate? then ch != [] && Last(ch).token == op.presented else ch == []
  }

  /** The links have ids and tokens of their own, and start at the root. */
  ghost predicate ChainDistinct(ch: seq<Link>, f: string, ids: set<string>, tokens: set<string>) {
    && (forall k :: 0 <= k < |ch| ==> ch[k].id in ids && ch[k].token in tokens)
    && (forall j, k :: 0 <= j < k < |ch| ==> ch[j].id != ch[k].id && ch[j].token != ch[k].token)
    && (ch != [] ==> ch[0].id == f)
    && (f !in ids ==> ch == [])
  }

  ghost predicate OnChain(ch: seq<Link>, id: string) {
    exists k :: 0 <= k < |ch| && ch[k].id == id
  }

  ghost predicate LinkStored(rows: Rows, l: Link, f: string, tip: bool) {
    l.id in rows ==>
      && rows[l.id].familyId == f
      && rows[l.id].tokenHash == HashToken(l.token)
      && (!tip ==> !Live(rows[l.id]))
  }

  /** The rows of the family are exactly the links (or all gone, with their
      user), and all but the tip are revoked. */
  ghost predicate ChainStored(ch: seq<Link>, f: string, rows: Rows) {
    && (forall id :: id in rows && rows[id].familyId == f ==> OnChain(ch, id))
    && (forall k :: 0 <= k < |ch| ==> LinkStored(rows, ch[k], f, k == |ch| - 1))
    && (forall j, k :: 0 <= j < |ch| && 0 <= k < |ch| ==> (ch[j].id in rows <==> ch[k].id in rows))
  }

  ghost predicate LinearChain(s: State, f: string) {
    var ch := Chain(s.log, f);
    Grows(s.log, f) && ChainDistinct(ch, f, s.ids, s.tokens) && ChainStored(ch, f, s.db.rows)
  }

  lemma ChainAppend(log: seq<Entry>, e: Entry, f: string)
    ensures Chain(log + [e], f) == Chain(log, f) + (if AddsTo(e, f).Some? then [AddsTo(e, f).value] else [])
  {
    assert Front(log + [e]) == log;
  }

  lemma GrowsAppend(log: seq<Entry>, e: Entry, f: string)
    requires Grows(log, f)
    requires AddsTo(e, f).Some? ==> Extends(Chain(log, f), e.op)
    ensures Grows(log + [e], f)
  {
    forall i | 0 <= i < |log + [e]| && AddsTo((log + [e])[i], f).Some?
      ensures Extends(Chain((log + [e])[..i], f), (log + [e])[i].op)
    {
      assert (log + [e])[..i] == log[..i];
      if i == |log| {
        assert log[..i] == log;
      }
    }
  }

  lemma MoveKeepsFamiliesWhole(s: State, e: Event)
    requires Inv(s) && Enabled(s, e)
    ensures var rows, rows' := s.db.rows, Move(s, e).db.rows;
      forall a, b :: a in rows && b in rows && rows[a].familyId == rows[b].familyId ==> (a in rows' <==> b in rows')
  {
  }

  /** A step that adds no row to the family leaves its chain in order. */
  lemma QuietChain(ch: seq<Link>, f: string, rows: Rows, rows': Rows, ids: set<string>)
    requires ChainStored(ch, f, rows) && Evolves(rows, rows', ids)
    requires forall a, b :: a in rows && b in rows && rows[a].familyId == rows[b].familyId ==> (a in rows' <==> b in rows')
    requires forall id :: id in rows' && id !in rows ==> rows'[id].familyId != f && !OnChain(ch, id)
    ensures ChainStored(ch, f, rows')
  {
    forall k | 0 <= k < |ch| ensures LinkStored(rows', ch[k], f, k == |ch| - 1) {
      assert LinkStored(rows, ch[k], f, k == |ch| - 1);
      assert OnChain(ch, ch[k].id);
    }
    forall j, k | 0 <= j < |ch| && 0 <= k < |ch| ensures ch[j].id in rows' <==> ch[k].id in rows' {
      assert LinkStored(rows, ch[j], f, j == |ch| - 1) && LinkStored(rows, ch[k], f, k == |ch| - 1);
      assert OnChain(ch, ch[j].id) && OnChain(ch, ch[k].id);
    }
  }

  /** A rotation of the live row moves the tip. */
  lemma LongerChain(ch: seq<Link>, f: string, rows: Rows, s: Session, next: Session, token: string, now: Time)
    requires ChainStored(ch, f, rows)
    requires s.id in rows && rows[s.id] == s && Live(s) && s.familyId == f
    requires next.id !in rows && !OnChain(ch, next.id) && next.familyId == f && next.tokenHash == HashToken(token)
    ensures ch != [] && HashToken(Last(ch).token) == s.tokenHash
    ensures ChainStored(ch + [Link(next.id, token)], f, rows[s.id := s.(revokedAt := Some(now))][next.id := next])
  {
    assert OnChain(ch, s.id);
    var k :| 0 <= k < |ch| && ch[k].id == s.id;
    assert LinkStored(rows, ch[k], f, k == |ch| - 1);
    var ch' := ch + [Link(next.id, token)];
    var rows' := rows[s.id := s.(revokedAt := Some(now))][next.id := next];
    forall id | id in rows' && rows'[id].familyId == f ensures OnChain(ch', id) {
      if id == next.id {
        assert ch'[|ch|].id == id;
      } else {
        assert OnChain(ch, id);
        var j :| 0 <= j < |ch| && ch[j].id == id;
        assert ch'[j].id == id;
      }
    }
    forall j | 0 <= j < |ch'| ensures LinkStored(rows', ch'[j], f, j == |ch'| - 1) {
      if j < |ch| {
        assert LinkStored(rows, ch[j], f, j == |ch| - 1) && OnChain(ch, ch[j].id);
        assert rows[ch[j].id] == s || !Live(rows[ch[j].id]);
      }
    }
    forall j | 0 <= j < |ch'| ensures ch'[j].id in rows' {
      if j < |ch| {
        assert LinkStored(rows, ch[j], f, j == |ch| - 1);
        assert ch[j].id in rows <==> ch[k].id in rows;
      }
    }
  }

  /** What a step adds to a family: nothing, the root of a login, or the
      successor of a row that was live until this very step. */
  lemma MoveAdds(s: State, e: Event, f: string)
    requires Inv(s) && Enabled(s, e)
    requires |Move(s, e).log| > |s.log| && AddsTo(Last(Move(s, e).log), f).Some?
    ensures var s' := Move(s, e);
      var l := AddsTo(Last(s'.log), f).value;
      && l.id !in s.ids && l.token !in s.tokens && l.id in s'.ids && l.token in s'.tokens
      && (if e.RotateEnd? then
            var p := s.calls[e.call];
            && p.found.id in s.db.rows && s.db.rows[p.found.id] == p.found && Live(p.found) && p.found.familyId == f
            && p.found.tokenHash == HashToken(p.presented)
            && Last(s'.log).op == Rotate(p.presented, p.id, p.raw, e.now)
            && l == Link(p.id, p.raw)
            && s'.db.rows == s.db.rows[p.found.id := p.found.(revokedAt := Some(e.now))][p.id := Successor(p.found, p.id, p.raw).(createdAt := e.now)]
          else
            && e.Atomic? && e.op.Login? && e.op == Last(s'.log).op && l == Link(e.op.id, e.op.raw) && f == e.op.id
            && s'.db.rows == s.db.rows[e.op.id := LoginRow(e.op).(createdAt := e.op.now)])
  {
    if e.RotateEnd? {
      assert PendingOk(s.db.rows, s.ids, s.tokens, s.calls[e.call]);
    }
  }

  /** A new row of the family shows in the log. */
  lemma NewRowIsLogged(s: State, e: Event, id: string)
    requires Inv(s) && Enabled(s, e) && id in Move(s, e).db.rows && id !in s.db.rows
    ensures |Move(s, e).log| > |s.log| && AddsTo(Last(Move(s, e).log), Move(s, e).db.rows[id].familyId).Some?
    ensures id !in s.ids
  {
    MoveEvolves(s, e);
    MoveHandsOutRow(s, e, id);
  }

  lemma MoveKeepsQuietChain(s: State, e: Event, f: string)
    requires Inv(s) && LinearChain(s, f) && Enabled(s, e)
    requires |Move(s, e).log| > |s.log| ==> AddsTo(Last(Move(s, e).log), f).None?
    ensures var s' := Move(s, e);
      Chain(s'.log, f) == Chain(s.log, f) && Grows(s'.log, f) && ChainStored(Chain(s'.log, f), f, s'.db.rows)
  {
    var s' := Move(s, e);
    var ch := Chain(s.log, f);
    MoveExtendsLog(s, e);
    if |s'.log| > |s.log| {
      assert s'.log == s.log + [Last(s'.log)];
      ChainAppend(s.log, Last(s'.log), f);
      GrowsAppend(s.log, Last(s'.log), f);
    }
    MoveEvolves(s, e);
    MoveKeepsFamiliesWhole(s, e);
    forall id | id in s'.db.rows && id !in s.db.rows ensures s'.db.rows[id].familyId != f && !OnChain(ch, id) {
      NewRowIsLogged(s, e, id);
    }
    QuietChain(ch, f, s.db.rows, s'.db.rows, s.ids);
  }

  lemma MoveKeepsLongerChain(s: State, e: Event, f: string)
    requires Inv(s) && LinearChain(s, f) && Enabled(s, e) && e.RotateEnd?
    requires |Move(s, e).log| > |s.log| && AddsTo(Last(Move(s, e).log), f).Some?
    ensures LinearChain(Move(s, e), f)
  {
    var s' := Move(s, e);
    var ch, p, entry := Chain(s.log, f), s.calls[e.call], Last(s'.log);
    MoveAdds(s, e, f);
    LongerChain(ch, f, s.db.rows, p.found, Successor(p.found, p.id, p.raw).(createdAt := e.now), p.raw, e.now);
    LogGrowsChain(s.log, s'.log, f);
    assert s.ids <= s'.ids && s.tokens <= s'.tokens;
    DistinctAppend(ch, Link(p.id, p.raw), f, s.ids, s.tokens, s'.ids, s'.tokens);
  }

  lemma LogGrowsChain(log: seq<Entry>, log': seq<Entry>, f: string)
    requires log <= log' && |log'| == |log| + 1 && AddsTo(Last(log'), f).Some?
    requires Grows(log, f) && Extends(Chain(log, f), Last(log').op)
    ensures Grows(log', f) && Chain(log', f) == Chain(log, f) + [AddsTo(Last(log'), f).value]
  {
    assert log' == log + [Last(log')];
    ChainAppend(log, Last(log'), f);
    GrowsAppend(log, Last(log'), f);
  }

  lemma DistinctAppend(ch: seq<Link>, l: Link, f: string, ids: set<string>, tokens: set<string>, ids': set<string>, tokens': set<string>)
    requires ChainDistinct(ch, f, ids, tokens) && (if ch == [] then l.id == f else f in ids)
    requires l.id !in ids && l.token !in tokens
    requires ids + {l.id} <= ids' && tokens + {l.token} <= tokens'
    ensures ChainDistinct(ch + [l], f, ids', tokens')
  {
  }

  lemma NewChain(f: string, token: string, rows: Rows, row: Session, ids: set<string>)
    requires f !in ids && (forall id :: id in rows ==> rows[id].familyId in ids)
    requires row.id == f && row.familyId == f && row.tokenHash == HashToken(token)
    ensures ChainStored([Link(f, token)], f, rows[f := row])
  {
    var ch := [Link(f, token)];
    assert ch[0].id == f && OnChain(ch, f);
    assert LinkStored(rows[f := row], ch[0], f, true);
  }

  lemma MoveKeepsNewChain(s: State, e: Event, f: string)
    requires Inv(s) && LinearChain(s, f) && Enabled(s, e) && !e.RotateEnd?
    requires |Move(s, e).log| > |s.log| && AddsTo(Last(Move(s, e).log), f).Some?
    ensures LinearChain(Move(s, e), f)
  {
    var s' := Move(s, e);
    var entry := Last(s'.log);
    MoveAdds(s, e, f);
    assert s'.log == s.log + [entry];
    ChainAppend(s.log, entry, f);
    GrowsAppend(s.log, entry, f);
    NewChain(f, e.op.raw, s.db.rows, LoginRow(e.op).(createdAt := e.op.now), s.ids);
    assert Chain(s'.log, f) == [Link(f, e.op.raw)];
  }

  lemma MoveKeepsChain(s: State, e: Event, f: string)
    requires Inv(s) && LinearChain(s, f) && Enabled(s, e)
    ensures LinearChain(Move(s, e), f)
  {
    var s' := Move(s, e);
    if |s'.log| > |s.log| && AddsTo(Last(s'.log), f).Some? {
      if e.RotateEnd? {
        MoveKeepsLongerChain(s, e, f);
      } else {
        MoveKeepsNewChain(s, e, f);
      }
    } else {
      MoveKeepsQuietChain(s, e, f);
      QuietIds(s, e, f);
    }
  }

  lemma QuietIds(s: State, e: Event, f: string)
    requires Inv(s) && LinearChain(s, f) && Enabled(s, e)
    requires Chain(Move(s, e).log, f) == Chain(s.log, f)
    ensures ChainDistinct(Chain(s.log, f), f, Move(s, e).ids, Move(s, e).tokens)
  {
    assert s.ids <= Move(s, e).ids && s.tokens <= Move(s, e).tokens;
  }

  /** In every run every family is one chain: it starts at the login whose id is
      the family id, each rotation presents the current tip, its rows are exactly
      its links, and all rows but the tip are revoked. */
  lemma {:induction false} LinearChains(es: seq<Event>, s: State, f: string)
    requires Reaches(es, s)
    ensures LinearChain(s, f)
  {
    if es != [] {
      var m := Exec(INIT, Front(es));
      LinearChains(Front(es), m, f);
      ReachableInv(Front(es), m);
      MoveKeepsChain(m, Last(es), f);
    }
  }

  /** Chains of prefixes of the log are prefixes of the chain; a step that adds a
      link makes them strictly longer. */
  lemma {:induction false} PrefixChain(log: seq<Entry>, f: string, i: nat, j: nat)
    requires i <= j <= |log|
    ensures Chain(log[..i], f) <= Chain(log[..j], f)
    ensures i < j && AddsTo(log[i], f).Some? ==> |Chain(log[..i], f)| < |Chain(log[..j], f)|
  {
    if i < j {
      PrefixChain(log, f, i, j - 1);
      assert Front(log[..j]) == log[..j - 1] && Last(log[..j]) == log[j - 1];
    }
  }

  /** The token of a successful rotation sits in the chain, right before the
      link the rotation added. */
  lemma TipOf(log: seq<Entry>, f: string, i: nat) returns (k: nat)
    requires Grows(log, f) && i < |log| && RotatesIn(log[i], f)
    ensures k + 1 == |Chain(log[..i], f)| < |Chain(log, f)|
    ensures Chain(log, f)[k].token == log[i].op.presented
    ensures Chain(log, f)[k + 1] == AddsTo(log[i], f).value
  {
    var ch := Chain(log[..i], f);
    assert Extends(ch, log[i].op);
    k := |ch| - 1;
    assert log[..i + 1] == log[..i] + [log[i]];
    ChainAppend(log[..i], log[i], f);
    PrefixChain(log, f, i + 1, |log|);
    assert log[..|log|] == log;
  }

  lemma TipsDiffer(log: seq<Entry>, f: string, ids: set<string>, tokens: set<string>, i: nat, j: nat)
    requires Grows(log, f) && ChainDistinct(Chain(log, f), f, ids, tokens)
    requires i < j < |log| && RotatesIn(log[i], f) && RotatesIn(log[j], f)
    ensures log[i].op.presented != log[j].op.presented
  {
    var a := TipOf(log, f, i);
    var b := TipOf(log, f, j);
    PrefixChain(log, f, i, j);
    assert a < b;
  }

  /** No session is rotated twice: two successful rotations never present the
      same token, in any interleaving. */
  lemma RotatedAtMostOnce(es: seq<Event>, s: State, i: nat, j: nat)
    requires Reaches(es, s) && i < j < |s.log| && Rotates(s.log[i]) && Rotates(s.log[j])
    ensures s.log[i].op.presented != s.log[j].op.presented
  {
    TokensKnownIn(es, s);
    var f := s.log[i].res.result.session.familyId;
    if s.log[j].res.result.session.familyId == f {
      LinearChains(es, s, f);
      TipsDiffer(s.log, f, s.ids, s.tokens, i, j);
    }
  }

  /** Replaying a superseded token, however deep in the chain, is recognised at
      the lookup: the call goes on to revoke the family. (`id in s.db.rows` only
      excludes that the family went away with a deleted user.) */
  lemma SupersededIsReplay(es: seq<Event>, s: State, f: string, k: nat, e: Event)
    requires Reaches(es, s) && Enabled(s, e) && e.RotateBegin?
    requires k + 1 < |Chain(s.log, f)| && e.presented == Chain(s.log, f)[k].token
    requires Chain(s.log, f)[k].id in s.db.rows
    ensures var s' := Move(s, e);
      && e.call in s'.calls && s'.calls[e.call].Rotating?
      && !Live(s'.calls[e.call].found) && s'.calls[e.call].found.familyId == f
  {
    ReachableInv(es, s);
    LinearChains(es, s, f);
    assert LinkStored(s.db.rows, Chain(s.log, f)[k], f, false);
    FindByRow(s.db.rows, Chain(s.log, f)[k].id);
  }
}
