/** The fixed-window rate limiter: the class, the counters it keeps as a value,
    and what any run of calls is bounded by. */
module RateLimiters {
  import opened Types
  import opened Runs

  datatype Window = Window(count: int, end: Time)

  type Counters = map<string, Window>

  /** One call at `now`: a missing or expired window restarts and lets the call
      through, whatever the limit. */
  function Decide(limit: int, window: int, counters: Counters, key: string, now: Time): (Counters, bool) {
    if key !in counters || now > counters[key].end then
      (counters[key := Window(1, now + window)], true)
    else if counters[key].count >= limit then
      (counters, false)
    else
      (counters[key := Window(counters[key].count + 1, counters[key].end)], true)
  }

  class WindowCounter {
    var count: int
    var windowEnd: Time

    constructor (count: int, windowEnd: Time)
      ensures this.count == count && this.windowEnd == windowEnd
    {
      this.count := count;
      this.windowEnd := windowEnd;
    }
  }

  class InMemoryRateLimiter {
    const limit: int
    const window: int
    var counters: map<string, WindowCounter>

    /** No two keys share a counter. */
    ghost predicate Valid()
      reads this
    {
      forall a, b :: a in counters && b in counters && counters[a] == counters[b] ==> a == b
    }

    ghost function Value(): Counters
      reads this, counters.Values
    {
      map key | key in counters :: Window(counters[key].count, counters[key].windowEnd)
    }

    constructor (limit: int, window: int)
      ensures Valid() && Value() == map[] && this.limit == limit && this.window == window
    {
      this.limit := limit;
      this.window := window;
      this.counters := map[];
    }

    method Allow(key: string, now: Time) returns (allowed: bool)
      requires Valid()
      modifies this, counters.Values
      ensures Valid() && fresh(counters.Values - old(counters.Values))
      ensures (Value(), allowed) == Decide(limit, window, old(Value()), key, now)
    {
      if key !in counters || now > counters[key].windowEnd {
        var c := new WindowCounter(1, now + window);
        counters := counters[key := c];
        assert Value() == old(Value())[key := Window(1, now + window)];
        return true;
      }
      var c := counters[key];
      if c.count >= limit {
        return false;
      }
      c.count := c.count + 1;
      assert Value() == old(Value())[key := Window(c.count, c.windowEnd)];
      return true;
    }
  }

  // -------------------------------------------------------------------- runs

  datatype Call = Call(key: string, at: Time)

  /** Readings of the clock never go back. */
  ghost predicate Ordered(calls: seq<Call>) {
    forall i, j :: 0 <= i < j < |calls| ==> calls[i].at <= calls[j].at
  }

  function Run(limit: int, window: int, calls: seq<Call>): Counters {
    if calls == [] then map[]
    else Decide(limit, window, Run(limit, window, Front(calls)), Last(calls).key, Last(calls).at).0
  }

  /** The answer the last call of the run gets. */
  predicate LastAllowed(limit: int, window: int, calls: seq<Call>)
    requires calls != []
  {
    Decide(limit, window, Run(limit, window, Front(calls)), Last(calls).key, Last(calls).at).1
  }

  /** The times at which calls of the key were allowed. */
  function AllowedTimes(limit: int, window: int, calls: seq<Call>, key: string): seq<Time> {
    if calls == [] then []
    else
      var before := AllowedTimes(limit, window, Front(calls), key);
      if Last(calls).key == key && LastAllowed(limit, window, calls) then before + [Last(calls).at] else before
  }

  /** How many calls of the key are allowed in the closed interval. */
  function AllowedIn(limit: int, window: int, calls: seq<Call>, key: string, lo: Time, hi: Time): nat {
    CountIn(AllowedTimes(limit, window, calls, key), lo, hi)
  }

  // ---------------------------------------------------------- windows of a key

  /** A window that was opened at `start` and let `times` through. */
  datatype Span = Span(start: Time, times: seq<Time>)

  function Flatten(spans: seq<Span>): seq<Time> {
    if spans == [] then [] else Flatten(Front(spans)) + Last(spans).times
  }

  /** The history of one key, rebuilt from its calls alone. */
  function Spans(limit: int, window: int, calls: seq<Call>, key: string): seq<Span> {
    if calls == [] then []
    else
      var spans := Spans(limit, window, Front(calls), key);
      var c := Last(calls);
      if c.key != key then spans
      else if spans == [] || c.at > Last(spans).start + window then spans + [Span(c.at, [c.at])]
      else if |Last(spans).times| >= limit then spans
      else Front(spans) + [Span(Last(spans).start, Last(spans).times + [c.at])]
  }

  function Cap(limit: int): nat {
    if limit >= 1 then limit else 1
  }

  ghost predicate SpanOk(limit: int, window: int, s: Span) {
    && 1 <= |s.times| <= Cap(limit)
    && s.times[0] == s.start
    && (forall t :: t in s.times ==> s.start <= t <= s.start + window)
  }

  /** Windows open with a call, hold at most the limit, stay inside their length,
      and restart strictly more than a window apart. */
  ghost predicate SpansOk(limit: int, window: int, spans: seq<Span>) {
    spans == [] || (
      && SpansOk(limit, window, Front(spans))
      && SpanOk(limit, window, Last(spans))
      && (Front(spans) != [] ==> Last(spans).start > Last(Front(spans)).start + window))
  }

  /** The counters are the history's last windows, key by key. */
  ghost predicate CountersAre(limit: int, window: int, calls: seq<Call>, key: string) {
    var counters, spans := Run(limit, window, calls), Spans(limit, window, calls, key);
    && (key in counters <==> spans != [])
    && (spans != [] ==> counters[key] == Window(|Last(spans).times|, Last(spans).start + window))
  }

  /** The counter map refines the per-key history: it allows exactly the calls the
      history records. */
  lemma {:induction false} CountersRefineHistory(limit: int, window: int, calls: seq<Call>, key: string)
    ensures CountersAre(limit, window, calls, key)
    ensures AllowedTimes(limit, window, calls, key) == Flatten(Spans(limit, window, calls, key))
  {
    if calls != [] {
      CountersRefineHistory(limit, window, Front(calls), key);
      var spans, c := Spans(limit, window, Front(calls), key), Last(calls);
      assert Front(spans + [Span(c.at, [c.at])]) == spans;
      if spans != [] {
        var grown := Span(Last(spans).start, Last(spans).times + [c.at]);
        assert Front(Front(spans) + [grown]) == Front(spans);
        assert Flatten(Front(spans) + [grown]) == Flatten(spans) + [c.at];
      }
    }
  }

  lemma {:induction false} HistoryIsOk(limit: int, window: int, calls: seq<Call>, key: string)
    requires Ordered(calls) && window >= 0
    ensures var spans := Spans(limit, window, calls, key);
      && SpansOk(limit, window, spans)
      && (spans != [] ==> calls != [] && forall t :: t in Last(spans).times ==> t <= Last(calls).at)
  {
    if calls != [] {
      HistoryIsOk(limit, window, Front(calls), key);
      var before, c := Spans(limit, window, Front(calls), key), Last(calls);
      assert Front(before + [Span(c.at, [c.at])]) == before;
      if before != [] {
        var last := Last(before);
        var grown := Span(last.start, last.times + [c.at]);
        assert Front(Front(before) + [grown]) == Front(before);
        assert SpanOk(limit, window, last) && last.times[0] in last.times;
        assert Last(Front(calls)).at <= c.at;
        if |last.times| < limit && c.at <= last.start + window {
          SpanGrows(limit, window, last, c.at);
        }
      }
    }
  }

  lemma SpanGrows(limit: int, window: int, s: Span, t: Time)
    requires SpanOk(limit, window, s) && |s.times| < limit && s.start <= t <= s.start + window
    ensures SpanOk(limit, window, Span(s.start, s.times + [t]))
    ensures forall u :: u in s.times + [t] ==> u in s.times || u == t
  {
  }

  // -------------------------------------------------------------- rate bound

  /** How many windows open inside the interval. */
  function Opened(spans: seq<Span>, lo: Time, hi: Time): nat {
    if spans == [] then 0
    else Opened(Front(spans), lo, hi) + (if lo <= Last(spans).start <= hi then 1 else 0)
  }

  /** How many windows open before the interval and reach into it. */
  function Reaching(window: int, spans: seq<Span>, lo: Time): nat {
    if spans == [] then 0
    else Reaching(window, Front(spans), lo) + (if Last(spans).start < lo <= Last(spans).start + window then 1 else 0)
  }

  /** A window that opens before the interval spends at least one call there. */
  lemma SpanCount(limit: int, window: int, s: Span, lo: Time, hi: Time)
    requires SpanOk(limit, window, s)
    ensures CountIn(s.times, lo, hi) <=
      if lo <= s.start <= hi then Cap(limit) else if s.start < lo <= s.start + window then Cap(limit) - 1 else 0
  {
    CountAtMost(s.times, lo, hi);
    if s.start < lo {
      assert s.times == s.times[..1] + s.times[1..];
      CountSplit(s.times[..1], s.times[1..], lo, hi);
      CountAtMost(s.times[..1], lo, hi);
      CountAtMost(s.times[1..], lo, hi);
    }
  }

  lemma {:induction false} CountByWindows(limit: int, window: int, spans: seq<Span>, lo: Time, hi: Time)
    requires SpansOk(limit, window, spans)
    ensures CountIn(Flatten(spans), lo, hi) <= Opened(spans, lo, hi) * Cap(limit) + Reaching(window, spans, lo) * (Cap(limit) - 1)
  {
    if spans != [] {
      var last := Last(spans);
      CountByWindows(limit, window, Front(spans), lo, hi);
      CountSplit(Flatten(Front(spans)), last.times, lo, hi);
      SpanCount(limit, window, last, lo, hi);
      OneMore(Opened(Front(spans), lo, hi), Cap(limit));
      OneMore(Reaching(window, Front(spans), lo), Cap(limit) - 1);
    }
  }

  /** At most one window reaches into the interval; each window that opens there
      opens at least a window's length and one tick after the one before. */
  lemma {:induction false} OpenedReach(limit: int, window: int, spans: seq<Span>, lo: Time, hi: Time)
    requires SpansOk(limit, window, spans) && window > 0
    ensures var n, r := Opened(spans, lo, hi), Reaching(window, spans, lo);
      && r <= 1
      && (r == 1 ==> Last(spans).start + window >= lo)
      && (n + r >= 1 ==> spans != [])
      && (n >= 1 ==> Last(spans).start >= lo + r + (n - 1) * (window + 1))
  {
    if spans != [] {
      OpenedReach(limit, window, Front(spans), lo, hi);
      OneMore(Opened(Front(spans), lo, hi) - 1, window + 1);
    }
  }

  lemma {:induction false} OpenedBound(limit: int, window: int, spans: seq<Span>, lo: Time, hi: Time)
    requires SpansOk(limit, window, spans) && window > 0
    ensures var n, r := Opened(spans, lo, hi), Reaching(window, spans, lo);
      && r <= 1
      && (n >= 1 ==> r + (n - 1) * (window + 1) <= hi - lo)
  {
    OpenedReach(limit, window, spans, lo, hi);
    if spans != [] && !(lo <= Last(spans).start <= hi) && Opened(spans, lo, hi) >= 1 {
      OpenedReach(limit, window, Front(spans), lo, hi);
      OpenedBound(limit, window, Front(spans), lo, hi);
    }
  }

  /** The most calls of one key a closed interval of length `d` can see allowed.
      Windows are at least `window + 1` ticks apart. When that divides `d`, full
      windows at both ends and between them are the best; otherwise a window that
      opened just before the interval adds all its calls but the first. */
  function MostAllowed(limit: int, window: int, d: nat): nat
    requires window > 0
  {
    var q := d / (window + 1);
    if d % (window + 1) == 0 then (q + 1) * Cap(limit) else (q + 2) * Cap(limit) - 1
  }

  /** No interval of length D ever sees more than `MostAllowed` calls of one key
      allowed, in any run of calls to all keys. */
  lemma ExactRateBound(limit: int, window: int, calls: seq<Call>, key: string, lo: Time, hi: Time)
    requires Ordered(calls) && window > 0 && lo <= hi
    ensures AllowedIn(limit, window, calls, key, lo, hi) <= MostAllowed(limit, window, hi - lo)
  {
    CountersRefineHistory(limit, window, calls, key);
    HistoryIsOk(limit, window, calls, key);
    SpansBound(limit, window, Spans(limit, window, calls, key), lo, hi);
  }

  lemma SpansBound(limit: int, window: int, spans: seq<Span>, lo: Time, hi: Time)
    requires SpansOk(limit, window, spans) && window > 0 && lo <= hi
    ensures CountIn(Flatten(spans), lo, hi) <= MostAllowed(limit, window, hi - lo)
  {
    CountByWindows(limit, window, spans, lo, hi);
    OpenedBound(limit, window, spans, lo, hi);
    WindowsToCalls(Opened(spans, lo, hi), Reaching(window, spans, lo), limit, window, hi - lo);
  }

  lemma WindowsToCalls(n: nat, r: nat, limit: int, window: int, d: nat)
    requires window > 0 && r <= 1
    requires n >= 1 ==> r + (n - 1) * (window + 1) <= d
    ensures n * Cap(limit) + r * (Cap(limit) - 1) <= MostAllowed(limit, window, d)
  {
    var w, c := window + 1, Cap(limit);
    var q := d / w;
    assert q * w + d % w == d;
    OneMore(q, c);
    OneMore(q + 1, c);
    if n >= 1 {
      FloorBound(n - 1, w, d);
      if n - 1 == q {
        Monotone(n, q + 1, c);
      } else {
        Monotone(n, q, c);
      }
    }
  }

  lemma Monotone(a: nat, b: nat, c: nat)
    requires a <= b
    ensures a * c <= b * c
  {
  }

  function CeilDiv(d: nat, w: int): nat
    requires w > 0
  {
    (d + w - 1) / w
  }

  lemma QuotientBound(m: int, w: int, d: int)
    requires w > 0 && m >= 0 && m * w < d
    ensures m + 1 <= CeilDiv(d, w)
  {
    var q, r := (d + w - 1) / w, (d + w - 1) % w;
    assert q * w + r == d + w - 1;
    assert (q - m) * w > 0;
  }

  /** Over any closed interval of length D at most (ceil(D / W) + 1) * L calls of
      one key are allowed, and one fewer when the interval is not a single
      instant. (A limit below one still lets one call through per window.) */
  lemma RateBound(limit: int, window: int, calls: seq<Call>, key: string, lo: Time, hi: Time)
    requires Ordered(calls) && window > 0 && lo <= hi
    ensures AllowedIn(limit, window, calls, key, lo, hi) <=
      (CeilDiv(hi - lo, window) + 1) * Cap(limit) - (if lo < hi then 1 else 0)
  {
    ExactRateBound(limit, window, calls, key, lo, hi);
    if lo < hi {
      MostIsBelowCeiling(limit, window, hi - lo);
    }
  }

  lemma MostIsBelowCeiling(limit: int, window: int, d: nat)
    requires window > 0 && d > 0
    ensures MostAllowed(limit, window, d) <= (CeilDiv(d, window) + 1) * Cap(limit) - 1
  {
    var q := d / (window + 1);
    assert d == q * (window + 1) + d % (window + 1) == q * window + q + d % (window + 1);
    QuotientBound(q, window, d);
    Monotone(q + 2, CeilDiv(d, window) + 1, Cap(limit));
    OneMore(q + 1, Cap(limit));
  }

  /** At most twice the limit, less one, in any interval as long as the window. */
  lemma TwiceTheLimit(limit: int, window: int, calls: seq<Call>, key: string, lo: Time)
    requires Ordered(calls) && window > 0 && limit >= 1
    ensures AllowedIn(limit, window, calls, key, lo, lo + window) <= 2 * limit - 1
  {
    RateBound(limit, window, calls, key, lo, lo + window);
    assert CeilDiv(window, window) == 1 by {
      assert window + window - 1 == 1 * window + (window - 1);
    }
  }

  // ------------------------------------------------- the bounds are attained

  predicate Expired(limit: int, window: int, calls: seq<Call>, key: string, t: Time) {
    var counters := Run(limit, window, calls);
    key !in counters || t > counters[key].end
  }

  function EndOf(limit: int, window: int, calls: seq<Call>, key: string): Option<Time> {
    var counters := Run(limit, window, calls);
    if key in counters then Some(counters[key].end) else None
  }

  /** How many calls of the key would be let through at `t`. */
  function Room(limit: int, window: int, calls: seq<Call>, key: string, t: Time): int {
    if Expired(limit, window, calls, key, t) then limit else limit - Run(limit, window, calls)[key].count
  }

  ghost predicate OrderedUpTo(calls: seq<Call>, t: Time) {
    Ordered(calls) && forall i :: 0 <= i < |calls| ==> calls[i].at <= t
  }

  lemma OneMoreCall(limit: int, window: int, calls: seq<Call>, key: string, t: Time, lo: Time, hi: Time)
    requires Room(limit, window, calls, key, t) >= 1 && window > 0 && OrderedUpTo(calls, t)
    ensures var grown := calls + [Call(key, t)];
      && OrderedUpTo(grown, t)
      && EndOf(limit, window, grown, key) == (if Expired(limit, window, calls, key, t) then Some(t + window) else EndOf(limit, window, calls, key))
      && !Expired(limit, window, grown, key, t)
      && Room(limit, window, grown, key, t) == Room(limit, window, calls, key, t) - 1
      && AllowedIn(limit, window, grown, key, lo, hi) == AllowedIn(limit, window, calls, key, lo, hi) + (if lo <= t <= hi then 1 else 0)
  {
    assert Front(calls + [Call(key, t)]) == calls;
    var times := AllowedTimes(limit, window, calls, key);
    assert Front(times + [t]) == times;
  }

  /** Up to `n` calls at `t` are let through while there is room. */
  lemma {:induction false} Burst(limit: int, window: int, calls: seq<Call>, key: string, t: Time, n: nat, lo: Time, hi: Time)
    returns (burst: seq<Call>)
    requires n <= Room(limit, window, calls, key, t) && window > 0 && OrderedUpTo(calls, t)
    ensures OrderedUpTo(burst, t)
    ensures Room(limit, window, burst, key, t) == Room(limit, window, calls, key, t) - n
    ensures Expired(limit, window, burst, key, t) ==> n == 0
    ensures EndOf(limit, window, burst, key) ==
      if n > 0 && Expired(limit, window, calls, key, t) then Some(t + window) else EndOf(limit, window, calls, key)
    ensures n == 0 ==> burst == calls
    ensures AllowedIn(limit, window, burst, key, lo, hi) == AllowedIn(limit, window, calls, key, lo, hi) + (if lo <= t <= hi then n else 0)
  {
    burst := calls;
    if n > 0 {
      burst := Burst(limit, window, calls, key, t, n - 1, lo, hi);
      OneMoreCall(limit, window, burst, key, t, lo, hi);
      burst := burst + [Call(key, t)];
    }
  }

  /** Full windows as close as they can be: `limit` calls at `first` and at each
      of the `q` earliest restarts after it. */
  lemma {:induction false} Train(limit: nat, window: int, calls: seq<Call>, key: string, first: Time, q: nat, lo: Time, hi: Time)
    returns (train: seq<Call>)
    requires limit >= 1 && window > 0 && OrderedUpTo(calls, first) && Expired(limit, window, calls, key, first)
    requires lo <= first && first + q * (window + 1) <= hi
    ensures Ordered(train)
    ensures AllowedIn(limit, window, train, key, lo, hi) == AllowedIn(limit, window, calls, key, lo, hi) + (q + 1) * limit
    decreases q
  {
    Monotone(0, q, window + 1);
    train := Burst(limit, window, calls, key, first, limit, lo, hi);
    OneMore(q, limit);
    if q > 0 {
      OneMore(q - 1, window + 1);
      assert OrderedUpTo(train, first + window + 1);
      train := Train(limit, window, train, key, first + window + 1, q - 1, lo, hi);
    }
  }

  /** The bound is exact: for every positive limit and window and every interval,
      some run of calls has `MostAllowed` of them allowed there. */
  lemma BoundIsAttained(limit: nat, window: int, key: string, lo: Time, d: nat) returns (calls: seq<Call>)
    requires limit >= 1 && window > 0
    ensures Ordered(calls)
    ensures AllowedIn(limit, window, calls, key, lo, lo + d) == MostAllowed(limit, window, d)
  {
    var q := d / (window + 1);
    assert d == q * (window + 1) + d % (window + 1);
    if d % (window + 1) == 0 {
      calls := Train(limit, window, [], key, lo, q, lo, lo + d);
    } else {
      calls := Head(limit, window, key, lo, lo + d);
      calls := Train(limit, window, calls, key, lo + 1, q, lo, lo + d);
      OneMore(q + 1, limit);
    }
  }

  /** A window that opens one window's length before the interval and spends the
      rest of its calls at the interval's start. */
  lemma Head(limit: nat, window: int, key: string, lo: Time, hi: Time) returns (calls: seq<Call>)
    requires limit >= 1 && window > 0 && lo <= hi
    ensures OrderedUpTo(calls, lo + 1) && Expired(limit, window, calls, key, lo + 1)
    ensures AllowedIn(limit, window, calls, key, lo, hi) == limit - 1
  {
    calls := [Call(key, lo - window)];
    Opening(limit, window, key, lo - window, lo, hi);
    calls := Burst(limit, window, calls, key, lo, limit - 1, lo, hi);
    EndExpires(limit, window, calls, key, lo);
  }

  lemma Opening(limit: nat, window: int, key: string, t: Time, lo: Time, hi: Time)
    requires limit >= 1 && window > 0 && t < lo
    ensures var calls := [Call(key, t)];
      && OrderedUpTo(calls, t + window)
      && Room(limit, window, calls, key, t + window) == limit - 1
      && !Expired(limit, window, calls, key, t + window)
      && EndOf(limit, window, calls, key) == Some(t + window)
      && AllowedIn(limit, window, calls, key, lo, hi) == 0
  {
    var calls := [Call(key, t)];
    assert Front(calls) == [];
    assert Run(limit, window, calls) == map[key := Window(1, t + window)];
    assert AllowedTimes(limit, window, calls, key) == [t];
    CountAtMost([t], lo, hi);
  }

  lemma EndExpires(limit: int, window: int, calls: seq<Call>, key: string, end: Time)
    requires EndOf(limit, window, calls, key) == Some(end)
    ensures Expired(limit, window, calls, key, end + 1)
  {
  }

  /** The bound as the configuration suggests it, with the limit itself. */
  ghost predicate NominalBound(limit: int, window: int)
    requires window > 0
  {
    forall calls, key, lo, hi :: Ordered(calls) && lo <= hi ==>
      AllowedIn(limit, window, calls, key, lo, hi) <= (CeilDiv(hi - lo, window) + 1) * limit
  }

  /** It holds exactly for a positive limit: with any other, one call on its own
      breaks it, since the first call of a window is never compared with it. */
  lemma NominalNeedsPositiveLimit(limit: int, window: int)
    requires window > 0
    ensures NominalBound(limit, window) <==> limit >= 1
  {
    if limit >= 1 {
      forall calls, key, lo, hi | Ordered(calls) && lo <= hi
        ensures AllowedIn(limit, window, calls, key, lo, hi) <= (CeilDiv(hi - lo, window) + 1) * limit
      {
        RateBound(limit, window, calls, key, lo, hi);
      }
    } else {
      OneCallBreaksNominal(limit, window, "", 0);
    }
  }

  lemma OneCallBreaksNominal(limit: int, window: int, key: string, t: Time)
    requires window > 0 && limit < 1
    ensures Ordered([Call(key, t)])
    ensures AllowedIn(limit, window, [Call(key, t)], key, t, t) == 1 > (CeilDiv(t - t, window) + 1) * limit
  {
    assert Front([Call(key, t)]) == [];
    assert AllowedTimes(limit, window, [Call(key, t)], key) == [t];
    CountAll([t], t, t);
    assert CeilDiv(0, window) == 0;
  }

  // ------------------------------------------------------ denials, other keys

  /** A denial is earned: the limit was used up in the window before it. */
  lemma DenialMeansFull(limit: int, window: int, calls: seq<Call>)
    requires Ordered(calls) && window > 0 && calls != [] && !LastAllowed(limit, window, calls)
    ensures var c := Last(calls);
      AllowedIn(limit, window, Front(calls), c.key, c.at - window, c.at) >= limit
  {
    var front, c := Front(calls), Last(calls);
    var spans := Spans(limit, window, front, c.key);
    CountersRefineHistory(limit, window, front, c.key);
    HistoryIsOk(limit, window, front, c.key);
    assert Last(front).at <= c.at;
    LastSpanCounts(limit, window, spans, c.at);
  }

  lemma LastSpanCounts(limit: int, window: int, spans: seq<Span>, now: Time)
    requires spans != [] && SpansOk(limit, window, spans)
    requires now <= Last(spans).start + window && forall t :: t in Last(spans).times ==> t <= now
    ensures CountIn(Flatten(spans), now - window, now) >= |Last(spans).times|
  {
    CountSplit(Flatten(Front(spans)), Last(spans).times, now - window, now);
    CountAll(Last(spans).times, now - window, now);
  }

  /** The calls of one key alone. */
  function OfKey(calls: seq<Call>, key: string): seq<Call> {
    if calls == [] then []
    else if Last(calls).key == key then OfKey(Front(calls), key) + [Last(calls)]
    else OfKey(Front(calls), key)
  }

  /** Keys never affect one another: a key's answers are those of a limiter that
      serves that key alone. */
  lemma {:induction false} KeysAreIndependent(limit: int, window: int, calls: seq<Call>, key: string)
    ensures AllowedTimes(limit, window, calls, key) == AllowedTimes(limit, window, OfKey(calls, key), key)
    ensures Spans(limit, window, calls, key) == Spans(limit, window, OfKey(calls, key), key)
  {
    CountersRefineHistory(limit, window, calls, key);
    CountersRefineHistory(limit, window, OfKey(calls, key), key);
    if calls != [] {
      KeysAreIndependent(limit, window, Front(calls), key);
      assert Front(OfKey(Front(calls), key) + [Last(calls)]) == OfKey(Front(calls), key);
    }
  }
}
