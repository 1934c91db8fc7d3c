/** Runs are sequences that grow at the back; some hold readings of the clock. */
module Runs {
  function Front<T>(s: seq<T>): seq<T>
    requires s != []
  {
    s[..|s| - 1]
  }

  function Last<T>(s: seq<T>): T
    requires s != []
  {
    s[|s| - 1]
  }

  /** How many of the times lie in the closed interval. */
  function CountIn(times: seq<int>, lo: int, hi: int): nat {
    if times == [] then 0
    else CountIn(Front(times), lo, hi) + (if lo <= Last(times) <= hi then 1 else 0)
  }

  lemma {:induction false} CountSplit(a: seq<int>, b: seq<int>, lo: int, hi: int)
    ensures CountIn(a + b, lo, hi) == CountIn(a, lo, hi) + CountIn(b, lo, hi)
  {
    if b == [] {
      assert a + b == a;
    } else {
      CountSplit(a, Front(b), lo, hi);
      assert Front(a + b) == a + Front(b) && Last(a + b) == Last(b);
    }
  }

  lemma {:induction false} CountAtMost(times: seq<int>, lo: int, hi: int)
    ensures CountIn(times, lo, hi) <= |times|
    ensures (forall t :: t in times ==> t < lo || hi < t) ==> CountIn(times, lo, hi) == 0
  {
    if times != [] {
      CountAtMost(Front(times), lo, hi);
      assert Last(times) in times && forall t :: t in Front(times) ==> t in times;
    }
  }

  lemma OneMore(m: int, w: int)
    ensures (m + 1) * w == m * w + w
  {
  }

  lemma {:induction false} CountAll(times: seq<int>, lo: int, hi: int)
    requires forall t :: t in times ==> lo <= t <= hi
    ensures CountIn(times, lo, hi) == |times|
  {
    if times != [] {
      assert Last(times) in times && forall t :: t in Front(times) ==> t in times;
      CountAll(Front(times), lo, hi);
    }
  }

  lemma PositiveFactor(x: int, w: int)
    requires w > 0 && x * w > 0
    ensures x > 0
  {
  }

  lemma FloorBound(m: int, w: int, d: int)
    requires w > 0 && m * w <= d
    ensures m <= d / w
  {
    var q := d / w;
    assert q * w + d % w == d;
    assert (q + 1 - m) * w == q * w + w - m * w;
    PositiveFactor(q + 1 - m, w);
  }
}
