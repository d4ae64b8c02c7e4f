/**
 How far the fixed window is from a sliding one: the exact worst case of requests accepted within one
 window length, the runs that reach it, and the configurations under which it is the limit itself.
 */
module SlidingWindow {
  import opened Wrappers
  import opened RateLimit
  import opened RateLimitTheorems

  /** The most requests that any half-open interval of one window length can hold. */
  function WorstCase(limits: Limits): nat
    requires limits.max > 0
  {
    if limits.windowMs == 0 then 0
    else if limits.max == 1 || limits.windowMs == 1 then limits.max
    else if limits.blockDurationMs < limits.windowMs then 2 * limits.max - 1
    else 2 * limits.max - 2
  }

  // ---------------------------------------------------------------- never more

  /** The last window of a stretch, and the one before it. */
  lemma TwoWindows(limits: Limits, a: seq<Request>, hi: nat)
    requires Lawful(limits, a) && hi < |a| && Opener(limits, a, hi) > 0
    ensures var o := Opener(limits, a, hi);
      var p := Opener(limits, a, o - 1);
      o - p <= limits.max && a[p].countedAt + limits.windowMs <= a[o].countedAt <= a[hi].countedAt
  {
    LawfulMeans(limits, a);
    hide Lawful, Timed, AllPermitted, OwnClocks, Opener;
    var o := Opener(limits, a, hi);
    WindowIsBounded(limits, a, hi);
    WindowIsBounded(limits, a, o - 1);
    TimedAt(a, o, hi);
  }

  /** Where a stretch begins that reaches back into the window before its last one. */
  lemma BeginsInsideWindow(limits: Limits, a: seq<Request>, lo: nat, hi: nat)
    requires Lawful(limits, a) && lo <= hi < |a| && a[hi].countedAt < a[lo].countedAt + limits.windowMs
    requires lo < Opener(limits, a, hi)
    ensures var o := Opener(limits, a, hi);
      var p := Opener(limits, a, o - 1);
      && p < lo && o - p <= limits.max
      && a[lo].countedAt < a[p].countedAt + limits.windowMs <= a[o].countedAt <= a[hi].countedAt
      && a[p].countedAt <= a[lo].countedAt <= a[o - 1].countedAt
  {
    LawfulMeans(limits, a);
    TwoWindows(limits, a, hi);
    hide Lawful, Timed, AllPermitted, OwnClocks, Opener;
    var o := Opener(limits, a, hi);
    var p := Opener(limits, a, o - 1);
    StartsLater(a, p, lo, hi, limits.windowMs);
    TimedAt(a, lo, o - 1);
    TimedAt(a, p, lo);
    SameWindow(limits, a, lo, o - 1);
    CountedInWindow(limits, a, lo);
  }

  lemma StartsLater(a: seq<Request>, p: nat, lo: nat, hi: nat, length: nat)
    requires Timed(a) && p < |a| && lo <= hi < |a|
    requires a[p].countedAt + length <= a[hi].countedAt < a[lo].countedAt + length
    ensures p < lo && length > 0
  {
    TimedAt(a, lo, hi);
    if lo <= p {
      TimedAt(a, lo, p);
    }
  }

  /** What the stretch shares with the window before its last one. */
  lemma EarlierWindow(limits: Limits, a: seq<Request>, lo: nat, hi: nat)
    requires Lawful(limits, a) && lo <= hi < |a| && a[hi].countedAt < a[lo].countedAt + limits.windowMs
    requires lo < Opener(limits, a, hi)
    ensures var o := Opener(limits, a, hi);
      var p := Opener(limits, a, o - 1);
      p < lo && o - p <= limits.max && limits.windowMs > 1
      && (limits.blockDurationMs >= limits.windowMs && limits.max >= 2 ==> o - p < limits.max)
  {
    var o := Opener(limits, a, hi);
    var p := Opener(limits, a, o - 1);
    BeginsInsideWindow(limits, a, lo, hi);
    LawfulMeans(limits, a);
    hide Opener, Lawful, Timed, AllPermitted;
    if o - p == limits.max >= 2 {
      FullWindowIsClosed(limits, a, o);
      BlockedLast(a, o - 1);
      TimedAt(a, o, o);
    }
  }

  lemma BlockedLast(a: seq<Request>, k: nat)
    requires Timed(a) && k < |a|
    ensures a[k].countedAt <= a[k].blockedAt
  {
  }

  /** Requests accepted within less than one window length of each other, wherever the windows begin. */
  lemma StretchIsBounded(limits: Limits, a: seq<Request>, lo: nat, hi: nat)
    requires Lawful(limits, a) && lo <= hi < |a|
    requires a[hi].countedAt < a[lo].countedAt + limits.windowMs
    ensures hi - lo + 1 <= WorstCase(limits)
  {
    hide Lawful, Opener;
    LawfulMeans(limits, a);
    TimedAt(a, lo, hi);
    WindowIsBounded(limits, a, hi);
    if lo < Opener(limits, a, hi) {
      EarlierWindow(limits, a, lo, hi);
    }
  }

  lemma LawfulMeans(limits: Limits, a: seq<Request>)
    requires Lawful(limits, a)
    ensures limits.max > 0 && Timed(a) && OwnClocks(a) && AllPermitted(limits, a)
  {
  }

  function IndicesWithin(a: seq<Request>, from: Time, length: nat): set<nat> {
    set i: nat | i < |a| && from <= a[i].countedAt < from + length
  }

  lemma {:induction false} RangeSize(s: set<nat>, lo: nat, hi: nat)
    requires forall i | i in s :: lo <= i < hi
    ensures |s| <= if lo < hi then hi - lo else 0
    decreases hi
  {
    if hi == 0 || hi <= lo {
      if i :| i in s { assert false; }
      assert s == {};
    } else {
      RangeSize(s - {hi - 1}, lo, hi - 1);
      if hi - 1 !in s {
        assert s - {hi - 1} == s;
      }
    }
  }

  lemma LeastAndGreatest(s: set<nat>) returns (lo: nat, hi: nat)
    requires s != {}
    ensures lo in s && hi in s && forall i | i in s :: lo <= i <= hi
  {
    var x :| x in s;
    if s == {x} {
      lo, hi := x, x;
    } else {
      var l, h := LeastAndGreatest(s - {x});
      assert s == (s - {x}) + {x};
      lo, hi := if x < l then x else l, if x > h then x else h;
    }
  }

  lemma LawfulIntervalIsBounded(limits: Limits, a: seq<Request>, from: Time)
    requires Lawful(limits, a)
    ensures |IndicesWithin(a, from, limits.windowMs)| <= WorstCase(limits)
  {
    var within := IndicesWithin(a, from, limits.windowMs);
    if within != {} {
      var lo, hi := LeastAndGreatest(within);
      StretchIsBounded(limits, a, lo, hi);
      RangeSize(within, lo, hi + 1);
    }
  }

  /** Any half-open interval one window long holds at most the worst case, over every run. */
  lemma IntervalIsBounded(key: Key, limits: Limits, rs: seq<Request>, from: Time)
    requires limits.max > 0 && InOrder(rs)
    ensures |IndicesWithin(Accepted(key, limits, rs), from, limits.windowMs)| <= WorstCase(limits)
  {
    AcceptedAreLawful(key, limits, rs);
    LawfulIntervalIsBounded(limits, Accepted(key, limits, rs), from);
  }

  // ---------------------------------------------------------------- no less

  /** A request that reads one and the same time on all its clocks. */
  function At(t: Time): Request {
    Request(t, t, t)
  }

  /** n requests at one moment. */
  function Burst(t: Time, n: nat): (b: seq<Request>)
    ensures |b| == n && forall i | 0 <= i < n :: b[i] == At(t)
  {
    if n == 0 then [] else Burst(t, n - 1) + [At(t)]
  }

  predicate OfKey(row: Row, key: Key) {
    row.identifier == key.identifier && row.identifierType == key.kind
  }

  lemma AcceptedSnoc(key: Key, limits: Limits, rs: seq<Request>, r: Request)
    requires Accepts(key, limits, RowAfter(key, limits, rs), r)
    ensures Accepted(key, limits, rs + [r]) == Accepted(key, limits, rs) + [r]
    ensures RowAfter(key, limits, rs + [r])
            == Some(IncrementedRow(RowAfter(key, limits, rs), key.identifier, key.kind, limits,
                                   r.countedAt, r.blockedAt))
  {
    assert (rs + [r])[..|rs|] == rs;
  }

  /** The row after n more requests in its open window. */
  function Filled(limits: Limits, row: Row, t: Time, n: nat): Row {
    if n == 0 then row
    else row.(requestCount := row.requestCount + n,
              blockedUntil := if row.requestCount + n >= limits.max then Some(t + limits.blockDurationMs) else None)
  }

  predicate HasRoom(key: Key, limits: Limits, row: Row, t: Time, n: nat) {
    && OfKey(row, key) && row.blockedUntil == None && t < row.windowStart + limits.windowMs
    && row.requestCount + n <= limits.max
  }

  lemma FitsOne(key: Key, limits: Limits, row: Row, t: Time, n: nat)
    requires n > 0 && HasRoom(key, limits, row, t, n)
    ensures HasRoom(key, limits, row, t, n - 1)
    ensures var before := Filled(limits, row, t, n - 1);
      && Accepts(key, limits, Some(before), At(t))
      && IncrementedRow(Some(before), key.identifier, key.kind, limits, t, t) == Filled(limits, row, t, n)
  {
  }

  /** A burst that fits into the open window is accepted whole. */
  lemma {:induction false} BurstFits(key: Key, limits: Limits, rs: seq<Request>, row: Row, t: Time, n: nat)
    requires RowAfter(key, limits, rs) == Some(row) && HasRoom(key, limits, row, t, n)
    ensures Accepted(key, limits, rs + Burst(t, n)) == Accepted(key, limits, rs) + Burst(t, n)
    ensures RowAfter(key, limits, rs + Burst(t, n)) == Some(Filled(limits, row, t, n))
    decreases n
  {
    hide RowAfter, Accepted, Accepts, IncrementedRow, HasRoom;
    if n == 0 {
      assert rs + Burst(t, 0) == rs;
    } else {
      FitsOne(key, limits, row, t, n);
      hide Filled;
      BurstFits(key, limits, rs, row, t, n - 1);
      AcceptedSnoc(key, limits, rs + Burst(t, n - 1), At(t));
      assert rs + Burst(t, n) == (rs + Burst(t, n - 1)) + [At(t)];
    }
  }

  lemma BurstFromFirst(t: Time, n: nat)
    requires n > 0
    ensures Burst(t, n) == [At(t)] + Burst(t, n - 1)
  {
  }

  predicate MayOpen(key: Key, limits: Limits, found: Option<Row>, t: Time) {
    found.Some? ==>
      && OfKey(found.value, key) && t >= found.value.windowStart + limits.windowMs
      && (found.value.blockedUntil.Some? ==> found.value.blockedUntil.value <= t)
  }

  function Opened(key: Key, t: Time): Row {
    Row(key.identifier, key.kind, 1, t, None)
  }

  lemma OpensOne(key: Key, limits: Limits, found: Option<Row>, t: Time)
    requires MayOpen(key, limits, found, t)
    ensures Accepts(key, limits, found, At(t))
    ensures IncrementedRow(found, key.identifier, key.kind, limits, t, t) == Opened(key, t)
  {
  }

  /** A burst that opens a window is accepted up to the limit. */
  lemma BurstOpens(key: Key, limits: Limits, rs: seq<Request>, t: Time, n: nat)
    requires 0 < n <= limits.max && limits.windowMs > 0 && MayOpen(key, limits, RowAfter(key, limits, rs), t)
    ensures Accepted(key, limits, rs + Burst(t, n)) == Accepted(key, limits, rs) + Burst(t, n)
    ensures RowAfter(key, limits, rs + Burst(t, n)) == Some(Filled(limits, Opened(key, t), t, n - 1))
  {
    hide RowAfter, Accepted, Accepts, IncrementedRow, MayOpen, Filled;
    OpensOne(key, limits, RowAfter(key, limits, rs), t);
    AcceptedSnoc(key, limits, rs, At(t));
    BurstFromFirst(t, n);
    BurstFits(key, limits, rs + [At(t)], Opened(key, t), t, n - 1);
    assert rs + Burst(t, n) == (rs + [At(t)]) + Burst(t, n - 1);
    assert Accepted(key, limits, rs) + [At(t)] + Burst(t, n - 1) == Accepted(key, limits, rs) + Burst(t, n);
  }

  lemma {:induction false} RangeIsLarge(s: set<nat>, lo: nat, hi: nat)
    requires lo <= hi && forall i: nat | lo <= i < hi :: i in s
    ensures |s| >= hi - lo
    decreases hi
  {
    if lo < hi {
      RangeIsLarge(s - {hi - 1}, lo, hi - 1);
    }
  }

  function Bursts(t0: Time, n0: nat, t1: Time, n1: nat, t2: Time, n2: nat): (rs: seq<Request>)
    ensures |rs| == n0 + n1 + n2
  {
    Burst(t0, n0) + Burst(t1, n1) + Burst(t2, n2)
  }

  lemma BurstsAt(t0: Time, n0: nat, t1: Time, n1: nat, t2: Time, n2: nat, i: nat)
    requires i < n0 + n1 + n2
    ensures Bursts(t0, n0, t1, n1, t2, n2)[i] == At(if i < n0 then t0 else if i < n0 + n1 then t1 else t2)
  {
    hide Burst;
  }

  lemma BurstsAreInOrder(t0: Time, n0: nat, t1: Time, n1: nat, t2: Time, n2: nat)
    requires t0 <= t1 <= t2
    ensures InOrder(Bursts(t0, n0, t1, n1, t2, n2))
  {
    hide Burst, Bursts;
    var rs := Bursts(t0, n0, t1, n1, t2, n2);
    forall i | 0 <= i < |rs|
      ensures rs[i] == At(if i < n0 then t0 else if i < n0 + n1 then t1 else t2)
    {
      BurstsAt(t0, n0, t1, n1, t2, n2, i);
    }
  }

  /** One request, a burst at the end of its window, and a burst as soon as the next window may open. */
  lemma BurstsAreAccepted(key: Key, limits: Limits, n: nat, t: Time)
    requires limits.windowMs > 1 && n < limits.max && limits.windowMs <= t
    requires n + 1 == limits.max ==> n > 0 && limits.windowMs - 1 + limits.blockDurationMs <= t
    ensures var rs := Bursts(0, 1, limits.windowMs - 1, n, t, limits.max);
      Accepted(key, limits, rs) == rs
  {
    var w := limits.windowMs;
    BurstOpens(key, limits, [], 0, 1);
    assert [] + Burst(0, 1) == Burst(0, 1);
    assert Accepted(key, limits, []) == [];
    hide RowAfter, Accepted, Burst;
    BurstFits(key, limits, Burst(0, 1), Opened(key, 0), w - 1, n);
    BurstOpens(key, limits, Burst(0, 1) + Burst(w - 1, n), t, limits.max);
  }

  lemma ThreeBursts(key: Key, limits: Limits, n: nat, t: Time) returns (rs: seq<Request>)
    requires limits.windowMs > 1 && n < limits.max
    requires limits.windowMs <= t < 2 * limits.windowMs - 1
    requires n + 1 == limits.max ==> n > 0 && limits.windowMs - 1 + limits.blockDurationMs <= t
    ensures InOrder(rs)
    ensures |IndicesWithin(Accepted(key, limits, rs), limits.windowMs - 1, limits.windowMs)| >= n + limits.max
  {
    var w := limits.windowMs;
    rs := Bursts(0, 1, w - 1, n, t, limits.max);
    BurstsAreInOrder(0, 1, w - 1, n, t, limits.max);
    BurstsAreAccepted(key, limits, n, t);
    hide InOrder, Accepted, Burst, Bursts;
    var within := IndicesWithin(rs, w - 1, w);
    forall i: nat | 1 <= i < 1 + n + limits.max
      ensures i in within
    {
      BurstsAt(0, 1, w - 1, n, t, limits.max, i);
    }
    RangeIsLarge(within, 1, 1 + n + limits.max);
  }

  lemma OneBurst(key: Key, limits: Limits) returns (rs: seq<Request>)
    requires limits.max > 0 && limits.windowMs > 0
    ensures InOrder(rs) && |IndicesWithin(Accepted(key, limits, rs), 0, limits.windowMs)| >= limits.max
  {
    rs := Burst(0, limits.max);
    BurstsAreInOrder(0, 0, 0, 0, 0, limits.max);
    assert Bursts(0, 0, 0, 0, 0, limits.max) == rs;
    BurstOpens(key, limits, [], 0, limits.max);
    assert [] + rs == rs && Accepted(key, limits, []) + rs == rs;
    hide InOrder, Accepted;
    RangeIsLarge(IndicesWithin(rs, 0, limits.windowMs), 0, limits.max);
  }

  lemma EmptyIsInOrder()
    ensures InOrder([])
  {
  }

  /** The worst case is reached, for every configuration. */
  lemma WorstCaseIsReached(key: Key, limits: Limits) returns (rs: seq<Request>, from: Time)
    requires limits.max > 0
    ensures InOrder(rs)
    ensures |IndicesWithin(Accepted(key, limits, rs), from, limits.windowMs)| == WorstCase(limits)
  {
    hide InOrder, Accepted;
    var w, b, max := limits.windowMs, limits.blockDurationMs, limits.max;
    if w == 0 {
      EmptyIsInOrder();
      rs, from := [], 0;
    } else if max == 1 || w == 1 {
      from := 0;
      rs := OneBurst(key, limits);
    } else if b < w {
      from := w - 1;
      rs := ThreeBursts(key, limits, max - 1, if w - 1 + b < w then w else w - 1 + b);
    } else {
      from := w - 1;
      rs := ThreeBursts(key, limits, max - 2, w);
    }
    IntervalIsBounded(key, limits, rs, from);
  }

  /**
   The fixed window does what a sliding one would exactly when a window is at most one millisecond
   long, or the limit is 1, or it is 2 and a block lasts at least a window: under any other
   configuration some run has more than the limit accepted within one window length.
   */
  lemma SlidesExactly(key: Key, limits: Limits)
    requires limits.max > 0
    ensures (forall rs, from | InOrder(rs) ::
               |IndicesWithin(Accepted(key, limits, rs), from, limits.windowMs)| <= limits.max)
            <==> limits.windowMs <= 1 || limits.max == 1
                 || (limits.max == 2 && limits.blockDurationMs >= limits.windowMs)
  {
    if WorstCase(limits) <= limits.max {
      forall rs, from | InOrder(rs)
        ensures |IndicesWithin(Accepted(key, limits, rs), from, limits.windowMs)| <= limits.max
      {
        IntervalIsBounded(key, limits, rs, from);
      }
    } else {
      var rs, from := WorstCaseIsReached(key, limits);
      assert |IndicesWithin(Accepted(key, limits, rs), from, limits.windowMs)| > limits.max;
    }
  }
}
