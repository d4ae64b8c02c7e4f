/**
 One identifier's requests over time. The single row makes the same decisions as a limiter that
 keeps every accepted request, and the bounds on what it accepts follow from that.
 */
module RateLimitTheorems {
  import opened Wrappers
  import opened RateLimit

  /** A request, with the three clock readings the service takes for it. */
  datatype Request = Request(checkedAt: Time, countedAt: Time, blockedAt: Time)

  /**
   Requests served one after another, under a clock that never runs backwards: each is checked after
   the one before it was counted. Overlapping requests are `ConcurrentLimiter`'s.
   */
  ghost predicate InOrder(rs: seq<Request>) {
    && (forall i | 0 <= i < |rs| :: rs[i].checkedAt <= rs[i].countedAt <= rs[i].blockedAt)
    && (forall i, j | 0 <= i < j < |rs| :: rs[i].blockedAt <= rs[j].checkedAt)
  }

  datatype Key = Key(identifier: string, kind: IdentifierType)

  predicate Accepts(key: Key, limits: Limits, found: Option<Row>, r: Request) {
    CheckRow(found, key.kind, limits, r.checkedAt) == Allowed
  }

  /** The identifier's row after a run of requests. */
  function RowAfter(key: Key, limits: Limits, rs: seq<Request>): Option<Row> {
    if rs == [] then None
    else
      var before, r := RowAfter(key, limits, rs[..|rs| - 1]), rs[|rs| - 1];
      if Accepts(key, limits, before, r) then
        Some(IncrementedRow(before, key.identifier, key.kind, limits, r.countedAt, r.blockedAt))
      else before
  }

  function Accepted(key: Key, limits: Limits, rs: seq<Request>): seq<Request> {
    if rs == [] then []
    else
      var r := rs[|rs| - 1];
      Accepted(key, limits, rs[..|rs| - 1]) +
      if Accepts(key, limits, RowAfter(key, limits, rs[..|rs| - 1]), r) then [r] else []
  }

  // ---------------------------------------------------------------- the limiter that remembers everything

  /** Which accepted request opened the window that the k-th one was counted in. */
  function Opener(limits: Limits, a: seq<Request>, k: nat): (o: nat)
    requires k < |a|
    ensures o <= k
  {
    if k == 0 then 0
    else
      var o := Opener(limits, a, k - 1);
      if a[k].countedAt >= a[o].countedAt + limits.windowMs then k else o
  }

  /** Its decision after the first n accepted requests: no running block, and the window is over or not yet full. */
  predicate Permits(limits: Limits, a: seq<Request>, n: nat, now: Time)
    requires n <= |a|
  {
    n > 0 ==>
      var o := Opener(limits, a, n - 1);
      var count := n - o;
      && (count >= limits.max && count >= 2 ==> a[n - 1].blockedAt + limits.blockDurationMs <= now)
      && (now >= a[o].countedAt + limits.windowMs || count < limits.max)
  }

  /** The row that stands for the accepted requests. */
  function RowFor(key: Key, limits: Limits, a: seq<Request>): Option<Row> {
    if a == [] then None
    else
      var last := |a| - 1;
      var o := Opener(limits, a, last);
      var count := |a| - o;
      Some(Row(key.identifier, key.kind, count, a[o].countedAt,
               if count >= limits.max && count >= 2 then Some(a[last].blockedAt + limits.blockDurationMs) else None))
  }

  lemma {:induction false} OpenerIgnoresLater(limits: Limits, a: seq<Request>, r: Request, k: nat)
    requires k < |a|
    ensures Opener(limits, a + [r], k) == Opener(limits, a, k)
  {
    if k > 0 {
      OpenerIgnoresLater(limits, a, r, k - 1);
    }
  }

  lemma StepRefines(key: Key, limits: Limits, found: Option<Row>, a: seq<Request>, r: Request)
    requires limits.max > 0
    requires found == RowFor(key, limits, a)
    ensures Some(IncrementedRow(found, key.identifier, key.kind, limits, r.countedAt, r.blockedAt))
            == RowFor(key, limits, a + [r])
  {
    if a != [] {
      OpenerIgnoresLater(limits, a, r, |a| - 1);
    }
  }

  /**
   Over every run the row represents the whole history of accepted requests, so the service accepts
   exactly what the remembering limiter permits.
   */
  lemma {:induction false} RowRefinesHistory(key: Key, limits: Limits, rs: seq<Request>)
    requires limits.max > 0 && InOrder(rs)
    ensures var a := Accepted(key, limits, rs);
      && RowAfter(key, limits, rs) == RowFor(key, limits, a)
      && forall r :: Accepts(key, limits, RowAfter(key, limits, rs), r) <==> Permits(limits, a, |a|, r.checkedAt)
    decreases |rs|
  {
    if rs != [] {
      var before, r := rs[..|rs| - 1], rs[|rs| - 1];
      var a := Accepted(key, limits, before);
      RowRefinesHistory(key, limits, before);
      if Accepts(key, limits, RowAfter(key, limits, before), r) {
        StepRefines(key, limits, RowAfter(key, limits, before), a, r);
      } else {
        assert Accepted(key, limits, rs) == a;
      }
    }
  }

  /** The k-th accepted request was permitted by those before it. */
  predicate PermittedAt(limits: Limits, a: seq<Request>, k: nat)
    requires k < |a|
  {
    Permits(limits, a, k, a[k].checkedAt)
  }

  /** Each request reads its clocks in their order. */
  ghost predicate OwnClocks(a: seq<Request>) {
    forall i | 0 <= i < |a| :: a[i].checkedAt <= a[i].countedAt <= a[i].blockedAt
  }

  /** And later ones are counted no earlier. */
  ghost predicate Timed(a: seq<Request>) {
    OwnClocks(a) && forall i, j | 0 <= i < j < |a| :: a[i].countedAt <= a[j].countedAt
  }

  /** Accepted requests in the order in which they were counted, each permitted by the ones before it. */
  ghost predicate AllPermitted(limits: Limits, a: seq<Request>) {
    limits.max > 0 && forall k | 0 <= k < |a| :: PermittedAt(limits, a, k)
  }

  /** The same for requests whose clocks also follow that order. */
  ghost predicate Lawful(limits: Limits, a: seq<Request>) {
    Timed(a) && AllPermitted(limits, a)
  }

  /** A request that is counted no earlier than the last one was. */
  predicate CountedNext(a: seq<Request>, r: Request) {
    && r.checkedAt <= r.countedAt <= r.blockedAt
    && (a != [] ==> a[|a| - 1].countedAt <= r.countedAt)
  }

  lemma TimedSnoc(a: seq<Request>, r: Request)
    requires Timed(a)
    ensures Timed(a + [r]) <==> CountedNext(a, r)
  {
    var a' := a + [r];
    if CountedNext(a, r) {
      forall i, j | 0 <= i < j < |a'|
        ensures a'[i].countedAt <= a'[j].countedAt
      {
        if j == |a| && i < |a| - 1 { assert a[i].countedAt <= a[|a| - 1].countedAt; }
      }
    } else {
      assert a'[|a|] == r && (a != [] ==> a'[|a| - 1] == a[|a| - 1]);
    }
  }

  lemma PermitsIgnoresLater(limits: Limits, a: seq<Request>, r: Request, n: nat, now: Time)
    requires n <= |a|
    ensures Permits(limits, a + [r], n, now) == Permits(limits, a, n, now)
  {
    if n > 0 {
      OpenerIgnoresLater(limits, a, r, n - 1);
    }
  }

  /** One more accepted request keeps all permitted exactly when it was permitted itself. */
  lemma PermittedSnoc(limits: Limits, a: seq<Request>, r: Request)
    requires AllPermitted(limits, a)
    ensures AllPermitted(limits, a + [r]) <==> Permits(limits, a, |a|, r.checkedAt)
  {
    var a' := a + [r];
    hide Permits;
    forall k | 0 <= k < |a'|
      ensures PermittedAt(limits, a', k)
              <==> if k < |a| then PermittedAt(limits, a, k) else Permits(limits, a, k, r.checkedAt)
    {
      PermitsIgnoresLater(limits, a, r, k, a'[k].checkedAt);
    }
    assert AllPermitted(limits, a') ==> PermittedAt(limits, a', |a|);
  }

  lemma {:induction false} AcceptedAreLawful(key: Key, limits: Limits, rs: seq<Request>)
    requires limits.max > 0 && InOrder(rs)
    ensures Lawful(limits, Accepted(key, limits, rs))
    ensures forall r | r in Accepted(key, limits, rs) :: r in rs
    decreases |rs|
  {
    if rs != [] {
      var before, r := rs[..|rs| - 1], rs[|rs| - 1];
      var a := Accepted(key, limits, before);
      AcceptedAreLawful(key, limits, before);
      RowRefinesHistory(key, limits, before);
      if Accepts(key, limits, RowAfter(key, limits, before), r) {
        if a != [] {
          assert a[|a| - 1] in before;
        }
        TimedSnoc(a, r);
        PermittedSnoc(limits, a, r);
      } else {
        assert Accepted(key, limits, rs) == a;
      }
    }
  }

  // ---------------------------------------------------------------- windows

  lemma OwnClock(a: seq<Request>, i: nat)
    requires OwnClocks(a) && i < |a|
    ensures a[i].checkedAt <= a[i].countedAt <= a[i].blockedAt
  {
  }

  lemma TimedAt(a: seq<Request>, i: nat, j: nat)
    requires Timed(a) && i <= j < |a|
    ensures a[i].countedAt <= a[j].countedAt && a[i].checkedAt <= a[i].countedAt
  {
  }

  /**
   The window of the k-th accepted request: it holds at most max requests, and opened a length
   after the one before.
   */
  lemma {:induction false} WindowIsBounded(limits: Limits, a: seq<Request>, k: nat)
    requires OwnClocks(a) && AllPermitted(limits, a) && k < |a|
    ensures var o := Opener(limits, a, k);
      && k - o < limits.max
      && (o > 0 ==> a[o].countedAt >= a[Opener(limits, a, o - 1)].countedAt + limits.windowMs)
    decreases k
  {
    hide OwnClocks;
    if k > 0 {
      WindowIsBounded(limits, a, k - 1);
      OwnClock(a, k);
      assert PermittedAt(limits, a, k);
    }
  }

  /** Each window accepts at most max requests, and successive windows open at least one length apart. */
  lemma WindowsAreBounded(key: Key, limits: Limits, rs: seq<Request>, k: nat)
    requires limits.max > 0 && InOrder(rs) && k < |Accepted(key, limits, rs)|
    ensures var a := Accepted(key, limits, rs);
      var o := Opener(limits, a, k);
      && k - o + 1 <= limits.max
      && (o > 0 ==> a[o].countedAt >= a[Opener(limits, a, o - 1)].countedAt + limits.windowMs)
  {
    AcceptedAreLawful(key, limits, rs);
    WindowIsBounded(limits, Accepted(key, limits, rs), k);
  }

  /** After the request that fills a window, nothing is accepted before the window is over and its block has run out. */
  lemma FullWindowIsClosed(limits: Limits, a: seq<Request>, k: nat)
    requires AllPermitted(limits, a) && limits.max >= 2 && 0 < k < |a| && k - Opener(limits, a, k - 1) == limits.max
    ensures a[k].checkedAt >= a[Opener(limits, a, k - 1)].countedAt + limits.windowMs
    ensures a[k].checkedAt >= a[k - 1].blockedAt + limits.blockDurationMs
  {
    assert PermittedAt(limits, a, k);
  }

  lemma FullWindowBlocks(key: Key, limits: Limits, rs: seq<Request>, k: nat)
    requires limits.max >= 2 && InOrder(rs) && 0 < k < |Accepted(key, limits, rs)|
    requires k - Opener(limits, Accepted(key, limits, rs), k - 1) == limits.max
    ensures var a := Accepted(key, limits, rs);
      && a[k].checkedAt >= a[Opener(limits, a, k - 1)].countedAt + limits.windowMs
      && a[k].checkedAt >= a[k - 1].blockedAt + limits.blockDurationMs
  {
    AcceptedAreLawful(key, limits, rs);
    FullWindowIsClosed(limits, Accepted(key, limits, rs), k);
  }

  // ---------------------------------------------------------------- what a refusal names

  /** The least whole number of seconds that covers this many milliseconds. */
  predicate LeastSeconds(n: nat, ms: nat) {
    1000 * n >= ms && forall m: nat | m < n :: 1000 * m < ms
  }

  lemma RefusalOfRow(row: Row, kind: IdentifierType, limits: Limits, now: Time)
    requires CheckRow(Some(row), kind, limits, now).TooManyRequests?
    ensures var delay := CheckRow(Some(row), kind, limits, now).retryAfter;
      if row.blockedUntil.Some? && row.blockedUntil.value > now then
        delay.Some? && LeastSeconds(delay.value, row.blockedUntil.value - now)
      else
        && now < row.windowStart + limits.windowMs && row.requestCount >= limits.max
        && (delay.None? <==> kind == Ip)
        && (delay.Some? ==> LeastSeconds(delay.value, limits.blockDurationMs))
  {
  }

  /**
   The delay that a refusal names, in terms of the requests accepted so far: while the block set by the
   last of them runs, the least whole number of seconds that outlasts it; otherwise, with the window full,
   that many for a whole block to a wallet, and none to a client address.
   */
  lemma RefusalNames(key: Key, limits: Limits, rs: seq<Request>, now: Time)
    requires limits.max > 0 && InOrder(rs)
    requires CheckRow(RowAfter(key, limits, rs), key.kind, limits, now).TooManyRequests?
    ensures var a := Accepted(key, limits, rs);
      var delay := CheckRow(RowAfter(key, limits, rs), key.kind, limits, now).retryAfter;
      && a != []
      && var o, end := Opener(limits, a, |a| - 1), a[|a| - 1].blockedAt + limits.blockDurationMs;
      && |a| - o >= limits.max
      && if |a| - o >= 2 && end > now then delay.Some? && LeastSeconds(delay.value, end - now)
         else
           && now < a[o].countedAt + limits.windowMs
           && (delay.None? <==> key.kind == Ip)
           && (delay.Some? ==> LeastSeconds(delay.value, limits.blockDurationMs))
  {
    hide RowAfter, Accepted, Opener, LeastSeconds, CheckRow, InOrder;
    RowRefinesHistory(key, limits, rs);
    var a := Accepted(key, limits, rs);
    RefusedHasRow(RowFor(key, limits, a), key.kind, limits, now);
    RefusalOfRow(RowFor(key, limits, a).value, key.kind, limits, now);
  }

  lemma RefusedHasRow(found: Option<Row>, kind: IdentifierType, limits: Limits, now: Time)
    requires CheckRow(found, kind, limits, now).TooManyRequests?
    ensures found.Some?
  {
  }

  /** Asking again earlier than the block's delay is refused again; after it, only a full window still refuses. */
  lemma DelayIsExact(found: Option<Row>, kind: IdentifierType, limits: Limits, now: Time)
    requires found.Some? && found.value.blockedUntil.Some? && found.value.blockedUntil.value > now
    ensures CheckRow(found, kind, limits, now).TooManyRequests? && CheckRow(found, kind, limits, now).retryAfter.Some?
    ensures var n := CheckRow(found, kind, limits, now).retryAfter.value;
      && n >= 1 && (forall m: nat | m < n :: CheckRow(found, kind, limits, now + 1000 * m).TooManyRequests?)
      && (CheckRow(found, kind, limits, now + 1000 * n) == Allowed <==>
            now + 1000 * n >= found.value.windowStart + limits.windowMs || found.value.requestCount < limits.max)
  {
  }

  // ---------------------------------------------------------------- members of a window

  lemma {:induction false} SameWindow(limits: Limits, a: seq<Request>, k: nat, j: nat)
    requires j < |a| && Opener(limits, a, j) <= k <= j
    ensures Opener(limits, a, k) == Opener(limits, a, j)
    decreases j
  {
    if k < j {
      SameWindow(limits, a, k, j - 1);
    }
  }

  lemma CountedInWindow(limits: Limits, a: seq<Request>, k: nat)
    requires k < |a| && limits.windowMs > 0
    ensures a[k].countedAt < a[Opener(limits, a, k)].countedAt + limits.windowMs
  {
  }
}
