/** The 5-second deduplication hook on POST /sponsorship/request, over the same table. */
module ReplayProtection {
  import opened Wrappers
  import opened RateLimit

  const REPLAY_WINDOW_MS: nat := 5000

  datatype Verdict = Passed | Duplicate(retryAfter: nat)

  function Max(x: int, y: int): int {
    if x < y then y else x
  }

  /** What the hook decides: a row whose window start is later than five seconds ago is a duplicate. */
  function Judge(found: Option<Row>, now: Time): Verdict {
    if found.Some? && found.value.windowStart as int > now - REPLAY_WINDOW_MS then
      var remainingMs := found.value.windowStart + REPLAY_WINDOW_MS - now;
      Duplicate(Max(1, CeilSeconds(remainingMs)))
    else Passed
  }

  function Stamped(found: Option<Row>, key: string, now: Time): Row {
    match found
    case None => Row(key, Ip, 1, now, None)
    case Some(row) => row.(windowStart := now, requestCount := 1)
  }

  /** A row of this key stamped less than five seconds ago. */
  predicate IsRecent(row: Row, compositeKey: string, now: Time) {
    HasKey(row, compositeKey, Ip) && row.windowStart as int > now - REPLAY_WINDOW_MS
  }

  /** One request judged on a table with unique keys. */
  ghost predicate Guarded(rows: seq<Row>, rows': seq<Row>, compositeKey: string, now: Time, verdict: Verdict) {
    var found := Lookup(rows, compositeKey, Ip);
    && verdict == Judge(found, now)
    && if verdict.Passed? then Upserted(rows, rows', Stamped(found, compositeKey, now)) else rows' == rows
  }

  class ReplayGuard {
    var rows: seq<Row>

    constructor ()
      ensures rows == []
    {
      rows := [];
    }

    /** `compositeKey` is the wallet address and client IP joined by a colon. */
    method PreHandler(compositeKey: string, now: Time) returns (verdict: Verdict)
      modifies this
      ensures verdict.Duplicate? <==> exists i | 0 <= i < |old(rows)| :: IsRecent(old(rows)[i], compositeKey, now)
      ensures verdict.Duplicate? ==>
                && rows == old(rows)
                && exists i | 0 <= i < |rows| ::
                     IsRecent(rows[i], compositeKey, now) && verdict == Judge(Some(rows[i]), now)
      ensures verdict.Passed? ==>
                exists at :: Finds(old(rows), compositeKey, Ip, at)
                             && rows == Put(old(rows), at, Stamped(RowAt(old(rows), at), compositeKey, now))
      ensures UniqueKeys(old(rows)) ==> Guarded(old(rows), rows, compositeKey, now, verdict) && UniqueKeys(rows)
    {
      if i: nat :| i < |rows| && IsRecent(rows[i], compositeKey, now) {
        var windowEnd := rows[i].windowStart + REPLAY_WINDOW_MS;
        var retryAfter := CeilSeconds(windowEnd - now);
        verdict := Duplicate(Max(1, retryAfter));
        if UniqueKeys(rows) {
          FindsLookup(rows, compositeKey, Ip, i);
        }
      } else {
        var at := FindFirst(rows, compositeKey, Ip);
        if UniqueKeys(rows) {
          FindsLookup(rows, compositeKey, Ip, at);
          PutUpserts(rows, at, Stamped(RowAt(rows, at), compositeKey, now));
        }
        if at < |rows| {
          rows := rows[at := rows[at].(windowStart := now, requestCount := 1)];
        } else {
          rows := rows + [Row(compositeKey, Ip, 1, now, None)];
        }
        verdict := Passed;
        assert Finds(old(rows), compositeKey, Ip, at);
      }
    }
  }

  // ---------------------------------------------------------------- one key's requests over time

  ghost predicate Ascending(times: seq<Time>) {
    forall i, j | 0 <= i < j < |times| :: times[i] <= times[j]
  }

  function RowAfter(key: string, times: seq<Time>): Option<Row> {
    if times == [] then None
    else
      var before, now := RowAfter(key, times[..|times| - 1]), times[|times| - 1];
      if Judge(before, now).Passed? then Some(Stamped(before, key, now)) else before
  }

  function AcceptedTimes(key: string, times: seq<Time>): seq<Time> {
    if times == [] then []
    else
      var now := times[|times| - 1];
      AcceptedTimes(key, times[..|times| - 1]) +
      if Judge(RowAfter(key, times[..|times| - 1]), now).Passed? then [now] else []
  }

  /** The accepted times, spaced at least the window apart. */
  ghost predicate Spaced(accepted: seq<Time>) {
    forall i, j | 0 <= i < j < |accepted| :: accepted[i] + 5000 <= accepted[j]
  }

  /**
   Over every run, accepted requests with the same key are at least five seconds apart; and the next
   request passes exactly when five seconds have gone by since the last accepted one, so rejected
   requests extend nothing.
   */
  lemma {:induction false} AcceptedAreSpaced(key: string, times: seq<Time>)
    requires Ascending(times)
    ensures var a := AcceptedTimes(key, times);
      && Spaced(a)
      && (forall now :: Judge(RowAfter(key, times), now).Passed? <==>
                          (a == [] || a[|a| - 1] + 5000 <= now))
      && (a != [] ==> times != [] && a[|a| - 1] <= times[|times| - 1])
    decreases |times|
  {
    if times != [] {
      AcceptedAreSpaced(key, times[..|times| - 1]);
      AcceptedTail(key, times);
    }
  }

  lemma {:induction false} AcceptedTail(key: string, times: seq<Time>)
    ensures match RowAfter(key, times)
            case None => AcceptedTimes(key, times) == []
            case Some(row) =>
              var a := AcceptedTimes(key, times);
              a != [] && row.windowStart == a[|a| - 1]
    decreases |times|
  {
    if times != [] {
      AcceptedTail(key, times[..|times| - 1]);
    }
  }

  /**
   Retry-After is between 1 and 5, and is the least whole number of seconds after which the same
   request would pass.
   */
  lemma RetryAfterIsExact(found: Option<Row>, now: Time)
    requires found.Some? ==> found.value.windowStart <= now
    requires Judge(found, now).Duplicate?
    ensures var n := Judge(found, now).retryAfter;
      && 1 <= n <= 5
      && Judge(found, now + 1000 * n).Passed?
      && forall m: nat | m < n :: Judge(found, now + 1000 * m).Duplicate?
  {
  }
}
