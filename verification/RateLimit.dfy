/**
 The rate-limit table and the services over it. A row is found by identifier and type. Nothing in
 the schema makes that pair unique: requests that are served one after another keep it unique, and
 `ConcurrentLimiter` shows what overlapping ones do to it.
 */
module RateLimit {
  import opened Wrappers

  type Time = nat

  datatype IdentifierType = Ip | WalletAddress

  datatype Row = Row(
    identifier: string,
    identifierType: IdentifierType,
    requestCount: nat,
    windowStart: Time,
    blockedUntil: Option<Time>
  )

  /** `max` and the durations are positive in every configuration the server starts with. */
  datatype Limits = Limits(max: nat, windowMs: nat, blockDurationMs: nat)

  /** What the server is configured with: one set of limits for addresses, one for wallets. */
  datatype Config = Config(ip: Limits, wallet: Limits)

  function LimitsOf(config: Config, kind: IdentifierType): Limits {
    if kind == Ip then config.ip else config.wallet
  }

  datatype Decision = Allowed | TooManyRequests(retryAfter: Option<nat>)

  /** The least whole number of seconds that covers `ms` milliseconds. */
  function CeilSeconds(ms: nat): (n: nat)
    ensures ms <= 1000 * n < ms + 1000
  {
    (ms + 999) / 1000
  }

  predicate HasKey(row: Row, identifier: string, kind: IdentifierType) {
    row.identifier == identifier && row.identifierType == kind
  }

  ghost predicate UniqueKeys(rows: seq<Row>) {
    forall i, j | 0 <= i < j < |rows| :: !HasKey(rows[j], rows[i].identifier, rows[i].identifierType)
  }

  /** `findFirst` by identifier and type. */
  function Lookup(rows: seq<Row>, identifier: string, kind: IdentifierType): Option<Row> {
    if rows == [] then None
    else if HasKey(rows[0], identifier, kind) then Some(rows[0])
    else Lookup(rows[1..], identifier, kind)
  }

  lemma {:induction false} LookupAt(rows: seq<Row>, i: nat, identifier: string, kind: IdentifierType)
    requires UniqueKeys(rows) && i < |rows| && HasKey(rows[i], identifier, kind)
    ensures Lookup(rows, identifier, kind) == Some(rows[i])
  {
    if i > 0 {
      assert !HasKey(rows[i], rows[0].identifier, rows[0].identifierType);
      LookupAt(rows[1..], i - 1, identifier, kind);
    }
  }

  lemma {:induction false} LookupNone(rows: seq<Row>, identifier: string, kind: IdentifierType)
    ensures Lookup(rows, identifier, kind).None? <==> forall i | 0 <= i < |rows| :: !HasKey(rows[i], identifier, kind)
  {
    if rows != [] && !HasKey(rows[0], identifier, kind) {
      LookupNone(rows[1..], identifier, kind);
      assert forall i | 0 < i < |rows| :: rows[i] == rows[1..][i - 1];
    }
  }

  lemma {:induction false} LookupHasKey(rows: seq<Row>, identifier: string, kind: IdentifierType)
    ensures Lookup(rows, identifier, kind).Some? ==> HasKey(Lookup(rows, identifier, kind).value, identifier, kind)
  {
    if rows != [] {
      LookupHasKey(rows[1..], identifier, kind);
    }
  }

  /** An answer of the unordered `findFirst`: where some row with the key is, or `|rows|` if there is none. */
  predicate Finds(rows: seq<Row>, identifier: string, kind: IdentifierType, at: nat) {
    && at <= |rows|
    && if at < |rows| then HasKey(rows[at], identifier, kind)
       else forall i | 0 <= i < |rows| :: !HasKey(rows[i], identifier, kind)
  }

  function RowAt(rows: seq<Row>, at: nat): Option<Row>
    requires at <= |rows|
  {
    if at < |rows| then Some(rows[at]) else None
  }

  /** With unique keys there is only one answer. */
  lemma FindsLookup(rows: seq<Row>, identifier: string, kind: IdentifierType, at: nat)
    requires UniqueKeys(rows) && Finds(rows, identifier, kind, at)
    ensures RowAt(rows, at) == Lookup(rows, identifier, kind)
  {
    if at < |rows| {
      LookupAt(rows, at, identifier, kind);
    } else {
      LookupNone(rows, identifier, kind);
    }
  }

  method FindFirst(rows: seq<Row>, identifier: string, kind: IdentifierType) returns (at: nat)
    ensures Finds(rows, identifier, kind, at)
  {
    if i: nat :| i < |rows| && HasKey(rows[i], identifier, kind) {
      at := i;
    } else {
      at := |rows|;
    }
  }

  /** The table with a row written where the query found one, or appended. */
  function Put(rows: seq<Row>, at: nat, row: Row): seq<Row>
    requires at <= |rows|
  {
    if at < |rows| then rows[at := row] else rows + [row]
  }

  /** The table after the row with a key was written: replaced where it was, or appended. */
  ghost predicate Upserted(rows: seq<Row>, rows': seq<Row>, row: Row) {
    && UniqueKeys(rows')
    && Lookup(rows', row.identifier, row.identifierType) == Some(row)
    && (forall identifier, kind | !HasKey(row, identifier, kind) ::
          Lookup(rows', identifier, kind) == Lookup(rows, identifier, kind))
  }

  lemma {:induction false} LookupAfterUpdate(rows: seq<Row>, at: nat, row: Row, identifier: string,
                                             kind: IdentifierType)
    requires at < |rows| && HasKey(rows[at], row.identifier, row.identifierType) && !HasKey(row, identifier, kind)
    ensures Lookup(rows[at := row], identifier, kind) == Lookup(rows, identifier, kind)
  {
    if at > 0 {
      assert rows[at := row][1..] == rows[1..][at - 1 := row];
      LookupAfterUpdate(rows[1..], at - 1, row, identifier, kind);
    } else {
      assert rows[0 := row][1..] == rows[1..];
    }
  }

  lemma {:induction false} LookupAfterAppend(rows: seq<Row>, row: Row, identifier: string, kind: IdentifierType)
    requires !HasKey(row, identifier, kind)
    ensures Lookup(rows + [row], identifier, kind) == Lookup(rows, identifier, kind)
  {
    if rows != [] {
      assert (rows + [row])[1..] == rows[1..] + [row];
      LookupAfterAppend(rows[1..], row, identifier, kind);
    }
  }

  lemma UpdateUpserts(rows: seq<Row>, at: nat, row: Row)
    requires UniqueKeys(rows) && at < |rows| && HasKey(rows[at], row.identifier, row.identifierType)
    ensures Upserted(rows, rows[at := row], row)
  {
    LookupAt(rows[at := row], at, row.identifier, row.identifierType);
    forall identifier, kind | !HasKey(row, identifier, kind)
      ensures Lookup(rows[at := row], identifier, kind) == Lookup(rows, identifier, kind)
    {
      LookupAfterUpdate(rows, at, row, identifier, kind);
    }
  }

  lemma AppendUpserts(rows: seq<Row>, row: Row)
    requires UniqueKeys(rows) && Lookup(rows, row.identifier, row.identifierType) == None
    ensures Upserted(rows, rows + [row], row)
  {
    LookupNone(rows, row.identifier, row.identifierType);
    LookupAt(rows + [row], |rows|, row.identifier, row.identifierType);
    forall identifier, kind | !HasKey(row, identifier, kind)
      ensures Lookup(rows + [row], identifier, kind) == Lookup(rows, identifier, kind)
    {
      LookupAfterAppend(rows, row, identifier, kind);
    }
  }

  lemma PutUpserts(rows: seq<Row>, at: nat, row: Row)
    requires UniqueKeys(rows) && Finds(rows, row.identifier, row.identifierType, at)
    ensures Upserted(rows, Put(rows, at, row), row)
  {
    if at < |rows| {
      UpdateUpserts(rows, at, row);
    } else {
      LookupNone(rows, row.identifier, row.identifierType);
      AppendUpserts(rows, row);
    }
  }

  // ---------------------------------------------------------------- the limiter's two halves

  /** The check: blocked, window over, or full. Only the wallet limiter names a delay when full. */
  function CheckRow(found: Option<Row>, kind: IdentifierType, limits: Limits, now: Time): Decision {
    match found
    case None => Allowed
    case Some(row) =>
      if row.blockedUntil.Some? && row.blockedUntil.value > now then
        TooManyRequests(Some(CeilSeconds(row.blockedUntil.value - now)))
      else if now >= row.windowStart + limits.windowMs then Allowed
      else if row.requestCount >= limits.max then
        TooManyRequests(if kind == WalletAddress then Some(CeilSeconds(limits.blockDurationMs)) else None)
      else Allowed
  }

  /** The increment, which reads the clock for the window and again for the block. */
  function IncrementedRow(found: Option<Row>, identifier: string, kind: IdentifierType, limits: Limits,
                          now: Time, blockNow: Time): Row {
    match found
    case None => Row(identifier, kind, 1, now, None)
    case Some(row) =>
      if now >= row.windowStart + limits.windowMs then
        row.(requestCount := 1, windowStart := now, blockedUntil := None)
      else if row.requestCount + 1 >= limits.max then
        row.(requestCount := row.requestCount + 1, blockedUntil := Some(blockNow + limits.blockDurationMs))
      else row.(requestCount := row.requestCount + 1)
  }

  /** One request served on a table with unique keys: check, then count if allowed. */
  ghost predicate Served(rows: seq<Row>, rows': seq<Row>, identifier: string, kind: IdentifierType, limits: Limits,
                         checkedAt: Time, countedAt: Time, blockedAt: Time)
  {
    var found := Lookup(rows, identifier, kind);
    if CheckRow(found, kind, limits, checkedAt) == Allowed then
      Upserted(rows, rows', IncrementedRow(found, identifier, kind, limits, countedAt, blockedAt))
    else rows' == rows
  }

  class RateLimitService {
    var rows: seq<Row>

    constructor ()
      ensures rows == []
    {
      rows := [];
    }

    method CheckRateLimit(identifier: string, kind: IdentifierType, limits: Limits, now: Time)
        returns (decision: Decision)
      ensures exists at :: Finds(rows, identifier, kind, at) && decision == CheckRow(RowAt(rows, at), kind, limits, now)
    {
      var at := FindFirst(rows, identifier, kind);
      assert Finds(rows, identifier, kind, at);
      if at == |rows| { return Allowed; }
      var record := rows[at];
      if record.blockedUntil.Some? && record.blockedUntil.value > now {
        return TooManyRequests(Some(CeilSeconds(record.blockedUntil.value - now)));
      }
      var windowEnd := record.windowStart + limits.windowMs;
      if now >= windowEnd { return Allowed; }
      if record.requestCount >= limits.max {
        if kind == WalletAddress { return TooManyRequests(Some(CeilSeconds(limits.blockDurationMs))); }
        return TooManyRequests(None);
      }
      decision := Allowed;
    }

    /** Returns where the written row is. */
    method IncrementRequestCount(identifier: string, kind: IdentifierType, limits: Limits, now: Time, blockNow: Time)
        returns (at: nat)
      modifies this
      ensures Finds(old(rows), identifier, kind, at)
      ensures rows == Put(old(rows), at, IncrementedRow(RowAt(old(rows), at), identifier, kind, limits, now, blockNow))
    {
      at := FindFirst(rows, identifier, kind);
      if at == |rows| {
        rows := rows + [Row(identifier, kind, 1, now, None)];
        return;
      }
      var existing := rows[at];
      var updated := existing;
      if now >= existing.windowStart + limits.windowMs {
        updated := existing.(requestCount := 1, windowStart := now, blockedUntil := None);
      } else {
        var newCount := existing.requestCount + 1;
        updated := existing.(requestCount := newCount);
        if newCount >= limits.max {
          updated := updated.(blockedUntil := Some(blockNow + limits.blockDurationMs));
        }
      }
      rows := rows[at := updated];
    }

    /** A route's handler: check, then count. A rejected request is not counted. */
    method Admit(identifier: string, kind: IdentifierType, limits: Limits,
                 checkedAt: Time, countedAt: Time, blockedAt: Time)
        returns (decision: Decision)
      modifies this
      ensures exists at :: Finds(old(rows), identifier, kind, at)
                           && decision == CheckRow(RowAt(old(rows), at), kind, limits, checkedAt)
      ensures decision != Allowed ==> rows == old(rows)
      ensures UniqueKeys(old(rows)) ==>
                Served(old(rows), rows, identifier, kind, limits, checkedAt, countedAt, blockedAt) && UniqueKeys(rows)
    {
      decision := CheckRateLimit(identifier, kind, limits, checkedAt);
      ghost var seen :| Finds(rows, identifier, kind, seen)
                        && decision == CheckRow(RowAt(rows, seen), kind, limits, checkedAt);
      if UniqueKeys(rows) {
        FindsLookup(rows, identifier, kind, seen);
      }
      if decision == Allowed {
        var at := IncrementRequestCount(identifier, kind, limits, countedAt, blockedAt);
        if UniqueKeys(old(rows)) {
          FindsLookup(old(rows), identifier, kind, at);
          PutUpserts(old(rows), at,
                     IncrementedRow(RowAt(old(rows), at), identifier, kind, limits, countedAt, blockedAt));
        }
      }
    }
  }
}
