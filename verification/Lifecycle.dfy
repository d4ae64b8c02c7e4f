/**
 Status transitions and relay rows, as the worker writes them. `Store` is the database as one
 transaction sees it; its methods are proved against the row functions `MoveRequest` and
 `MoveRelay`, whose properties are the lemmas below.
 */
module Lifecycle {
  import opened Wrappers
  import opened Tables

  const DEFAULT_MAX_RELAY_ATTEMPTS: nat := 3

  datatype TransitionResult = Success | NotFound | InvalidTransition

  /** The optional columns of a relay update: absent, or present and possibly null. */
  datatype RelayData = RelayData(
    transactionHash: Option<string>,
    failureReason: Option<string>,
    blockNumber: Option<Option<nat>>,
    eventName: Option<Option<string>>,
    eventData: Option<Option<GrantEvent>>,
    explorerUrl: Option<Option<string>>
  )

  const NO_DATA := RelayData(None, None, None, None, None, None)

  function MoveRequest(row: SponsorshipRequest, newStatus: SponsorshipStatus, now: Time): Option<SponsorshipRequest> {
    if newStatus !in ValidSponsorshipTransitions(row.status) then None
    else
      var moved := row.(status := newStatus);
      Some(match newStatus
           case Approved => moved.(approvedAt := Some(now))
           case Rejected => moved.(rejectedAt := Some(now))
           case Completed => moved.(completedAt := Some(now))
           case Failed => moved.(failedAt := Some(now))
           case Pending => moved
           case Relayed => moved)
  }

  function Keep<T>(old_: Option<T>, new_: Option<T>): Option<T> {
    if new_.Some? then new_ else old_
  }

  /** A string that JavaScript treats as present: given and not empty. */
  function Truthy(s: Option<string>): Option<string> {
    if s == Some("") then None else s
  }

  function WithData(row: RelayTransaction, data: RelayData): RelayTransaction {
    row.(transactionHash := Keep(row.transactionHash, Truthy(data.transactionHash)),
         failureReason := Keep(row.failureReason, Truthy(data.failureReason)),
         blockNumber := if data.blockNumber.Some? then data.blockNumber.value else row.blockNumber,
         eventName := if data.eventName.Some? then data.eventName.value else row.eventName,
         eventData := if data.eventData.Some? then data.eventData.value else row.eventData,
         explorerUrl := if data.explorerUrl.Some? then data.explorerUrl.value else row.explorerUrl)
  }

  function MoveRelay(row: RelayTransaction, status: RelayStatus, data: RelayData, now: Time): Option<RelayTransaction> {
    if status !in ValidRelayTransitions(row.status) then None
    else
      var moved := WithData(row.(status := status), data);
      Some(match status
           case Submitted => moved.(submittedAt := Some(now))
           case Confirmed => moved.(confirmedAt := Some(now))
           case RelayFailed => moved.(failedAt := Some(now))
           case Queued => moved)
  }

  function NewRelay(id: RequestId, attempt: nat): RelayTransaction {
    RelayTransaction(id, attempt, Queued, None, None, None, None, None, None, None, None, None)
  }

  class Store {
    var requests: map<RequestId, SponsorshipRequest>
    var relays: map<RelayId, RelayTransaction>
    var wallets: map<WalletId, Wallet>

    constructor (db: Db)
      ensures State() == db
    {
      requests, relays, wallets := db.requests, db.relays, db.wallets;
    }

    function State(): Db
      reads this
    {
      Db(requests, relays, wallets)
    }

    method TransitionSponsorshipStatus(id: RequestId, newStatus: SponsorshipStatus, now: Time)
        returns (result: TransitionResult)
      modifies this`requests
      ensures result.NotFound? <==> id !in old(requests)
      ensures result.InvalidTransition? <==> id in old(requests) && MoveRequest(old(requests)[id], newStatus, now).None?
      ensures result.Success? ==> requests == old(requests)[id := MoveRequest(old(requests)[id], newStatus, now).value]
      ensures !result.Success? ==> requests == old(requests)
    {
      if id !in requests {
        return NotFound;
      }
      var row := requests[id];
      if newStatus !in ValidSponsorshipTransitions(row.status) {
        return InvalidTransition;
      }
      var updated := row.(status := newStatus);
      match newStatus {
        case Approved => updated := updated.(approvedAt := Some(now));
        case Rejected => updated := updated.(rejectedAt := Some(now));
        case Completed => updated := updated.(completedAt := Some(now));
        case Failed => updated := updated.(failedAt := Some(now));
        case _ =>
      }
      requests := requests[id := updated];
      result := Success;
    }

    method GetRetryCount(id: RequestId) returns (n: nat)
      ensures n == RetryCount(State(), id)
    {
      n := |RelaysOf(relays, id)|;
    }

    /** `None` is the exception thrown at the limit; `fresh` is the new row's generated key. */
    method CreateRelayTransaction(id: RequestId, fresh_: RelayId, maxRelayAttempts: nat := DEFAULT_MAX_RELAY_ATTEMPTS)
        returns (attempt: Option<nat>)
      modifies this`relays
      ensures attempt.None? <==> RetryCount(old(State()), id) >= maxRelayAttempts
      ensures attempt.None? ==> relays == old(relays)
      ensures attempt.Some? ==>
                && attempt.value == RetryCount(old(State()), id) + 1
                && relays == old(relays)[fresh_ := NewRelay(id, attempt.value)]
    {
      var existingCount := |RelaysOf(relays, id)|;
      if existingCount >= maxRelayAttempts {
        return None;
      }
      relays := relays[fresh_ := NewRelay(id, existingCount + 1)];
      attempt := Some(existingCount + 1);
    }

    /** The optional columns, each written only when the caller provides it. */
    static method SetProvided(row: RelayTransaction, data: RelayData) returns (updated: RelayTransaction)
      ensures updated == WithData(row, data)
    {
      updated := row;
      if data.transactionHash.Some? && data.transactionHash.value != "" {
        updated := updated.(transactionHash := data.transactionHash);
      }
      if data.failureReason.Some? && data.failureReason.value != "" {
        updated := updated.(failureReason := data.failureReason);
      }
      if data.blockNumber.Some? { updated := updated.(blockNumber := data.blockNumber.value); }
      if data.eventName.Some? { updated := updated.(eventName := data.eventName.value); }
      if data.eventData.Some? { updated := updated.(eventData := data.eventData.value); }
      if data.explorerUrl.Some? { updated := updated.(explorerUrl := data.explorerUrl.value); }
    }

    method UpdateRelayTransaction(id: RelayId, status: RelayStatus, data: RelayData, now: Time)
        returns (result: TransitionResult)
      modifies this`relays
      ensures result.NotFound? <==> id !in old(relays)
      ensures result.InvalidTransition? <==> id in old(relays) && MoveRelay(old(relays)[id], status, data, now).None?
      ensures result.Success? ==> relays == old(relays)[id := MoveRelay(old(relays)[id], status, data, now).value]
      ensures !result.Success? ==> relays == old(relays)
    {
      if id !in relays {
        return NotFound;
      }
      var row := relays[id];
      if status !in ValidRelayTransitions(row.status) {
        return InvalidTransition;
      }
      var updated := row.(status := status);
      match status {
        case Submitted => updated := updated.(submittedAt := Some(now));
        case Confirmed => updated := updated.(confirmedAt := Some(now));
        case RelayFailed => updated := updated.(failedAt := Some(now));
        case _ =>
      }
      updated := SetProvided(updated, data);
      relays := relays[id := updated];
      result := Success;
    }

    /** Reports a missing row, for which the database update throws. */
    method IncrementSponsorshipCount(id: WalletId) returns (done: bool)
      modifies this`wallets
      ensures done == (id in old(wallets))
      ensures done ==> wallets == old(wallets)[id := Incremented(old(wallets)[id])]
      ensures !done ==> wallets == old(wallets)
    {
      done := id in wallets;
      if done {
        wallets := wallets[id := Incremented(wallets[id])];
      }
    }

    method Restore(db: Db)
      modifies this
      ensures State() == db
    {
      requests, relays, wallets := db.requests, db.relays, db.wallets;
    }
  }

  function Incremented(w: Wallet): Wallet {
    w.(sponsorshipCount := w.sponsorshipCount + 1)
  }

  // ---------------------------------------------------------------- records

  predicate NotAfter(a: Option<Time>, b: Option<Time>) {
    a.Some? && b.Some? ==> a.value <= b.value
  }

  /**
   A request row whose timestamps tell its story: each terminal timestamp is set exactly in its
   own status, approval is recorded exactly on the approved path, and time runs forward.
   */
  predicate RequestRecord(row: SponsorshipRequest) {
    && (row.rejectedAt.Some? <==> row.status == Rejected)
    && (row.completedAt.Some? <==> row.status == Completed)
    && (row.failedAt.Some? <==> row.status == Failed)
    && (row.approvedAt.Some? <==> row.status in {Approved, Relayed, Completed, Failed})
    && NotAfter(Some(row.requestedAt), row.approvedAt)
    && NotAfter(Some(row.requestedAt), row.rejectedAt)
    && NotAfter(row.approvedAt, row.completedAt)
    && NotAfter(row.approvedAt, row.failedAt)
  }

  predicate RelayRecord(row: RelayTransaction) {
    && (row.submittedAt.Some? <==> row.status in {Submitted, Confirmed, RelayFailed})
    && (row.confirmedAt.Some? <==> row.status == Confirmed)
    && (row.failedAt.Some? <==> row.status == RelayFailed)
    && NotAfter(row.submittedAt, row.confirmedAt)
    && NotAfter(row.submittedAt, row.failedAt)
  }

  predicate RequestBefore(row: SponsorshipRequest, now: Time) {
    && row.requestedAt <= now
    && NotAfter(row.approvedAt, Some(now)) && NotAfter(row.rejectedAt, Some(now))
    && NotAfter(row.completedAt, Some(now)) && NotAfter(row.failedAt, Some(now))
  }

  /** Every timestamp set in `row` is still set, to the same time, in `row'`. */
  predicate KeepsTimestamps(row: SponsorshipRequest, row': SponsorshipRequest) {
    && row'.requestedAt == row.requestedAt
    && (row.approvedAt.Some? ==> row'.approvedAt == row.approvedAt)
    && (row.rejectedAt.Some? ==> row'.rejectedAt == row.rejectedAt)
    && (row.completedAt.Some? ==> row'.completedAt == row.completedAt)
    && (row.failedAt.Some? ==> row'.failedAt == row.failedAt)
  }

  /** Legal transitions keep a record a record and never overwrite a timestamp. */
  lemma MoveKeepsRecord(row: SponsorshipRequest, newStatus: SponsorshipStatus, now: Time)
    requires RequestRecord(row) && RequestBefore(row, now)
    ensures MoveRequest(row, newStatus, now).Some? ==>
              var row' := MoveRequest(row, newStatus, now).value;
              RequestRecord(row') && RequestBefore(row', now) && KeepsTimestamps(row, row')
  {
  }

  // ---------------------------------------------------------------- numbering of attempts

  /** A request's relay attempts are numbered exactly 1..n, and at most one row is submitted or confirmed. */
  ghost predicate WellNumbered(rows: map<RelayId, RelayTransaction>) {
    && (forall k | k in rows :: 1 <= rows[k].relayAttempt <= |rows|)
    && (forall j, k | j in rows && k in rows && j != k :: rows[j].relayAttempt != rows[k].relayAttempt)
    && (forall j, k | j in rows && k in rows && ActiveRelay(rows[j].status) && ActiveRelay(rows[k].status) :: j == k)
  }

  /** How the API numbers a new attempt: one past the highest number in use. */
  ghost predicate IsHighestAttempt(rows: map<RelayId, RelayTransaction>, n: nat) {
    && (forall k | k in rows :: rows[k].relayAttempt <= n)
    && (if rows == map[] then n == 0 else exists k | k in rows :: rows[k].relayAttempt == n)
  }

  /** On a well-numbered request every number 1..n is used. */
  lemma {:induction false} EveryAttemptUsed(rows: map<RelayId, RelayTransaction>, keys: set<RelayId>, bound: nat)
    requires keys <= rows.Keys
    requires forall k | k in keys :: 1 <= rows[k].relayAttempt <= bound
    requires forall j, k | j in keys && k in keys && j != k :: rows[j].relayAttempt != rows[k].relayAttempt
    ensures |keys| <= bound
    ensures |keys| == bound > 0 ==> exists k | k in keys :: rows[k].relayAttempt == bound
    decreases bound
  {
    if bound == 0 {
      if k :| k in keys { assert false; }
    } else if k :| k in keys && rows[k].relayAttempt == bound {
      EveryAttemptUsed(rows, keys - {k}, bound - 1);
    } else {
      EveryAttemptUsed(rows, keys, bound - 1);
    }
  }

  /** The API's max+1 and the worker's count+1 agree on every well-numbered request. */
  lemma NumberingsAgree(rows: map<RelayId, RelayTransaction>, highest: nat)
    requires WellNumbered(rows) && IsHighestAttempt(rows, highest)
    ensures highest + 1 == |rows| + 1
  {
    EveryAttemptUsed(rows, rows.Keys, |rows|);
    assert |rows.Keys| == |rows|;
    if rows == map[] {
    } else {
      var k :| k in rows && rows[k].relayAttempt == |rows|;
      var j :| j in rows && rows[j].relayAttempt == highest;
    }
  }

  /** Adding the next attempt keeps the numbering, if no other row is active. */
  lemma NextAttemptKeepsNumbering(rows: map<RelayId, RelayTransaction>, k: RelayId, row: RelayTransaction)
    requires WellNumbered(rows) && k !in rows && row.relayAttempt == |rows| + 1
    requires forall j | j in rows :: !ActiveRelay(rows[j].status)
    ensures WellNumbered(rows[k := row])
  {
    assert |rows[k := row]| == |rows| + 1;
  }
}
