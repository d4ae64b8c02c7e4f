/**
 `processRequest`: one request taken through one database transaction. `ProcessSlice` says what
 the transaction writes, given the rows it reads; `ProcessRequest` is the worker's procedure over
 the store, proved to write exactly that and to leave no trace when it throws.
 */
module Processor {
  import opened Wrappers
  import opened Tables
  import opened Lifecycle
  import opened ContractClient

  /** What the outside world supplies while one request is processed. */
  datatype Env = Env(
    maxRetries: nat,
    pick: RelayId,         // which active relay row an unordered query returns
    relayId: RelayId,      // the generated key of a new relay row
    result: RelayResult,   // what the relay executor returned
    movedAt: Time,         // clock when the request first moves
    submittedAt: Time,     // clock when the relay row is submitted
    settledAt: Time,       // clock when the relay row is confirmed or failed
    finishedAt: Time       // clock when the request completes or fails
  )

  /** The rows a transaction on one request reads. `wallet` is its blocked flag, if the row exists. */
  datatype Slice = Slice(
    request: SponsorshipRequest,
    relays: map<RelayId, RelayTransaction>,
    wallet: Option<bool>
  )

  /** The rows a transaction writes: at most its request, one relay row and one increment. */
  datatype Writes = Writes(request: Option<SponsorshipRequest>, relay: Option<RelayWrite>, increment: bool)

  datatype RelayWrite = RelayWrite(id: RelayId, row: RelayTransaction)

  datatype Note = NoNote | NotFoundOrLocked | NotProcessable | ActiveRelayExists | Exception

  datatype ProcessResult = ProcessResult(success: bool, finalStatus: SponsorshipStatus, note: Note)

  datatype Outcome = Commit(writes: Writes, result: ProcessResult) | Rollback

  const NO_WRITES := Writes(None, None, false)

  const EXCEPTION := ProcessResult(false, Pending, Exception)

  const SKIPPED := ProcessResult(true, Pending, NotFoundOrLocked)

  function Active(relays: map<RelayId, RelayTransaction>): set<RelayId> {
    set k | k in relays && ActiveRelay(relays[k].status)
  }

  function SliceOf(db: Db, id: RequestId): Slice
    requires id in db.requests
  {
    var row := db.requests[id];
    Slice(row, RelaysOf(db.relays, id),
          if row.walletId in db.wallets then Some(db.wallets[row.walletId].isBlocked) else None)
  }

  /** `findFirst` returns some matching row when there is one. */
  predicate PickIsActive(s: Slice, env: Env) {
    Active(s.relays) != {} ==> env.pick in Active(s.relays)
  }

  function Done(status: SponsorshipStatus): ProcessResult {
    ProcessResult(true, status, NoNote)
  }

  /** The data stored with a confirmed relay row. */
  function ConfirmData(r: RelayResult): RelayData {
    if r.success then
      RelayData(r.transactionHash, None, Some(r.blockNumber), Some(Some("SponsorshipGranted")), Some(r.eventData),
                Some(r.explorerUrl))
    else
      RelayData(r.transactionHash, None, Some(r.blockNumber), None, None, Some(r.explorerUrl))
  }

  predicate CountsAsSuccess(r: RelayResult) {
    r.success || IsAlreadySponsoredError(r.failureReason)
  }

  function Processable(status: SponsorshipStatus): bool {
    status in {Pending, Relayed}
  }

  /** The transition to completed and the increment of the wallet's count, which go together. */
  function Complete(s: Slice, row: SponsorshipRequest, relay: Option<RelayWrite>, now: Time): Outcome {
    match MoveRequest(row, Completed, now)
    case None => Rollback
    case Some(completed) =>
      if s.wallet.None? then Rollback else Commit(Writes(Some(completed), relay, true), Done(Completed))
  }

  function Fail(row: SponsorshipRequest, relay: Option<RelayWrite>, now: Time): Outcome {
    match MoveRequest(row, Failed, now)
    case None => Rollback
    case Some(failed) => Commit(Writes(Some(failed), relay, false), Done(Failed))
  }

  /** The request row once it stands at `Relayed`, ready for a new attempt. */
  function MarkRelayed(row: SponsorshipRequest, now: Time): Option<SponsorshipRequest> {
    if row.status == Pending then
      match MoveRequest(row, Approved, now)
      case None => None
      case Some(approved) => MoveRequest(approved, Relayed, now)
    else Some(row)
  }

  /** The last part of the transaction, after the relay executor has answered. */
  function Settle(s: Slice, row: SponsorshipRequest, relay: RelayWrite, env: Env): Outcome {
    var result := env.result;
    if CountsAsSuccess(result) then
      match MoveRelay(relay.row, Confirmed, ConfirmData(result), env.settledAt)
      case None => Rollback
      case Some(confirmed) => Complete(s, row, Some(RelayWrite(relay.id, confirmed)), env.finishedAt)
    else
      match MoveRelay(relay.row, RelayFailed, NO_DATA.(failureReason := result.failureReason), env.settledAt)
      case None => Rollback
      case Some(failed) => Fail(row, Some(RelayWrite(relay.id, failed)), env.finishedAt)
  }

  /** One relay attempt: a new row, submitted, and settled by the executor's answer. */
  function Attempt(id: RequestId, s: Slice, env: Env): Outcome {
    if |s.relays| >= DEFAULT_MAX_RELAY_ATTEMPTS then Rollback
    else
      match (MarkRelayed(s.request, env.movedAt),
             MoveRelay(NewRelay(id, |s.relays| + 1), Submitted, NO_DATA, env.submittedAt))
      case (Some(row), Some(relay)) => Settle(s, row, RelayWrite(env.relayId, relay), env)
      case _ => Rollback
  }

  function ProcessSlice(id: RequestId, s: Slice, env: Env): Outcome
    requires PickIsActive(s, env)
  {
    var row := s.request;
    if !Processable(row.status) then
      Commit(NO_WRITES, ProcessResult(true, row.status, NotProcessable))
    else if row.status == Pending && s.wallet == Some(true) then
      match MoveRequest(row, Rejected, env.movedAt)
      case None => Rollback
      case Some(rejected) =>
        Commit(Writes(Some(rejected.(eligibilityReason := Some("Wallet is blocked"))), None, false), Done(Rejected))
    else if Active(s.relays) != {} then
      if s.relays[env.pick].status == Confirmed then Complete(s, row, None, env.movedAt)
      else Commit(NO_WRITES, ProcessResult(true, row.status, ActiveRelayExists))
    else if |s.relays| >= env.maxRetries then Fail(row, None, env.movedAt)
    else Attempt(id, s, env)
  }

  /** What committing a transaction's writes does to the tables. */
  function Install(db: Db, id: RequestId, w: Writes): Db
    requires id in db.requests
  {
    var walletId := db.requests[id].walletId;
    Db(if w.request.Some? then db.requests[id := w.request.value] else db.requests,
       if w.relay.Some? then db.relays[w.relay.value.id := w.relay.value.row] else db.relays,
       if w.increment && walletId in db.wallets then db.wallets[walletId := Incremented(db.wallets[walletId])]
       else db.wallets)
  }

  predicate EnvFits(db: Db, id: RequestId, env: Env) {
    && env.relayId !in db.relays
    && (id in db.requests ==> PickIsActive(SliceOf(db, id), env))
  }

  /** One whole `processRequest` on an unlocked row: the new tables, and what the worker is told. */
  function Process(db: Db, id: RequestId, env: Env): (Db, ProcessResult)
    requires EnvFits(db, id, env)
  {
    if id !in db.requests then (db, SKIPPED)
    else
      match ProcessSlice(id, SliceOf(db, id), env)
      case Commit(writes, result) => (Install(db, id, writes), result)
      case Rollback => (db, EXCEPTION)
  }

  // ---------------------------------------------------------------- the worker's procedure

  /** The body of the transaction. `None` is a thrown exception. */
  method RunTransaction(store: Store, id: RequestId, lockedElsewhere: bool, env: Env)
      returns (result: Option<ProcessResult>)
    requires EnvFits(store.State(), id, env)
    modifies store
    ensures lockedElsewhere ==> store.State() == old(store.State()) && result == Some(SKIPPED)
    ensures !lockedElsewhere && result.Some? ==> (store.State(), result.value) == Process(old(store.State()), id, env)
    ensures !lockedElsewhere && result.None? ==> Process(old(store.State()), id, env) == (old(store.State()), EXCEPTION)
  {
    ghost var before := store.State();
    if lockedElsewhere || id !in store.requests {
      return Some(SKIPPED);
    }
    ghost var slice := SliceOf(before, id);
    var currentStatus := store.requests[id].status;
    var walletId := store.requests[id].walletId;
    if !Processable(currentStatus) {
      return Some(ProcessResult(true, currentStatus, NotProcessable));
    }
    var isBlocked := walletId in store.wallets && store.wallets[walletId].isBlocked;
    if currentStatus == Pending && isBlocked {
      var _ := store.TransitionSponsorshipStatus(id, Rejected, env.movedAt);
      store.requests := store.requests[id := store.requests[id].(eligibilityReason := Some("Wallet is blocked"))];
      assert store.State() == Process(before, id, env).0;
      return Some(Done(Rejected));
    }

    var rows := RelaysOf(store.relays, id);
    if Active(rows) != {} {
      if rows[env.pick].status == Confirmed {
        var completed := store.TransitionSponsorshipStatus(id, Completed, env.movedAt);
        if !completed.Success? { return None; }
        var counted := store.IncrementSponsorshipCount(walletId);
        if !counted { return None; }
        return Some(Done(Completed));
      }
      return Some(ProcessResult(true, currentStatus, ActiveRelayExists));
    }

    var retryCount := store.GetRetryCount(id);
    if retryCount >= env.maxRetries {
      var failed := store.TransitionSponsorshipStatus(id, Failed, env.movedAt);
      if !failed.Success? { return None; }
      return Some(Done(Failed));
    }

    result := RunAttempt(store, id, currentStatus, env);
  }

  /** The second half: put the request and a new relay row in flight, relay, and settle. */
  method RunAttempt(store: Store, id: RequestId, currentStatus: SponsorshipStatus, env: Env)
      returns (result: Option<ProcessResult>)
    requires id in store.requests && currentStatus == store.requests[id].status && Processable(currentStatus)
    requires env.relayId !in store.relays
    modifies store
    ensures match Attempt(id, SliceOf(old(store.State()), id), env)
            case Commit(writes, r) => result == Some(r) && store.State() == Install(old(store.State()), id, writes)
            case Rollback => result == None
  {
    ghost var before := store.State();
    var inFlight := RunSubmission(store, id, currentStatus, env);
    if !inFlight { return None; }
    InstallOver(before, store.State(), id, env.relayId);
    result := RunSettlement(store, id, SliceOf(before, id), env);
  }

  /** Approve if needed, create the relay row and submit it. */
  method RunSubmission(store: Store, id: RequestId, currentStatus: SponsorshipStatus, env: Env) returns (inFlight: bool)
    requires id in store.requests && currentStatus == store.requests[id].status && Processable(currentStatus)
    requires env.relayId !in store.relays
    modifies store
    ensures store.wallets == old(store.wallets)
    ensures inFlight ==>
              && RetryCount(old(store.State()), id) < DEFAULT_MAX_RELAY_ATTEMPTS
              && id in store.requests && env.relayId in store.relays
              && store.requests == old(store.requests)[id := store.requests[id]]
              && store.relays == old(store.relays)[env.relayId := store.relays[env.relayId]]
              && MarkRelayed(old(store.requests)[id], env.movedAt) == Some(store.requests[id])
              && MoveRelay(NewRelay(id, RetryCount(old(store.State()), id) + 1), Submitted, NO_DATA, env.submittedAt)
                 == Some(store.relays[env.relayId])
    ensures !inFlight ==> RetryCount(old(store.State()), id) >= DEFAULT_MAX_RELAY_ATTEMPTS
  {
    if currentStatus == Pending {
      var approved := store.TransitionSponsorshipStatus(id, Approved, env.movedAt);
      if !approved.Success? { return false; }
    }
    var attempt := store.CreateRelayTransaction(id, env.relayId);
    if attempt.None? { return false; }
    if currentStatus == Pending {
      var relayed := store.TransitionSponsorshipStatus(id, Relayed, env.movedAt);
      if !relayed.Success? { return false; }
    }
    var submitted := store.UpdateRelayTransaction(env.relayId, Submitted, NO_DATA, env.submittedAt);
    inFlight := submitted.Success?;
  }

  /** Settling rows that were already changed overwrites them: the first change leaves no trace of its own. */
  lemma InstallOver(before: Db, mid: Db, id: RequestId, relayId: RelayId)
    requires id in before.requests && id in mid.requests && relayId in mid.relays
    requires mid.requests == before.requests[id := mid.requests[id]]
    requires mid.relays == before.relays[relayId := mid.relays[relayId]]
    requires mid.wallets == before.wallets && mid.requests[id].walletId == before.requests[id].walletId
    ensures forall row, relay, inc ::
              var w := Writes(Some(row), Some(RelayWrite(relayId, relay)), inc);
              Install(mid, id, w) == Install(before, id, w)
  {
    forall row, relay, inc
      ensures var w := Writes(Some(row), Some(RelayWrite(relayId, relay)), inc);
              Install(mid, id, w) == Install(before, id, w)
    {
      assert mid.requests[id := row] == before.requests[id := row];
      assert mid.relays[relayId := relay] == before.relays[relayId := relay];
    }
  }

  method RunSettlement(store: Store, id: RequestId, ghost slice: Slice, env: Env)
      returns (result: Option<ProcessResult>)
    requires id in store.requests && env.relayId in store.relays
    requires slice.wallet.Some? <==> store.requests[id].walletId in store.wallets
    modifies store
    ensures match Settle(slice, old(store.requests)[id], RelayWrite(env.relayId, old(store.relays)[env.relayId]), env)
            case Commit(writes, r) => result == Some(r) && store.State() == Install(old(store.State()), id, writes)
            case Rollback => result == None
  {
    var relay := env.result;
    if CountsAsSuccess(relay) {
      var confirmed := store.UpdateRelayTransaction(env.relayId, Confirmed, ConfirmData(relay), env.settledAt);
      if !confirmed.Success? { return None; }
      var completed := store.TransitionSponsorshipStatus(id, Completed, env.finishedAt);
      if !completed.Success? { return None; }
      var counted := store.IncrementSponsorshipCount(store.requests[id].walletId);
      if !counted { return None; }
      return Some(Done(Completed));
    }
    var failedRelay := store.UpdateRelayTransaction(
      env.relayId, RelayFailed, NO_DATA.(failureReason := relay.failureReason), env.settledAt);
    if !failedRelay.Success? { return None; }
    var failed := store.TransitionSponsorshipStatus(id, Failed, env.finishedAt);
    if !failed.Success? { return None; }
    result := Some(Done(Failed));
  }

  /** The transaction with its rollback: a thrown exception leaves the tables as they were. */
  method ProcessRequest(store: Store, id: RequestId, lockedElsewhere: bool, env: Env) returns (result: ProcessResult)
    requires EnvFits(store.State(), id, env)
    modifies store
    ensures lockedElsewhere ==> store.State() == old(store.State()) && result == SKIPPED
    ensures !lockedElsewhere ==> (store.State(), result) == Process(old(store.State()), id, env)
  {
    var before := store.State();
    var outcome := RunTransaction(store, id, lockedElsewhere, env);
    if outcome.None? {
      store.Restore(before);
      return EXCEPTION;
    }
    result := outcome.value;
  }
}
