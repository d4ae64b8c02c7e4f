/**
 What a transaction's commit leaves in the tables, column by column, told by what it found and by what
 the relay executor answered.
 */
module Outcomes {
  import opened Wrappers
  import opened Tables
  import opened Lifecycle
  import opened ContractClient
  import opened Processor
  import opened ProcessTheorems
  import opened ErrorTexts

  // ---------------------------------------------------------------- which answers mean success

  /** A success receipt, or a failure that is recognised as AlreadySponsored. */
  predicate MeansSuccess(answer: RelayAnswer) {
    || answer.Mined?
    || (answer.Threw? && LooksAlreadySponsored(answer.error))
    || (answer.LookupThrew? && StartsWith(answer.message, ALREADY_SPONSORED))
  }

  lemma SuccessExactly(answer: RelayAnswer)
    ensures CountsAsSuccess(ExecuteRelay(answer)) <==> MeansSuccess(answer)
  {
    if answer.Threw? {
      RecognisedExactly(answer.error, answer.broadcastHash);
    } else {
      OtherAnswersNotRecognised(answer);
    }
    hide IsAlreadySponsoredError, LooksAlreadySponsored, HandleExecutionError, TruncateReason;
  }

  // ---------------------------------------------------------------- the relay row

  /** Present: not null, and not the empty string either, which is stored as null. */
  predicate Stored(column: Option<string>, text: string) {
    column == if text == "" then None else Some(text)
  }

  predicate NothingStored(row: RelayTransaction) {
    && row.transactionHash == None && row.blockNumber == None && row.eventName == None && row.eventData == None
    && row.explorerUrl == None
  }

  /** The failure reason as it is stored. */
  predicate ReasonStored(column: Option<string>, answer: RelayAnswer) {
    match answer
    case Mined(_, _, _, _) => column == None
    case RevertedOnChain(_, _) => column == Some("Transaction reverted on-chain")
    case Threw(e, _) => Stored(column, TruncateReason(HandleExecutionError(e)))
    case DeadlinePassed => column == Some("Transaction confirmation timeout")
    case NotInitialized => column == Some(NOT_INITIALIZED)
    case NoClient => column == Some(NO_CLIENT)
    case RequestMissing(text) => column == Some("Sponsorship request not found: " + text)
    case LookupThrew(message) => Stored(column, message)
  }

  /**
   A confirmed row holds the hash, and for a mined transfer its block, explorer link and event; it has no
   failure reason. A failed row holds its reason, and nothing else.
   */
  predicate TellsOf(row: RelayTransaction, answer: RelayAnswer) {
    if answer.Mined? then
      && row.status == Confirmed && row.failureReason == None
      && Stored(row.transactionHash, answer.hash) && row.blockNumber == Some(answer.blockNumber)
      && row.eventName == Some("SponsorshipGranted") && row.eventData == answer.eventData
      && row.explorerUrl == Some(answer.explorerUrl)
    else if MeansSuccess(answer) then
      && row.status == Confirmed && row.failureReason == None
      && NothingStored(row.(transactionHash := None))
      && (if answer.Threw? && answer.broadcastHash.Some? then Stored(row.transactionHash, answer.broadcastHash.value)
          else row.transactionHash == None)
    else row.status == RelayFailed && NothingStored(row) && ReasonStored(row.failureReason, answer)
  }

  /** The clock readings of the attempt are the row's timestamps. */
  predicate RelayStamped(row: RelayTransaction, env: Env) {
    && row.submittedAt == Some(env.submittedAt)
    && row.confirmedAt == (if row.status == Confirmed then Some(env.settledAt) else None)
    && row.failedAt == (if row.status == RelayFailed then Some(env.settledAt) else None)
  }

  /** What the executor's result carries, for each answer. */
  predicate ResultCarries(r: RelayResult, answer: RelayAnswer) {
    match answer
    case Mined(hash, block, url, event) =>
      r.success && r.transactionHash == Some(hash) && r.blockNumber == Some(block) && r.explorerUrl == Some(url)
      && r.eventData == event
    case _ =>
      && !r.success && r.failureReason.Some? && ReasonStored(Truthy(r.failureReason), answer)
      && (MeansSuccess(answer) ==>
            && r.blockNumber == None && r.explorerUrl == None
            && r.transactionHash == if answer.Threw? then answer.broadcastHash else None)
  }

  lemma AnswerTells(answer: RelayAnswer)
    ensures ResultCarries(ExecuteRelay(answer), answer)
  {
    TruncationIs("Transaction reverted on-chain");
    hide TruncateReason, HandleExecutionError, LooksAlreadySponsored, StartsWith;
  }

  lemma SettledRelayStamped(id: RequestId, s: Slice, env: Env)
    requires PickIsActive(s, env) && ProcessSlice(id, s, env).Commit?
    requires ProcessSlice(id, s, env).writes.relay.Some?
    ensures RelayStamped(ProcessSlice(id, s, env).writes.relay.value.row, env)
  {
    hide CountsAsSuccess, ConfirmData, Active, MarkRelayed;
  }

  /** Of every commit of an attempt that was told this answer. */
  lemma SettledRowTells(id: RequestId, s: Slice, env: Env, answer: RelayAnswer)
    requires PickIsActive(s, env) && ProcessSlice(id, s, env).Commit? && env.result == ExecuteRelay(answer)
    requires ProcessSlice(id, s, env).writes.relay.Some?
    ensures var w := ProcessSlice(id, s, env).writes;
      && w.relay.value.id == env.relayId && w.relay.value.row.sponsorshipRequestId == id
      && w.relay.value.row.relayAttempt == |s.relays| + 1
      && TellsOf(w.relay.value.row, answer) && RelayStamped(w.relay.value.row, env)
      && w.request.Some? && w.request.value.status == (if MeansSuccess(answer) then Completed else Failed)
  {
    SuccessExactly(answer);
    AnswerTells(answer);
    SettledRelayStamped(id, s, env);
    hide CountsAsSuccess, ExecuteRelay, TruncateReason, HandleExecutionError, Active, LooksAlreadySponsored, StartsWith;
  }

  // ---------------------------------------------------------------- the request row

  /** What a commit leaves of the request: these columns, stamped with the attempt's clock readings. */
  predicate RequestTells(row: SponsorshipRequest, row': SponsorshipRequest, env: Env, attempted: bool) {
    && row'.walletId == row.walletId && row'.requestedAt == row.requestedAt
    && row'.eligibilityReason == (if row'.status == Rejected then Some("Wallet is blocked") else row.eligibilityReason)
    && row'.approvedAt == (if attempted && row.status == Pending then Some(env.movedAt) else row.approvedAt)
    && row'.rejectedAt == (if row'.status == Rejected then Some(env.movedAt) else row.rejectedAt)
    && row'.completedAt == (if row'.status != Completed then row.completedAt
                            else Some(if attempted then env.finishedAt else env.movedAt))
    && row'.failedAt == (if row'.status != Failed then row.failedAt
                         else Some(if attempted then env.finishedAt else env.movedAt))
  }

  lemma SettledRequestTells(id: RequestId, s: Slice, env: Env)
    requires PickIsActive(s, env) && ProcessSlice(id, s, env).Commit?
    ensures var w := ProcessSlice(id, s, env).writes;
      && (w.request.Some? ==> RequestTells(s.request, w.request.value, env, w.relay.Some?))
      && (w.request.Some? && w.request.value.status == Rejected <==>
            s.request.status == Pending && s.wallet == Some(true))
  {
    hide CountsAsSuccess, WithData, Active, ConfirmData;
  }

  // ---------------------------------------------------------------- what the worker is told

  /** The picked active row is submitted, so the request is in flight. */
  predicate InFlightElsewhere(s: Slice, env: Env) {
    && s.request.status in {Pending, Relayed} && !(s.request.status == Pending && s.wallet == Some(true))
    && env.pick in s.relays && s.relays[env.pick].status == Submitted
  }

  lemma ResultOfSlice(id: RequestId, s: Slice, env: Env)
    requires PickIsActive(s, env)
    ensures match ProcessSlice(id, s, env)
            case Rollback => !InFlightElsewhere(s, env) && s.request.status in {Pending, Relayed}
            case Commit(w, result) =>
              && result.success && result.note != Exception
              && (result.note == NoNote <==> w.request.Some?)
              && (w.request.Some? ==> result.finalStatus == w.request.value.status)
              && (w.request.None? ==> w == NO_WRITES && result.finalStatus == s.request.status)
              && (result.note == NotProcessable <==> s.request.status !in {Pending, Relayed})
              && (result.note == ActiveRelayExists <==> InFlightElsewhere(s, env))
  {
    assert forall k | k in s.relays && ActiveRelay(s.relays[k].status) :: k in Active(s.relays);
    CommitIsWellShaped(id, s, env);
    hide CountsAsSuccess, WithData, ConfirmData;
  }

  /** The worker's answer says what has become of the request; a missing one is skipped without an error. */
  lemma ResultTells(db: Db, id: RequestId, env: Env)
    requires EnvFits(db, id, env)
    ensures id !in db.requests ==> Process(db, id, env) == (db, ProcessResult(true, Pending, NotFoundOrLocked))
    ensures id in db.requests ==>
      var db', result := Process(db, id, env).0, Process(db, id, env).1;
      && (result.success <==> result.note != Exception)
      && (result.note != NoNote ==> db' == db)
      && (result.note == NoNote ==> Terminal(db'.requests[id].status) && !Terminal(db.requests[id].status))
      && (result.success ==> result.finalStatus == db'.requests[id].status)
      && (result.note == NotProcessable <==> db.requests[id].status !in {Pending, Relayed})
      && (result.note == ActiveRelayExists <==> InFlightElsewhere(SliceOf(db, id), env))
  {
    if id in db.requests {
      ResultOfSlice(id, SliceOf(db, id), env);
      CommitIsWellShaped(id, SliceOf(db, id), env);
      hide ProcessSlice, InFlightElsewhere;
    }
  }
}
