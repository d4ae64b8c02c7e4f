/** What one whole `processRequest` can and cannot do to the tables. */
module ProcessTheorems {
  import opened Wrappers
  import opened Tables
  import opened Lifecycle
  import opened Processor

  function Min(x: nat, y: nat): nat {
    if x < y then x else y
  }

  /** The request's own rows after a commit. */
  function RowAfter(s: Slice, w: Writes): SponsorshipRequest {
    if w.request.Some? then w.request.value else s.request
  }

  function RelaysAfter(s: Slice, w: Writes): map<RelayId, RelayTransaction> {
    if w.relay.Some? then s.relays[w.relay.value.id := w.relay.value.row] else s.relays
  }

  /**
   The shape of every commit: either nothing is written, or the request ends in a terminal status;
   the wallet is counted exactly when the request completes; a relay row is written already settled,
   numbered one past the rows that exist, and only below both retry limits.
   */
  ghost predicate WellShaped(id: RequestId, s: Slice, env: Env, w: Writes) {
    && (w.request.None? ==> w == NO_WRITES)
    && (w.request.Some? ==>
          && Processable(s.request.status) && Terminal(w.request.value.status)
          && w.request.value.walletId == s.request.walletId
          && w.request.value.requestedAt == s.request.requestedAt)
    && (w.increment <==> w.request.Some? && w.request.value.status == Completed)
    && (w.increment ==> s.wallet.Some?)
    && (w.relay.Some? ==>
          && w.request.Some? && w.request.value.status != Rejected
          && w.relay.value.id == env.relayId
          && w.relay.value.row.sponsorshipRequestId == id
          && w.relay.value.row.relayAttempt == |s.relays| + 1 <= Min(env.maxRetries, DEFAULT_MAX_RELAY_ATTEMPTS)
          && w.relay.value.row.status == (if w.increment then Confirmed else RelayFailed)
          && (w.increment <==> CountsAsSuccess(env.result))
          && Active(s.relays) == {})
    && (w.request.Some? && w.relay.None? && w.request.value.status != Rejected ==> s.request.status == Relayed)
    && (w.increment && w.relay.None? ==> env.pick in s.relays && s.relays[env.pick].status == Confirmed)
  }

  lemma CommitIsWellShaped(id: RequestId, s: Slice, env: Env)
    requires PickIsActive(s, env)
    ensures ProcessSlice(id, s, env).Commit? ==> WellShaped(id, s, env, ProcessSlice(id, s, env).writes)
  {
  }

  /**
   Exactly when one processing attempt ends with the request in a terminal status that it was not
   in before. The attempt's only other possibilities are to skip or to roll back.
   */
  ghost predicate CanFinish(s: Slice, env: Env)
    requires PickIsActive(s, env)
  {
    var status, n := s.request.status, |s.relays|;
    && Processable(status)
    && (if status == Pending && s.wallet == Some(true) then true
        else if Active(s.relays) != {} then
          status == Relayed && s.relays[env.pick].status == Confirmed && s.wallet.Some?
        else if n >= env.maxRetries then status == Relayed
        else n < DEFAULT_MAX_RELAY_ATTEMPTS && (CountsAsSuccess(env.result) ==> s.wallet.Some?))
  }

  lemma FinishesExactly(id: RequestId, s: Slice, env: Env)
    requires PickIsActive(s, env)
    ensures (ProcessSlice(id, s, env).Commit? && ProcessSlice(id, s, env).writes.request.Some?) <==> CanFinish(s, env)
  {
  }

  lemma InstallRelays(db: Db, id: RequestId, w: Writes, other: RequestId)
    requires id in db.requests
    requires w.relay.Some? ==> w.relay.value.id !in db.relays && w.relay.value.row.sponsorshipRequestId == id
    ensures RelaysOf(Install(db, id, w).relays, other) ==
            if other == id then RelaysAfter(SliceOf(db, id), w) else RelaysOf(db.relays, other)
  {
  }

  /** Committing changes nobody else's slice, and its own exactly as written. */
  lemma InstallSlices(db: Db, id: RequestId, w: Writes, other: RequestId)
    requires id in db.requests && other in db.requests
    requires w.relay.Some? ==> w.relay.value.id !in db.relays && w.relay.value.row.sponsorshipRequestId == id
    requires w.request.Some? ==> w.request.value.walletId == db.requests[id].walletId
    ensures var s := SliceOf(db, other);
      SliceOf(Install(db, id, w), other) ==
        if other == id then Slice(RowAfter(s, w), RelaysAfter(s, w), s.wallet) else s
  {
    InstallRelays(db, id, w, other);
  }

  /**
   One `processRequest`, on any tables at all: other requests keep their rows, their relay rows and
   their status; a terminal request is never touched; the wallet's count grows by one exactly when
   this call completes the request, and every other wallet is untouched.
   */
  lemma ProcessEffects(db: Db, id: RequestId, env: Env)
    requires EnvFits(db, id, env)
    ensures var db' := Process(db, id, env).0;
      && db'.requests.Keys == db.requests.Keys && db'.wallets.Keys == db.wallets.Keys
      && (forall r | r in db.requests && (r != id || Terminal(db.requests[r].status)) ::
            db'.requests[r] == db.requests[r] && RelaysOf(db'.relays, r) == RelaysOf(db.relays, r))
      && (forall w | w in db.wallets ::
            db'.wallets[w] ==
              if id in db.requests && w == db.requests[id].walletId
                 && db.requests[id].status != Completed && db'.requests[id].status == Completed
              then Incremented(db.wallets[w]) else db.wallets[w])
  {
    if id in db.requests {
      var s := SliceOf(db, id);
      CommitIsWellShaped(id, s, env);
      match ProcessSlice(id, s, env)
      case Rollback =>
      case Commit(w, _) =>
        forall r | r in db.requests
          ensures RelaysOf(Install(db, id, w).relays, r)
                  == if r == id then RelaysAfter(s, w) else RelaysOf(db.relays, r)
        {
          InstallRelays(db, id, w, r);
        }
    }
  }

  /** Attempts stay numbered 1..n with at most one active row, and no call pushes n past either retry limit. */
  lemma ProcessKeepsNumbering(db: Db, id: RequestId, env: Env, r: RequestId)
    requires EnvFits(db, id, env) && r in db.requests
    requires WellNumbered(RelaysOf(db.relays, r))
    ensures var db' := Process(db, id, env).0;
      && WellNumbered(RelaysOf(db'.relays, r))
      && RetryCount(db, r) <= RetryCount(db', r)
      && (RetryCount(db', r) > RetryCount(db, r) ==>
            RetryCount(db', r) <= Min(env.maxRetries, DEFAULT_MAX_RELAY_ATTEMPTS))
  {
    ProcessEffects(db, id, env);
    if id in db.requests && r == id {
      var s := SliceOf(db, id);
      CommitIsWellShaped(id, s, env);
      match ProcessSlice(id, s, env)
      case Rollback =>
      case Commit(w, _) =>
        InstallRelays(db, id, w, id);
        if w.relay.Some? {
          assert forall j | j in s.relays :: j !in Active(s.relays);
          NextAttemptKeepsNumbering(s.relays, env.relayId, w.relay.value.row);
        }
    }
  }

  /**
   Three failed attempts under a larger configured limit: the transition to failed is never tried
   and the fourth row is refused, so every call, whatever the chain answers, throws and changes nothing.
   */
  lemma StuckWhenLimitsDisagree(db: Db, id: RequestId, env: Env)
    requires EnvFits(db, id, env) && id in db.requests
    requires db.requests[id].status == Relayed && Active(RelaysOf(db.relays, id)) == {}
    ensures DEFAULT_MAX_RELAY_ATTEMPTS <= RetryCount(db, id) < env.maxRetries
            ==> Process(db, id, env) == (db, EXCEPTION)
    ensures DEFAULT_MAX_RELAY_ATTEMPTS <= RetryCount(db, id) && RetryCount(db, id) >= env.maxRetries ==>
              Process(db, id, env).0.requests[id].status == Failed
  {
  }

  // ---------------------------------------------------------------- timestamps

  /** The four clock readings of one attempt, taken in this order, the last no later than `now`. */
  predicate ReadInOrder(env: Env, now: Time) {
    env.movedAt <= env.submittedAt <= env.settledAt <= env.finishedAt <= now
  }

  lemma MoveRelayKeepsRecord(row: RelayTransaction, status: RelayStatus, data: RelayData, now: Time)
    requires RelayRecord(row) && NotAfter(row.submittedAt, Some(now))
    requires row.status == Queued ==> status == Submitted
    ensures var r := MoveRelay(row, status, data, now); r.Some? ==> RelayRecord(r.value)
  {
  }

  lemma SettleKeepsRecords(s: Slice, row: SponsorshipRequest, relay: RelayWrite, env: Env, now: Time)
    requires RequestRecord(row) && RequestBefore(row, env.movedAt) && ReadInOrder(env, now)
    requires RelayRecord(relay.row) && relay.row.status == Submitted && relay.row.submittedAt == Some(env.submittedAt)
    ensures match Settle(s, row, relay, env)
            case Rollback => true
            case Commit(w, _) =>
              && w.request.Some? && RequestRecord(w.request.value) && RequestBefore(w.request.value, now)
              && KeepsTimestamps(row, w.request.value)
              && w.relay.Some? && RelayRecord(w.relay.value.row)
  {
    var status := if CountsAsSuccess(env.result) then Confirmed else RelayFailed;
    var data := if CountsAsSuccess(env.result) then ConfirmData(env.result)
                else NO_DATA.(failureReason := env.result.failureReason);
    MoveRelayKeepsRecord(relay.row, status, data, env.settledAt);
    MoveKeepsRecord(row, if CountsAsSuccess(env.result) then Completed else Failed, env.finishedAt);
  }

  ghost predicate KeepsRecords(s: Slice, o: Outcome, now: Time) {
    o.Commit? ==>
      && RequestRecord(RowAfter(s, o.writes)) && RequestBefore(RowAfter(s, o.writes), now)
      && KeepsTimestamps(s.request, RowAfter(s, o.writes))
      && (o.writes.relay.Some? ==> RelayRecord(o.writes.relay.value.row))
  }

  lemma AttemptKeepsRecords(id: RequestId, s: Slice, env: Env, now: Time)
    requires ReadInOrder(env, now) && Processable(s.request.status)
    requires RequestRecord(s.request) && RequestBefore(s.request, env.movedAt)
    ensures KeepsRecords(s, Attempt(id, s, env), now)
  {
    var queued := NewRelay(id, |s.relays| + 1);
    MoveRelayKeepsRecord(queued, Submitted, NO_DATA, env.submittedAt);
    SettleKeepsRecords(s, MarkRelayed(s.request, env.movedAt).value,
                       RelayWrite(env.relayId, MoveRelay(queued, Submitted, NO_DATA, env.submittedAt).value), env, now);
  }

  /**
   With a clock that never runs backwards, records stay records and set timestamps are never
   overwritten. Only an attempt that reached the relay reads the clock more than once.
   */
  lemma ProcessKeepsRecords(id: RequestId, s: Slice, env: Env, now: Time)
    requires PickIsActive(s, env) && env.movedAt <= now
    requires ProcessSlice(id, s, env).Commit? && ProcessSlice(id, s, env).writes.relay.Some? ==> ReadInOrder(env, now)
    requires RequestRecord(s.request) && RequestBefore(s.request, env.movedAt)
    ensures KeepsRecords(s, ProcessSlice(id, s, env), now)
  {
    if Processable(s.request.status) {
      if ReadInOrder(env, now) {
        AttemptKeepsRecords(id, s, env, now);
      }
      MoveKeepsRecord(s.request, Rejected, env.movedAt);
      MoveKeepsRecord(s.request, Completed, env.movedAt);
      MoveKeepsRecord(s.request, Failed, env.movedAt);
    }
  }
}
