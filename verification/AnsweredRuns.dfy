/**
 From an answer to the commit, over every run: what the executor answered decides what the tables hold
 after the commit, and the clock readings in them were taken inside the transaction.
 */
module AnsweredRuns {
  import opened Wrappers
  import opened Tables
  import opened Lifecycle
  import opened ContractClient
  import opened Processor
  import opened Protocol
  import opened Serializability
  import opened Records
  import opened Outcomes

  /** This worker's transaction neither commits nor rolls back. */
  ghost predicate StaysOpen(ls: seq<Label>, worker: WorkerId) {
    forall l | l in ls && (l.CommitTx? || l.AbortTx?) :: l.worker != worker
  }

  /** The worker that makes this step, if one does. */
  predicate IsStepOf(l: Label, worker: WorkerId) {
    (l.Lock? || l.Statement? || l.Broadcast? || l.Answer? || l.CommitTx? || l.AbortTx?) && l.worker == worker
  }

  lemma OthersMovesLeaveWorker(s: State, l: Label, worker: WorkerId)
    requires Enabled(s, l) && worker in s.running && !IsStepOf(l, worker)
    requires l.Lock? || l.Statement? || l.Broadcast? || l.Answer?
    ensures worker in Apply(s, l).running && Apply(s, l).running[worker] == s.running[worker]
  {
    if l.Answer? {
      hide Enabled, Apply;
      AnswerStepIs(s, l);
    } else {
      hide Step, OwnTransfer;
    }
  }

  lemma OthersEndsLeaveWorker(s: State, l: Label, worker: WorkerId)
    requires Enabled(s, l) && worker in s.running && !IsStepOf(l, worker)
    requires l.RegisterWallet? || l.InsertRequest? || l.CommitTx? || l.AbortTx?
    ensures worker in Apply(s, l).running && Apply(s, l).running[worker] == s.running[worker]
  {
    hide Install, Register, OwnTransfer;
  }

  /** Nobody else touches an open transaction. */
  lemma OthersLeaveWorker(s: State, l: Label, worker: WorkerId)
    requires Enabled(s, l) && worker in s.running && !IsStepOf(l, worker)
    ensures worker in Apply(s, l).running && Apply(s, l).running[worker] == s.running[worker]
  {
    hide Enabled, Apply;
    if Elsewhere(l) {
      ElsewhereTouchesNothing(s, l);
    } else if l.Lock? || l.Statement? || l.Broadcast? || l.Answer? {
      OthersMovesLeaveWorker(s, l, worker);
    } else {
      OthersEndsLeaveWorker(s, l, worker);
    }
  }

  lemma StatementIs(s: State, l: Label)
    requires Enabled(s, l) && l.Statement?
    ensures OpenRow(s, l.worker) && AtStatement(s.running[l.worker].pc)
    ensures var tx := s.running[l.worker];
      var slice := SliceOf(s.db, tx.id);
      && (Active(slice.relays) != {} ==> l.pick in Active(slice.relays))
      && Apply(s, l).running == s.running[l.worker := Step(slice, tx, s.clock, l.pick)] && Apply(s, l).clock == s.clock
  {
    hide Step;
  }

  // ---------------------------------------------------------------- told, and then committed

  /** The transaction has been told this result, on this request under this key, and has only to settle. */
  predicate ToldOf(tx: Tx, id: RequestId, key: RelayId, result: RelayResult) {
    && tx.id == id && tx.env.relayId == key && tx.env.result == result
    && (tx.pc.AtSettle? || tx.pc.AtFinish? || tx.pc.AtIncrement? || tx.pc.AtCommit? || tx.pc.Doomed?)
    && (!tx.pc.Doomed? ==> tx.writes.relay.Some?)
  }

  lemma StatementKeepsTold(s: Slice, tx: Tx, now: Time, pick: RelayId)
    requires Active(s.relays) != {} ==> pick in Active(s.relays)
    requires ToldOf(tx, tx.id, tx.env.relayId, tx.env.result)
    ensures ToldOf(Step(s, tx, now, pick), tx.id, tx.env.relayId, tx.env.result)
  {
  }

  lemma OwnStepIsStatement(s: State, l: Label, worker: WorkerId)
    requires Enabled(s, l) && IsStepOf(l, worker) && worker in s.running && !l.CommitTx? && !l.AbortTx?
    requires !s.running[worker].pc.AtExecute? && !s.running[worker].pc.AtReceipt?
    ensures l.Statement?
  {
    hide Step;
  }

  lemma StepKeepsTold(s: State, l: Label, worker: WorkerId, id: RequestId, key: RelayId, result: RelayResult)
    requires Enabled(s, l) && worker in s.running && ToldOf(s.running[worker], id, key, result)
    requires (l.CommitTx? || l.AbortTx?) ==> l.worker != worker
    ensures worker in Apply(s, l).running && ToldOf(Apply(s, l).running[worker], id, key, result)
  {
    hide Enabled, Apply, Step;
    if IsStepOf(l, worker) {
      OwnStepIsStatement(s, l, worker);
      StatementIs(s, l);
      var tx := s.running[worker];
      StatementKeepsTold(SliceOf(s.db, tx.id), tx, s.clock, l.pick);
    } else {
      OthersLeaveWorker(s, l, worker);
    }
  }

  lemma {:induction false} ToldUntilTheEnd(s: State, ls: seq<Label>, worker: WorkerId, id: RequestId, key: RelayId,
                                           result: RelayResult)
    requires Coherent(s) && ValidRun(s, ls) && StaysOpen(ls, worker)
    requires worker in s.running && ToldOf(s.running[worker], id, key, result)
    ensures worker in After(s, ls).running && ToldOf(After(s, ls).running[worker], id, key, result)
    ensures Coherent(After(s, ls))
    decreases |ls|
  {
    hide Coherent, ToldOf, Enabled, Apply;
    if ls != [] {
      var n := |ls| - 1;
      ToldUntilTheEnd(s, ls[..n], worker, id, key, result);
      assert ls[n] in ls;
      StepKeepsTold(After(s, ls[..n]), ls[n], worker, id, key, result);
      StepKeepsCoherence(After(s, ls[..n]), ls[n]);
    }
  }

  lemma AnswerTellsWorker(s: State, worker: WorkerId, answer: RelayAnswer)
    requires Coherent(s) && Enabled(s, Answer(worker, answer))
    ensures OpenRow(s, worker)
    ensures var s', tx := Apply(s, Answer(worker, answer)), s.running[worker];
      && Coherent(s') && worker in s'.running
      && ToldOf(s'.running[worker], tx.id, tx.env.relayId, ExecuteRelay(answer))
  {
    hide Enabled, Apply, ExecuteRelay, SubmittedRelay, RequestInFlight;
    AnswerStepIs(s, Answer(worker, answer));
    assert TxCoherent(s.db, s.running[worker]);
    StepKeepsCoherence(s, Answer(worker, answer));
    hide Coherent;
  }

  /** The tables after the commit of an attempt on `id` under `key` that was told this answer. */
  ghost predicate Decides(db: Db, db': Db, id: RequestId, key: RelayId, answer: RelayAnswer)
    requires id in db.requests
  {
    var walletId := db.requests[id].walletId;
    && db.requests[id].status in {Pending, Relayed} && id in db'.requests && key !in db.relays && key in db'.relays
    && db'.requests[id].status == (if MeansSuccess(answer) then Completed else Failed)
    && db'.relays[key].sponsorshipRequestId == id && TellsOf(db'.relays[key], answer)
    && db'.wallets.Keys == db.wallets.Keys && walletId in db.wallets
    && db'.wallets[walletId].sponsorshipCount
       == db.wallets[walletId].sponsorshipCount + (if MeansSuccess(answer) then 1 else 0)
    && (forall w | w in db.wallets && w != walletId :: db'.wallets[w] == db.wallets[w])
    && (forall r | r in db.requests && r != id :: r in db'.requests && db'.requests[r] == db.requests[r])
    && (forall k | k in db.relays :: k in db'.relays && db'.relays[k] == db.relays[k])
  }

  lemma CommitDecides(db: Db, tx: Tx, answer: RelayAnswer)
    requires ForeignKeys(db) && TxCoherent(db, tx) && tx.pc.AtCommit? && tx.writes.relay.Some?
    requires tx.env.result == ExecuteRelay(answer)
    ensures Decides(db, Install(db, tx.id, tx.writes), tx.id, tx.env.relayId, answer)
  {
    assert ProcessSlice(tx.id, SliceOf(db, tx.id), tx.env) == Commit(tx.writes, tx.pc.result);
    hide At, Process, ProcessSlice, TellsOf, MeansSuccess, ExecuteRelay;
    CommitIsAtomic(db, tx);
    SettledRowTells(tx.id, SliceOf(db, tx.id), tx.env, answer);
  }

  /**
   Over every run: if an attempt that was given this answer commits, whatever happened in between, its
   request is completed and its wallet counted once exactly when the answer means success, and failed
   otherwise; its new relay row holds what the answer carried, and no other row changes at the commit.
   */
  lemma AnswerDecides(s: State, worker: WorkerId, answer: RelayAnswer, ls: seq<Label>)
    requires Coherent(s) && Enabled(s, Answer(worker, answer))
    requires ValidRun(Apply(s, Answer(worker, answer)), ls) && StaysOpen(ls, worker)
    requires Enabled(After(Apply(s, Answer(worker, answer)), ls), CommitTx(worker))
    ensures OpenRow(s, worker)
    ensures var t, tx := After(Apply(s, Answer(worker, answer)), ls), s.running[worker];
      tx.id in t.db.requests && Decides(t.db, Apply(t, CommitTx(worker)).db, tx.id, tx.env.relayId, answer)
  {
    var s' := Apply(s, Answer(worker, answer));
    var t := After(s', ls);
    hide Enabled, Apply, Decides, ExecuteRelay, At;
    AnswerTellsWorker(s, worker, answer);
    ToldUntilTheEnd(s', ls, worker, s.running[worker].id, s.running[worker].env.relayId, ExecuteRelay(answer));
    CommitStepIs(t, CommitTx(worker));
    assert TxCoherent(t.db, t.running[worker]);
    hide TxCoherent;
    CommitDecides(t.db, t.running[worker], answer);
  }

  // ---------------------------------------------------------------- clock readings

  /** What this transaction has written of its request was stamped at `start` or later. */
  predicate MovedSince(tx: Tx, start: Time) {
    || tx.pc.AtWallet? || tx.pc.AtGuard? || tx.pc.AtCount? || tx.pc.Doomed?
    || (tx.pc.AtCommit? && tx.writes.request.None?)
    || start <= tx.env.movedAt
  }

  lemma StatementKeepsMoved(s: Slice, tx: Tx, now: Time, pick: RelayId, start: Time)
    requires Active(s.relays) != {} ==> pick in Active(s.relays)
    requires At(s, tx) && MovedSince(tx, start) && start <= now
    ensures MovedSince(Step(s, tx, now, pick), start)
  {
  }

  lemma BroadcastMoves(s: State, l: Label)
    requires Enabled(s, l) && l.Broadcast?
    ensures l.worker in s.running && s.running[l.worker].pc.AtExecute?
    ensures Apply(s, l).running == s.running[l.worker := s.running[l.worker].(pc := AtReceipt(l.txId))]
    ensures Apply(s, l).clock == s.clock
  {
    hide OwnTransfer;
  }

  lemma LockNeedsIdleWorker(s: State, l: Label)
    requires Enabled(s, l) && l.Lock?
    ensures l.worker !in s.running
    ensures Apply(s, l).running == s.running[l.worker := Open(l.id, l.maxRetries, l.amount, l.key)]
    ensures Apply(s, l).clock == s.clock
  {
  }

  lemma ClockNeverTurnsBack(s: State, l: Label)
    requires Enabled(s, l)
    ensures s.clock <= Apply(s, l).clock
  {
    if Elsewhere(l) {
      hide Enabled, Apply;
      ElsewhereTouchesNothing(s, l);
    } else {
      hide Step, Install, Register, HonestAnswer, ExecuteRelay, OwnTransfer;
    }
  }

  lemma StepKeepsMoved(s: State, l: Label, worker: WorkerId, start: Time)
    requires Coherent(s) && Enabled(s, l) && worker in s.running && MovedSince(s.running[worker], start)
    requires start <= s.clock && ((l.CommitTx? || l.AbortTx?) ==> l.worker != worker)
    ensures worker in Apply(s, l).running && MovedSince(Apply(s, l).running[worker], start)
    ensures Apply(s, l).running[worker].id == s.running[worker].id
  {
    hide Enabled, Apply, Step, At, ExecuteRelay;
    if !IsStepOf(l, worker) {
      OthersLeaveWorker(s, l, worker);
    } else if l.Statement? {
      StatementIs(s, l);
      var tx := s.running[worker];
      assert TxCoherent(s.db, tx);
      StatementKeepsMoved(SliceOf(s.db, tx.id), tx, s.clock, l.pick, start);
      StepKeepsIdentity(SliceOf(s.db, tx.id), tx, s.clock, l.pick);
    } else if l.Answer? {
      AnswerStepIs(s, l);
    } else if l.Broadcast? {
      BroadcastMoves(s, l);
    } else {
      LockNeedsIdleWorker(s, l);
    }
  }

  lemma {:induction false} MovedUntilTheEnd(s: State, ls: seq<Label>, worker: WorkerId)
    requires RecordsInv(s) && ValidRun(s, ls) && StaysOpen(ls, worker)
    requires worker in s.running && MovedSince(s.running[worker], s.clock)
    ensures worker in After(s, ls).running && MovedSince(After(s, ls).running[worker], s.clock)
    ensures After(s, ls).running[worker].id == s.running[worker].id
    ensures RecordsInv(After(s, ls)) && s.clock <= After(s, ls).clock
    decreases |ls|
  {
    hide RecordsInv, MovedSince, Enabled, Apply;
    if ls != [] {
      var n := |ls| - 1;
      var before := After(s, ls[..n]);
      MovedUntilTheEnd(s, ls[..n], worker);
      assert ls[n] in ls;
      RecordsAreCoherent(before);
      StepKeepsMoved(before, ls[n], worker, s.clock);
      StepKeepsRecords(before, ls[n]);
      ClockNeverTurnsBack(before, ls[n]);
    }
  }

  /** A timestamp that the commit has changed was read between these two times. */
  predicate ReadBetween(start: Time, end: Time, old_: Option<Time>, new_: Option<Time>) {
    new_ != old_ ==> new_.Some? && start <= new_.value <= end
  }

  /** All that the commit stamped. */
  predicate StampedBetween(start: Time, end: Time, row: SponsorshipRequest, row': SponsorshipRequest) {
    && row'.requestedAt == row.requestedAt
    && ReadBetween(start, end, row.approvedAt, row'.approvedAt)
    && ReadBetween(start, end, row.rejectedAt, row'.rejectedAt)
    && ReadBetween(start, end, row.completedAt, row'.completedAt)
    && ReadBetween(start, end, row.failedAt, row'.failedAt)
  }

  lemma CommitStamps(db: Db, tx: Tx, start: Time, now: Time)
    requires TxCoherent(db, tx) && tx.pc.AtCommit? && MovedSince(tx, start)
    requires TxClock(SliceOf(db, tx.id), tx, now)
    ensures var db' := Install(db, tx.id, tx.writes);
      && StampedBetween(start, now, db.requests[tx.id], db'.requests[tx.id])
      && forall k | k in db'.relays && k !in db.relays ::
           && ReadBetween(start, now, None, db'.relays[k].submittedAt)
           && ReadBetween(start, now, None, db'.relays[k].confirmedAt)
           && ReadBetween(start, now, None, db'.relays[k].failedAt)
  {
    var s := SliceOf(db, tx.id);
    assert ProcessSlice(tx.id, s, tx.env) == Commit(tx.writes, tx.pc.result);
    SettledRequestTells(tx.id, s, tx.env);
    if tx.writes.relay.Some? {
      SettledRelayStamped(tx.id, s, tx.env);
    }
    hide At, ProcessSlice;
    CommitIsAtomic(db, tx);
  }

  /**
   Over every run: every timestamp that a commit puts into its request or its new relay row was read from
   the clock between the moment its row was locked and the commit.
   */
  lemma StampedInsideTransaction(s: State, l: Label, ls: seq<Label>)
    requires RecordsInv(s) && Enabled(s, l) && l.Lock? && ValidRun(Apply(s, l), ls) && StaysOpen(ls, l.worker)
    requires Enabled(After(Apply(s, l), ls), CommitTx(l.worker))
    ensures var t := After(Apply(s, l), ls);
      var db' := Apply(t, CommitTx(l.worker)).db;
      && l.id in t.db.requests && l.id in db'.requests
      && StampedBetween(s.clock, t.clock, t.db.requests[l.id], db'.requests[l.id])
      && forall k | k in db'.relays && k !in t.db.relays ::
           && ReadBetween(s.clock, t.clock, None, db'.relays[k].submittedAt)
           && ReadBetween(s.clock, t.clock, None, db'.relays[k].confirmedAt)
           && ReadBetween(s.clock, t.clock, None, db'.relays[k].failedAt)
  {
    var s' := Apply(s, l);
    var t := After(s', ls);
    hide Enabled, Apply, At, TxClock, RowsTellTime, StampedBetween, ReadBetween;
    LockNeedsIdleWorker(s, l);
    StepKeepsRecords(s, l);
    MovedUntilTheEnd(s', ls, l.worker);
    assert s'.running[l.worker].id == l.id && s'.clock == s.clock;
    CommitStepIs(t, CommitTx(l.worker));
    assert t.running[l.worker].id == l.id;
    assert TxCoherent(t.db, t.running[l.worker]);
    assert MovedSince(t.running[l.worker], s.clock);
    assert TxClock(SliceOf(t.db, l.id), t.running[l.worker], t.clock);
    hide TxCoherent, Coherent;
    assert Apply(t, CommitTx(l.worker)).db == Install(t.db, l.id, t.running[l.worker].writes);
    CommitStamps(t.db, t.running[l.worker], s.clock, t.clock);
  }
}
