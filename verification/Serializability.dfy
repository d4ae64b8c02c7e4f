/**
 Every interleaving leaves the tables that whole operations, run one at a time in commit order,
 would leave. The proof is an assertion for each program point of a transaction: what its buffered
 writes must be, given the rows committed at that moment, which nobody else can change.
 */
module Serializability {
  import opened Wrappers
  import opened Tables
  import opened Lifecycle
  import opened ContractClient
  import opened Processor
  import opened ProcessTheorems
  import opened Protocol

  /** The guards have let this transaction through to a relay attempt. */
  ghost predicate Admitted(s: Slice, tx: Tx) {
    && Processable(s.request.status)
    && !(s.request.status == Pending && s.wallet == Some(true))
    && Active(s.relays) == {}
    && |s.relays| < tx.env.maxRetries
  }

  /** The buffered request row while the attempt is in flight: only a pending request has been written. */
  function RequestInFlight(s: Slice, env: Env): Option<SponsorshipRequest> {
    if s.request.status == Pending then MarkRelayed(s.request, env.movedAt) else None
  }

  function SubmittedRelay(s: Slice, tx: Tx): Option<RelayTransaction> {
    MoveRelay(NewRelay(tx.id, |s.relays| + 1), Submitted, NO_DATA, tx.env.submittedAt)
  }

  function SettledRelay(s: Slice, tx: Tx): Option<RelayTransaction> {
    match SubmittedRelay(s, tx)
    case None => None
    case Some(row) =>
      if CountsAsSuccess(tx.env.result) then MoveRelay(row, Confirmed, ConfirmData(tx.env.result), tx.env.settledAt)
      else MoveRelay(row, RelayFailed, NO_DATA.(failureReason := tx.env.result.failureReason), tx.env.settledAt)
  }

  ghost predicate InFlight(s: Slice, tx: Tx, relay: Option<RelayTransaction>) {
    && Admitted(s, tx) && |s.relays| < DEFAULT_MAX_RELAY_ATTEMPTS && relay.Some?
    && tx.writes == Writes(RequestInFlight(s, tx.env), Some(RelayWrite(tx.env.relayId, relay.value)), false)
  }

  /** The assertion at each program point. */
  ghost predicate At(s: Slice, tx: Tx) {
    match tx.pc
    case AtWallet => tx.writes == NO_WRITES
    case AtGuard =>
      && tx.writes == NO_WRITES && Processable(s.request.status)
      && !(s.request.status == Pending && s.wallet == Some(true))
    case AtCount =>
      && tx.writes == NO_WRITES && Processable(s.request.status) && Active(s.relays) == {}
      && !(s.request.status == Pending && s.wallet == Some(true))
    case AtApprove => Admitted(s, tx) && s.request.status == Pending && tx.writes == NO_WRITES
    case AtCreate =>
      && Admitted(s, tx)
      && tx.writes == Writes(if s.request.status == Pending then MoveRequest(s.request, Approved, tx.env.movedAt)
                             else None,
                             None, false)
    case AtRelayed =>
      && Admitted(s, tx) && |s.relays| < DEFAULT_MAX_RELAY_ATTEMPTS && s.request.status == Pending
      && tx.writes == Writes(MoveRequest(s.request, Approved, tx.env.movedAt),
                             Some(RelayWrite(tx.env.relayId, NewRelay(tx.id, |s.relays| + 1))), false)
    case AtSubmit => InFlight(s, tx, Some(NewRelay(tx.id, |s.relays| + 1)))
    case AtExecute => InFlight(s, tx, SubmittedRelay(s, tx))
    case AtReceipt(_) => InFlight(s, tx, SubmittedRelay(s, tx))
    case AtSettle => InFlight(s, tx, SubmittedRelay(s, tx))
    case AtFinish => InFlight(s, tx, SettledRelay(s, tx))
    case AtIncrement =>
      && PickIsActive(s, tx.env) && !tx.writes.increment
      && (s.wallet.Some? ==>
            ProcessSlice(tx.id, s, tx.env) == Commit(tx.writes.(increment := true), Done(Completed)))
    case AtCommit(result) => PickIsActive(s, tx.env) && ProcessSlice(tx.id, s, tx.env) == Commit(tx.writes, result)
    case Doomed => true
  }

  lemma GuardsKeepAssertion(s: Slice, tx: Tx, now: Time, pick: RelayId)
    requires Active(s.relays) != {} ==> pick in Active(s.relays)
    requires At(s, tx) && (tx.pc.AtWallet? || tx.pc.AtGuard? || tx.pc.AtCount?)
    ensures At(s, Step(s, tx, now, pick))
  {
    hide Attempt;
  }

  lemma SubmissionKeepsAssertion(s: Slice, tx: Tx, now: Time, pick: RelayId)
    requires Active(s.relays) != {} ==> pick in Active(s.relays)
    requires At(s, tx) && (tx.pc.AtApprove? || tx.pc.AtCreate? || tx.pc.AtRelayed? || tx.pc.AtSubmit?)
    ensures At(s, Step(s, tx, now, pick))
  {
    hide ProcessSlice;
  }

  lemma SettlementKeepsAssertion(s: Slice, tx: Tx, now: Time, pick: RelayId)
    requires Active(s.relays) != {} ==> pick in Active(s.relays)
    requires At(s, tx) && (tx.pc.AtSettle? || tx.pc.AtFinish? || tx.pc.AtIncrement?)
    ensures At(s, Step(s, tx, now, pick))
  {
  }

  /** Every database statement takes the assertion before it to the assertion after it. */
  lemma StepKeepsAssertion(s: Slice, tx: Tx, now: Time, pick: RelayId)
    requires Active(s.relays) != {} ==> pick in Active(s.relays)
    requires At(s, tx)
    ensures At(s, Step(s, tx, now, pick))
  {
    if tx.pc.AtWallet? || tx.pc.AtGuard? || tx.pc.AtCount? {
      GuardsKeepAssertion(s, tx, now, pick);
    } else if tx.pc.AtApprove? || tx.pc.AtCreate? || tx.pc.AtRelayed? || tx.pc.AtSubmit? {
      SubmissionKeepsAssertion(s, tx, now, pick);
    } else if tx.pc.AtSettle? || tx.pc.AtFinish? || tx.pc.AtIncrement? {
      SettlementKeepsAssertion(s, tx, now, pick);
    } else {
      hide At;
      assert Step(s, tx, now, pick) == tx;
    }
  }

  // ---------------------------------------------------------------- the invariant of the machine

  ghost predicate TxCoherent(db: Db, tx: Tx) {
    tx.id in db.requests && tx.env.relayId !in db.relays && At(SliceOf(db, tx.id), tx)
  }

  ghost predicate Coherent(s: State) {
    && ForeignKeys(s.db)
    && (forall w | w in s.running :: TxCoherent(s.db, s.running[w]))
    && (forall v, w | v in s.running && w in s.running && v != w ::
          s.running[v].id != s.running[w].id && s.running[v].env.relayId != s.running[w].env.relayId)
  }

  /** No step of anybody else changes what a transaction reads. */
  ghost predicate SlicesKept(db: Db, db': Db) {
    && (forall r | r in db.requests :: r in db'.requests && SliceOf(db', r) == SliceOf(db, r))
    && db'.relays == db.relays
  }

  lemma RegisterKeepsSlices(s: State, walletId: WalletId, address: nat)
    requires ForeignKeys(s.db)
    ensures SlicesKept(s.db, Register(s.db, walletId, address, s.clock))
    ensures ForeignKeys(Register(s.db, walletId, address, s.clock))
  {
  }

  lemma InsertKeepsSlices(db: Db, id: RequestId, row: SponsorshipRequest)
    requires ForeignKeys(db) && id !in db.requests && row.walletId in db.wallets
    ensures SlicesKept(db, db.(requests := db.requests[id := row]))
    ensures ForeignKeys(db.(requests := db.requests[id := row]))
  {
  }

  /** A commit is one whole `processRequest` on the tables committed at that moment. */
  lemma CommitIsAtomic(db: Db, tx: Tx)
    requires TxCoherent(db, tx) && tx.pc.AtCommit?
    ensures EnvFits(db, tx.id, tx.env)
    ensures Process(db, tx.id, tx.env) == (Install(db, tx.id, tx.writes), tx.pc.result)
    ensures WellShaped(tx.id, SliceOf(db, tx.id), tx.env, tx.writes)
  {
    CommitIsWellShaped(tx.id, SliceOf(db, tx.id), tx.env);
  }

  lemma CommitKeepsKeys(db: Db, tx: Tx)
    requires ForeignKeys(db) && TxCoherent(db, tx) && tx.pc.AtCommit?
    ensures ForeignKeys(Install(db, tx.id, tx.writes))
  {
    hide At, ProcessSlice;
    CommitIsAtomic(db, tx);
  }

  lemma CommitKeepsOthers(db: Db, tx: Tx, other: Tx)
    requires TxCoherent(db, tx) && tx.pc.AtCommit? && TxCoherent(db, other)
    requires other.id != tx.id && other.env.relayId != tx.env.relayId
    ensures TxCoherent(Install(db, tx.id, tx.writes), other)
  {
    hide At, ProcessSlice;
    CommitIsAtomic(db, tx);
    InstallSlices(db, tx.id, tx.writes, other.id);
  }

  lemma CommitKeepsCoherence(s: State, worker: WorkerId)
    requires Coherent(s) && OpenRow(s, worker) && s.running[worker].pc.AtCommit?
    ensures Coherent(Committed(s, worker))
  {
    hide At, TxCoherent, ForeignKeys, Install;
    var tx, s' := s.running[worker], Committed(s, worker);
    CommitKeepsKeys(s.db, tx);
    forall w | w in s'.running
      ensures TxCoherent(s'.db, s'.running[w])
    {
      assert w in s.running && w != worker;
      CommitKeepsOthers(s.db, tx, s.running[w]);
    }
  }

  lemma StepKeepsIdentity(s: Slice, tx: Tx, now: Time, pick: RelayId)
    requires Active(s.relays) != {} ==> pick in Active(s.relays)
    ensures Step(s, tx, now, pick).id == tx.id && Step(s, tx, now, pick).env.relayId == tx.env.relayId
  {
  }

  /** The steps that touch one open transaction and no table. */
  lemma RunningUpdateKeepsCoherence(s: State, s': State, worker: WorkerId, tx: Tx)
    requires Coherent(s) && s'.db == s.db && s'.running == s.running[worker := tx]
    requires TxCoherent(s.db, tx)
    requires forall w | w in s.running && w != worker ::
               s.running[w].id != tx.id && s.running[w].env.relayId != tx.env.relayId
    ensures Coherent(s')
  {
    hide At;
  }

  lemma StatementKeepsCoherence(s: State, l: Label)
    requires Coherent(s) && Enabled(s, l) && l.Statement?
    ensures Coherent(Apply(s, l))
  {
    hide At, Step;
    var tx := s.running[l.worker];
    StepKeepsAssertion(SliceOf(s.db, tx.id), tx, s.clock, l.pick);
    StepKeepsIdentity(SliceOf(s.db, tx.id), tx, s.clock, l.pick);
    RunningUpdateKeepsCoherence(s, Apply(s, l), l.worker, Apply(s, l).running[l.worker]);
  }

  lemma TellingKeepsAssertion(s: Slice, tx: Tx, result: RelayResult)
    requires At(s, tx) && (tx.pc.AtExecute? || tx.pc.AtReceipt?)
    ensures At(s, Told(tx, result))
  {
    assert InFlight(s, tx, SubmittedRelay(s, tx));
    assert SubmittedRelay(s, Told(tx, result)) == SubmittedRelay(s, tx);
    assert InFlight(s, Told(tx, result), SubmittedRelay(s, Told(tx, result)));
  }

  lemma AnswerStepIs(s: State, l: Label)
    requires Enabled(s, l) && l.Answer?
    ensures OpenRow(s, l.worker) && (s.running[l.worker].pc.AtExecute? || s.running[l.worker].pc.AtReceipt?)
    ensures var s' := Apply(s, l);
      s'.db == s.db && s'.clock == s.clock
        && s'.running == s.running[l.worker := Told(s.running[l.worker], ExecuteRelay(l.answer))]
  {
    hide HonestAnswer, ExecuteRelay, Told;
  }

  lemma AnswerKeepsCoherence(s: State, l: Label)
    requires Coherent(s) && Enabled(s, l) && l.Answer?
    ensures Coherent(Apply(s, l))
  {
    hide At, Enabled, Apply, ExecuteRelay;
    AnswerStepIs(s, l);
    var tx := s.running[l.worker];
    TellingKeepsAssertion(SliceOf(s.db, tx.id), tx, ExecuteRelay(l.answer));
    RunningUpdateKeepsCoherence(s, Apply(s, l), l.worker, Told(tx, ExecuteRelay(l.answer)));
  }

  lemma BroadcastingKeepsAssertion(s: Slice, tx: Tx, txId: TxId)
    requires At(s, tx) && tx.pc.AtExecute?
    ensures At(s, tx.(pc := AtReceipt(txId)))
  {
    assert SubmittedRelay(s, tx.(pc := AtReceipt(txId))) == SubmittedRelay(s, tx);
  }

  lemma BroadcastKeepsCoherence(s: State, l: Label)
    requires Coherent(s) && Enabled(s, l) && l.Broadcast?
    ensures Coherent(Apply(s, l))
  {
    hide At;
    var tx := s.running[l.worker];
    BroadcastingKeepsAssertion(SliceOf(s.db, tx.id), tx, l.txId);
    RunningUpdateKeepsCoherence(s, Apply(s, l), l.worker, tx.(pc := AtReceipt(l.txId)));
  }

  lemma SlicesKeptKeepsCoherence(s: State, s': State)
    requires Coherent(s) && SlicesKept(s.db, s'.db) && ForeignKeys(s'.db) && s'.running == s.running
    ensures Coherent(s')
  {
    hide At;
  }

  lemma AbortKeepsCoherence(s: State, l: Label)
    requires Coherent(s) && Enabled(s, l) && l.AbortTx?
    ensures Coherent(Apply(s, l))
  {
    hide At, TxCoherent, ForeignKeys;
  }

  /** The steps that touch neither the tables nor an open transaction. */
  predicate Elsewhere(l: Label) {
    l.Tick? || l.CheckNoActive? || l.CheckNoCompleted? || l.LateBroadcast? || l.Mine? || l.Transact?
  }

  lemma ElsewhereTouchesNothing(s: State, l: Label)
    requires Enabled(s, l) && Elsewhere(l)
    ensures var s' := Apply(s, l);
      s'.db == s.db && s'.running == s.running && s'.history == s.history && s'.account == s.account
      && s'.reregistrations == s.reregistrations && s'.staleInserts == s.staleInserts && s'.clock >= s.clock
  {
    hide C.Perform;
  }

  lemma SameTablesKeepCoherence(s: State, s': State)
    requires Coherent(s) && s'.db == s.db && s'.running == s.running
    ensures Coherent(s')
  {
    hide At;
  }

  lemma ApiKeepsCoherence(s: State, l: Label)
    requires Coherent(s) && Enabled(s, l) && (l.RegisterWallet? || l.InsertRequest?)
    ensures Coherent(Apply(s, l))
  {
    hide At, TxCoherent, SlicesKept;
    if l.RegisterWallet? {
      RegisterKeepsSlices(s, l.walletId, l.address);
    } else {
      InsertKeepsSlices(s.db, l.id, NewRequest(s.posts[l.post].walletId, s.clock));
    }
    hide ForeignKeys;
    SlicesKeptKeepsCoherence(s, Apply(s, l));
  }

  lemma LockKeepsCoherence(s: State, l: Label)
    requires Coherent(s) && Enabled(s, l) && l.Lock?
    ensures Coherent(Apply(s, l))
  {
    var tx := Open(l.id, l.maxRetries, l.amount, l.key);
    assert TxCoherent(s.db, tx);
    hide At, TxCoherent, ForeignKeys, Coherent;
    RunningUpdateKeepsCoherence(s, Apply(s, l), l.worker, tx);
  }

  lemma CommitStepIs(s: State, l: Label)
    requires Enabled(s, l) && l.CommitTx?
    ensures OpenRow(s, l.worker) && s.running[l.worker].pc.AtCommit? && Apply(s, l) == Committed(s, l.worker)
  {
    hide Install;
  }

  lemma StepKeepsCoherence(s: State, l: Label)
    requires Coherent(s) && Enabled(s, l)
    ensures Coherent(Apply(s, l))
  {
    hide Coherent, Enabled, Apply;
    match l
    case RegisterWallet(_, _) => ApiKeepsCoherence(s, l);
    case InsertRequest(_, _) => ApiKeepsCoherence(s, l);
    case Lock(_, _, _, _, _) => LockKeepsCoherence(s, l);
    case Statement(_, _) => StatementKeepsCoherence(s, l);
    case Broadcast(_, _) => BroadcastKeepsCoherence(s, l);
    case Answer(_, _) => AnswerKeepsCoherence(s, l);
    case CommitTx(worker) =>
      CommitStepIs(s, l);
      CommitKeepsCoherence(s, worker);
    case AbortTx(_) => AbortKeepsCoherence(s, l);
    case _ =>
      ElsewhereTouchesNothing(s, l);
      SameTablesKeepCoherence(s, Apply(s, l));
  }

  lemma {:induction false} RunsAreCoherent(s: State, ls: seq<Label>)
    requires Quiet(s) && ValidRun(s, ls)
    ensures Coherent(After(s, ls))
    decreases |ls|
  {
    hide At, Enabled, Apply;
    if ls != [] {
      var n := |ls| - 1;
      RunsAreCoherent(s, ls[..n]);
      StepKeepsCoherence(After(s, ls[..n]), ls[n]);
    }
  }

  // ---------------------------------------------------------------- one at a time

  ghost function ApplyOp(db: Db, op: Op): Db {
    match op
    case Processed(id, env) => if EnvFits(db, id, env) then Process(db, id, env).0 else db
    case Inserted(id, walletId, at) => db.(requests := db.requests[id := NewRequest(walletId, at)])
    case Registered(walletId, address, at) => Register(db, walletId, address, at)
  }

  /** Whole operations, one after another. */
  ghost function Serially(db: Db, ops: seq<Op>): Db {
    if ops == [] then db else ApplyOp(Serially(db, ops[..|ops| - 1]), ops[|ops| - 1])
  }

  lemma SeriallySnoc(db: Db, ops: seq<Op>, op: Op)
    ensures Serially(db, ops + [op]) == ApplyOp(Serially(db, ops), op)
  {
    assert (ops + [op])[..|ops|] == ops;
  }

  lemma ApiStepIsSerial(db: Db, s: State, l: Label)
    requires Enabled(s, l) && (l.RegisterWallet? || l.InsertRequest?) && s.db == Serially(db, s.history)
    ensures Apply(s, l).db == Serially(db, Apply(s, l).history)
  {
    hide Serially, Register;
    if l.RegisterWallet? {
      SeriallySnoc(db, s.history, Registered(l.walletId, l.address, s.clock));
    } else {
      SeriallySnoc(db, s.history, Inserted(l.id, s.posts[l.post].walletId, s.clock));
    }
  }

  lemma CommitIsSerial(db: Db, s: State, worker: WorkerId)
    requires Coherent(s) && OpenRow(s, worker) && s.running[worker].pc.AtCommit? && s.db == Serially(db, s.history)
    ensures Committed(s, worker).db == Serially(db, Committed(s, worker).history)
  {
    hide At, Install, Serially, Process, WellShaped;
    var tx := s.running[worker];
    CommitIsAtomic(s.db, tx);
    SeriallySnoc(db, s.history, Processed(tx.id, tx.env));
  }

  lemma MovesWriteNothing(s: State, l: Label)
    requires Enabled(s, l) && (l.Lock? || l.Statement? || l.Broadcast?)
    ensures var s' := Apply(s, l);
      && s'.db == s.db && s'.history == s.history
      && s'.reregistrations == s.reregistrations && s'.staleInserts == s.staleInserts
  {
    hide Step, OwnTransfer;
  }

  /** A rolled-back transaction leaves nothing of its own in the tables. */
  lemma AbortLeavesNoTrace(s: State, worker: WorkerId)
    requires Enabled(s, AbortTx(worker))
    ensures var s' := Apply(s, AbortTx(worker));
      && s'.db == s.db && s'.history == s.history && s'.running == s.running - {worker} && s'.world == s.world
      && s'.reregistrations == s.reregistrations && s'.staleInserts == s.staleInserts
  {
  }

  lemma EndsWriteNothing(s: State, l: Label)
    requires Enabled(s, l) && (l.Answer? || l.AbortTx?)
    ensures var s' := Apply(s, l);
      && s'.db == s.db && s'.history == s.history
      && s'.reregistrations == s.reregistrations && s'.staleInserts == s.staleInserts
  {
    hide HonestAnswer, ExecuteRelay, OwnTransfer;
    if l.AbortTx? {
      AbortLeavesNoTrace(s, l.worker);
    }
  }

  lemma OpenTransactionsWriteNothing(s: State, l: Label)
    requires Enabled(s, l) && (l.Lock? || l.Statement? || l.Broadcast? || l.Answer? || l.AbortTx?)
    ensures var s' := Apply(s, l);
      && s'.db == s.db && s'.history == s.history
      && s'.reregistrations == s.reregistrations && s'.staleInserts == s.staleInserts
  {
    hide Enabled, Apply;
    if l.Answer? || l.AbortTx? {
      EndsWriteNothing(s, l);
    } else {
      MovesWriteNothing(s, l);
    }
  }

  lemma StepIsSerial(db: Db, s: State, l: Label)
    requires Coherent(s) && Enabled(s, l) && s.db == Serially(db, s.history)
    ensures Apply(s, l).db == Serially(db, Apply(s, l).history)
  {
    hide Coherent, Enabled, Apply, Serially;
    match l
    case RegisterWallet(_, _) => ApiStepIsSerial(db, s, l);
    case InsertRequest(_, _) => ApiStepIsSerial(db, s, l);
    case CommitTx(worker) =>
      CommitStepIs(s, l);
      CommitIsSerial(db, s, worker);
    case Lock(_, _, _, _, _) => OpenTransactionsWriteNothing(s, l);
    case Statement(_, _) => OpenTransactionsWriteNothing(s, l);
    case Broadcast(_, _) => OpenTransactionsWriteNothing(s, l);
    case Answer(_, _) => OpenTransactionsWriteNothing(s, l);
    case AbortTx(_) => OpenTransactionsWriteNothing(s, l);
    case _ => ElsewhereTouchesNothing(s, l);
  }

  /**
   Any run, with any number of workers, row locks, buffered writes, lock timeouts and crashes,
   leaves the tables that its committed operations would leave when run whole, one at a time, in
   commit order. Aborted transactions are not among them.
   */
  lemma {:induction false} EveryRunIsSerializable(s: State, ls: seq<Label>)
    requires Quiet(s) && ValidRun(s, ls)
    ensures After(s, ls).db == Serially(s.db, After(s, ls).history)
    decreases |ls|
  {
    hide Coherent, Enabled, Apply, ApplyOp;
    if ls != [] {
      var n := |ls| - 1;
      EveryRunIsSerializable(s, ls[..n]);
      RunsAreCoherent(s, ls[..n]);
      StepIsSerial(s.db, After(s, ls[..n]), ls[n]);
    }
  }
}
