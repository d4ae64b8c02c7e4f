/** The timestamps of every committed row, over all runs with a clock that never runs backwards. */
module Records {
  import opened Tables
  import opened Lifecycle
  import opened ContractClient
  import opened Processor
  import opened ProcessTheorems
  import opened Protocol
  import opened Serializability

  predicate MovedInTime(s: Slice, env: Env, now: Time) {
    RequestBefore(s.request, env.movedAt) && env.movedAt <= now
  }

  /** The clock readings an open transaction has taken so far are in order. */
  predicate TxClock(s: Slice, tx: Tx, now: Time) {
    var env := tx.env;
    match tx.pc
    case AtWallet => true
    case AtGuard => true
    case AtCount => true
    case Doomed => true
    case AtApprove => MovedInTime(s, env, now)
    case AtCreate => MovedInTime(s, env, now)
    case AtRelayed => MovedInTime(s, env, now)
    case AtSubmit => MovedInTime(s, env, now)
    case AtExecute => MovedInTime(s, env, now) && env.movedAt <= env.submittedAt <= now
    case AtReceipt(_) => MovedInTime(s, env, now) && env.movedAt <= env.submittedAt <= now
    case AtSettle => MovedInTime(s, env, now) && env.movedAt <= env.submittedAt <= now
    case AtFinish => MovedInTime(s, env, now) && env.movedAt <= env.submittedAt <= env.settledAt <= now
    case AtIncrement => ClockAtEnd(s, tx, now)
    case AtCommit(_) => ClockAtEnd(s, tx, now)
  }

  predicate ClockAtEnd(s: Slice, tx: Tx, now: Time) {
    && (tx.writes.request.Some? ==> MovedInTime(s, tx.env, now))
    && (tx.writes.relay.Some? ==> ReadInOrder(tx.env, now))
  }

  lemma StepKeepsClock(s: Slice, tx: Tx, now: Time, pick: RelayId)
    requires Active(s.relays) != {} ==> pick in Active(s.relays)
    requires At(s, tx) && TxClock(s, tx, now) && RequestBefore(s.request, now)
    ensures TxClock(s, Step(s, tx, now, pick), now)
  {
  }

  ghost predicate RowsTellTime(db: Db, now: Time) {
    && (forall r | r in db.requests :: RequestRecord(db.requests[r]) && RequestBefore(db.requests[r], now))
    && (forall k | k in db.relays :: RelayRecord(db.relays[k]))
  }

  ghost predicate RecordsInv(s: State) {
    && Coherent(s) && RowsTellTime(s.db, s.clock)
    && (forall w | w in s.running :: TxClock(SliceOf(s.db, s.running[w].id), s.running[w], s.clock))
  }

  /** No committed timestamp is overwritten; a relay row, once committed, is never written again. */
  ghost predicate TimestampsKept(db: Db, db': Db) {
    && (forall r | r in db.requests :: r in db'.requests && KeepsTimestamps(db.requests[r], db'.requests[r]))
    && (forall k | k in db.relays :: k in db'.relays && db'.relays[k] == db.relays[k])
  }

  lemma CommitRecord(db: Db, tx: Tx, now: Time)
    requires TxCoherent(db, tx) && tx.pc.AtCommit? && RowsTellTime(db, now)
    requires TxClock(SliceOf(db, tx.id), tx, now)
    ensures WellShaped(tx.id, SliceOf(db, tx.id), tx.env, tx.writes)
    ensures var row := RowAfter(SliceOf(db, tx.id), tx.writes);
      RequestRecord(row) && RequestBefore(row, now) && KeepsTimestamps(db.requests[tx.id], row)
    ensures tx.writes.relay.Some? ==> RelayRecord(tx.writes.relay.value.row)
  {
    assert ProcessSlice(tx.id, SliceOf(db, tx.id), tx.env) == Commit(tx.writes, tx.pc.result);
    hide At, Process, ProcessSlice, Install;
    CommitIsAtomic(db, tx);
    if tx.writes.request.Some? {
      ProcessKeepsRecords(tx.id, SliceOf(db, tx.id), tx.env, now);
    }
  }

  lemma CommitTellsTime(db: Db, tx: Tx, now: Time)
    requires TxCoherent(db, tx) && tx.pc.AtCommit? && RowsTellTime(db, now)
    requires TxClock(SliceOf(db, tx.id), tx, now)
    ensures RowsTellTime(Install(db, tx.id, tx.writes), now) && TimestampsKept(db, Install(db, tx.id, tx.writes))
  {
    CommitRecord(db, tx, now);
    hide At, TxClock, ProcessSlice, RequestRecord, RelayRecord;
  }

  lemma CommitKeepsRecords(s: State, worker: WorkerId)
    requires RecordsInv(s) && OpenRow(s, worker) && s.running[worker].pc.AtCommit?
    ensures RecordsInv(Committed(s, worker)) && TimestampsKept(s.db, Committed(s, worker).db)
  {
    hide At;
    var tx, s' := s.running[worker], Committed(s, worker);
    CommitTellsTime(s.db, tx, s.clock);
    CommitKeepsCoherence(s, worker);
    CommitIsAtomic(s.db, tx);
    forall w | w in s'.running
      ensures TxClock(SliceOf(s'.db, s'.running[w].id), s'.running[w], s'.clock)
    {
      assert w in s.running && s.running[w].id != tx.id;
      InstallSlices(s.db, tx.id, tx.writes, s.running[w].id);
    }
  }

  lemma ClockRunsForward(s: Slice, tx: Tx, now: Time, later: Time)
    requires TxClock(s, tx, now) && now <= later
    ensures TxClock(s, tx, later)
  {
  }

  lemma RowsStay(db: Db, db': Db, now: Time, later: Time)
    requires ForeignKeys(db) && RowsTellTime(db, now) && SlicesKept(db, db') && now <= later
    requires forall r | r in db'.requests && r !in db.requests ::
               RequestRecord(db'.requests[r]) && RequestBefore(db'.requests[r], later)
    ensures RowsTellTime(db', later) && TimestampsKept(db, db')
  {
    forall r | r in db.requests
      ensures db'.requests[r] == db.requests[r]
    {
      assert SliceOf(db', r).request == SliceOf(db, r).request;
    }
  }

  lemma KeepingIsTransitive(db0: Db, db1: Db, db2: Db)
    requires TimestampsKept(db0, db1) && TimestampsKept(db1, db2)
    ensures TimestampsKept(db0, db2)
  {
    forall r | r in db0.requests
      ensures r in db2.requests && KeepsTimestamps(db0.requests[r], db2.requests[r])
    {
      assert KeepsTimestamps(db0.requests[r], db1.requests[r]) && KeepsTimestamps(db1.requests[r], db2.requests[r]);
    }
  }

  /** Steps that keep every slice and do not turn the clock back. */
  lemma SlicesKeptKeepsRecords(s: State, s': State)
    requires RecordsInv(s) && Coherent(s') && SlicesKept(s.db, s'.db) && s.clock <= s'.clock
    requires forall w | w in s'.running :: w in s.running && s'.running[w] == s.running[w]
    requires forall r | r in s'.db.requests && r !in s.db.requests ::
               RequestRecord(s'.db.requests[r]) && RequestBefore(s'.db.requests[r], s'.clock)
    ensures RecordsInv(s') && TimestampsKept(s.db, s'.db)
  {
    hide At, TxClock;
    RowsStay(s.db, s'.db, s.clock, s'.clock);
    forall w | w in s'.running
      ensures TxClock(SliceOf(s'.db, s'.running[w].id), s'.running[w], s'.clock)
    {
      assert TxCoherent(s.db, s.running[w]);
      ClockRunsForward(SliceOf(s.db, s.running[w].id), s.running[w], s.clock, s'.clock);
    }
  }

  /** Steps that only move one open transaction. */
  lemma MovingOneKeepsRecords(s: State, s': State, worker: WorkerId)
    requires RecordsInv(s) && Coherent(s') && s'.db == s.db && s'.clock == s.clock && worker in s'.running
    requires s'.running == s.running[worker := s'.running[worker]]
    requires TxClock(SliceOf(s.db, s'.running[worker].id), s'.running[worker], s.clock)
    ensures RecordsInv(s')
  {
    hide At, TxClock;
  }

  lemma SlowStepKeepsRecords(s: State, l: Label)
    requires RecordsInv(s) && Enabled(s, l) && Coherent(Apply(s, l)) && Elsewhere(l)
    ensures RecordsInv(Apply(s, l)) && TimestampsKept(s.db, Apply(s, l).db)
  {
    assert ForeignKeys(s.db);
    hide Coherent, TxClock, RowsTellTime, Enabled, Apply;
    ElsewhereTouchesNothing(s, l);
    SlicesKeptKeepsRecords(s, Apply(s, l));
  }

  lemma AbortKeepsRecords(s: State, l: Label)
    requires RecordsInv(s) && Enabled(s, l) && Coherent(Apply(s, l)) && l.AbortTx?
    ensures RecordsInv(Apply(s, l)) && TimestampsKept(s.db, Apply(s, l).db)
  {
    hide At, Coherent, RecordsInv;
    SlicesKeptKeepsRecords(s, Apply(s, l));
  }

  lemma ApiKeepsRecords(s: State, l: Label)
    requires RecordsInv(s) && Enabled(s, l) && Coherent(Apply(s, l))
    requires l.RegisterWallet? || l.InsertRequest?
    ensures RecordsInv(Apply(s, l)) && TimestampsKept(s.db, Apply(s, l).db)
  {
    hide At, TxCoherent, TxClock, SlicesKept, RowsTellTime, TimestampsKept;
    if l.RegisterWallet? {
      RegisterKeepsSlices(s, l.walletId, l.address);
    } else {
      InsertKeepsSlices(s.db, l.id, NewRequest(s.posts[l.post].walletId, s.clock));
    }
    hide Coherent, RecordsInv;
    SlicesKeptKeepsRecords(s, Apply(s, l));
  }

  /** Locking, broadcasting and being answered read no clock. */
  lemma OpeningKeepsRecords(s: State, l: Label)
    requires RecordsInv(s) && Enabled(s, l) && Coherent(Apply(s, l))
    requires l.Lock? || l.Broadcast?
    ensures RecordsInv(Apply(s, l)) && Apply(s, l).db == s.db
  {
    hide At, Coherent, RowsTellTime, ClockAtEnd;
    MovingOneKeepsRecords(s, Apply(s, l), l.worker);
  }

  lemma AnswerKeepsRecords(s: State, l: Label)
    requires RecordsInv(s) && Enabled(s, l) && Coherent(Apply(s, l)) && l.Answer?
    ensures RecordsInv(Apply(s, l)) && Apply(s, l).db == s.db
  {
    hide TxClock, Coherent, ExecuteRelay, RowsTellTime, Enabled, Apply;
    AnswerStepIs(s, l);
    var tx := s.running[l.worker];
    TellingKeepsClock(SliceOf(s.db, tx.id), tx, ExecuteRelay(l.answer), s.clock);
    MovingOneKeepsRecords(s, Apply(s, l), l.worker);
  }

  lemma TellingKeepsClock(s: Slice, tx: Tx, result: RelayResult, now: Time)
    requires TxClock(s, tx, now) && (tx.pc.AtExecute? || tx.pc.AtReceipt?)
    ensures TxClock(s, Told(tx, result), now)
  {
  }

  lemma StatementKeepsRecords(s: State, l: Label)
    requires RecordsInv(s) && Enabled(s, l) && Coherent(Apply(s, l)) && l.Statement?
    ensures RecordsInv(Apply(s, l)) && Apply(s, l).db == s.db
  {
    hide At, Step, TxClock;
    var tx := s.running[l.worker];
    assert TxCoherent(s.db, tx);
    StepKeepsClock(SliceOf(s.db, tx.id), tx, s.clock, l.pick);
    StepKeepsIdentity(SliceOf(s.db, tx.id), tx, s.clock, l.pick);
    hide Coherent, RowsTellTime;
    MovingOneKeepsRecords(s, Apply(s, l), l.worker);
  }

  lemma RecordsAreCoherent(s: State)
    requires RecordsInv(s)
    ensures Coherent(s)
  {
    hide Coherent;
  }

  lemma NothingOverwritten(db: Db)
    ensures TimestampsKept(db, db)
  {
  }

  lemma StepKeepsRecords(s: State, l: Label)
    requires RecordsInv(s) && Enabled(s, l)
    ensures RecordsInv(Apply(s, l)) && TimestampsKept(s.db, Apply(s, l).db)
  {
    hide Coherent, RecordsInv, TimestampsKept, Enabled, Apply, Committed;
    RecordsAreCoherent(s);
    StepKeepsCoherence(s, l);
    NothingOverwritten(s.db);
    match l
    case RegisterWallet(_, _) => ApiKeepsRecords(s, l);
    case InsertRequest(_, _) => ApiKeepsRecords(s, l);
    case Lock(_, _, _, _, _) => OpeningKeepsRecords(s, l);
    case Broadcast(_, _) => OpeningKeepsRecords(s, l);
    case Answer(_, _) => AnswerKeepsRecords(s, l);
    case Statement(_, _) => StatementKeepsRecords(s, l);
    case CommitTx(worker) =>
      CommitStepIs(s, l);
      CommitKeepsRecords(s, worker);
    case AbortTx(_) => AbortKeepsRecords(s, l);
    case _ => SlowStepKeepsRecords(s, l);
  }

  /**
   In every reachable state a request carries exactly the terminal timestamp of its status, its
   times are in order (completed implies approved no later than completed), and a confirmed relay
   row was submitted no later than it was confirmed and has no failure time.
   */
  lemma {:induction false} EveryRowTellsTime(s: State, ls: seq<Label>)
    requires Quiet(s) && RowsTellTime(s.db, s.clock) && ValidRun(s, ls)
    ensures RecordsInv(After(s, ls))
    decreases |ls|
  {
    hide At, Enabled, Apply;
    if ls != [] {
      EveryRowTellsTime(s, ls[..|ls| - 1]);
      StepKeepsRecords(After(s, ls[..|ls| - 1]), ls[|ls| - 1]);
    }
  }

  /** Over every run, a timestamp once committed, of a request or of a relay row, is never overwritten. */
  lemma {:induction false} TimestampsAreFinal(s: State, ls: seq<Label>, n: nat)
    requires Quiet(s) && RowsTellTime(s.db, s.clock) && ValidRun(s, ls) && n <= |ls| && ValidRun(s, ls[..n])
    ensures TimestampsKept(After(s, ls[..n]).db, After(s, ls).db)
    decreases |ls|
  {
    hide At, RecordsInv, Enabled, Apply;
    if n == |ls| {
      assert ls[..n] == ls;
    } else {
      var m := |ls| - 1;
      assert ls[..m][..n] == ls[..n];
      TimestampsAreFinal(s, ls[..m], n);
      EveryRowTellsTime(s, ls[..m]);
      StepKeepsRecords(After(s, ls[..m]), ls[m]);
      KeepingIsTransitive(After(s, ls[..n]).db, After(s, ls[..m]).db, After(s, ls).db);
    }
  }
}
