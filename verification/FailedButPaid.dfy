/** Ways in which a request that ends failed has its wallet paid by its own transfer. */
module FailedButPaid {
  import opened Tables
  import opened ContractClient
  import opened Processor
  import opened Protocol
  import opened Serializability
  import opened ChainSafety
  import opened Recovery
  import C = Contracts

  /** A vault with ether and nobody sponsored yet. */
  function OpenWorld(): C.World {
    C.World(map[C.VAULT := 5], 3, WORKER, C.REGISTRY, 2, map[], [])
  }

  function OpenStart(): State {
    StaleStart().(world := OpenWorld())
  }

  lemma OpenStartIsFresh()
    ensures Fresh(OpenStart())
  {
    assert C.BooksOf(OpenWorld().log) == C.EMPTY_BOOKS;
  }

  const TRANSFER: TxId := 0
  const OWN := Transfer(SOMEBODY, 1, 100, 200)

  /** One POST, all three of its steps. */
  lemma PostArrives() returns (t: State)
    ensures Reaches(OpenStart(), t) && ReadyToRelay(t, 100, 200)
    ensures t.world == OpenWorld() && t.account == WORKER && t.mempool == map[] && t.mined == map[]
    ensures t.db.requests.Keys == {100}
  {
    ReachesItself(OpenStart());
    hide Reaches;
    t := CheckNoActivePasses(OpenStart(), OpenStart(), 0);
    t := CheckNoCompletedPasses(OpenStart(), t, 0);
    ReachesNext(OpenStart(), t, InsertRequest(0, 100));
    t := InsertedAt(t, 0, 100);
  }

  /** The executor broadcasts its transfer and waits for the receipt. */
  lemma BroadcastAlone(s: State, tx: Tx)
    requires s.mempool == map[] && tx.pc == AtExecute
    requires tx.id in s.db.requests && s.db.requests[tx.id].walletId in s.db.wallets
    ensures var t, l := Alone(s, tx), Broadcast(0, TRANSFER);
      && Enabled(t, l)
      && Apply(t, l) == Alone(s.(mempool := map[TRANSFER := OwnTransfer(s.db, tx)]), tx.(pc := AtReceipt(TRANSFER)))
  {
    var tx' := tx.(pc := AtReceipt(TRANSFER));
    assert map[0 := tx][0 := tx'] == map[0 := tx'];
  }

  /** The deadline passes first. */
  lemma DeadlineAlone(s: State, tx: Tx)
    requires tx.pc.AtReceipt? && tx.id in s.db.requests && s.db.requests[tx.id].walletId in s.db.wallets
    ensures var t, l := Alone(s, tx), Answer(0, DeadlinePassed);
      Enabled(t, l) && Apply(t, l) == Alone(s, Told(tx, ExecuteRelay(DeadlinePassed)))
  {
    var told := Told(tx, ExecuteRelay(DeadlinePassed));
    assert map[0 := tx][0 := told] == map[0 := told];
  }

  /** The deadline passes before the executor has broadcast: it is left running. */
  lemma DeadlineLeavesBehind(s: State, tx: Tx)
    requires tx.pc.AtExecute? && tx.id in s.db.requests && s.db.requests[tx.id].walletId in s.db.wallets
    requires s.abandoned == map[]
    ensures var t, l := Alone(s, tx), Answer(0, DeadlinePassed);
      && Enabled(t, l)
      && Apply(t, l) == Alone(s.(abandoned := map[tx.env.relayId := OwnTransfer(s.db, tx)]),
                              Told(tx, ExecuteRelay(DeadlinePassed)))
  {
    var told := Told(tx, ExecuteRelay(DeadlinePassed));
    assert map[0 := tx][0 := told] == map[0 := told];
    assert map[][tx.env.relayId := OwnTransfer(s.db, tx)] == map[tx.env.relayId := OwnTransfer(s.db, tx)];
  }

  /** And broadcasts then. */
  lemma LateBroadcastAlone(s: State, tx: Tx, key: RelayId, own: Transfer)
    requires s.mempool == map[] && s.abandoned == map[]
    ensures var t, l := Alone(s.(abandoned := map[key := own]), tx), LateBroadcast(key, TRANSFER);
      Enabled(t, l) && Apply(t, l) == Alone(s.(mempool := map[TRANSFER := own]), tx)
  {
    assert map[key := own] - {key} == map[];
  }

  lemma DeadlineIsNoSuccess()
    ensures !CountsAsSuccess(ExecuteRelay(DeadlinePassed))
  {
    OtherAnswersNotRecognised(DeadlinePassed);
  }

  lemma StatementsOfAFailure(s: Slice, tx: Tx)
    requires Active(s.relays) == {} && s.request.status == Pending
    requires At(s, tx) && tx.pc == AtSettle && !CountsAsSuccess(tx.env.result)
    ensures StepTimes(s, tx, 1).pc == AtFinish && StepTimes(s, tx, 2).pc == AtCommit(Done(Failed))
    ensures StepTimes(s, tx, 2).writes.request.Some? && StepTimes(s, tx, 2).writes.request.value.status == Failed
  {
    assert StepTimes(s, tx, 0) == tx;
    assert StepTimes(s, tx, 1) == Step(s, StepTimes(s, tx, 0), 0, 0);
  }

  /** The statements after a failure, up to the commit. */
  lemma ReachesFailedCommit(s0: State, s: State, told: Tx) returns (last: Tx)
    requires Reaches(s0, Alone(s, told)) && s.clock == 0
    requires told.id in s.db.requests && s.db.requests[told.id].walletId in s.db.wallets
    requires var slice := SliceOf(s.db, told.id);
      Active(slice.relays) == {} && slice.request.status == Pending && At(slice, told)
    requires told.pc == AtSettle && !CountsAsSuccess(told.env.result)
    ensures Reaches(s0, Alone(s, last)) && last.id == told.id && last.pc == AtCommit(Done(Failed))
    ensures last.writes.request.Some? && last.writes.request.value.status == Failed
  {
    var slice := SliceOf(s.db, told.id);
    hide At, Step, Reaches, Alone, CountsAsSuccess;
    StatementsOfAFailure(slice, told);
    assert StepTimes(slice, told, 0) == told;
    hide StepTimes;
    forall i | 0 <= i < 2
      ensures AtStatement(StepTimes(slice, told, i).pc)
    {
      assert i == 0 || i == 1;
    }
    ReachesThrough(s0, s, told, 2);
    last := StepTimes(slice, told, 2);
  }

  /** From the deadline to the failed request in the tables. */
  lemma ReachesFailure(s0: State, s: State, tx: Tx) returns (t: State)
    requires Reaches(s0, Alone(s, Told(tx, ExecuteRelay(DeadlinePassed)))) && s.clock == 0 && s.running == map[]
    requires tx.id in s.db.requests && s.db.requests[tx.id].walletId in s.db.wallets
    requires var slice := SliceOf(s.db, tx.id);
      Active(slice.relays) == {} && slice.request.status == Pending && At(slice, tx)
    requires tx.pc.AtExecute? || tx.pc.AtReceipt?
    ensures Reaches(s0, t) && t == s.(db := t.db, history := t.history)
    ensures t.db.requests.Keys == s.db.requests.Keys && t.db.requests[tx.id].status == Failed
  {
    hide At, Step, Reaches, Alone, Enabled, Apply, ExecuteRelay, CountsAsSuccess;
    DeadlineIsNoSuccess();
    TellingKeepsAssertion(SliceOf(s.db, tx.id), tx, ExecuteRelay(DeadlinePassed));
    var last := ReachesFailedCommit(s0, s, Told(tx, ExecuteRelay(DeadlinePassed)));
    CommitAlone(s, last);
    ReachesNext(s0, Alone(s, last), CommitTx(0));
    t := Apply(Alone(s, last), CommitTx(0));
  }

  lemma ReachesDeadline(s0: State, s: State, waiting: Tx)
    requires Reaches(s0, Alone(s, waiting)) && waiting.pc.AtReceipt?
    requires waiting.id in s.db.requests && s.db.requests[waiting.id].walletId in s.db.wallets
    ensures Reaches(s0, Alone(s, Told(waiting, ExecuteRelay(DeadlinePassed))))
  {
    hide Reaches, Alone, Enabled, Apply, ExecuteRelay;
    DeadlineAlone(s, waiting);
    ReachesNext(s0, Alone(s, waiting), Answer(0, DeadlinePassed));
  }

  lemma LateMiningPays(s: State)
    requires s.world == OpenWorld() && s.account == WORKER && s.mined == map[]
    requires s.mempool == map[TRANSFER := OWN]
    ensures Enabled(s, Mine(TRANSFER, C.Return)) && MinedAt(s, TRANSFER, C.Return).mined[TRANSFER]
    ensures TimesPaid(MinedAt(s, TRANSFER, C.Return).world, SOMEBODY) == 1
  {
    var w, w' := s.world, MinedAt(s, TRANSFER, C.Return).world;
    var recorded := C.Recorded(w, SOMEBODY, 1);
    assert C.BooksOf(w.log) == C.EMPTY_BOOKS;
    var paid := C.Pay(recorded, C.VAULT, SOMEBODY, 1, C.Return);
    assert paid.error.None? && paid.world.log == recorded.log;
    assert C.BooksOf(w'.log) == C.Post(C.BooksOf(recorded.log), C.SponsorshipExecuted(SOMEBODY, 1));
  }

  lemma WaitsForReceipt(s: State, tx: Tx) returns (s': State, waiting: Tx)
    requires ReadyToRelay(s, 100, 200) && s.mempool == map[] && Reaches(OpenStart(), Alone(s, tx))
    requires At(SliceOf(s.db, 100), tx) && tx.pc == AtExecute && tx.id == 100 && OwnTransfer(s.db, tx) == OWN
    ensures s' == s.(mempool := map[TRANSFER := OWN]) && Reaches(OpenStart(), Alone(s', waiting))
    ensures waiting.pc.AtReceipt? && waiting.id == 100 && At(SliceOf(s.db, 100), waiting)
  {
    BroadcastAlone(s, tx);
    BroadcastingKeepsAssertion(SliceOf(s.db, 100), tx, TRANSFER);
    hide Reaches, Alone, Enabled, Apply, At;
    ReachesNext(OpenStart(), Alone(s, tx), Broadcast(0, TRANSFER));
    s', waiting := s.(mempool := map[TRANSFER := OWN]),
                   tx.(pc := AtReceipt(TRANSFER));
  }

  /** The only request there is has its transfer broadcast, and its attempt waits for the receipt. */
  lemma Waits() returns (s: State, waiting: Tx)
    ensures Reaches(OpenStart(), Alone(s, waiting)) && s.clock == 0 && s.running == map[]
    ensures s.world == OpenWorld() && s.account == WORKER && s.mined == map[]
    ensures s.mempool == map[TRANSFER := OWN]
    ensures s.db.requests.Keys == {100} && s.db.requests[100].status == Pending
    ensures s.db.requests[100].walletId in s.db.wallets && Active(RelaysOf(s.db.relays, 100)) == {}
    ensures waiting.pc.AtReceipt? && waiting.id == 100 && At(SliceOf(s.db, 100), waiting)
  {
    var s0 := PostArrives();
    var tx := ReachesExecutor(OpenStart(), s0, 100, 200);
    s, waiting := WaitsForReceipt(s0, tx);
  }

  /**
   "A failed request was not paid by its own attempt" does not hold of the code. Here the deadline
   passes, the request is failed, and then its own transfer is mined and pays.
   `LateTransfers.LatePaymentExactly` is the exact condition.
   */
  lemma FailedThenPaid() returns (t: State, t': State)
    ensures Fresh(OpenStart()) && Reaches(OpenStart(), t) && Reaches(t, t')
    ensures t.db.requests.Keys == {100} && t.db.requests[100].status == Failed && t'.db == t.db
    ensures TRANSFER !in t.mined && TimesPaid(t.world, SOMEBODY) == 0
    ensures TRANSFER in t'.mined && t'.mined[TRANSFER] && TimesPaid(t'.world, SOMEBODY) == 1
  {
    OpenStartIsFresh();
    var s, waiting := Waits();
    ReachesDeadline(OpenStart(), s, waiting);
    t := ReachesFailure(OpenStart(), s, waiting);
    hide Reaches, Enabled, C.Perform;
    LateMiningPays(t);
    NobodyIsPaidYet();
    ReachesItself(t);
    ReachesNext(t, t, Mine(TRANSFER, C.Return));
    t' := MinedAt(t, TRANSFER, C.Return);
  }

  lemma NobodyIsPaidYet()
    ensures TimesPaid(OpenWorld(), SOMEBODY) == 0
  {
    assert C.BooksOf(OpenWorld().log) == C.EMPTY_BOOKS;
  }

  lemma MineAlone(s: State, tx: Tx)
    requires s.mempool == map[TRANSFER := OWN] && s.mined == map[]
    ensures Enabled(Alone(s, tx), Mine(TRANSFER, C.Return))
    ensures Apply(Alone(s, tx), Mine(TRANSFER, C.Return)) == Alone(MinedAt(s, TRANSFER, C.Return), tx)
  {
    hide C.Perform;
  }

  /**
   The other way for it to fail: the transfer is mined and pays while the worker still waits for the
   receipt, the deadline passes first, and the request is failed although it has been paid.
   */
  lemma PaidThenFailed() returns (t: State, t': State)
    ensures Fresh(OpenStart()) && Reaches(OpenStart(), t) && Reaches(t, t')
    ensures t.db.requests.Keys == {100} && t.db.requests[100].status == Pending
    ensures TRANSFER in t.mined && t.mined[TRANSFER] && TimesPaid(t.world, SOMEBODY) == 1
    ensures t'.db.requests.Keys == {100} && t'.db.requests[100].status == Failed && t'.world == t.world
  {
    OpenStartIsFresh();
    var s, waiting := Waits();
    hide Reaches, Enabled, Apply, Alone, C.Perform, At;
    LateMiningPays(s);
    MineAlone(s, waiting);
    ReachesNext(OpenStart(), Alone(s, waiting), Mine(TRANSFER, C.Return));
    var mined := MinedAt(s, TRANSFER, C.Return);
    t := Alone(mined, waiting);
    ReachesItself(t);
    ReachesDeadline(t, mined, waiting);
    t' := ReachesFailure(t, mined, waiting);
    AloneIs(mined, waiting);
  }

  /** The deadline passes, then the executor that was left behind broadcasts, and nothing is mined yet. */
  lemma BroadcastsLate() returns (s: State, tx: Tx)
    ensures Reaches(OpenStart(), Alone(s, Told(tx, ExecuteRelay(DeadlinePassed))))
    ensures s.clock == 0 && s.running == map[] && s.abandoned == map[]
    ensures s.world == OpenWorld() && s.account == WORKER && s.mined == map[] && s.mempool == map[TRANSFER := OWN]
    ensures s.db.requests.Keys == {100} && s.db.requests[100].status == Pending
    ensures s.db.requests[100].walletId in s.db.wallets && Active(RelaysOf(s.db.relays, 100)) == {}
    ensures tx.pc.AtExecute? && tx.id == 100 && At(SliceOf(s.db, 100), tx)
  {
    var s0 := PostArrives();
    tx := ReachesExecutor(OpenStart(), s0, 100, 200);
    var told := Told(tx, ExecuteRelay(DeadlinePassed));
    DeadlineLeavesBehind(s0, tx);
    LateBroadcastAlone(s0, told, 200, OWN);
    hide Reaches, Alone, Enabled, Apply, At, ExecuteRelay;
    ReachesNext(OpenStart(), Alone(s0, tx), Answer(0, DeadlinePassed));
    ReachesNext(OpenStart(), Alone(s0.(abandoned := map[200 := OWN]), told), LateBroadcast(200, TRANSFER));
    s := s0.(mempool := map[TRANSFER := OWN]);
  }

  /**
   A third way: the deadline passes before the executor has broadcast, the executor that was left behind
   broadcasts while the transaction is still on its way to the commit, and the transfer is mined after it.
   */
  lemma BroadcastBeforeTheCommit() returns (t: State, t': State, t'': State)
    ensures Fresh(OpenStart()) && Reaches(OpenStart(), t) && Reaches(t, t') && Reaches(t', t'')
    ensures 0 in t.running && t.running[0].pc == AtSettle && t.mempool == map[TRANSFER := OWN]
    ensures t'.db.requests.Keys == {100} && t'.db.requests[100].status == Failed && t''.db == t'.db
    ensures t'.abandoned == map[] && t'.mined == map[] && TimesPaid(t'.world, SOMEBODY) == 0
    ensures TRANSFER in t''.mined && t''.mined[TRANSFER] && TimesPaid(t''.world, SOMEBODY) == 1
  {
    OpenStartIsFresh();
    var s, tx := BroadcastsLate();
    t := Alone(s, Told(tx, ExecuteRelay(DeadlinePassed)));
    hide Reaches, Enabled, Apply, C.Perform, At;
    ReachesItself(t);
    t' := ReachesFailure(t, s, tx);
    LateMiningPays(t');
    NobodyIsPaidYet();
    ReachesItself(t');
    assert Apply(t', Mine(TRANSFER, C.Return)) == MinedAt(t', TRANSFER, C.Return) by { MiningIs(t'); }
    ReachesNext(t', t', Mine(TRANSFER, C.Return));
    t'' := MinedAt(t', TRANSFER, C.Return);
  }

  lemma MiningIs(s: State)
    requires Enabled(s, Mine(TRANSFER, C.Return))
    ensures Apply(s, Mine(TRANSFER, C.Return)) == MinedAt(s, TRANSFER, C.Return)
  {
    hide C.Perform;
  }

  lemma AloneIs(s: State, tx: Tx)
    ensures Alone(s, tx).db == s.db && Alone(s, tx).world == s.world && Alone(s, tx).mined == s.mined
  {
  }
}
