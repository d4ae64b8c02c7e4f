/** One wallet all the way: registered, posted, relayed, mined, paid, completed. */
module EndToEnd {
  import opened Ledger
  import opened Wrappers
  import opened Tables
  import opened ContractClient
  import opened Processor
  import opened Protocol
  import opened Serializability
  import opened ChainSafety
  import opened Recovery
  import opened FailedButPaid
  import opened Outcomes
  import opened AnsweredRuns
  import C = Contracts

  /** An installation with empty tables and a funded vault. */
  function EmptyStart(): State {
    State(WORKER, 0, Db(map[], map[], map[]), map[], map[], OpenWorld(), map[], map[], map[], [], map[], 0)
  }

  lemma EmptyStartIsFresh()
    ensures Fresh(EmptyStart())
  {
    assert C.BooksOf(OpenWorld().log) == C.EMPTY_BOOKS;
  }

  /** The wallet registers: its row is the one that the other runs start with. */
  lemma Registers() returns (t: State)
    ensures Reaches(EmptyStart(), t) && t.db == StaleStart().db
    ensures t == EmptyStart().(db := t.db, history := t.history, reregistrations := t.reregistrations)
  {
    var l := RegisterWallet(WALLET, SOMEBODY);
    assert Enabled(EmptyStart(), l);
    t := RegisteredAt(EmptyStart(), WALLET, SOMEBODY);
    assert Apply(EmptyStart(), l) == t;
    assert t.db == StaleStart().db;
    hide Enabled, Apply, Reaches;
    ReachesItself(EmptyStart());
    ReachesNext(EmptyStart(), EmptyStart(), l);
  }

  lemma Inserts(s0: State, s: State) returns (t: State)
    requires Reaches(s0, s) && s.db == StaleStart().db && s.posts == map[0 := Post(WALLET, true)]
    requires s.running == map[] && s.mempool == map[] && s.abandoned == map[] && s.clock == 0
    ensures Reaches(s0, t) && ReadyToRelay(t, 100, 200)
    ensures t == s.(db := t.db, posts := t.posts, history := t.history, staleInserts := t.staleInserts)
    ensures t.db.requests.Keys == {100} && t.db.wallets == map[WALLET := Wallet(SOMEBODY, false, 0, 0)]
  {
    hide Reaches;
    ReachesNext(s0, s, InsertRequest(0, 100));
    t := InsertedAt(s, 0, 100);
  }

  /** Registered, and a request posted in its three steps. */
  lemma Posts() returns (t: State)
    ensures Reaches(EmptyStart(), t) && ReadyToRelay(t, 100, 200)
    ensures t.world == OpenWorld() && t.account == WORKER && t.mempool == map[] && t.mined == map[]
    ensures t.db.requests.Keys == {100} && t.db.wallets == map[WALLET := Wallet(SOMEBODY, false, 0, 0)]
  {
    hide Reaches, ReadyToRelay;
    t := Registers();
    t := CheckNoActivePasses(EmptyStart(), t, 0);
    t := CheckNoCompletedPasses(EmptyStart(), t, 0);
    t := Inserts(EmptyStart(), t);
  }

  const RECEIPT := Mined("0xab", 12, "url", Some(GrantEvent(SOMEBODY, 1, 0)))

  /** The receipt is the transfer's own, and it succeeded. */
  lemma ReceiptAlone(s: State, tx: Tx)
    requires tx.id in s.db.requests && s.db.requests[tx.id].walletId in s.db.wallets
    requires tx.pc == AtReceipt(TRANSFER) && TRANSFER in s.mined && s.mined[TRANSFER]
    ensures var t, l := Alone(s, tx), Answer(0, RECEIPT);
      Enabled(t, l) && Apply(t, l) == Alone(s, Told(tx, ExecuteRelay(RECEIPT)))
  {
    var told := Told(tx, ExecuteRelay(RECEIPT));
    assert map[0 := tx][0 := told] == map[0 := told];
  }

  /** Broadcast and mined, with the worker at its receipt. */
  lemma Mines() returns (s: State, tx: Tx)
    ensures Reaches(EmptyStart(), Alone(s, tx)) && tx.pc == AtReceipt(TRANSFER) && tx.id == 100 && tx.env.relayId == 200
    ensures ReadyToRelay(s.(mempool := map[]), 100, 200) && At(SliceOf(s.db, 100), tx)
    ensures TRANSFER in s.mined && s.mined[TRANSFER] && TimesPaid(s.world, SOMEBODY) == 1
    ensures BalanceOf(s.world.balance, SOMEBODY) == 1 && BalanceOf(s.world.balance, C.VAULT) == 4
    ensures s.db.requests.Keys == {100} && s.db.wallets == map[WALLET := Wallet(SOMEBODY, false, 0, 0)]
  {
    var s0 := Posts();
    var tx0 := ReachesExecutor(EmptyStart(), s0, 100, 200);
    BroadcastAlone(s0, tx0);
    BroadcastingKeepsAssertion(SliceOf(s0.db, 100), tx0, TRANSFER);
    assert OwnTransfer(s0.db, tx0) == OWN;
    hide Reaches, Alone, Enabled, Apply, At, C.Perform;
    ReachesNext(EmptyStart(), Alone(s0, tx0), Broadcast(0, TRANSFER));
    var s1 := s0.(mempool := map[TRANSFER := OWN]);
    tx := tx0.(pc := AtReceipt(TRANSFER));
    LateMiningPays(s1);
    MiningMovesOne(s1);
    MineAlone(s1, tx);
    ReachesNext(EmptyStart(), Alone(s1, tx), Mine(TRANSFER, C.Return));
    s := MinedAt(s1, TRANSFER, C.Return);
  }

  lemma MiningMovesOne(s: State)
    requires s.world == OpenWorld() && s.account == WORKER && s.mempool == map[TRANSFER := OWN]
    ensures var w' := MinedAt(s, TRANSFER, C.Return).world;
      BalanceOf(w'.balance, SOMEBODY) == 1 && BalanceOf(w'.balance, C.VAULT) == 4
  {
    var recorded := C.Recorded(s.world, SOMEBODY, 1);
    var paid := C.Pay(recorded, C.VAULT, SOMEBODY, 1, C.Return);
    assert paid.error.None? && paid.world.balance == Move(recorded.balance, C.VAULT, SOMEBODY, 1);
    hide C.BooksOf;
  }

  lemma ReachesCompletedCommit(s0: State, s: State, told: Tx) returns (last: Tx)
    requires Reaches(s0, Alone(s, told)) && s.clock == 0
    requires told.id in s.db.requests && s.db.requests[told.id].walletId in s.db.wallets
    requires var slice := SliceOf(s.db, told.id);
      && Active(slice.relays) == {} && slice.request.status == Pending && slice.wallet == Some(false)
      && At(slice, told)
    requires told.pc == AtSettle && CountsAsSuccess(told.env.result)
    ensures Reaches(s0, Alone(s, last)) && last.id == told.id && last.env.relayId == told.env.relayId
    ensures last.env.result == told.env.result && At(SliceOf(s.db, told.id), last)
    ensures last.pc.AtCommit? && last.writes.relay.Some?
  {
    var slice := SliceOf(s.db, told.id);
    hide At, Step, Reaches, Alone, CountsAsSuccess;
    StatementsOfASuccess(slice, told);
    assert StepTimes(slice, told, 0) == told;
    hide StepTimes;
    forall i | 0 <= i < 3
      ensures AtStatement(StepTimes(slice, told, i).pc)
    {
      assert i == 0 || i == 1 || i == 2;
    }
    ReachesThrough(s0, s, told, 3);
    last := StepTimes(slice, told, 3);
  }

  lemma ToldOfReceipt(slice: Slice, tx: Tx)
    requires At(slice, tx) && tx.pc == AtReceipt(TRANSFER)
    ensures var told := Told(tx, ExecuteRelay(RECEIPT));
      && At(slice, told) && told.pc == AtSettle && told.id == tx.id && told.env.relayId == tx.env.relayId
      && told.env.result == ExecuteRelay(RECEIPT) && CountsAsSuccess(told.env.result)
  {
    TellingKeepsAssertion(slice, tx, ExecuteRelay(RECEIPT));
    SuccessExactly(RECEIPT);
    hide At, ExecuteRelay, CountsAsSuccess;
  }

  /**
   From empty tables: a wallet that registers and posts is paid by a transfer that is mined while the
   worker waits for its receipt, and its request ends completed, with everything in its relay row.
   */
  lemma SponsoredEndToEnd() returns (t: State)
    ensures Fresh(EmptyStart()) && Reaches(EmptyStart(), t)
    ensures t.db.requests.Keys == {100} && t.db.requests[100].status == Completed
    ensures t.db.relays.Keys == {200} && t.db.relays[200].status == Confirmed
            && t.db.relays[200].transactionHash == Some("0xab") && t.db.relays[200].blockNumber == Some(12)
            && t.db.relays[200].eventData == Some(GrantEvent(SOMEBODY, 1, 0))
    ensures WALLET in t.db.wallets && t.db.wallets[WALLET].sponsorshipCount == 1
            && t.db.wallets[WALLET].walletAddress == SOMEBODY
    ensures TimesPaid(t.world, SOMEBODY) == 1
    ensures BalanceOf(t.world.balance, SOMEBODY) == 1 && BalanceOf(t.world.balance, C.VAULT) == 4
  {
    EmptyStartIsFresh();
    var s, tx := Mines();
    var told := Told(tx, ExecuteRelay(RECEIPT));
    ReceiptAlone(s, tx);
    ToldOfReceipt(SliceOf(s.db, 100), tx);
    hide Fresh, Reaches, Alone, Enabled, Apply, At, ExecuteRelay, CountsAsSuccess, Told;
    ReachesNext(EmptyStart(), Alone(s, tx), Answer(0, RECEIPT));
    var last := ReachesCompletedCommit(EmptyStart(), s, told);
    CommitAlone(s, last);
    ReachesNext(EmptyStart(), Alone(s, last), CommitTx(0));
    t := Apply(Alone(s, last), CommitTx(0));
    CompletedRows(s.db, last);
  }

  lemma CompletedRows(db: Db, last: Tx)
    requires ForeignKeys(db) && last.id == 100 && last.env.relayId == 200 && 200 !in db.relays
    requires db.requests.Keys == {100} && db.requests[100].walletId == WALLET && RelaysOf(db.relays, 100) == map[]
    requires db.wallets == map[WALLET := Wallet(SOMEBODY, false, 0, 0)]
    requires At(SliceOf(db, 100), last) && last.pc.AtCommit? && last.writes.relay.Some?
    requires last.env.result == ExecuteRelay(RECEIPT)
    ensures var db' := Install(db, 100, last.writes);
      && db'.requests.Keys == {100} && db'.requests[100].status == Completed
      && db'.relays.Keys == {200} && TellsOf(db'.relays[200], RECEIPT)
      && WALLET in db'.wallets && db'.wallets[WALLET].sponsorshipCount == 1
      && db'.wallets[WALLET].walletAddress == SOMEBODY
  {
    assert TxCoherent(db, last);
    CommitDecides(db, last, RECEIPT);
    hide At, ExecuteRelay;
    assert forall k | k in db.relays :: db.relays[k].sponsorshipRequestId in db.requests.Keys;
    assert RelaysOf(db.relays, 100).Keys == db.relays.Keys;
    CommitIsAtomic(db, last);
    hide Process, ProcessSlice;
  }
}
