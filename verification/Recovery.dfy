/** What happens after a lost commit, and what a stale POST can do. */
module Recovery {
  import opened Ledger
  import opened Wrappers
  import opened Tables
  import opened Lifecycle
  import opened ContractClient
  import opened Processor
  import opened Protocol
  import opened Serializability
  import opened ChainSafety
  import C = Contracts
  import T = ContractTheorems

  /** A transfer to an address that is already sponsored, whenever it is mined, fails and pays nothing. */
  lemma SecondTransferPaysNothing(s: State, txId: TxId, callee: C.Code)
    requires ChainInv(s) && txId in s.mempool && C.IsSponsored(s.world, s.mempool[txId].recipient)
    ensures MinedAt(s, txId, callee).world == s.world && !MinedAt(s, txId, callee).mined[txId]
  {
    var t := s.mempool[txId];
    assert C.SponsorTransferCheck(s.world, s.account, t.recipient, t.amount).Some?;
    T.FailureChangesNothing(s.world, s.account, C.SponsorTransfer(t.recipient, t.amount, callee));
  }

  /** The error a retry meets: decodable AlreadySponsored data, and no network pattern in the message. */
  predicate RecoverableError(e: ThrownError) {
    e.AnError? && !MatchesNetworkPattern(e.message) && e.data.Decoded? && e.data.errorName == ALREADY_SPONSORED
  }

  lemma SponsoredIsPaidOnce(w: C.World, a: Address)
    requires C.Sound(w) && C.Settled(w) && C.IsSponsored(w, a)
    ensures TimesPaid(w, a) == 1
  {
    assert C.BooksOf(w.log).grantedTo[a] == multiset(w.sponsorshipCount.Keys)[a];
  }

  lemma SuccessfulCommitCompletes(db: Db, tx: Tx)
    requires ForeignKeys(db) && TxCoherent(db, tx) && tx.pc.AtCommit?
    requires tx.writes.relay.Some? && CountsAsSuccess(tx.env.result)
    ensures var db', walletId := Install(db, tx.id, tx.writes), db.requests[tx.id].walletId;
      && tx.env.relayId in db'.relays
      && db.requests[tx.id].status != Completed && db'.requests[tx.id].status == Completed
      && db'.wallets[walletId] == Incremented(db.wallets[walletId])
      && db'.relays[tx.env.relayId].status == Confirmed
  {
    CommitIsAtomic(db, tx);
  }

  lemma RecoverableCountsAsSuccess(e: ThrownError, hash: Option<string>)
    requires RecoverableError(e)
    ensures CountsAsSuccess(ExecuteRelay(Threw(e, hash)))
  {
    RecognisedExactly(e, hash);
  }

  ghost predicate CompletedAndPaidOnce(s: State, worker: WorkerId)
    requires OpenRow(s, worker)
  {
    var s', tx := Committed(s, worker), s.running[worker];
    var walletId := s.db.requests[tx.id].walletId;
    && s.db.requests[tx.id].status != Completed && s'.db.requests[tx.id].status == Completed
    && s'.db.wallets[walletId] == Incremented(s.db.wallets[walletId])
    && tx.env.relayId in s'.db.relays && s'.db.relays[tx.env.relayId].status == Confirmed
    && TimesPaid(s.world, RecipientOf(s.db, tx.id)) == TimesPaid(s'.world, RecipientOf(s.db, tx.id)) == 1
  }

  lemma ToldOfSuccess(s: State, worker: WorkerId)
    requires ChainInv(s) && OpenRow(s, worker) && CountsAsSuccess(s.running[worker].env.result)
    ensures TxCoherent(s.db, s.running[worker]) && ForeignKeys(s.db)
    ensures TimesPaid(s.world, RecipientOf(s.db, s.running[worker].id)) == 1
  {
    assert TxBacked(s, s.running[worker]);
    SponsoredIsPaidOnce(s.world, RecipientOf(s.db, s.running[worker].id));
  }

  lemma SuccessfulCommitIsPaidOnce(s: State, worker: WorkerId)
    requires OpenRow(s, worker) && s.running[worker].pc.AtCommit?
    requires s.running[worker].writes.relay.Some? && CountsAsSuccess(s.running[worker].env.result)
    requires TxCoherent(s.db, s.running[worker]) && ForeignKeys(s.db)
    requires TimesPaid(s.world, RecipientOf(s.db, s.running[worker].id)) == 1
    ensures CompletedAndPaidOnce(s, worker)
  {
    SuccessfulCommitCompletes(s.db, s.running[worker]);
  }

  /**
   Recovery: however an earlier attempt was lost, an attempt that meets such an error, of whatever
   text and length, and commits, completes the request, confirms its relay row, counts the wallet
   exactly once and leaves the recipient paid exactly once.
   */
  lemma LostCommitIsRecovered(s: State, ls: seq<Label>, worker: WorkerId, e: ThrownError, hash: Option<string>)
    requires Quiet(s) && Backed(s.db, s.world) && ValidRun(s, ls)
    requires OpenRow(After(s, ls), worker) && After(s, ls).running[worker].pc.AtCommit?
    requires After(s, ls).running[worker].writes.relay.Some?
    requires After(s, ls).running[worker].env.result == ExecuteRelay(Threw(e, hash)) && RecoverableError(e)
    ensures CompletedAndPaidOnce(After(s, ls), worker)
  {
    RunsKeepChain(s, ls);
    RecoverableCountsAsSuccess(e, hash);
    ToldOfSuccess(After(s, ls), worker);
    SuccessfulCommitIsPaidOnce(After(s, ls), worker);
  }

  // ---------------------------------------------------------------- a stale POST

  ghost predicate Reaches(s: State, t: State) {
    exists ls :: ValidRun(s, ls) && After(s, ls) == t
  }

  lemma ReachesItself(s: State)
    ensures Reaches(s, s)
  {
    assert ValidRun(s, []) && After(s, []) == s;
  }

  lemma ReachesNext(s: State, t: State, l: Label)
    requires Reaches(s, t) && Enabled(t, l)
    ensures Reaches(s, Apply(t, l))
  {
    var ls :| ValidRun(s, ls) && After(s, ls) == t;
    assert (ls + [l])[..|ls|] == ls;
    assert ValidRun(s, ls + [l]) && After(s, ls + [l]) == Apply(t, l);
  }

  const WALLET: WalletId := 7
  const SOMEBODY: Address := 9
  const WORKER: Address := 4

  /** A vault whose operator has already sponsored `SOMEBODY`. */
  function SponsoredWorld(): C.World {
    C.World(map[C.VAULT := 5], 3, WORKER, C.REGISTRY, 2, map[SOMEBODY := 1],
            [C.SponsorshipGranted(SOMEBODY, 1), C.SponsorshipExecuted(SOMEBODY, 1)])
  }

  function StaleStart(): State {
    State(WORKER, 0, Db(map[], map[], map[WALLET := Wallet(SOMEBODY, false, 0, 0)]), map[], map[], SponsoredWorld(),
          map[], map[], map[], [], map[], 0)
  }

  const REFUSED := Threw(AnError("", Decoded("AlreadySponsored", [])), None)

  lemma StaleStartIsFresh()
    ensures Fresh(StaleStart())
  {
    var w := SponsoredWorld();
    var g := C.SponsorshipGranted(SOMEBODY, 1);
    assert w.log[..1] == [g] && [g][..0] == [];
    assert C.BooksOf([g]) == C.Post(C.EMPTY_BOOKS, g);
    assert C.BooksOf(w.log) == C.Post(C.Post(C.EMPTY_BOOKS, g), C.SponsorshipExecuted(SOMEBODY, 1));
    assert w.sponsorshipCount.Keys == {SOMEBODY};
  }

  // One worker alone: its transaction's statements, one after another, on tables nobody else changes.

  function StepTimes(s: Slice, tx: Tx, n: nat): Tx
    requires Active(s.relays) == {}
  {
    if n == 0 then tx else Step(s, StepTimes(s, tx, n - 1), 0, 0)
  }

  function Alone(s: State, tx: Tx): State {
    s.(running := map[0 := tx])
  }

  lemma StatementAlone(s: State, tx: Tx)
    requires s.clock == 0 && AtStatement(tx.pc)
    requires tx.id in s.db.requests && s.db.requests[tx.id].walletId in s.db.wallets
    requires Active(RelaysOf(s.db.relays, tx.id)) == {}
    ensures var t, l := Alone(s, tx), Statement(0, 0);
      Enabled(t, l) && Apply(t, l) == Alone(s, Step(SliceOf(s.db, tx.id), tx, 0, 0))
  {
    hide Step, AtStatement;
    assert map[0 := tx][0 := Step(SliceOf(s.db, tx.id), tx, 0, 0)] == map[0 := Step(SliceOf(s.db, tx.id), tx, 0, 0)];
  }

  lemma ReachesAfterStatement(s0: State, s: State, tx: Tx)
    requires Reaches(s0, Alone(s, tx)) && s.clock == 0 && AtStatement(tx.pc)
    requires tx.id in s.db.requests && s.db.requests[tx.id].walletId in s.db.wallets
    requires Active(RelaysOf(s.db.relays, tx.id)) == {}
    ensures Reaches(s0, Alone(s, Step(SliceOf(s.db, tx.id), tx, 0, 0)))
  {
    hide Step, Reaches, Enabled, Apply, Alone;
    StatementAlone(s, tx);
    ReachesNext(s0, Alone(s, tx), Statement(0, 0));
  }

  lemma {:induction false} StepTimesKeeps(s: Slice, tx: Tx, n: nat)
    requires Active(s.relays) == {} && At(s, tx)
    requires forall i | 0 <= i < n :: AtStatement(StepTimes(s, tx, i).pc)
    ensures var last := StepTimes(s, tx, n);
      At(s, last) && last.id == tx.id && last.env.relayId == tx.env.relayId
      && last.env.result == tx.env.result && last.amount == tx.amount
  {
    hide At, Step;
    if n > 0 {
      var before := StepTimes(s, tx, n - 1);
      StepTimesKeeps(s, tx, n - 1);
      StepKeepsAssertion(s, before, 0, 0);
      StepKeepsIdentity(s, before, 0, 0);
      StatementKeepsResult(s, before, 0, 0);
    }
  }

  lemma {:induction false} ReachesAfterSteps(s0: State, s: State, slice: Slice, tx: Tx, n: nat)
    requires Reaches(s0, Alone(s, tx)) && s.clock == 0
    requires tx.id in s.db.requests && s.db.requests[tx.id].walletId in s.db.wallets && slice == SliceOf(s.db, tx.id)
    requires Active(slice.relays) == {}
    requires forall i | 0 <= i < n :: AtStatement(StepTimes(slice, tx, i).pc) && StepTimes(slice, tx, i).id == tx.id
    ensures Reaches(s0, Alone(s, StepTimes(slice, tx, n)))
  {
    hide Step, Reaches, Alone;
    if n > 0 {
      ReachesAfterSteps(s0, s, slice, tx, n - 1);
      ReachesAfterStatement(s0, s, StepTimes(slice, tx, n - 1));
    }
  }

  /** Seven statements from the lock to the relay executor, three from its answer to the commit. */
  lemma StatementsOfAnAttempt(s: Slice, tx: Tx)
    requires Active(s.relays) == {} && |s.relays| == 0 && s.request.status == Pending && s.wallet == Some(false)
    requires tx.pc == AtWallet && tx.writes == NO_WRITES && tx.env.maxRetries > 0
    ensures StepTimes(s, tx, 1).pc == AtGuard && StepTimes(s, tx, 2).pc == AtCount
    ensures StepTimes(s, tx, 3).pc == AtApprove && StepTimes(s, tx, 4).pc == AtCreate
    ensures StepTimes(s, tx, 5).pc == AtRelayed && StepTimes(s, tx, 6).pc == AtSubmit
    ensures StepTimes(s, tx, 7).pc == AtExecute
  {
    assert StepTimes(s, tx, 0) == tx;
    assert StepTimes(s, tx, 1) == Step(s, StepTimes(s, tx, 0), 0, 0);
    assert StepTimes(s, tx, 2) == Step(s, StepTimes(s, tx, 1), 0, 0);
    assert StepTimes(s, tx, 3) == Step(s, StepTimes(s, tx, 2), 0, 0);
    assert StepTimes(s, tx, 4) == Step(s, StepTimes(s, tx, 3), 0, 0);
    assert StepTimes(s, tx, 5) == Step(s, StepTimes(s, tx, 4), 0, 0);
    assert StepTimes(s, tx, 6) == Step(s, StepTimes(s, tx, 5), 0, 0);
  }

  lemma StatementsOfASuccess(s: Slice, tx: Tx)
    requires Active(s.relays) == {} && s.request.status == Pending && s.wallet == Some(false)
    requires At(s, tx) && tx.pc == AtSettle && CountsAsSuccess(tx.env.result)
    ensures StepTimes(s, tx, 1).pc == AtFinish && StepTimes(s, tx, 2).pc == AtIncrement
    ensures StepTimes(s, tx, 3).pc == AtCommit(Done(Completed)) && StepTimes(s, tx, 3).writes.relay.Some?
  {
    assert StepTimes(s, tx, 0) == tx;
    assert StepTimes(s, tx, 1) == Step(s, StepTimes(s, tx, 0), 0, 0);
    assert StepTimes(s, tx, 2) == Step(s, StepTimes(s, tx, 1), 0, 0);
  }

  /** A pending request of the wallet with no relay rows, nobody at work. */
  ghost predicate ReadyToRelay(s: State, id: RequestId, key: RelayId) {
    && s.running == map[] && s.abandoned == map[] && s.clock == 0 && ForeignKeys(s.db)
    && id in s.db.requests && s.db.requests[id] == NewRequest(WALLET, 0)
    && s.db.wallets.Keys == {WALLET} && s.db.wallets[WALLET].walletAddress == SOMEBODY
       && !s.db.wallets[WALLET].isBlocked
    && key !in s.db.relays && RelaysOf(s.db.relays, id) == map[]
    && (forall x | x in s.mempool :: s.mempool[x].attempt != key)
  }

  /** The same, for a wallet that the chain has already sponsored. */
  ghost predicate ReadyToComplete(s: State, id: RequestId, key: RelayId) {
    ReadyToRelay(s, id, key) && s.world == SponsoredWorld() && s.account == WORKER
  }

  lemma LockAlone(s: State, id: RequestId, key: RelayId)
    requires ReadyToRelay(s, id, key)
    ensures Enabled(s, Lock(0, id, 5, 1, key)) && Apply(s, Lock(0, id, 5, 1, key)) == Alone(s, Open(id, 5, 1, key))
    ensures At(SliceOf(s.db, id), Open(id, 5, 1, key))
  {
  }

  /** The first n statements of an attempt, all of them enabled. */
  lemma AttemptStatements(slice: Slice, tx: Tx, n: nat)
    requires Active(slice.relays) == {} && |slice.relays| == 0 && slice.request.status == Pending
             && slice.wallet == Some(false)
    requires tx.pc == AtWallet && tx.writes == NO_WRITES && tx.env.maxRetries > 0 && n <= 7
    ensures forall i | 0 <= i < n :: AtStatement(StepTimes(slice, tx, i).pc)
  {
    hide Step;
    StatementsOfAnAttempt(slice, tx);
    assert StepTimes(slice, tx, 0) == tx;
    hide StepTimes;
    forall i | 0 <= i < n
      ensures AtStatement(StepTimes(slice, tx, i).pc)
    {
      assert i == 0 || i == 1 || i == 2 || i == 3 || i == 4 || i == 5 || i == 6;
    }
  }

  /** Statements that are all enabled can be run one after another. */
  lemma ReachesThrough(s0: State, s: State, tx: Tx, n: nat)
    requires Reaches(s0, Alone(s, tx)) && s.clock == 0
    requires tx.id in s.db.requests && s.db.requests[tx.id].walletId in s.db.wallets
    requires var slice := SliceOf(s.db, tx.id);
             Active(slice.relays) == {} && At(slice, tx)
               && forall i | 0 <= i < n :: AtStatement(StepTimes(slice, tx, i).pc)
    ensures var last := StepTimes(SliceOf(s.db, tx.id), tx, n);
      && Reaches(s0, Alone(s, last)) && At(SliceOf(s.db, tx.id), last)
      && last.id == tx.id && last.env.relayId == tx.env.relayId
      && last.env.result == tx.env.result && last.amount == tx.amount
  {
    hide At, Step, Reaches, Alone, AtStatement;
    var slice := SliceOf(s.db, tx.id);
    forall i | 0 <= i < n
      ensures StepTimes(slice, tx, i).id == tx.id
    {
      StepTimesKeeps(slice, tx, i);
    }
    StepTimesKeeps(slice, tx, n);
    ReachesAfterSteps(s0, s, slice, tx, n);
  }

  lemma ReachesExecutor(s0: State, s: State, id: RequestId, key: RelayId) returns (tx: Tx)
    requires Reaches(s0, s) && ReadyToRelay(s, id, key)
    ensures Reaches(s0, Alone(s, tx)) && At(SliceOf(s.db, id), tx) && tx.pc == AtExecute
    ensures tx.id == id && tx.env.relayId == key && tx.amount == 1
  {
    var open := Open(id, 5, 1, key);
    LockAlone(s, id, key);
    hide At, Step, Reaches, Enabled, Apply, Alone, AtStatement, StepTimes;
    ReachesNext(s0, s, Lock(0, id, 5, 1, key));
    AttemptStatements(SliceOf(s.db, id), open, 7);
    StatementsOfAnAttempt(SliceOf(s.db, id), open);
    ReachesThrough(s0, s, open, 7);
    tx := StepTimes(SliceOf(s.db, id), open, 7);
  }

  lemma RefusalIsHonest(s: State, tx: Tx, id: RequestId, key: RelayId)
    requires ReadyToComplete(s, id, key) && tx.id == id
    ensures HonestAnswer(Alone(s, tx), tx, REFUSED)
    ensures CountsAsSuccess(ExecuteRelay(REFUSED))
  {
    assert C.Perform(s.world, WORKER, C.SponsorTransfer(SOMEBODY, 1, C.Return)).error
      == Some(C.AlreadySponsored(SOMEBODY));
    assert RefusedAsSponsored(s.world, WORKER, SOMEBODY);
    RecoverableCountsAsSuccess(REFUSED.error, None);
  }

  lemma ReachesTold(s0: State, s: State, id: RequestId, key: RelayId, waiting: Tx)
    requires Reaches(s0, Alone(s, waiting)) && ReadyToComplete(s, id, key) && waiting.id == id
             && waiting.pc == AtExecute
    ensures Reaches(s0, Alone(s, Told(waiting, ExecuteRelay(REFUSED))))
  {
    RefusalIsHonest(s, waiting, id, key);
    assert Alone(s, waiting).running[0] == waiting;
    ReachesNext(s0, Alone(s, waiting), Answer(0, REFUSED));
    AnsweredAlone(s, waiting);
  }

  lemma AnsweredAlone(s: State, waiting: Tx)
    requires waiting.id in s.db.requests && s.db.requests[waiting.id].walletId in s.db.wallets
    ensures Answered(Alone(s, waiting), 0, REFUSED) == Alone(s, Told(waiting, ExecuteRelay(REFUSED)))
  {
    var told := Told(waiting, ExecuteRelay(REFUSED));
    assert map[0 := waiting][0 := told] == map[0 := told];
  }

  lemma ReachesCommit(s0: State, s: State, id: RequestId, key: RelayId, told: Tx) returns (tx: Tx)
    requires Reaches(s0, Alone(s, told)) && ReadyToComplete(s, id, key)
    requires told.id == id && told.env.relayId == key && told.pc == AtSettle && At(SliceOf(s.db, id), told)
    requires CountsAsSuccess(told.env.result)
    ensures Reaches(s0, Alone(s, tx)) && tx.id == id && tx.env.relayId == key && At(SliceOf(s.db, id), tx)
    ensures tx.pc == AtCommit(Done(Completed)) && tx.writes.relay.Some? && CountsAsSuccess(tx.env.result)
  {
    hide At, Step, Reaches, Alone;
    var slice := SliceOf(s.db, id);
    StatementsOfASuccess(slice, told);
    assert StepTimes(slice, told, 0) == told;
    hide StepTimes;
    forall i | 0 <= i < 3
      ensures AtStatement(StepTimes(slice, told, i).pc)
    {
      assert i == 0 || i == 1 || i == 2;
    }
    ReachesThrough(s0, s, told, 3);
    tx := StepTimes(slice, told, 3);
  }

  /** One worker, told REFUSED, takes a pending request of the wallet to completed. */
  lemma CompletesOne(s0: State, s: State, id: RequestId, key: RelayId) returns (t: State)
    requires Reaches(s0, s) && ReadyToComplete(s, id, key)
    ensures Reaches(s0, t) && t == s.(db := t.db, history := t.history) && ForeignKeys(t.db)
    ensures id in t.db.requests && t.db.requests == s.db.requests[id := t.db.requests[id]]
    ensures t.db.requests[id].status == Completed && t.db.requests[id].walletId == WALLET
    ensures t.db.relays.Keys == s.db.relays.Keys + {key} && t.db.wallets.Keys == {WALLET}
    ensures t.db.wallets[WALLET] == Incremented(s.db.wallets[WALLET])
  {
    var waiting := ReachesExecutor(s0, s, id, key);
    ReachesTold(s0, s, id, key, waiting);
    RefusalIsHonest(s, waiting, id, key);
    TellingKeepsAssertion(SliceOf(s.db, id), waiting, ExecuteRelay(REFUSED));
    var tx := ReachesCommit(s0, s, id, key, Told(waiting, ExecuteRelay(REFUSED)));
    t := CommitsOne(s0, s, id, key, tx);
  }

  lemma CommitAlone(s: State, tx: Tx)
    requires tx.id in s.db.requests && s.db.requests[tx.id].walletId in s.db.wallets && tx.pc.AtCommit?
    ensures var t, l := Alone(s, tx), CommitTx(0);
      Enabled(t, l) && Apply(t, l) == s.(db := Install(s.db, tx.id, tx.writes), running := map[],
                                         history := s.history + [Processed(tx.id, tx.env)])
  {
    hide Install;
    assert map[0 := tx] - {0} == map[];
  }

  /** What that commit leaves in the tables. */
  lemma CommittedTables(db: Db, tx: Tx)
    requires ForeignKeys(db) && TxCoherent(db, tx) && db.wallets.Keys == {WALLET}
             && db.requests[tx.id].walletId == WALLET
    requires tx.pc.AtCommit? && tx.writes.relay.Some? && CountsAsSuccess(tx.env.result)
    ensures var db' := Install(db, tx.id, tx.writes);
      && ForeignKeys(db') && db'.requests == db.requests[tx.id := db'.requests[tx.id]]
      && db'.requests[tx.id].status == Completed && db'.requests[tx.id].walletId == WALLET
      && db'.relays.Keys == db.relays.Keys + {tx.env.relayId}
      && db'.wallets.Keys == {WALLET} && db'.wallets[WALLET] == Incremented(db.wallets[WALLET])
  {
    hide At, Process, ProcessSlice;
    SuccessfulCommitCompletes(db, tx);
    CommitIsAtomic(db, tx);
  }

  lemma CommitsOne(s0: State, s: State, id: RequestId, key: RelayId, tx: Tx) returns (t: State)
    requires Reaches(s0, Alone(s, tx)) && ReadyToComplete(s, id, key)
    requires tx.id == id && tx.env.relayId == key && At(SliceOf(s.db, id), tx)
    requires tx.pc.AtCommit? && tx.writes.relay.Some? && CountsAsSuccess(tx.env.result)
    ensures Reaches(s0, t) && t == s.(db := Install(s.db, id, tx.writes), history := t.history)
    ensures ForeignKeys(t.db)
    ensures t.db.requests == s.db.requests[id := t.db.requests[id]]
    ensures t.db.requests[id].status == Completed && t.db.requests[id].walletId == WALLET
    ensures t.db.relays.Keys == s.db.relays.Keys + {key} && t.db.wallets.Keys == {WALLET}
    ensures t.db.wallets[WALLET] == Incremented(s.db.wallets[WALLET])
  {
    assert TxCoherent(s.db, tx);
    hide Reaches, Alone, Enabled, Apply, At, TxCoherent, Install, CountsAsSuccess;
    CommitAlone(s, tx);
    ReachesNext(s0, Alone(s, tx), CommitTx(0));
    t := Apply(Alone(s, tx), CommitTx(0));
    CommittedTables(s.db, tx);
  }

  lemma CheckNoActivePasses(s0: State, s: State, post: PostId) returns (t: State)
    requires Reaches(s0, s) && s.db == StaleStart().db && post !in s.posts
    ensures t == s.(posts := s.posts[post := Post(WALLET, false)]) && Reaches(s0, t)
  {
    hide Reaches;
    ReachesNext(s0, s, CheckNoActive(post, WALLET));
    t := Apply(s, CheckNoActive(post, WALLET));
  }

  lemma CheckNoCompletedPasses(s0: State, s: State, post: PostId) returns (t: State)
    requires Reaches(s0, s) && s.db == StaleStart().db && post in s.posts && s.posts[post].walletId == WALLET
    ensures t == s.(posts := s.posts[post := Post(WALLET, true)]) && Reaches(s0, t)
  {
    hide Reaches;
    ReachesNext(s0, s, CheckNoCompleted(post));
    t := Apply(s, CheckNoCompleted(post));
  }

  /** Both POSTs pass both checks before either inserts. */
  lemma BothChecksPass() returns (t: State)
    ensures Reaches(StaleStart(), t)
    ensures t == StaleStart().(posts := map[0 := Post(WALLET, true), 1 := Post(WALLET, true)])
  {
    ReachesItself(StaleStart());
    hide Reaches;
    t := CheckNoActivePasses(StaleStart(), StaleStart(), 0);
    t := CheckNoActivePasses(StaleStart(), t, 1);
    t := CheckNoCompletedPasses(StaleStart(), t, 0);
    t := CheckNoCompletedPasses(StaleStart(), t, 1);
  }

  /** The first POST inserts and its request completes; the second POST still holds its checks. */
  lemma FirstCompletes() returns (t: State)
    ensures Reaches(StaleStart(), t) && ForeignKeys(t.db)
    ensures t == StaleStart().(db := t.db, posts := t.posts, history := t.history, staleInserts := t.staleInserts)
    ensures 1 in t.posts && t.posts[1] == Post(WALLET, true)
    ensures t.db.requests.Keys == {100} && t.db.requests[100].status == Completed
            && t.db.requests[100].walletId == WALLET
    ensures t.db.relays.Keys == {200} && t.db.wallets == map[WALLET := Wallet(SOMEBODY, false, 1, 0)]
  {
    hide At, Install, Reaches;
    var s4 := BothChecksPass();
    ReachesNext(StaleStart(), s4, InsertRequest(0, 100));
    var s5 := InsertedAt(s4, 0, 100);
    assert ReadyToComplete(s5, 100, 200);
    t := CompletesOne(StaleStart(), s5, 100, 200);
  }

  lemma SecondIsReady(s: State)
    requires ForeignKeys(s.db) && 1 in s.posts && s.posts[1] == Post(WALLET, true)
    requires s == StaleStart().(db := s.db, posts := s.posts, history := s.history, staleInserts := s.staleInserts)
    requires s.db.requests.Keys == {100} && s.db.requests[100].status == Completed
    requires s.db.relays.Keys == {200} && s.db.wallets == map[WALLET := Wallet(SOMEBODY, false, 1, 0)]
    ensures Enabled(s, InsertRequest(1, 101)) && ReadyToComplete(InsertedAt(s, 1, 101), 101, 201)
  {
    var t := InsertedAt(s, 1, 101);
    assert s.db.relays[200].sponsorshipRequestId == 100;
    assert RelaysOf(t.db.relays, 101) == map[];
    assert t.db.requests.Keys == {100, 101};
  }

  /**
   Two POSTs that both passed their checks before either inserted: the index lets the second insert
   in once the first request has completed, and the wallet ends with two completed requests, though
   it is paid only once. `InsertKeepsAtMostOneExactly` is the exact condition.
   */
  lemma StalePostsCanBothComplete() returns (t: State)
    ensures Fresh(StaleStart()) && Reaches(StaleStart(), t)
    ensures 100 in t.db.requests && t.db.requests[100].status == Completed && t.db.requests[100].walletId == WALLET
    ensures 101 in t.db.requests && t.db.requests[101].status == Completed && t.db.requests[101].walletId == WALLET
    ensures WALLET in t.db.wallets && t.db.wallets[WALLET].sponsorshipCount == 2 && TimesPaid(t.world, SOMEBODY) == 1
  {
    StaleStartIsFresh();
    SponsoredIsPaidOnce(SponsoredWorld(), SOMEBODY);
    var s6 := FirstCompletes();
    SecondIsReady(s6);
    ReachesNext(StaleStart(), s6, InsertRequest(1, 101));
    t := CompletesOne(StaleStart(), InsertedAt(s6, 1, 101), 101, 201);
  }
}
