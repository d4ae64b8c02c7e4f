/**
 Safety across worker, database and chain, over every run: each address is paid at most once, and
 whatever the committed tables call completed or confirmed has been paid exactly once.
 */
module ChainSafety {
  import opened Ledger
  import opened Wrappers
  import opened Tables
  import opened ContractClient
  import opened Processor
  import opened ProcessTheorems
  import opened Protocol
  import opened Serializability
  import C = Contracts
  import T = ContractTheorems

  /** Every completed request and every confirmed relay row is backed by the chain. */
  ghost predicate Backed(db: Db, w: C.World)
    requires ForeignKeys(db)
  {
    && (forall r | r in db.requests && db.requests[r].status == Completed :: C.IsSponsored(w, RecipientOf(db, r)))
    && (forall k | k in db.relays && db.relays[k].status == Confirmed ::
          C.IsSponsored(w, RecipientOf(db, db.relays[k].sponsorshipRequestId)))
  }

  /**
   A transaction that was told of success was told so about a sponsored address, and whatever has been
   broadcast for its attempt, or will be by the executor it left behind, is its own transfer.
   */
  ghost predicate TxBacked(s: State, tx: Tx)
    requires tx.id in s.db.requests && s.db.requests[tx.id].walletId in s.db.wallets
  {
    && (CountsAsSuccess(tx.env.result) ==> C.IsSponsored(s.world, RecipientOf(s.db, tx.id)))
    && (tx.pc.AtReceipt? ==> tx.pc.txId in s.mempool && s.mempool[tx.pc.txId].attempt == tx.env.relayId)
    && (forall x | x in s.mempool && s.mempool[x].attempt == tx.env.relayId :: s.mempool[x] == OwnTransfer(s.db, tx))
    && (tx.env.relayId in s.abandoned ==> s.abandoned[tx.env.relayId] == OwnTransfer(s.db, tx))
  }

  ghost predicate ChainInv(s: State) {
    && Coherent(s)
    && T.IsAccount(s.account) && C.Sound(s.world) && C.Settled(s.world)
    && (forall k | k in s.abandoned :: s.abandoned[k].attempt == k)
    && (forall x | x in s.mined :: x in s.mempool && (s.mined[x] ==> C.IsSponsored(s.world, s.mempool[x].recipient)))
    && Backed(s.db, s.world)
    && (forall w | w in s.running :: TxBacked(s, s.running[w]))
  }

  lemma BackedAdvances(db: Db, w: C.World, w': C.World)
    requires ForeignKeys(db) && Backed(db, w) && C.Follows(w, w')
    ensures Backed(db, w')
  {
    hide C.Follows, C.IsSponsored, RecipientOf;
    forall a | C.IsSponsored(w, a)
      ensures C.IsSponsored(w', a)
    {
      T.SponsoredStays(w, w', a);
    }
  }

  /** Backing looks at the recipient, the broadcasts and who is sponsored. */
  lemma BackingIsKept(s: State, s': State, tx: Tx)
    requires tx.id in s.db.requests && s.db.requests[tx.id].walletId in s.db.wallets && TxBacked(s, tx)
    requires tx.id in s'.db.requests && s'.db.requests[tx.id].walletId in s'.db.wallets
    requires RecipientOf(s'.db, tx.id) == RecipientOf(s.db, tx.id)
    requires s'.mempool == s.mempool && s'.abandoned == s.abandoned
    requires forall a | C.IsSponsored(s.world, a) :: C.IsSponsored(s'.world, a)
    ensures TxBacked(s', tx)
  {
    hide RecipientOf, CountsAsSuccess, C.IsSponsored;
  }

  lemma WorldAdvances(s: State, s': State, w': C.World)
    requires ChainInv(s) && C.Follows(s.world, w') && C.Settled(w')
    requires s' == s.(world := w', mined := s'.mined)
    requires forall x | x in s'.mined ::
               && x in s'.mempool
               && (s'.mined[x] ==> (x in s.mined && s.mined[x]) || C.IsSponsored(w', s'.mempool[x].recipient))
    ensures ChainInv(s')
  {
    assert C.Sound(w');
    SameTablesKeepCoherence(s, s');
    assert ForeignKeys(s.db);
    hide C.Sound, C.Settled, C.Follows, C.IsSponsored, Coherent;
    BackedAdvances(s.db, s.world, w');
    hide Backed, TxBacked;
    forall a | C.IsSponsored(s.world, a)
      ensures C.IsSponsored(w', a)
    {
      T.SponsoredStays(s.world, w', a);
    }
    forall w | w in s'.running
      ensures TxBacked(s', s'.running[w])
    {
      BackingIsKept(s, s', s.running[w]);
    }
  }

  lemma MineKeepsChain(s: State, txId: TxId, callee: C.Code)
    requires ChainInv(s) && txId in s.mempool && txId !in s.mined
    ensures ChainInv(MinedAt(s, txId, callee))
  {
    hide At;
    var t := s.mempool[txId];
    var call := C.SponsorTransfer(t.recipient, t.amount, callee);
    T.TransactionSettles(s.world, T.Transaction(s.account, call));
    if C.Perform(s.world, s.account, call).error.None? {
      T.TransferSponsors(s.world, s.account, t.recipient, t.amount, callee);
    }
    WorldAdvances(s, MinedAt(s, txId, callee), C.Perform(s.world, s.account, call).world);
  }

  lemma RefusalMeansSponsored(w: C.World, account: Address, recipient: Address)
    requires C.Sound(w) && RefusedAsSponsored(w, account, recipient)
    ensures C.IsSponsored(w, recipient)
  {
    hide C.Perform, C.Sound, C.IsSponsored;
    var amount: nat :| C.Perform(w, account, C.SponsorTransfer(recipient, amount, C.Return)).error
                       == Some(C.AlreadySponsored(recipient));
    T.AlreadySponsoredExactly(w, account, recipient, amount, C.Return);
  }

  lemma TruthfulRefusal(w: C.World, account: Address, recipient: Address, e: ThrownError, hash: Option<string>)
    requires HonestError(w, account, recipient, e) && CountsAsSuccess(ExecuteRelay(Threw(e, hash)))
    ensures RefusedAsSponsored(w, account, recipient)
  {
    hide RefusedAsSponsored, MatchesNetworkPattern, StartsWith, IsAlreadySponsoredError, HandleExecutionError;
    RecognisedExactly(e, hash);
  }

  /** What a truthful answer proves: success, or a recognised AlreadySponsored, means a sponsored address. */
  lemma HonestSuccessIsBacked(s: State, tx: Tx, answer: RelayAnswer)
    requires ChainInv(s) && tx.id in s.db.requests && TxBacked(s, tx)
    requires HonestAnswer(s, tx, answer) && CountsAsSuccess(ExecuteRelay(answer))
    ensures C.IsSponsored(s.world, RecipientOf(s.db, tx.id))
  {
    var recipient := RecipientOf(s.db, tx.id);
    hide At, Coherent, C.Sound, C.Settled, Backed;
    if answer.Threw? {
      hide CountsAsSuccess, C.IsSponsored, HonestError, ExecuteRelay;
      TruthfulRefusal(s.world, s.account, recipient, answer.error, answer.broadcastHash);
      RefusalMeansSponsored(s.world, s.account, recipient);
    } else {
      hide StartsWith, IsAlreadySponsoredError, C.IsSponsored, HonestError;
      OtherAnswersNotRecognised(answer);
    }
  }

  lemma RunningUpdateKeepsChain(s: State, s': State, worker: WorkerId, tx: Tx)
    requires ChainInv(s) && Coherent(s')
    requires s' == s.(running := s.running[worker := tx], mempool := s'.mempool, abandoned := s'.abandoned)
    requires forall x | x in s.mempool :: x in s'.mempool && s'.mempool[x] == s.mempool[x]
    requires forall x | x in s'.mempool && x !in s.mempool :: s'.mempool[x].attempt == tx.env.relayId
    requires forall k | k in s'.abandoned && k != tx.env.relayId ::
               k in s.abandoned && s'.abandoned[k] == s.abandoned[k]
    requires tx.id in s'.db.requests && TxBacked(s', tx)
    ensures ChainInv(s')
  {
    hide At, C.Sound, CountsAsSuccess, C.IsSponsored;
    forall w | w in s'.running
      ensures TxBacked(s', s'.running[w])
    {
      if w != worker {
        assert TxBacked(s, s.running[w]);
        assert s'.running[worker] == tx && s'.running[w].env.relayId != tx.env.relayId;
      }
    }
  }

  /** A commit completes a request only on a confirmed relay row or on a success it was told of. */
  lemma CommitIsBacked(db: Db, tx: Tx, w: C.World)
    requires ForeignKeys(db) && Backed(db, w) && TxCoherent(db, tx) && tx.pc.AtCommit?
    requires CountsAsSuccess(tx.env.result) ==> C.IsSponsored(w, RecipientOf(db, tx.id))
    ensures WellShaped(tx.id, SliceOf(db, tx.id), tx.env, tx.writes)
    ensures EnvFits(db, tx.id, tx.env)
    ensures tx.writes.increment ==> C.IsSponsored(w, RecipientOf(db, tx.id))
  {
    hide At, Process, ProcessSlice, Install;
    CommitIsAtomic(db, tx);
    if tx.writes.increment && tx.writes.relay.None? {
      var k := tx.env.pick;
      assert k in db.relays && db.relays[k].sponsorshipRequestId == tx.id && db.relays[k].status == Confirmed;
    }
  }

  lemma InstallKeepsRecipients(db: Db, id: RequestId, env: Env, w: Writes)
    requires ForeignKeys(db) && id in db.requests && env.relayId !in db.relays
             && WellShaped(id, SliceOf(db, id), env, w)
    ensures ForeignKeys(Install(db, id, w))
    ensures forall r | r in db.requests :: RecipientOf(Install(db, id, w), r) == RecipientOf(db, r)
  {
  }

  lemma CommitKeepsBacked(db: Db, tx: Tx, w: C.World)
    requires ForeignKeys(db) && Backed(db, w) && TxCoherent(db, tx) && tx.pc.AtCommit?
    requires CountsAsSuccess(tx.env.result) ==> C.IsSponsored(w, RecipientOf(db, tx.id))
    ensures ForeignKeys(Install(db, tx.id, tx.writes)) && Backed(Install(db, tx.id, tx.writes), w)
    ensures forall r | r in db.requests :: RecipientOf(Install(db, tx.id, tx.writes), r) == RecipientOf(db, r)
  {
    hide At, CountsAsSuccess, C.IsSponsored;
    CommitIsBacked(db, tx, w);
    InstallKeepsRecipients(db, tx.id, tx.env, tx.writes);
    hide ForeignKeys, TxCoherent, RecipientOf;
  }

  lemma CommitKeepsChain(s: State, worker: WorkerId)
    requires ChainInv(s) && OpenRow(s, worker) && s.running[worker].pc.AtCommit?
    ensures ChainInv(Committed(s, worker))
  {
    hide At, C.Sound, CountsAsSuccess, C.IsSponsored, Install;
    var s' := Committed(s, worker);
    CommitKeepsBacked(s.db, s.running[worker], s.world);
    CommitKeepsCoherence(s, worker);
    hide Backed, TxBacked;
    forall w | w in s'.running
      ensures TxBacked(s', s'.running[w])
    {
      assert w in s.running;
      BackingIsKept(s, s', s.running[w]);
    }
  }

  /** The steps that leave tables, chain and open transactions as they are, but for one that ends. */
  lemma ElsewhereKeepsChain(s: State, s': State)
    requires ChainInv(s) && Coherent(s')
    requires s'.db == s.db && s'.world == s.world && s'.account == s.account && s'.mined == s.mined
    requires forall w | w in s'.running :: w in s.running && s'.running[w] == s.running[w]
    requires forall w | w in s'.running && s'.running[w].env.relayId in s'.abandoned ::
               var k := s'.running[w].env.relayId;
               k in s.abandoned && s'.abandoned[k] == s.abandoned[k]
    requires forall k | k in s'.abandoned :: s'.abandoned[k].attempt == k
    requires forall x | x in s.mempool :: x in s'.mempool && s'.mempool[x] == s.mempool[x]
    requires forall x | x in s'.mempool && x !in s.mempool ::
               var k := s'.mempool[x].attempt; k in s.abandoned && s'.mempool[x] == s.abandoned[k]
    ensures ChainInv(s')
  {
    hide At, C.Sound;
    forall w | w in s'.running
      ensures TxBacked(s', s'.running[w])
    {
      assert TxBacked(s, s.running[w]);
    }
  }

  /** An answer changes its own transaction, and leaves its executor behind at most. */
  lemma AnswerLeaves(s: State, l: Label)
    requires Enabled(s, l) && l.Answer?
    ensures OpenRow(s, l.worker) && HonestAnswer(s, s.running[l.worker], l.answer)
    ensures var s', tx := Apply(s, l), s.running[l.worker];
      && s' == s.(running := s.running[l.worker := Told(tx, ExecuteRelay(l.answer))], abandoned := s'.abandoned)
      && (s'.abandoned == s.abandoned || s'.abandoned == s.abandoned[tx.env.relayId := OwnTransfer(s.db, tx)])
  {
    hide HonestAnswer, ExecuteRelay, Told;
  }

  lemma AnswerKeepsChain(s: State, l: Label)
    requires ChainInv(s) && Enabled(s, l) && l.Answer? && Coherent(Apply(s, l))
    ensures ChainInv(Apply(s, l))
  {
    hide At, Coherent, C.Sound, ExecuteRelay, HonestAnswer, CountsAsSuccess, Enabled, Apply;
    AnswerLeaves(s, l);
    var tx := s.running[l.worker];
    if CountsAsSuccess(ExecuteRelay(l.answer)) {
      HonestSuccessIsBacked(s, tx, l.answer);
    }
    assert TxBacked(s, tx);
    RunningUpdateKeepsChain(s, Apply(s, l), l.worker, Told(tx, ExecuteRelay(l.answer)));
  }

  lemma StatementKeepsChain(s: State, l: Label)
    requires ChainInv(s) && Enabled(s, l) && l.Statement? && Coherent(Apply(s, l))
    ensures ChainInv(Apply(s, l))
  {
    hide At, Coherent, C.Sound, Step;
    var tx := s.running[l.worker];
    var slice := SliceOf(s.db, tx.id);
    StatementKeepsResult(slice, tx, s.clock, l.pick);
    StepKeepsIdentity(slice, tx, s.clock, l.pick);
    RunningUpdateKeepsChain(s, Apply(s, l), l.worker, Step(slice, tx, s.clock, l.pick));
  }

  lemma TablesGrowKeepsChain(s: State, s': State)
    requires ChainInv(s) && Coherent(s') && SlicesKept(s.db, s'.db)
    requires s' == s.(db := s'.db, posts := s'.posts, history := s'.history, reregistrations := s'.reregistrations,
                      staleInserts := s'.staleInserts)
    requires forall w | w in s.db.wallets ::
               w in s'.db.wallets && s'.db.wallets[w].walletAddress == s.db.wallets[w].walletAddress
    requires forall r | r in s'.db.requests && r !in s.db.requests :: s'.db.requests[r].status != Completed
    ensures ChainInv(s')
  {
    hide At, C.Sound, TxBacked;
    assert forall r | r in s.db.requests :: SliceOf(s'.db, r).request == SliceOf(s.db, r).request;
    assert forall r | r in s.db.requests :: RecipientOf(s'.db, r) == RecipientOf(s.db, r);
    forall w | w in s'.running
      ensures TxBacked(s', s'.running[w])
    {
      BackingIsKept(s, s', s.running[w]);
    }
  }

  lemma StatementKeepsResult(s: Slice, tx: Tx, now: Time, pick: RelayId)
    requires Active(s.relays) != {} ==> pick in Active(s.relays)
    requires !tx.pc.AtReceipt?
    ensures Step(s, tx, now, pick).env.result == tx.env.result && !Step(s, tx, now, pick).pc.AtReceipt?
    ensures Step(s, tx, now, pick).amount == tx.amount
  {
  }

  lemma ApiKeepsChain(s: State, l: Label)
    requires ChainInv(s) && Enabled(s, l) && Coherent(Apply(s, l))
    requires l.RegisterWallet? || l.InsertRequest?
    ensures ChainInv(Apply(s, l))
  {
    hide At, TxCoherent, C.Sound, Backed, TxBacked, SlicesKept;
    if l.RegisterWallet? {
      RegisterKeepsSlices(s, l.walletId, l.address);
    } else {
      InsertKeepsSlices(s.db, l.id, NewRequest(s.posts[l.post].walletId, s.clock));
    }
    hide Coherent;
    TablesGrowKeepsChain(s, Apply(s, l));
  }

  lemma LockKeepsChain(s: State, l: Label)
    requires ChainInv(s) && Enabled(s, l) && l.Lock? && Coherent(Apply(s, l))
    ensures ChainInv(Apply(s, l))
  {
    var tx := Open(l.id, l.maxRetries, l.amount, l.key);
    assert tx.id in s.db.requests && s.db.requests[tx.id].walletId in s.db.wallets;
    assert TxBacked(s, tx);
    hide At, Coherent, C.Sound, TxBacked, Backed, CountsAsSuccess;
    RunningUpdateKeepsChain(s, Apply(s, l), l.worker, tx);
  }

  lemma BroadcastKeepsChain(s: State, l: Label)
    requires ChainInv(s) && Enabled(s, l) && l.Broadcast? && Coherent(Apply(s, l))
    ensures ChainInv(Apply(s, l))
  {
    hide At, Coherent, C.Sound, CountsAsSuccess;
    RunningUpdateKeepsChain(s, Apply(s, l), l.worker,
      s.running[l.worker].(pc := AtReceipt(l.txId)));
  }

  lemma AbandonedAreTagged(s: State)
    requires ChainInv(s)
    ensures forall k | k in s.abandoned :: s.abandoned[k].attempt == k
  {
    hide Coherent, C.Sound, C.Settled, Backed, TxBacked;
  }

  /** Waiting, checking and abandoned executors leave the chain and every told result alone. */
  lemma RestKeepsChain(s: State, l: Label)
    requires ChainInv(s) && Enabled(s, l) && Coherent(Apply(s, l))
    requires l.Tick? || l.CheckNoActive? || l.CheckNoCompleted? || l.LateBroadcast?
    ensures ChainInv(Apply(s, l))
  {
    hide ChainInv, Coherent, C.Perform, IndexAllows;
    AbandonedAreTagged(s);
    ElsewhereKeepsChain(s, Apply(s, l));
  }

  lemma ChainIsCoherent(s: State)
    requires ChainInv(s)
    ensures Coherent(s)
  {
    hide Coherent;
  }

  lemma AbortStepIs(s: State, l: Label)
    requires Enabled(s, l) && l.AbortTx?
    ensures l.worker in s.running
    ensures var s' := Apply(s, l);
      && s'.db == s.db && s'.world == s.world && s'.account == s.account
      && s'.mined == s.mined && s'.mempool == s.mempool
      && s'.running == s.running - {l.worker}
      && (forall k | k in s'.abandoned ::
            || (k in s.abandoned && s'.abandoned[k] == s.abandoned[k])
            || (k == s.running[l.worker].env.relayId && s'.abandoned[k].attempt == k))
  {
    hide RecipientOf;
  }

  lemma AbortKeepsChain(s: State, l: Label)
    requires ChainInv(s) && Enabled(s, l) && l.AbortTx? && Coherent(Apply(s, l))
    ensures ChainInv(Apply(s, l))
  {
    hide ChainInv, TxCoherent, ForeignKeys, Enabled, Apply;
    AbortStepIs(s, l);
    ChainIsCoherent(s);
    AbandonedAreTagged(s);
    var s' := Apply(s, l);
    forall w | w in s'.running
      ensures s.running[w].env.relayId != s.running[l.worker].env.relayId
    {
      assert w in s.running && w != l.worker;
    }
    hide Coherent;
    ElsewhereKeepsChain(s, s');
  }

  lemma MineStepKeepsChain(s: State, l: Label)
    requires ChainInv(s) && Enabled(s, l) && l.Mine?
    ensures ChainInv(Apply(s, l))
  {
    hide ChainInv, C.Perform;
    MineKeepsChain(s, l.txId, l.callee);
  }

  lemma TransactKeepsChain(s: State, l: Label)
    requires ChainInv(s) && Enabled(s, l) && l.Transact?
    ensures ChainInv(Apply(s, l))
  {
    hide At, Coherent, C.Perform;
    T.TransactionSettles(s.world, l.tx);
    hide C.Sound, C.Settled, C.Follows, TxBacked, Backed;
    WorldAdvances(s, Apply(s, l), C.Perform(s.world, l.tx.sender, l.tx.call).world);
  }

  lemma StepKeepsChain(s: State, l: Label)
    requires ChainInv(s) && Enabled(s, l)
    ensures ChainInv(Apply(s, l))
  {
    hide ChainInv, Coherent, Enabled, Apply;
    ChainIsCoherent(s);
    StepKeepsCoherence(s, l);
    match l
    case RegisterWallet(_, _) => ApiKeepsChain(s, l);
    case InsertRequest(_, _) => ApiKeepsChain(s, l);
    case Lock(_, _, _, _, _) => LockKeepsChain(s, l);
    case Broadcast(_, _) => BroadcastKeepsChain(s, l);
    case Statement(_, _) => StatementKeepsChain(s, l);
    case Answer(_, _) => AnswerKeepsChain(s, l);
    case CommitTx(worker) =>
      CommitStepIs(s, l);
      CommitKeepsChain(s, worker);
    case Mine(_, _) => MineStepKeepsChain(s, l);
    case Transact(_) => TransactKeepsChain(s, l);
    case AbortTx(_) => AbortKeepsChain(s, l);
    case _ => RestKeepsChain(s, l);
  }

  lemma {:induction false} RunsKeepChain(s: State, ls: seq<Label>)
    requires Quiet(s) && Backed(s.db, s.world) && ValidRun(s, ls)
    ensures ChainInv(After(s, ls))
    decreases |ls|
  {
    hide At, C.Sound, Enabled, Apply;
    if ls != [] {
      RunsKeepChain(s, ls[..|ls| - 1]);
      StepKeepsChain(After(s, ls[..|ls| - 1]), ls[|ls| - 1]);
    }
  }

  function TimesPaid(w: C.World, a: Address): nat {
    C.BooksOf(w.log).executedTo[a]
  }

  /**
   Over every run, with rollbacks, crashes, lock timeouts, abandoned executors and transfers mined
   at any later time: no address is ever paid twice, and every committed completed request and
   every committed confirmed relay row belongs to a wallet whose on-chain count is exactly 1 and
   which has been paid exactly once.
   */
  lemma PaidExactlyOnce(s: State, ls: seq<Label>)
    requires Quiet(s) && Backed(s.db, s.world) && ValidRun(s, ls)
    ensures var t := After(s, ls);
      && Coherent(t)
      && (forall a :: TimesPaid(t.world, a) == C.SponsorshipCount(t.world, a) <= 1)
      && (forall r | r in t.db.requests && t.db.requests[r].status == Completed ::
            var a := t.db.wallets[t.db.requests[r].walletId].walletAddress;
            TimesPaid(t.world, a) == C.SponsorshipCount(t.world, a) == 1)
      && (forall k | k in t.db.relays && t.db.relays[k].status == Confirmed ::
            var a := t.db.wallets[t.db.requests[t.db.relays[k].sponsorshipRequestId].walletId].walletAddress;
            TimesPaid(t.world, a) == C.SponsorshipCount(t.world, a) == 1)
  {
    RunsKeepChain(s, ls);
    var t := After(s, ls);
    forall a
      ensures TimesPaid(t.world, a) == C.SponsorshipCount(t.world, a) <= 1
    {
      assert C.BooksOf(t.world.log).grantedTo[a] == multiset(t.world.sponsorshipCount.Keys)[a];
    }
  }
}
