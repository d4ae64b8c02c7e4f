/**
 What becomes of the transfers of an attempt that is committed, or of a request that has ended: exactly
 when one can still be executed, and exactly when one has paid or can still pay.
 */
module LateTransfers {
  import opened Ledger
  import opened Tables
  import opened ContractClient
  import opened Processor
  import opened Protocol
  import opened Serializability
  import opened ChainSafety
  import opened Payability
  import opened TableSafety
  import C = Contracts
  import T = ContractTheorems

  // ---------------------------------------------------------------- verdicts

  /** Nothing that has been broadcast or mined changes. */
  ghost predicate ChainRemembers(s: State, s': State) {
    && (forall x | x in s.mempool :: x in s'.mempool && s'.mempool[x] == s.mempool[x])
    && (forall x | x in s.mined :: x in s'.mined && s'.mined[x] == s.mined[x])
  }

  /** The steps that touch neither what is broadcast or mined nor the executors left behind. */
  predicate LeavesTransfers(l: Label) {
    !l.Broadcast? && !l.LateBroadcast? && !l.Mine? && !l.Answer? && !l.AbortTx?
  }

  ghost predicate SameTransfers(s: State, s': State) {
    s'.mempool == s.mempool && s'.mined == s.mined && s'.abandoned == s.abandoned
  }

  lemma ElsewhereLeavesTransfers(s: State, l: Label)
    requires Enabled(s, l) && Elsewhere(l) && LeavesTransfers(l)
    ensures SameTransfers(s, Apply(s, l))
  {
    hide C.Perform;
  }

  lemma TableWritesLeaveTransfers(s: State, l: Label)
    requires Enabled(s, l) && WritesTables(l)
    ensures SameTransfers(s, Apply(s, l))
  {
    hide Install, Register, Enabled, Apply;
    match l
    case RegisterWallet(_, _) => RegisterStepIs(s, l);
    case InsertRequest(_, _) => InsertStepIs(s, l);
    case CommitTx(_) => CommitStepIs(s, l);
  }

  lemma StatementsLeaveTransfers(s: State, l: Label)
    requires Enabled(s, l) && (l.Lock? || l.Statement?)
    ensures SameTransfers(s, Apply(s, l))
  {
    hide Step;
  }

  lemma OtherStepsLeaveTransfers(s: State, l: Label)
    requires Enabled(s, l) && LeavesTransfers(l)
    ensures SameTransfers(s, Apply(s, l))
  {
    hide Enabled, Apply;
    if Elsewhere(l) {
      ElsewhereLeavesTransfers(s, l);
    } else if WritesTables(l) {
      TableWritesLeaveTransfers(s, l);
    } else {
      StatementsLeaveTransfers(s, l);
    }
  }

  /** An answer or a rollback leaves at most its own executor behind, and only before it has broadcast. */
  lemma EndingLeavesBehind(s: State, l: Label)
    requires Enabled(s, l) && (l.Answer? || l.AbortTx?)
    ensures OpenRow(s, l.worker)
    ensures var s', tx := Apply(s, l), s.running[l.worker];
      && s'.mempool == s.mempool && s'.mined == s.mined
      && (s'.abandoned == s.abandoned
          || (tx.pc.AtExecute? && s'.abandoned == s.abandoned[tx.env.relayId := OwnTransfer(s.db, tx)]))
  {
    hide HonestAnswer, ExecuteRelay, Told, OwnTransfer;
  }

  lemma BroadcastIs(s: State, l: Label)
    requires Enabled(s, l) && l.Broadcast?
    ensures OpenRow(s, l.worker) && s.running[l.worker].pc.AtExecute? && l.txId !in s.mempool
    ensures var s' := Apply(s, l);
      && s'.mined == s.mined && s'.abandoned == s.abandoned
      && s'.mempool == s.mempool[l.txId := OwnTransfer(s.db, s.running[l.worker])]
  {
    hide OwnTransfer;
  }

  lemma LateBroadcastIs(s: State, l: Label)
    requires Enabled(s, l) && l.LateBroadcast?
    ensures l.key in s.abandoned && l.txId !in s.mempool
    ensures Apply(s, l).mempool == s.mempool[l.txId := s.abandoned[l.key]]
    ensures Apply(s, l) == s.(abandoned := s.abandoned - {l.key}, mempool := Apply(s, l).mempool)
  {
  }

  lemma MineIs(s: State, l: Label)
    requires Enabled(s, l) && l.Mine?
    ensures l.txId in s.mempool && l.txId !in s.mined && Apply(s, l) == MinedAt(s, l.txId, l.callee)
  {
  }

  lemma StepRemembers(s: State, l: Label)
    requires Enabled(s, l)
    ensures ChainRemembers(s, Apply(s, l))
  {
    hide Enabled, Apply, C.Perform, OwnTransfer;
    match l
    case Broadcast(_, _) => BroadcastIs(s, l);
    case LateBroadcast(_, _) => LateBroadcastIs(s, l);
    case Mine(_, _) => MineIs(s, l);
    case Answer(_, _) => EndingLeavesBehind(s, l);
    case AbortTx(_) => EndingLeavesBehind(s, l);
    case _ => OtherStepsLeaveTransfers(s, l);
  }

  /** Over every run, a mined transfer keeps its verdict: it is executed once and never again. */
  lemma {:induction false} VerdictsAreFinal(s: State, ls: seq<Label>)
    requires ValidRun(s, ls)
    ensures ChainRemembers(s, After(s, ls))
    decreases |ls|
  {
    hide Enabled, Apply;
    if ls != [] {
      VerdictsAreFinal(s, ls[..|ls| - 1]);
      StepRemembers(After(s, ls[..|ls| - 1]), ls[|ls| - 1]);
    }
  }

  /** A request failed on a revert receipt is never paid by that attempt's transfer, whatever follows. */
  lemma RevertedTransferNeverPays(s: State, worker: WorkerId, answer: RelayAnswer, ls: seq<Label>)
    requires Enabled(s, Answer(worker, answer)) && answer.RevertedOnChain? && ValidRun(s, ls)
    ensures s.running[worker].pc.AtReceipt?
    ensures var x, t := s.running[worker].pc.txId, After(s, ls);
      x in t.mined && !t.mined[x]
  {
    VerdictsAreFinal(s, ls);
  }

  lemma PaymentNeeds(w: C.World, sender: Address, recipient: Address, amount: nat, callee: C.Code)
    requires C.Perform(w, sender, C.SponsorTransfer(recipient, amount, callee)).error.None?
    ensures C.SponsorTransferCheck(w, sender, recipient, amount).None? && recipient != C.REGISTRY
  {
    hide C.BooksOf, C.Run, C.Recorded, C.SponsorTransferCheck;
  }

  lemma PaymentSucceeds(w: C.World, sender: Address, recipient: Address, amount: nat)
    requires C.SponsorTransferCheck(w, sender, recipient, amount).None? && recipient != C.REGISTRY
    ensures C.Perform(w, sender, C.SponsorTransfer(recipient, amount, C.Return)).error.None?
  {
    hide C.BooksOf, C.Recorded;
  }

  /** A transfer that is mined now pays exactly when the vault accepts it and the recipient can take ether. */
  lemma MiningPaysExactly(s: State, x: TxId)
    requires x in s.mempool
    ensures (exists callee :: MinedAt(s, x, callee).mined[x])
            <==> Accepts(s.world, s.account, s.mempool[x].recipient, s.mempool[x].amount)
  {
    hide C.Perform, C.SponsorTransferCheck;
    var t := s.mempool[x];
    if Accepts(s.world, s.account, t.recipient, t.amount) {
      PaymentSucceeds(s.world, s.account, t.recipient, t.amount);
      assert MinedAt(s, x, C.Return).mined[x];
    }
    forall callee | MinedAt(s, x, callee).mined[x]
      ensures Accepts(s.world, s.account, t.recipient, t.amount)
    {
      PaymentNeeds(s.world, s.account, t.recipient, t.amount, callee);
    }
  }

  // ---------------------------------------------------------------- whose transfers

  /** The transfers of one attempt, or of all attempts that a request has had, committed or rolled back. */
  datatype Whose = OfAttempt(key: RelayId) | OfRequest(id: RequestId)

  predicate Belongs(t: Transfer, whose: Whose) {
    match whose
    case OfAttempt(key) => t.attempt == key
    case OfRequest(id) => t.request == id
  }

  /** The attempt's relay row is committed, or the request is rejected, completed or failed. */
  predicate Ended(db: Db, whose: Whose) {
    match whose
    case OfAttempt(key) => key in db.relays
    case OfRequest(id) => id in db.requests && Terminal(db.requests[id].status)
  }

  /** Broadcast and not mined yet, or still to be broadcast by an executor that was left running. */
  ghost predicate Waiting(s: State, own: Transfer) {
    || (exists x | x in s.mempool :: x !in s.mined && s.mempool[x] == own)
    || (exists k | k in s.abandoned :: s.abandoned[k] == own)
  }

  ghost predicate Outstanding(s: State, whose: Whose) {
    exists own | Belongs(own, whose) :: Waiting(s, own)
  }

  /** Something outstanding can be made payable. */
  ghost predicate Payable(s: State, whose: Whose) {
    exists own | Belongs(own, whose) ::
      Waiting(s, own) && CanBePaid(s.world, s.account, own.recipient, own.amount)
  }

  ghost predicate HasPaid(s: State, whose: Whose) {
    exists x | x in s.mined && x in s.mempool :: s.mined[x] && Belongs(s.mempool[x], whose)
  }

  ghost predicate ExecutedSince(s: State, t: State, whose: Whose) {
    exists x | x in t.mined && x in t.mempool :: x !in s.mined && Belongs(t.mempool[x], whose)
  }

  // ---------------------------------------------------------------- nothing new once it has ended

  /** An executor runs only for an attempt that is not committed, of a request that has not ended. */
  lemma ExecutingIsOpen(s: State, worker: WorkerId, whose: Whose)
    requires Coherent(s) && OpenRow(s, worker) && s.running[worker].pc.AtExecute? && Ended(s.db, whose)
    ensures !Belongs(OwnTransfer(s.db, s.running[worker]), whose)
  {
    assert TxCoherent(s.db, s.running[worker]);
    assert Admitted(SliceOf(s.db, s.running[worker].id), s.running[worker]);
  }

  lemma StepKeepsRelayKeys(s: State, l: Label, key: RelayId)
    requires Enabled(s, l) && key in s.db.relays
    ensures key in Apply(s, l).db.relays
  {
    hide Enabled, Apply;
    match l
    case RegisterWallet(_, _) => RegisterStepIs(s, l);
    case InsertRequest(_, _) => InsertStepIs(s, l);
    case CommitTx(_) => CommitStepIs(s, l);
    case _ => OnlyThreeStepsWrite(s, l);
  }

  lemma StepKeepsEnded(s: State, l: Label, whose: Whose)
    requires Coherent(s) && Enabled(s, l) && Ended(s.db, whose)
    ensures Ended(Apply(s, l).db, whose)
  {
    hide Coherent, Enabled, Apply;
    match whose
    case OfAttempt(key) => StepKeepsRelayKeys(s, l, key);
    case OfRequest(id) => StepKeepsEndings(s, l, id);
  }

  /** Every transfer there is in `t` was there in `s`, or was left to a running executor. */
  ghost predicate NothingNew(s: State, t: State, whose: Whose) {
    && (forall x | x in t.mempool && Belongs(t.mempool[x], whose) ::
          || (x in s.mempool && s.mempool[x] == t.mempool[x])
          || (exists k | k in s.abandoned :: s.abandoned[k] == t.mempool[x]))
    && (forall k | k in t.abandoned && Belongs(t.abandoned[k], whose) ::
          k in s.abandoned && s.abandoned[k] == t.abandoned[k])
  }

  lemma StepAddsNothing(s: State, l: Label, whose: Whose)
    requires Coherent(s) && Enabled(s, l) && Ended(s.db, whose)
    ensures NothingNew(s, Apply(s, l), whose)
  {
    hide Coherent, Enabled, Apply, C.Perform, OwnTransfer, Belongs, Ended;
    match l
    case Broadcast(worker, _) =>
      BroadcastIs(s, l);
      ExecutingIsOpen(s, worker, whose);
    case LateBroadcast(_, _) => LateBroadcastIs(s, l);
    case Mine(_, _) => MineIs(s, l);
    case Answer(_, _) => EndingAddsNothing(s, l, whose);
    case AbortTx(_) => EndingAddsNothing(s, l, whose);
    case _ => OtherStepsLeaveTransfers(s, l);
  }

  lemma EndingAddsNothing(s: State, l: Label, whose: Whose)
    requires Coherent(s) && Enabled(s, l) && Ended(s.db, whose) && (l.Answer? || l.AbortTx?)
    ensures NothingNew(s, Apply(s, l), whose)
  {
    hide Coherent, Enabled, Apply, OwnTransfer, Belongs, Ended;
    EndingLeavesBehind(s, l);
    if s.running[l.worker].pc.AtExecute? {
      ExecutingIsOpen(s, l.worker, whose);
    }
  }

  lemma NothingNewTransitive(s: State, t: State, u: State, whose: Whose)
    requires NothingNew(s, t, whose) && NothingNew(t, u, whose)
    ensures NothingNew(s, u, whose)
  {
    hide Belongs;
  }

  lemma {:induction false} RunsAddNothing(s: State, ls: seq<Label>, whose: Whose)
    requires Coherent(s) && ValidRun(s, ls) && Ended(s.db, whose)
    ensures Coherent(After(s, ls)) && Ended(After(s, ls).db, whose) && NothingNew(s, After(s, ls), whose)
    decreases |ls|
  {
    if ls != [] {
      var n := |ls| - 1;
      var before := After(s, ls[..n]);
      RunsAddNothing(s, ls[..n], whose);
      hide Coherent, Enabled, Apply, Ended, NothingNew;
      StepKeepsCoherence(before, ls[n]);
      StepKeepsEnded(before, ls[n], whose);
      StepAddsNothing(before, ls[n], whose);
      NothingNewTransitive(s, before, After(s, ls), whose);
    }
  }

  /** Whatever is executed later was outstanding at the end. */
  lemma ExecutedWasWaiting(s: State, ls: seq<Label>, whose: Whose, x: TxId)
    requires Coherent(s) && ValidRun(s, ls) && Ended(s.db, whose)
    requires var t := After(s, ls); x in t.mempool && x !in s.mined && Belongs(t.mempool[x], whose)
    ensures Waiting(s, After(s, ls).mempool[x])
  {
    hide Coherent, Enabled, Apply, Ended, Belongs;
    RunsAddNothing(s, ls, whose);
  }

  // ---------------------------------------------------------------- executing what is outstanding

  lemma RunSnoc(s: State, ls: seq<Label>, l: Label)
    requires ValidRun(s, ls) && Enabled(After(s, ls), l)
    ensures ValidRun(s, ls + [l]) && After(s, ls + [l]) == Apply(After(s, ls), l)
  {
    hide Enabled, Apply;
    assert (ls + [l])[..|ls|] == ls;
  }

  lemma MineNow(s: State, x: TxId)
    requires x in s.mempool && x !in s.mined
    ensures Enabled(s, Mine(x, C.Return))
    ensures var t, own := Apply(s, Mine(x, C.Return)), s.mempool[x];
      x in t.mined && t.mempool == s.mempool && (Accepts(s.world, s.account, own.recipient, own.amount) ==> t.mined[x])
  {
    hide C.Perform, C.SponsorTransferCheck;
    var own := s.mempool[x];
    if Accepts(s.world, s.account, own.recipient, own.amount) {
      PaymentSucceeds(s.world, s.account, own.recipient, own.amount);
    }
  }

  /** What is outstanding is in the mempool, or can be there next. */
  lemma WaitingBroadcasts(s: State, ls: seq<Label>, own: Transfer) returns (ls': seq<Label>, x: TxId)
    requires ValidRun(s, ls) && Waiting(After(s, ls), own) && After(s, ls).mined.Keys <= After(s, ls).mempool.Keys
    ensures ValidRun(s, ls')
    ensures var t, t' := After(s, ls), After(s, ls');
      && x in t'.mempool && t'.mempool[x] == own && x !in t'.mined
      && t'.world == t.world && t'.account == t.account && t'.mined == t.mined
  {
    var t := After(s, ls);
    hide Enabled, Apply;
    if y :| y in t.mempool && y !in t.mined && t.mempool[y] == own {
      ls', x := ls, y;
    } else {
      var k :| k in t.abandoned && t.abandoned[k] == own;
      x := Unused(t.mempool.Keys);
      var l := LateBroadcast(k, x);
      assert Enabled(t, l) by { LateBroadcastCanCome(t, k, x); }
      LateBroadcastIs(t, l);
      RunSnoc(s, ls, l);
      ls' := ls + [l];
    }
  }

  lemma LateBroadcastCanCome(s: State, key: RelayId, x: TxId)
    requires key in s.abandoned && x !in s.mempool
    ensures Enabled(s, LateBroadcast(key, x))
  {
  }

  /** What is outstanding can be executed next, and pays if the vault accepts it. */
  lemma WaitingExecutes(s: State, ls: seq<Label>, own: Transfer) returns (ls': seq<Label>, x: TxId)
    requires ValidRun(s, ls) && Waiting(After(s, ls), own) && After(s, ls).mined.Keys <= After(s, ls).mempool.Keys
    ensures ValidRun(s, ls')
    ensures var t, t' := After(s, ls), After(s, ls');
      && x in t'.mempool && t'.mempool[x] == own && x in t'.mined && x !in t.mined
      && (Accepts(t.world, t.account, own.recipient, own.amount) ==> t'.mined[x])
  {
    hide Enabled, Apply, Accepts, Waiting;
    var ls1;
    ls1, x := WaitingBroadcasts(s, ls, own);
    MineNow(After(s, ls1), x);
    RunSnoc(s, ls1, Mine(x, C.Return));
    ls' := ls1 + [Mine(x, C.Return)];
  }

  /**
   Once an attempt is committed, or a request has ended, whatever its ending: some continuation
   executes a transfer of it exactly when one is broadcast and not mined or left to a running executor.
   */
  lemma LateExecutionExactly(s: State, whose: Whose)
    requires ChainInv(s) && Ended(s.db, whose)
    ensures (exists ls :: ValidRun(s, ls) && ExecutedSince(s, After(s, ls), whose)) <==> Outstanding(s, whose)
  {
    ChainFacts(s);
    ChainIsCoherent(s);
    hide ChainInv, Coherent, Ended, Waiting, Belongs, C.Sound, C.Settled, Enabled, Apply;
    if Outstanding(s, whose) {
      var own :| Belongs(own, whose) && Waiting(s, own);
      assert ValidRun(s, []) && After(s, []) == s;
      var ls, x := WaitingExecutes(s, [], own);
      assert ExecutedSince(s, After(s, ls), whose);
    }
    forall ls | ValidRun(s, ls) && ExecutedSince(s, After(s, ls), whose)
      ensures Outstanding(s, whose)
    {
      var t := After(s, ls);
      var x :| x in t.mined && x in t.mempool && x !in s.mined && Belongs(t.mempool[x], whose);
      ExecutedWasWaiting(s, ls, whose, x);
    }
  }

  // ---------------------------------------------------------------- paying

  lemma WorldStaysElsewhere(s: State, l: Label)
    requires Enabled(s, l)
    ensures Apply(s, l).account == s.account
    ensures !l.Mine? && !l.Transact? ==> Apply(s, l).world == s.world
  {
    hide Enabled, Step, HonestAnswer, ExecuteRelay, Install, Register, C.Perform, IndexAllows, Eligible, OwnTransfer;
  }

  lemma TransactIs(s: State, l: Label)
    requires Enabled(s, l) && l.Transact?
    ensures T.FromAccount(l.tx) && Apply(s, l) == s.(world := C.Perform(s.world, l.tx.sender, l.tx.call).world)
  {
    hide C.Perform;
  }

  lemma ChainFacts(s: State)
    requires ChainInv(s)
    ensures C.Sound(s.world) && C.Settled(s.world) && T.IsAccount(s.account) && s.mined.Keys <= s.mempool.Keys
  {
    hide Coherent, C.Sound, C.Settled, Backed, TxBacked;
  }

  lemma StepEvolves(s: State, l: Label)
    requires ChainInv(s) && Enabled(s, l)
    ensures Evolves(s.world, Apply(s, l).world) && Apply(s, l).account == s.account
  {
    hide ChainInv, Evolves, C.Perform, C.Sound, C.Settled, Enabled, Apply;
    ChainFacts(s);
    WorldStaysElsewhere(s, l);
    if l.Mine? {
      MineIs(s, l);
      var t := s.mempool[l.txId];
      TransactionEvolves(s.world, T.Transaction(s.account, C.SponsorTransfer(t.recipient, t.amount, l.callee)));
    } else if l.Transact? {
      TransactIs(s, l);
      TransactionEvolves(s.world, l.tx);
    } else {
      EvolvesReflexive(s.world);
    }
  }

  lemma {:induction false} RunsEvolve(s: State, ls: seq<Label>)
    requires ChainInv(s) && ValidRun(s, ls)
    ensures ChainInv(After(s, ls)) && Evolves(s.world, After(s, ls).world) && After(s, ls).account == s.account
    decreases |ls|
  {
    hide ChainInv, Evolves, Enabled, Apply, C.Sound, C.Settled;
    if ls == [] {
      ChainFacts(s);
      EvolvesReflexive(s.world);
    } else {
      var n := |ls| - 1;
      var before := After(s, ls[..n]);
      RunsEvolve(s, ls[..n]);
      StepKeepsChain(before, ls[n]);
      StepEvolves(before, ls[n]);
      EvolvesTransitive(s.world, before.world, After(s, ls).world);
    }
  }

  lemma OnlyMiningGivesVerdicts(s: State, l: Label, x: TxId)
    requires Enabled(s, l) && x !in s.mined && x in Apply(s, l).mined
    ensures l.Mine? && l.txId == x
  {
    hide Enabled, Apply, C.Perform, OwnTransfer;
    match l
    case Broadcast(_, _) => BroadcastIs(s, l);
    case LateBroadcast(_, _) => LateBroadcastIs(s, l);
    case Mine(_, _) => MineIs(s, l);
    case Answer(_, _) => EndingLeavesBehind(s, l);
    case AbortTx(_) => EndingLeavesBehind(s, l);
    case _ => OtherStepsLeaveTransfers(s, l);
  }

  /** A step that pays could be made payable before it. */
  lemma PayingStep(s: State, l: Label, x: TxId)
    requires ChainInv(s) && Enabled(s, l) && x !in s.mined && x in Apply(s, l).mined && Apply(s, l).mined[x]
    ensures x in s.mempool && Apply(s, l).mempool == s.mempool
    ensures CanBePaid(s.world, s.account, s.mempool[x].recipient, s.mempool[x].amount)
  {
    hide ChainInv, Enabled, Apply, Accepts, CanBePaid, C.Perform, C.Sound, C.Settled;
    ChainFacts(s);
    OnlyMiningGivesVerdicts(s, l, x);
    MineIs(s, l);
    MiningPaysExactly(s, x);
    AcceptedCanBePaid(s.world, s.account, s.mempool[x].recipient, s.mempool[x].amount);
  }

  /** Whatever pays later, of any attempt of any request, could be made payable now. */
  lemma {:induction false} PaymentWasPayable(s: State, ls: seq<Label>, x: TxId)
    requires ChainInv(s) && ValidRun(s, ls) && x !in s.mined
    requires x in After(s, ls).mined && After(s, ls).mined[x]
    ensures x in After(s, ls).mempool
    ensures var own := After(s, ls).mempool[x]; CanBePaid(s.world, s.account, own.recipient, own.amount)
    decreases |ls|
  {
    hide ChainInv, Evolves, CanBePaid, Enabled, Apply, C.Sound, C.Settled;
    if ls != [] {
      var n := |ls| - 1;
      var before := After(s, ls[..n]);
      RunsEvolve(s, ls[..n]);
      StepRemembers(before, ls[n]);
      if x in before.mined {
        PaymentWasPayable(s, ls[..n], x);
      } else {
        PayingStep(before, ls[n], x);
        ChainFacts(s);
        PayableBefore(s.world, before.world, s.account, before.mempool[x].recipient, before.mempool[x].amount);
      }
    }
  }

  /** Once it has ended with nothing paid and nothing that can be made payable, it never pays, whatever follows. */
  lemma UnpayableNeverPays(s: State, whose: Whose, ls: seq<Label>)
    requires ChainInv(s) && Ended(s.db, whose) && ValidRun(s, ls) && !HasPaid(s, whose) && !Payable(s, whose)
    ensures !HasPaid(After(s, ls), whose)
  {
    ChainIsCoherent(s);
    hide ChainInv, Coherent, Ended, Waiting, Belongs, CanBePaid, Enabled, Apply;
    var t := After(s, ls);
    VerdictsAreFinal(s, ls);
    forall x | x in t.mined && x in t.mempool && Belongs(t.mempool[x], whose)
      ensures !t.mined[x]
    {
      if x in s.mined {
        MinedWasBroadcast(s, x);
      } else if t.mined[x] {
        PaymentWasPayable(s, ls, x);
        ExecutedWasWaiting(s, ls, whose, x);
      }
    }
  }

  lemma MinedWasBroadcast(s: State, x: TxId)
    requires ChainInv(s) && x in s.mined
    ensures x in s.mempool
  {
    hide Coherent, C.Sound, C.Settled, Backed, TxBacked;
  }

  /** With nothing outstanding and nothing paid, it never pays either. */
  lemma SettledForGood(s: State, whose: Whose, ls: seq<Label>)
    requires ChainInv(s) && Ended(s.db, whose) && ValidRun(s, ls) && !HasPaid(s, whose) && !Outstanding(s, whose)
    ensures !HasPaid(After(s, ls), whose)
  {
    hide ChainInv, Ended, HasPaid, Belongs, Waiting, CanBePaid;
    UnpayableNeverPays(s, whose, ls);
  }

  function Transacts(txs: seq<T.Transaction>): seq<Label> {
    if txs == [] then [] else Transacts(txs[..|txs| - 1]) + [Transact(txs[|txs| - 1])]
  }

  lemma {:induction false} TransactsRun(s: State, txs: seq<T.Transaction>)
    requires AllFromAccounts(txs)
    ensures ValidRun(s, Transacts(txs)) && After(s, Transacts(txs)) == s.(world := T.RunAll(s.world, txs).world)
    decreases |txs|
  {
    hide C.Perform;
    if txs != [] {
      var n := |txs| - 1;
      assert txs[n] in txs;
      TransactsRun(s, txs[..n]);
      RunSnoc(s, Transacts(txs[..n]), Transact(txs[n]));
    }
  }

  /** An outstanding transfer that can be made payable pays in some continuation. */
  lemma PayableCanPay(s: State, whose: Whose) returns (ls: seq<Label>)
    requires ChainInv(s) && Payable(s, whose)
    ensures ValidRun(s, ls) && HasPaid(After(s, ls), whose)
  {
    ChainFacts(s);
    hide ChainInv, CanBePaid, C.Sound, C.Settled, T.RunAll, Accepts, Enabled, Apply, Belongs, ValidRun, After;
    var own :| Belongs(own, whose) && Waiting(s, own) && CanBePaid(s.world, s.account, own.recipient, own.amount);
    var txs := MadePayable(s.world, s.account, own.recipient, own.amount);
    TransactsRun(s, txs);
    assert Waiting(After(s, Transacts(txs)), own);
    var x;
    ls, x := WaitingExecutes(s, Transacts(txs), own);
  }

  /**
   Once an attempt is committed, or a request has ended, whatever its ending: in some continuation it
   has been paid by its own transfer exactly when it has been already, or something outstanding can
   still be made payable. So "a failed request was not and will not be paid by its own attempts" holds
   exactly when neither is the case.
   */
  lemma LatePaymentExactly(s: State, whose: Whose)
    requires ChainInv(s) && Ended(s.db, whose)
    ensures (exists ls :: ValidRun(s, ls) && HasPaid(After(s, ls), whose)) <==> HasPaid(s, whose) || Payable(s, whose)
  {
    var none: seq<Label> := [];
    assert ValidRun(s, none) && After(s, none) == s;
    hide ChainInv, Ended, HasPaid, Payable, ValidRun, After;
    if HasPaid(s, whose) {
      assert HasPaid(After(s, none), whose);
    } else if Payable(s, whose) {
      var ls := PayableCanPay(s, whose);
    } else {
      forall ls | ValidRun(s, ls)
        ensures !HasPaid(After(s, ls), whose)
      {
        UnpayableNeverPays(s, whose, ls);
      }
    }
  }

  // ---------------------------------------------------------------- at the commit

  lemma CommitKeepsItsRelay(db: Db, tx: Tx)
    requires TxCoherent(db, tx) && tx.pc.AtCommit? && tx.writes.relay.Some?
    ensures tx.env.relayId in Install(db, tx.id, tx.writes).relays
  {
    hide At, ProcessSlice, Process;
    CommitIsAtomic(db, tx);
  }

  /** Nothing but its own transfer is ever outstanding for an attempt. */
  lemma OnlyOwnWaits(s: State, worker: WorkerId, t: Transfer)
    requires ChainInv(s) && OpenRow(s, worker)
    requires Waiting(s, t) && Belongs(t, OfAttempt(s.running[worker].env.relayId))
    ensures t == OwnTransfer(s.db, s.running[worker])
  {
    AbandonedAreTagged(s);
    hide Coherent, C.Sound, C.Settled, Backed, OwnTransfer, CountsAsSuccess;
    assert TxBacked(s, s.running[worker]);
  }

  lemma OwnIsPayable(s: State, worker: WorkerId)
    requires ChainInv(s) && OpenRow(s, worker)
    ensures var mine, own := OfAttempt(s.running[worker].env.relayId), OwnTransfer(s.db, s.running[worker]);
      Payable(s, mine) <==> Outstanding(s, mine) && CanBePaid(s.world, s.account, own.recipient, own.amount)
  {
    var mine := OfAttempt(s.running[worker].env.relayId);
    hide ChainInv, OwnTransfer, CanBePaid, Waiting, Belongs;
    forall t | Belongs(t, mine) && Waiting(s, t)
      ensures t == OwnTransfer(s.db, s.running[worker])
    {
      OnlyOwnWaits(s, worker, t);
    }
  }

  lemma SameChainSamePayments(s: State, s': State, whose: Whose)
    requires SameTransfers(s, s') && s'.world == s.world && s'.account == s.account
    ensures HasPaid(s', whose) == HasPaid(s, whose) && Payable(s', whose) == Payable(s, whose)
  {
    hide CanBePaid, Belongs;
    assert forall t :: Waiting(s', t) == Waiting(s, t);
    hide Waiting;
  }

  lemma CommitEndsAttempt(s: State, worker: WorkerId)
    requires ChainInv(s) && OpenRow(s, worker) && s.running[worker].pc.AtCommit? && s.running[worker].writes.relay.Some?
    ensures var s' := Committed(s, worker);
      && ChainInv(s') && Ended(s'.db, OfAttempt(s.running[worker].env.relayId))
      && SameTransfers(s, s') && s'.world == s.world && s'.account == s.account
  {
    assert TxCoherent(s.db, s.running[worker]);
    hide ChainInv, TxCoherent, Install;
    CommitKeepsChain(s, worker);
    CommitKeepsItsRelay(s.db, s.running[worker]);
  }

  /**
   Seen from the commit of an attempt that reached the relay, failed or not: some continuation has it
   paid by its own transfer exactly when that has paid already, or is outstanding and can be made payable.
   */
  lemma PaymentAtCommitExactly(s: State, worker: WorkerId)
    requires ChainInv(s) && OpenRow(s, worker) && s.running[worker].pc.AtCommit? && s.running[worker].writes.relay.Some?
    ensures var s', tx := Committed(s, worker), s.running[worker];
      var mine, own := OfAttempt(tx.env.relayId), OwnTransfer(s.db, tx);
      (exists ls :: ValidRun(s', ls) && HasPaid(After(s', ls), mine))
      <==> HasPaid(s, mine) || (Outstanding(s, mine) && CanBePaid(s.world, s.account, own.recipient, own.amount))
  {
    var s', tx := Committed(s, worker), s.running[worker];
    var mine := OfAttempt(tx.env.relayId);
    hide ChainInv, Committed, OwnTransfer, CanBePaid, HasPaid, Outstanding, Payable, ValidRun, After, Ended;
    CommitEndsAttempt(s, worker);
    SameChainSamePayments(s, s', mine);
    OwnIsPayable(s, worker);
    LatePaymentExactly(s', mine);
  }
}
