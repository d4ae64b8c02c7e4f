/** What the worker's transfers ask the vault to pay, and that the ether reaches the wallets, over every run. */
module Broadcasts {
  import opened Ledger
  import opened Tables
  import opened Processor
  import opened Protocol
  import opened Serializability
  import opened ChainSafety
  import opened TableSafety
  import opened LateTransfers
  import opened Registrations
  import opened AccessControl
  import opened Payments
  import C = Contracts

  // ---------------------------------------------------------------- whom and how much

  /** Some worker locked this request for an attempt under this key, configured with this amount. */
  ghost predicate LockedFor(ls: seq<Label>, id: RequestId, key: RelayId, amount: nat) {
    exists l | l in ls :: l.Lock? && l.id == id && l.key == key && l.amount == amount
  }

  /** It asks for the amount of the worker that made it, to be paid to the address of the request's wallet. */
  ghost predicate AsksForItsWallet(db: Db, ls: seq<Label>, t: Transfer) {
    && t.request in db.requests && db.requests[t.request].walletId in db.wallets
    && t.recipient == db.wallets[db.requests[t.request].walletId].walletAddress
    && LockedFor(ls, t.request, t.attempt, t.amount)
  }

  ghost predicate TransfersInv(s: State, ls: seq<Label>) {
    && (forall w | w in s.running :: LockedFor(ls, s.running[w].id, s.running[w].env.relayId, s.running[w].amount))
    && (forall x | x in s.mempool :: AsksForItsWallet(s.db, ls, s.mempool[x]))
    && (forall k | k in s.abandoned :: AsksForItsWallet(s.db, ls, s.abandoned[k]))
  }

  lemma LockedForLonger(ls: seq<Label>, l: Label, id: RequestId, key: RelayId, amount: nat)
    requires LockedFor(ls, id, key, amount)
    ensures LockedFor(ls + [l], id, key, amount)
  {
    var l0 :| l0 in ls && l0.Lock? && l0.id == id && l0.key == key && l0.amount == amount;
    assert l0 in ls + [l];
  }

  /** No request moves to another wallet. */
  ghost predicate OwnersKept(db: Db, db': Db) {
    forall r | r in db.requests :: r in db'.requests && db'.requests[r].walletId == db.requests[r].walletId
  }

  lemma StepKeepsOwners(s: State, l: Label)
    requires Coherent(s) && Enabled(s, l)
    ensures OwnersKept(s.db, Apply(s, l).db)
  {
    hide At, TxCoherent, ForeignKeys, Enabled, Apply;
    match l
    case RegisterWallet(_, _) =>
      RegisterStepIs(s, l);
    case InsertRequest(_, _) => InsertLeaves(s, l);
    case CommitTx(worker) =>
      CommitStepIs(s, l);
      CommitRevivesNothing(s.db, s.running[worker]);
    case _ => OnlyThreeStepsWrite(s, l);
  }

  lemma StillAsksForItsWallet(db: Db, db': Db, ls: seq<Label>, l: Label, t: Transfer)
    requires AsksForItsWallet(db, ls, t) && OwnersKept(db, db') && WalletsKept(db, db')
    ensures AsksForItsWallet(db', ls + [l], t)
  {
    LockedForLonger(ls, l, t.request, t.attempt, t.amount);
    hide LockedFor;
  }

  /** An open transaction keeps its request, its key and its amount. */
  lemma OpenOnesAreLocked(s: State, l: Label, w: WorkerId)
    requires Enabled(s, l) && w in Apply(s, l).running
    ensures var tx := Apply(s, l).running[w];
      || (l == Lock(w, tx.id, tx.env.maxRetries, tx.amount, tx.env.relayId))
      || (w in s.running && s.running[w].id == tx.id && s.running[w].env.relayId == tx.env.relayId
          && s.running[w].amount == tx.amount)
  {
    if Elsewhere(l) {
      hide Enabled, Apply;
      ElsewhereTouchesNothing(s, l);
    } else if l.Statement? {
      hide Step, AtStatement;
      var tx := s.running[l.worker];
      StepKeepsIdentity(SliceOf(s.db, tx.id), tx, s.clock, l.pick);
      StatementKeepsAmount(SliceOf(s.db, tx.id), tx, s.clock, l.pick);
    } else if l.Answer? {
      hide Enabled, Apply;
      AnswerStepIs(s, l);
    } else {
      hide Step, Install, Register, OwnTransfer;
    }
  }

  lemma StatementKeepsAmount(s: Slice, tx: Tx, now: Time, pick: RelayId)
    requires Active(s.relays) != {} ==> pick in Active(s.relays)
    ensures Step(s, tx, now, pick).amount == tx.amount
  {
  }

  lemma OwnTransferAsks(s: State, ls: seq<Label>, w: WorkerId)
    requires TransfersInv(s, ls) && OpenRow(s, w)
    ensures AsksForItsWallet(s.db, ls, OwnTransfer(s.db, s.running[w]))
  {
    hide LockedFor;
  }

  /** Every transfer after a step was there before it, or is the own transfer of an open transaction. */
  lemma TransfersComeFrom(s: State, ls: seq<Label>, l: Label)
    requires Enabled(s, l) && TransfersInv(s, ls)
    ensures forall x | x in Apply(s, l).mempool :: AsksForItsWallet(s.db, ls, Apply(s, l).mempool[x])
    ensures forall k | k in Apply(s, l).abandoned :: AsksForItsWallet(s.db, ls, Apply(s, l).abandoned[k])
  {
    hide Enabled, Apply, C.Perform, OwnTransfer, LockedFor, AsksForItsWallet;
    match l
    case Broadcast(worker, _) =>
      BroadcastIs(s, l);
      OwnTransferAsks(s, ls, worker);
    case LateBroadcast(_, _) => LateBroadcastIs(s, l);
    case Mine(_, _) => MineIs(s, l);
    case Answer(worker, _) =>
      EndingLeavesBehind(s, l);
      OwnTransferAsks(s, ls, worker);
    case AbortTx(worker) =>
      EndingLeavesBehind(s, l);
      OwnTransferAsks(s, ls, worker);
    case _ => OtherStepsLeaveTransfers(s, l);
  }

  lemma StepKeepsTransfers(s: State, ls: seq<Label>, l: Label)
    requires Coherent(s) && Enabled(s, l) && TransfersInv(s, ls)
    ensures TransfersInv(Apply(s, l), ls + [l])
  {
    var s' := Apply(s, l);
    TransfersComeFrom(s, ls, l);
    StepKeepsOwners(s, l);
    StepKeepsWallets(s, l);
    hide Coherent, Enabled, Apply, LockedFor, AsksForItsWallet, OwnersKept, WalletsKept;
    forall x | x in s'.mempool
      ensures AsksForItsWallet(s'.db, ls + [l], s'.mempool[x])
    {
      StillAsksForItsWallet(s.db, s'.db, ls, l, s'.mempool[x]);
    }
    forall k | k in s'.abandoned
      ensures AsksForItsWallet(s'.db, ls + [l], s'.abandoned[k])
    {
      StillAsksForItsWallet(s.db, s'.db, ls, l, s'.abandoned[k]);
    }
    forall w | w in s'.running
      ensures LockedFor(ls + [l], s'.running[w].id, s'.running[w].env.relayId, s'.running[w].amount)
    {
      OpenOnesAreLocked(s, l, w);
      OpenOneIsLocked(ls, l, s, s'.running[w], w);
    }
  }

  lemma OpenOneIsLocked(ls: seq<Label>, l: Label, s: State, tx: Tx, w: WorkerId)
    requires TransfersInv(s, ls)
    requires || (l == Lock(w, tx.id, tx.env.maxRetries, tx.amount, tx.env.relayId))
             || (w in s.running && s.running[w].id == tx.id && s.running[w].env.relayId == tx.env.relayId
                 && s.running[w].amount == tx.amount)
    ensures LockedFor(ls + [l], tx.id, tx.env.relayId, tx.amount)
  {
    if l == Lock(w, tx.id, tx.env.maxRetries, tx.amount, tx.env.relayId) {
      assert l in ls + [l];
    } else {
      LockedForLonger(ls, l, tx.id, tx.env.relayId, tx.amount);
    }
  }

  lemma NoTransfersAtFirst(s: State)
    requires Quiet(s)
    ensures TransfersInv(s, [])
  {
  }

  /**
   Over every run, whatever is broadcast, in time or late, asks the vault to pay the address of its own
   request's wallet exactly the amount that the worker of its attempt is configured with.
   */
  lemma {:induction false} TransfersAreForTheirWallets(s: State, ls: seq<Label>)
    requires Quiet(s) && ValidRun(s, ls)
    ensures TransfersInv(After(s, ls), ls)
    decreases |ls|
  {
    hide Quiet, Coherent, TransfersInv, Enabled, Apply;
    if ls == [] {
      NoTransfersAtFirst(s);
    } else {
      var n := |ls| - 1;
      TransfersAreForTheirWallets(s, ls[..n]);
      RunsAreCoherent(s, ls[..n]);
      StepKeepsTransfers(After(s, ls[..n]), ls[..n], ls[n]);
      assert ls[..n] + [ls[n]] == ls;
    }
  }

  // ---------------------------------------------------------------- the ether arrives

  /** This account makes no call in this step. */
  ghost predicate QuietStep(s: State, l: Label, a: Address) {
    match l
    case Mine(x, callee) =>
      x in s.mempool ==>
        a !in Callers(s.account, C.SponsorTransfer(s.mempool[x].recipient, s.mempool[x].amount, callee))
    case Transact(tx) => a !in Callers(tx.sender, tx.call)
    case _ => true
  }

  /** Nor in any step of the run. */
  ghost predicate QuietThroughout(s: State, ls: seq<Label>, a: Address)
    requires ValidRun(s, ls)
    decreases |ls|
  {
    ls == [] ||
    (var n := |ls| - 1;
     QuietThroughout(s, ls[..n], a) && QuietStep(After(s, ls[..n]), ls[n], a))
  }

  lemma StepBringsEther(s: State, l: Label, a: Address)
    requires Enabled(s, l) && QuietStep(s, l, a) && a != C.VAULT
    ensures Arrived(s.world, Apply(s, l).world, a, 0)
  {
    hide Enabled, Apply, Arrived, C.Perform, Callers;
    WorldStaysElsewhere(s, l);
    NothingArrives(s.world, a);
    if l.Mine? {
      MineIs(s, l);
      var t := s.mempool[l.txId];
      EtherArrives(s.world, s.account, C.SponsorTransfer(t.recipient, t.amount, l.callee), a);
    } else if l.Transact? {
      TransactIs(s, l);
      EtherArrives(s.world, l.tx.sender, l.tx.call, a);
    }
  }

  lemma {:induction false} RunsBringEther(s: State, ls: seq<Label>, a: Address)
    requires ValidRun(s, ls) && QuietThroughout(s, ls, a) && a != C.VAULT
    ensures Arrived(s.world, After(s, ls).world, a, 0)
    decreases |ls|
  {
    hide Arrived, Enabled, Apply, QuietStep;
    if ls == [] {
      NothingArrives(s.world, a);
    } else {
      var n := |ls| - 1;
      RunsBringEther(s, ls[..n], a);
      StepBringsEther(After(s, ls[..n]), ls[n], a);
      ArrivedTransitive(s.world, After(s, ls[..n]).world, After(s, ls).world, a, 0, 0);
    }
  }

  /**
   Over every run: the wallet of a completed request, if it was not sponsored before and makes no call
   itself, ends with more ether than it started with: all that the vault logged as paid to it has arrived.
   */
  lemma CompletedWalletsHaveTheirEther(s: State, ls: seq<Label>, r: RequestId)
    requires Quiet(s) && Backed(s.db, s.world) && ValidRun(s, ls)
    requires r in After(s, ls).db.requests && After(s, ls).db.requests[r].status == Completed
    ensures After(s, ls).db.requests[r].walletId in After(s, ls).db.wallets
    ensures var t := After(s, ls);
      var a := t.db.wallets[t.db.requests[r].walletId].walletAddress;
      a != C.VAULT && !C.IsSponsored(s.world, a) && QuietThroughout(s, ls, a) ==>
        && PaidTo(t.world.log, a) > PaidTo(s.world.log, a)
        && BalanceOf(t.world.balance, a)
           >= BalanceOf(s.world.balance, a) + PaidTo(t.world.log, a) - PaidTo(s.world.log, a)
  {
    hide Coherent, QuietThroughout, Enabled, Apply;
    var t := After(s, ls);
    RunsAreCoherent(s, ls);
    PaidExactlyOnce(s, ls);
    CoherentHasWallets(t, r);
    var a := t.db.wallets[t.db.requests[r].walletId].walletAddress;
    if a != C.VAULT && !C.IsSponsored(s.world, a) && QuietThroughout(s, ls, a) {
      UnsponsoredIsUnpaid(s.world, a);
      RunsBringEther(s, ls, a);
    }
  }

  lemma CoherentHasWallets(s: State, r: RequestId)
    requires Coherent(s) && r in s.db.requests
    ensures s.db.requests[r].walletId in s.db.wallets
  {
  }

  lemma UnsponsoredIsUnpaid(w: C.World, a: Address)
    requires C.Sound(w) && C.Settled(w) && !C.IsSponsored(w, a)
    ensures TimesPaid(w, a) == 0
  {
    assert C.BooksOf(w.log).grantedTo[a] == multiset(w.sponsorshipCount.Keys)[a];
  }
}
