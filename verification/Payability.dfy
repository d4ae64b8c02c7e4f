/**
 When the vault can still be brought to pay a transfer: the exact condition on the present world,
 over all transactions that accounts may make first.
 */
module Payability {
  import opened Ledger
  import opened Contracts
  import opened ContractTheorems
  import opened AccessControl

  // ---------------------------------------------------------------- ether that never moves again

  /** Nobody can spend what is at address zero or in the registry. */
  predicate Lost(a: Address) {
    a == ZERO || a == REGISTRY
  }

  /** What is lost stays lost, and the registry's own balance is the same. */
  ghost predicate NothingRecovered(b: Balances, b': Balances) {
    BalanceOf(b, ZERO) <= BalanceOf(b', ZERO) && BalanceOf(b, REGISTRY) == BalanceOf(b', REGISTRY)
  }

  lemma MoveRecoversNothing(b: Balances, from: Address, to: Address, amount: nat)
    requires amount <= BalanceOf(b, from) && !Lost(from) && to != REGISTRY
    ensures NothingRecovered(b, Move(b, from, to, amount))
  {
  }

  lemma {:induction false} LostStaysLost(w: World, sender: Address, call: Call)
    requires !Lost(sender)
    ensures NothingRecovered(w.balance, Perform(w, sender, call).world.balance)
    decreases call
  {
    hide BooksOf, Move, BalanceOf;
    match call
    case SponsorTransfer(recipient, amount, callee) =>
      if SponsorTransferCheck(w, sender, recipient, amount).None? {
        PaymentRecoversNothing(Recorded(w, recipient, amount), VAULT, recipient, amount, callee);
      }
    case EmergencyWithdraw(to, amount, callee) =>
      if EmergencyWithdrawCheck(w, sender, to, amount).None? {
        PaymentRecoversNothing(w, VAULT, to, amount, callee);
      }
    case Send(to, amount, callee) =>
      if amount <= BalanceOf(w.balance, sender) {
        PaymentRecoversNothing(w, sender, to, amount, callee);
      }
    case SetOperator(_) =>
    case SetPerTransactionLimit(_) =>
    case InitializeRegistry(_) =>
    case RecordSponsorship(_, _) =>
  }

  lemma {:induction false} PaymentRecoversNothing(w: World, from: Address, to: Address, amount: nat, code: Code)
    requires amount <= BalanceOf(w.balance, from) && !Lost(from)
    ensures NothingRecovered(w.balance, Pay(w, from, to, amount, code).world.balance)
    decreases code, 1
  {
    hide BooksOf, Move, BalanceOf;
    if to != REGISTRY {
      MoveRecoversNothing(w.balance, from, to, amount);
      if IsAccount(to) {
        CodeRecoversNothing(w.(balance := Move(w.balance, from, to, amount)), to, code);
      }
    }
  }

  lemma {:induction false} CodeRecoversNothing(w: World, self: Address, code: Code)
    requires !Lost(self)
    ensures NothingRecovered(w.balance, Run(w, self, code).world.balance)
    decreases code, 0
  {
    hide BooksOf, BalanceOf;
    if code.Then? {
      LostStaysLost(w, self, code.call);
      CodeRecoversNothing(Perform(w, self, code.call).world, self, code.rest);
    }
  }

  // ---------------------------------------------------------------- how a world changes

  /** What every transaction of an account keeps. */
  ghost predicate Evolves(w: World, w': World) {
    && Follows(w, w') && Settled(w')
    && NothingRecovered(w.balance, w'.balance)
    && (!IsAccount(w.owner) ==> w'.operator == w.operator && w'.perTransactionLimit == w.perTransactionLimit)
  }

  lemma TransactionEvolves(w: World, tx: Transaction)
    requires Sound(w) && Settled(w) && FromAccount(tx)
    ensures Evolves(w, Perform(w, tx.sender, tx.call).world)
  {
    hide BooksOf, Perform, Callers;
    TransactionSettles(w, tx);
    LostStaysLost(w, tx.sender, tx.call);
    if !IsAccount(w.owner) {
      CallersAreAccounts(tx.sender, tx.call);
      OnlyOwnerGoverns(w, tx.sender, tx.call);
    }
  }

  lemma EvolvesReflexive(w: World)
    requires Sound(w) && Settled(w)
    ensures Evolves(w, w)
  {
    FollowsReflexive(w);
  }

  lemma EvolvesTransitive(w0: World, w1: World, w2: World)
    requires Evolves(w0, w1) && Evolves(w1, w2)
    ensures Evolves(w0, w2)
  {
    FollowsTransitive(w0, w1, w2);
    hide Sound, Settled, BooksOf, BalanceOf;
  }

  // ---------------------------------------------------------------- what can be paid

  /** All the ether that can ever be in the vault: everybody's but what is lost. */
  ghost function Movable(b: Balances): int {
    Total(b) - BalanceOf(b, ZERO) - BalanceOf(b, REGISTRY)
  }

  /**
   A recipient that is not sponsored and can take ether, an amount that is positive and within all
   movable ether, and an operator and a limit that fit, or an owner that can make them fit.
   */
  ghost predicate CanBePaid(w: World, account: Address, recipient: Address, amount: nat) {
    && account != ZERO && !Lost(recipient) && !IsSponsored(w, recipient)
    && 0 < amount <= Movable(w.balance)
    && (IsAccount(w.owner) || (w.operator == account && amount <= w.perTransactionLimit))
  }

  predicate Accepts(w: World, account: Address, recipient: Address, amount: nat) {
    SponsorTransferCheck(w, account, recipient, amount).None? && recipient != REGISTRY
  }

  /** Everybody's ether but the two contracts' and address zero's. */
  function Others(b: Balances): Balances {
    b - {VAULT} - {REGISTRY} - {ZERO}
  }

  lemma Without(b: Balances, a: Address)
    ensures Total(b) == BalanceOf(b, a) + Total(b - {a})
  {
    if a in b {
      TotalSplit(b, a);
    } else {
      assert b - {a} == b;
    }
  }

  lemma OthersHold(b: Balances)
    ensures Movable(b) == BalanceOf(b, VAULT) + Total(Others(b))
  {
    Without(b, VAULT);
    Without(b - {VAULT}, REGISTRY);
    Without(b - {VAULT} - {REGISTRY}, ZERO);
  }

  lemma VaultIsMovable(b: Balances)
    ensures BalanceOf(b, VAULT) <= Movable(b)
  {
    OthersHold(b);
  }

  lemma AcceptedCanBePaid(w: World, account: Address, recipient: Address, amount: nat)
    requires Sound(w) && Accepts(w, account, recipient, amount)
    ensures CanBePaid(w, account, recipient, amount)
  {
    hide BooksOf, BalanceOf, Movable;
    VaultIsMovable(w.balance);
  }

  /** What can be paid later can be paid now: nothing that accounts do makes a transfer payable that was not. */
  lemma PayableBefore(w: World, w': World, account: Address, recipient: Address, amount: nat)
    requires Sound(w) && Evolves(w, w') && CanBePaid(w', account, recipient, amount)
    ensures CanBePaid(w, account, recipient, amount)
  {
    hide BooksOf, BalanceOf, Total, IsSponsored, Sound, Settled;
    if IsSponsored(w, recipient) {
      SponsoredStays(w, w', recipient);
    }
  }

  // ---------------------------------------------------------------- making it payable

  /** The rules of the vault and the recorded addresses, whatever its ether. */
  predicate SameRules(w: World, w': World) {
    && w'.owner == w.owner && w'.operator == w.operator && w'.registry == w.registry
    && w'.perTransactionLimit == w.perTransactionLimit && w'.sponsorshipCount == w.sponsorshipCount
  }

  lemma {:induction false} NobodyHasAnything(b: Balances)
    requires forall a | a in b :: b[a] == 0
    ensures Total(b) == 0
    decreases |b|
  {
    if b != map[] {
      NobodyHasAnything(b - {Pick(b)});
    }
  }

  /** If not all movable ether is in the vault, some account has some. */
  lemma SomebodyHasEther(b: Balances) returns (a: Address)
    requires BalanceOf(b, VAULT) < Movable(b)
    ensures IsAccount(a) && BalanceOf(b, a) > 0
  {
    OthersHold(b);
    var rest := Others(b);
    if forall x | x in rest :: rest[x] == 0 {
      NobodyHasAnything(rest);
    }
    a :| a in rest && rest[a] != 0;
  }

  ghost predicate AllFromAccounts(txs: seq<Transaction>) {
    forall tx | tx in txs :: FromAccount(tx)
  }

  lemma RunAllSnoc(w: World, txs: seq<Transaction>, tx: Transaction)
    ensures RunAll(w, txs + [tx]).world == Perform(RunAll(w, txs).world, tx.sender, tx.call).world
  {
    assert (txs + [tx])[..|txs|] == txs;
  }

  lemma DepositMoves(b: Balances, a: Address)
    requires IsAccount(a)
    ensures var b' := Move(b, a, VAULT, BalanceOf(b, a));
      Movable(b') == Movable(b) && BalanceOf(b', VAULT) == BalanceOf(b, VAULT) + BalanceOf(b, a)
  {
    MoveConserves(b, a, VAULT, BalanceOf(b, a));
    hide Total;
  }

  lemma Deposit(w: World, a: Address)
    requires IsAccount(a)
    ensures var n := BalanceOf(w.balance, a);
      var w' := Perform(w, a, Send(VAULT, n, Return)).world;
      && SameRules(w, w') && Movable(w'.balance) == Movable(w.balance)
      && BalanceOf(w'.balance, VAULT) == BalanceOf(w.balance, VAULT) + n
  {
    DepositMoves(w.balance, a);
    hide BooksOf, Move, BalanceOf, Movable;
  }

  /** Deposits can bring any amount within the movable ether into the vault. */
  lemma {:induction false} Funded(w: World, txs: seq<Transaction>, amount: nat) returns (funded: seq<Transaction>)
    requires AllFromAccounts(txs) && amount <= Movable(RunAll(w, txs).world.balance)
    ensures AllFromAccounts(funded)
    ensures SameRules(RunAll(w, txs).world, RunAll(w, funded).world)
    ensures amount <= BalanceOf(RunAll(w, funded).world.balance, VAULT)
    decreases Movable(RunAll(w, txs).world.balance) - BalanceOf(RunAll(w, txs).world.balance, VAULT)
  {
    hide Perform, RunAll, BalanceOf, Movable;
    var now := RunAll(w, txs).world;
    if amount <= BalanceOf(now.balance, VAULT) {
      funded := txs;
    } else {
      VaultIsMovable(now.balance);
      var a := SomebodyHasEther(now.balance);
      var tx := Transaction(a, Send(VAULT, BalanceOf(now.balance, a), Return));
      Deposit(now, a);
      RunAllSnoc(w, txs, tx);
      VaultIsMovable(RunAll(w, txs + [tx]).world.balance);
      funded := Funded(w, txs + [tx], amount);
    }
  }

  lemma GovernorActs(w: World, account: Address, limit: nat)
    requires account != ZERO && limit > 0
    ensures var w1 := Perform(w, w.owner, SetOperator(account)).world;
      var w2 := Perform(w1, w.owner, SetPerTransactionLimit(limit)).world;
      && w2.owner == w.owner && w2.operator == account && w2.registry == w.registry && w2.perTransactionLimit == limit
      && w2.sponsorshipCount == w.sponsorshipCount && w2.balance == w.balance
  {
    hide BooksOf;
  }

  /** The owner can make operator and limit fit. */
  lemma Governed(w: World, account: Address, amount: nat) returns (txs: seq<Transaction>)
    requires account != ZERO && amount > 0
    requires IsAccount(w.owner) || (w.operator == account && amount <= w.perTransactionLimit)
    ensures AllFromAccounts(txs)
    ensures var w' := RunAll(w, txs).world;
      && w'.operator == account && amount <= w'.perTransactionLimit && w'.registry == w.registry
      && w'.sponsorshipCount == w.sponsorshipCount && w'.balance == w.balance
  {
    if w.operator == account && amount <= w.perTransactionLimit {
      txs := [];
    } else {
      var first := Transaction(w.owner, SetOperator(account));
      var second := Transaction(w.owner, SetPerTransactionLimit(amount));
      txs := [] + [first] + [second];
      GovernorActs(w, account, amount);
      RunAllSnoc(w, [], first);
      RunAllSnoc(w, [] + [first], second);
      hide Perform;
    }
  }

  /**
   A transfer can be made payable by transactions of accounts exactly when its recipient is not
   sponsored and can take ether, its amount is positive and within the movable ether, and the vault's
   operator and limit fit or its owner is an account.
   */
  lemma PayableExactly(w: World, account: Address, recipient: Address, amount: nat)
    requires Sound(w) && Settled(w)
    ensures (exists txs :: AllFromAccounts(txs) && Accepts(RunAll(w, txs).world, account, recipient, amount))
            <==> CanBePaid(w, account, recipient, amount)
  {
    if CanBePaid(w, account, recipient, amount) {
      var txs := MadePayable(w, account, recipient, amount);
    }
    forall txs | AllFromAccounts(txs) && Accepts(RunAll(w, txs).world, account, recipient, amount)
      ensures CanBePaid(w, account, recipient, amount)
    {
      RunEvolves(w, txs);
      AcceptedCanBePaid(RunAll(w, txs).world, account, recipient, amount);
      PayableBefore(w, RunAll(w, txs).world, account, recipient, amount);
    }
  }

  lemma {:induction false} RunEvolves(w: World, txs: seq<Transaction>)
    requires Sound(w) && Settled(w) && AllFromAccounts(txs)
    ensures Evolves(w, RunAll(w, txs).world)
    decreases |txs|
  {
    if txs == [] {
      EvolvesReflexive(w);
    } else {
      var n := |txs| - 1;
      var before := RunAll(w, txs[..n]).world;
      assert txs[n] in txs;
      RunEvolves(w, txs[..n]);
      assert Sound(before) && Settled(before);
      hide Evolves, Sound, Settled, Perform;
      TransactionEvolves(before, txs[n]);
      EvolvesTransitive(w, before, RunAll(w, txs).world);
    }
  }

  lemma MadePayable(w: World, account: Address, recipient: Address, amount: nat) returns (txs: seq<Transaction>)
    requires Sound(w) && CanBePaid(w, account, recipient, amount)
    ensures AllFromAccounts(txs) && Accepts(RunAll(w, txs).world, account, recipient, amount)
  {
    assert w.registry == REGISTRY;
    var governed := Governed(w, account, amount);
    txs := Funded(w, governed, amount);
    hide RunAll, Sound, BalanceOf, Movable;
  }
}
