/** What the contracts guarantee over whole runs of transactions, from deployment on. */
module ContractTheorems {
  import opened Ledger
  import opened Wrappers
  import opened Contracts

  /** Addresses that can act on their own: nobody holds the key of address zero. */
  predicate IsAccount(a: Address) {
    a != ZERO && a != VAULT && a != REGISTRY
  }

  /** A top-level transaction: an account makes one call. */
  datatype Transaction = Transaction(sender: Address, call: Call)

  predicate FromAccount(tx: Transaction) {
    IsAccount(tx.sender)
  }

  /** The vault's constructor, and the deployer's one call of `initializeRegistry`. */
  function Deploy(balance: Balances, deployer: Address, operator: Address, limit: nat): Outcome {
    var blank := World(balance, deployer, operator, ZERO, limit, map[], []);
    if operator == ZERO then Outcome(blank, Some(InvalidRecipient), [])
    else if limit == 0 then Outcome(blank, Some(InvalidAmount), [])
    else Perform(blank, deployer, InitializeRegistry(REGISTRY))
  }

  function RunAll(w: World, txs: seq<Transaction>): Outcome {
    if txs == [] then Outcome(w, None, [w])
    else
      var before := RunAll(w, txs[..|txs| - 1]);
      var last := Perform(before.world, txs[|txs| - 1].sender, txs[|txs| - 1].call);
      Outcome(last.world, last.error, before.seen + last.seen)
  }

  lemma DeploymentIsSound(balance: Balances, deployer: Address, operator: Address, limit: nat)
    ensures Deploy(balance, deployer, operator, limit).error.None? <==> operator != ZERO && limit > 0
    ensures Deploy(balance, deployer, operator, limit).error.None? ==>
              var w := Deploy(balance, deployer, operator, limit).world;
              Sound(w) && Settled(w) && Net(w) == BalanceOf(balance, VAULT) && w.balance == balance
  {
    hide Pay, Run, Recorded, Move, SponsorTransferCheck, EmergencyWithdrawCheck;
    var blank := World(balance, deployer, operator, ZERO, limit, map[], []);
    assert BooksOf(blank.log) == EMPTY_BOOKS;
    if operator != ZERO && limit > 0 {
      var linked := Emit(blank.(registry := REGISTRY), RegistryUpdated(REGISTRY));
      assert Deploy(balance, deployer, operator, limit) == Outcome(linked, None, [blank]);
      assert BooksOf(linked.log) == EMPTY_BOOKS;
    }
  }

  /** A call that fails, at any depth of re-entrancy, changes nothing. */
  lemma {:induction false} FailureChangesNothing(w: World, sender: Address, call: Call)
    requires Perform(w, sender, call).error.Some?
    ensures Perform(w, sender, call).world == w
  {
    match call
    case Send(to, amount, callee) =>
    case SponsorTransfer(_, _, _) =>
    case EmergencyWithdraw(_, _, _) =>
    case SetOperator(_) =>
    case SetPerTransactionLimit(_) =>
    case InitializeRegistry(_) =>
    case RecordSponsorship(_, _) =>
  }

  lemma CancelInFlight<T>(g: multiset<T>, g': multiset<T>, e': multiset<T>)
    requires g' + g == g + e'
    ensures g' == e'
  {
    forall x: T | x in g' + e'
      ensures g'[x] == e'[x]
    {
      assert (g' + g)[x] == (g + e')[x];
    }
    assert g' <= e' && e' <= g';
  }

  /** After a complete top-level call nothing is in flight any more. */
  lemma TransactionSettles(w: World, tx: Transaction)
    requires Sound(w) && Settled(w) && FromAccount(tx)
    ensures Follows(w, Perform(w, tx.sender, tx.call).world)
    ensures Settled(Perform(w, tx.sender, tx.call).world)
  {
    PerformFollows(w, tx.sender, tx.call);
    var b, b' := BooksOf(w.log), BooksOf(Perform(w, tx.sender, tx.call).world.log);
    CancelInFlight(b.granted, b'.granted, b'.executed);
    CancelInFlight(b.grantedTo, b'.grantedTo, b'.executedTo);
  }

  /**
   Over every run of transactions, whatever the called accounts do: every world that any code
   observes is sound, and the world between transactions is settled, holds the same total ether
   and has the same net.
   */
  lemma {:induction false} EveryRunIsSound(w: World, txs: seq<Transaction>)
    requires Sound(w) && Settled(w)
    requires forall tx | tx in txs :: FromAccount(tx)
    ensures AllSound(RunAll(w, txs).seen)
    ensures Follows(w, RunAll(w, txs).world)
    ensures Settled(RunAll(w, txs).world)
    decreases |txs|
  {
    if txs != [] {
      var before := RunAll(w, txs[..|txs| - 1]).world;
      var last := txs[|txs| - 1];
      assert last in txs;
      EveryRunIsSound(w, txs[..|txs| - 1]);
      PerformFollows(before, last.sender, last.call);
      TransactionSettles(before, last);
      FollowsTransitive(w, before, RunAll(w, txs).world);
    }
  }

  /** No address's count exceeds 1 in any world that any code observes, re-entrant or not, nor at the end. */
  lemma CountNeverExceedsOne(w: World, txs: seq<Transaction>, x: World, a: Address)
    requires Sound(w) && Settled(w)
    requires forall tx | tx in txs :: FromAccount(tx)
    requires x in RunAll(w, txs).seen || x == RunAll(w, txs).world
    ensures SponsorshipCount(x, a) <= 1
    ensures IsSponsored(x, a) <==> GrantLogged(x.log, a)
  {
    EveryRunIsSound(w, txs);
    assert Sound(x);
    assert BooksOf(x.log).grantedTo[a] == multiset(x.sponsorshipCount.Keys)[a];
    GrantedToMeansEvent(x.log, a);
  }

  predicate GrantLogged(log: seq<Event>, a: Address) {
    exists i | 0 <= i < |log| :: log[i].SponsorshipGranted? && log[i].recipient == a
  }

  lemma GrantLoggedSnoc(log: seq<Event>, e: Event, a: Address)
    ensures GrantLogged(log + [e], a) <==> GrantLogged(log, a) || (e.SponsorshipGranted? && e.recipient == a)
  {
    var longer := log + [e];
    assert longer[|log|] == e;
    if GrantLogged(log, a) {
      var i :| 0 <= i < |log| && log[i].SponsorshipGranted? && log[i].recipient == a;
      assert longer[i] == log[i];
    }
  }

  lemma {:induction false} GrantedToMeansEvent(log: seq<Event>, a: Address)
    ensures a in BooksOf(log).grantedTo <==> GrantLogged(log, a)
  {
    if log != [] {
      var n := |log| - 1;
      assert log == log[..n] + [log[n]];
      GrantedToMeansEvent(log[..n], a);
      GrantLoggedSnoc(log[..n], log[n], a);
      PostAddsRecipient(BooksOf(log[..n]), log[n], a);
    }
  }

  lemma PostAddsRecipient(b: Books, e: Event, a: Address)
    ensures a in Post(b, e).grantedTo <==> a in b.grantedTo || (e.SponsorshipGranted? && e.recipient == a)
  {
  }

  /**
   Between transactions each address has been paid at most once, exactly the recorded addresses
   have been paid, and each was paid the amount that the registry logged.
   */
  lemma PaidAtMostOnce(w: World, txs: seq<Transaction>, a: Address)
    requires Sound(w) && Settled(w)
    requires forall tx | tx in txs :: FromAccount(tx)
    ensures var b := BooksOf(RunAll(w, txs).world.log);
      b.executedTo[a] == SponsorshipCount(RunAll(w, txs).world, a) <= 1 && b.executed == b.granted
  {
    EveryRunIsSound(w, txs);
    var x := RunAll(w, txs).world;
    assert BooksOf(x.log).grantedTo[a] == multiset(x.sponsorshipCount.Keys)[a];
  }

  /**
   From deployment on, the vault holds what it received minus what it granted and withdrew, and no
   ether is made or lost.
   */
  lemma VaultAccounting(balance: Balances, deployer: Address, operator: Address, limit: nat, txs: seq<Transaction>)
    requires operator != ZERO && limit > 0
    requires forall tx | tx in txs :: FromAccount(tx)
    ensures var w := RunAll(Deploy(balance, deployer, operator, limit).world, txs).world;
      var b := BooksOf(w.log);
      && BalanceOf(w.balance, VAULT) == BalanceOf(balance, VAULT) + b.totalReceived - b.totalGranted - b.totalWithdrawn
      && Total(w.balance) == Total(balance)
  {
    DeploymentIsSound(balance, deployer, operator, limit);
    EveryRunIsSound(Deploy(balance, deployer, operator, limit).world, txs);
  }

  predicate FitsUnder(total: nat, n: nat, largest: nat) {
    total <= n * largest
  }

  lemma OneMoreFits(total: nat, n: nat, largest: nat, amount: nat, largest': nat)
    requires FitsUnder(total, n, largest) && largest <= largest' && amount <= largest'
    ensures FitsUnder(total + amount, n + 1, largest')
  {
    ProductMonotone(n, largest, largest');
    assert n * largest' + largest' == (n + 1) * largest';
  }

  ghost predicate FitsLargest(b: Books) {
    |b.granted| == |b.grantedTo| && FitsUnder(b.totalGranted, |b.granted|, b.largestGrant)
  }

  lemma PostFitsLargest(b: Books, e: Event)
    requires FitsLargest(b)
    ensures FitsLargest(Post(b, e))
  {
    hide FitsUnder;
    if e.SponsorshipGranted? {
      OneMoreFits(b.totalGranted, |b.granted|, b.largestGrant, e.amount, Post(b, e).largestGrant);
      assert |Post(b, e).granted| == |b.granted| + 1;
      assert |Post(b, e).grantedTo| == |b.grantedTo| + 1;
    }
  }

  lemma {:induction false} GrantsFitLargest(log: seq<Event>)
    ensures FitsLargest(BooksOf(log))
  {
    if log != [] {
      GrantsFitLargest(log[..|log| - 1]);
      PostFitsLargest(BooksOf(log[..|log| - 1]), log[|log| - 1]);
    }
  }

  lemma ProductMonotone(n: nat, m: nat, m': nat)
    requires m <= m'
    ensures n * m <= n * m'
  {
  }

  /** Everything ever granted is at most the number of sponsored addresses times the largest limit ever set. */
  lemma GrantsAreBounded(w: World)
    requires Sound(w)
    ensures BooksOf(w.log).totalGranted <= |w.sponsorshipCount| * LargestLimit(w)
  {
    var b := BooksOf(w.log);
    GrantsFitLargest(w.log);
    assert |multiset(w.sponsorshipCount.Keys)| == |w.sponsorshipCount.Keys|;
    ProductMonotone(|b.granted|, b.largestGrant, LargestLimit(w));
  }

  /** A transfer that succeeds found its recipient unsponsored and leaves it sponsored. */
  lemma TransferSponsors(w: World, sender: Address, recipient: Address, amount: nat, callee: Code)
    requires Sound(w) && sender != VAULT
    requires Perform(w, sender, SponsorTransfer(recipient, amount, callee)).error.None?
    ensures !IsSponsored(w, recipient)
    ensures IsSponsored(Perform(w, sender, SponsorTransfer(recipient, amount, callee)).world, recipient)
  {
    var recorded := Recorded(w, recipient, amount);
    var paid := Pay(recorded, VAULT, recipient, amount, callee);
    RecordedIsSound(w, recipient, amount);
    PayFollows(recorded, VAULT, recipient, amount, callee);
    assert recipient in paid.world.sponsorshipCount;
    assert Perform(w, sender, SponsorTransfer(recipient, amount, callee)).world.sponsorshipCount
      == paid.world.sponsorshipCount;
    assert Sound(paid.world);
  }

  /**
   A transfer is refused as AlreadySponsored exactly when every other check passes and the
   recipient is sponsored; the callee never runs.
   */
  lemma AlreadySponsoredExactly(w: World, sender: Address, recipient: Address, amount: nat, callee: Code)
    requires Sound(w)
    ensures Perform(w, sender, SponsorTransfer(recipient, amount, callee)).error == Some(AlreadySponsored(recipient))
       <==> sender == w.operator && recipient != ZERO && 0 < amount <= w.perTransactionLimit
            && amount <= BalanceOf(w.balance, VAULT) && IsSponsored(w, recipient)
    ensures IsSponsored(w, recipient) ==> Perform(w, sender, SponsorTransfer(recipient, amount, callee)).world == w
  {
    assert w.registry == REGISTRY;
    hide Sound, BooksOf, Pay, Recorded, BalanceOf;
  }

  /** A sponsored address stays sponsored. */
  lemma SponsoredStays(w: World, w': World, a: Address)
    requires Follows(w, w') && IsSponsored(w, a)
    ensures IsSponsored(w', a)
  {
    assert a in w.sponsorshipCount;
    assert a in w'.sponsorshipCount.Keys;
  }

  /** Once linked, the vault's registry can never be changed, and neither can its owner. */
  lemma LinkageIsPermanent(w: World, txs: seq<Transaction>)
    requires Sound(w) && Settled(w)
    requires forall tx | tx in txs :: FromAccount(tx)
    ensures RunAll(w, txs).world.registry == REGISTRY && RunAll(w, txs).world.owner == w.owner
  {
    EveryRunIsSound(w, txs);
  }
}
