/**
 The two contracts, SponsorVault and SponsorshipRegistry, on a small account machine.

 A transaction is a finite tree: a call may hand control to arbitrary code at the address it
 pays (`Code`), which may call back into either contract or pay anybody, and may revert.
 A reverting call leaves the world as it found it. `Perform` returns the world after the call
 together with every world that some code could observe while the call ran.
 */
module Contracts {
  import opened Ledger
  import opened Wrappers

  const ZERO: Address := 0
  const VAULT: Address := 1
  const REGISTRY: Address := 2

  datatype Error =
    | Unauthorized
    | ExceedsLimit(requested: nat, limit: nat)
    | InsufficientBalance(requested: nat, available: nat)
    | AlreadySponsored(recipient: Address)
    | InvalidRecipient
    | InvalidAmount
    | RegistryAlreadyInitialized
    | RegistryNotInitialized
    | TransferFailed
    | Reverted

  /** What the contracts log. `Received` is not an emitted event: it records the ether that `receive` takes. */
  datatype Event =
    | SponsorshipGranted(recipient: Address, amount: nat)
    | SponsorshipExecuted(recipient: Address, amount: nat)
    | OperatorUpdated(previous: Address, current: Address)
    | PerTransactionLimitUpdated(previousLimit: nat, newLimit: nat)
    | RegistryUpdated(registry: Address)
    | EmergencyWithdrawal(to: Address, amount: nat)
    | Received(amount: nat)

  datatype World = World(
    balance: Balances,
    owner: Address,
    operator: Address,
    registry: Address,
    perTransactionLimit: nat,
    sponsorshipCount: map<Address, nat>,
    log: seq<Event>
  )

  datatype Call =
    | SponsorTransfer(recipient: Address, amount: nat, callee: Code)
    | EmergencyWithdraw(to: Address, amount: nat, callee: Code)
    | SetOperator(newOperator: Address)
    | SetPerTransactionLimit(limit: nat)
    | InitializeRegistry(registry: Address)
    | RecordSponsorship(recipient: Address, amount: nat)
    | Send(to: Address, amount: nat, callee: Code)

  /** The behaviour of an account that is called: what it calls in turn, and how it ends. */
  datatype Code = Return | Revert | Then(call: Call, rest: Code)

  datatype Outcome = Outcome(world: World, error: Option<Error>, seen: seq<World>)

  function SponsorshipCount(w: World, a: Address): nat {
    if a in w.sponsorshipCount then w.sponsorshipCount[a] else 0
  }

  predicate IsSponsored(w: World, a: Address) {
    SponsorshipCount(w, a) > 0
  }

  // ---------------------------------------------------------------- reading the log

  /** The running totals of a log. */
  datatype Books = Books(
    granted: multiset<(Address, nat)>,
    executed: multiset<(Address, nat)>,
    grantedTo: multiset<Address>,
    executedTo: multiset<Address>,
    totalGranted: nat,
    totalWithdrawn: nat,
    totalReceived: nat,
    largestGrant: nat,
    highestLimit: nat
  )

  const EMPTY_BOOKS := Books(multiset{}, multiset{}, multiset{}, multiset{}, 0, 0, 0, 0, 0)

  function Max(x: nat, y: nat): nat {
    if x < y then y else x
  }

  function Post(b: Books, e: Event): Books {
    match e
    case SponsorshipGranted(a, n) =>
      b.(granted := b.granted + multiset{(a, n)}, grantedTo := b.grantedTo + multiset{a},
         totalGranted := b.totalGranted + n, largestGrant := Max(b.largestGrant, n))
    case SponsorshipExecuted(a, n) =>
      b.(executed := b.executed + multiset{(a, n)}, executedTo := b.executedTo + multiset{a})
    case PerTransactionLimitUpdated(p, n) =>
      b.(highestLimit := Max(b.highestLimit, Max(p, n)))
    case EmergencyWithdrawal(_, n) => b.(totalWithdrawn := b.totalWithdrawn + n)
    case Received(n) => b.(totalReceived := b.totalReceived + n)
    case OperatorUpdated(_, _) => b
    case RegistryUpdated(_) => b
  }

  function BooksOf(log: seq<Event>): Books {
    if log == [] then EMPTY_BOOKS else Post(BooksOf(log[..|log| - 1]), log[|log| - 1])
  }

  function Emit(w: World, e: Event): (r: World)
    ensures r == w.(log := r.log)
    ensures BooksOf(r.log) == Post(BooksOf(w.log), e)
  {
    assert (w.log + [e])[..|w.log|] == w.log;
    w.(log := w.log + [e])
  }

  /** The largest per-transaction limit the vault has ever had. */
  function LargestLimit(w: World): nat {
    Max(w.perTransactionLimit, BooksOf(w.log).highestLimit)
  }

  // ---------------------------------------------------------------- execution

  /** The checks of `sponsorTransfer`, in the order the vault makes them. */
  function SponsorTransferCheck(w: World, sender: Address, recipient: Address, amount: nat): Option<Error> {
    if sender != w.operator then Some(Unauthorized)
    else if w.registry == ZERO then Some(RegistryNotInitialized)
    else if recipient == ZERO then Some(InvalidRecipient)
    else if amount == 0 then Some(InvalidAmount)
    else if amount > w.perTransactionLimit then Some(ExceedsLimit(amount, w.perTransactionLimit))
    else if BalanceOf(w.balance, VAULT) < amount then Some(InsufficientBalance(amount, BalanceOf(w.balance, VAULT)))
    else if SponsorshipCount(w, recipient) != 0 then Some(AlreadySponsored(recipient))
    else None
  }

  function EmergencyWithdrawCheck(w: World, sender: Address, to: Address, amount: nat): Option<Error> {
    if sender != w.owner then Some(Unauthorized)
    else if to == ZERO then Some(InvalidRecipient)
    else if amount == 0 then Some(InvalidAmount)
    else if BalanceOf(w.balance, VAULT) < amount then Some(InsufficientBalance(amount, BalanceOf(w.balance, VAULT)))
    else None
  }

  /** The registry's `recordSponsorship`, called by the vault. */
  function Recorded(w: World, recipient: Address, amount: nat): World {
    Emit(w.(sponsorshipCount := w.sponsorshipCount[recipient := SponsorshipCount(w, recipient) + 1]),
         SponsorshipGranted(recipient, amount))
  }

  function Perform(w: World, sender: Address, call: Call): Outcome
    decreases call
  {
    match call
    case SponsorTransfer(recipient, amount, callee) => (
      match SponsorTransferCheck(w, sender, recipient, amount)
      case Some(e) => Outcome(w, Some(e), [w])
      case None =>
        var paid := Pay(Recorded(w, recipient, amount), VAULT, recipient, amount, callee);
        if paid.error.None? then
          Outcome(Emit(paid.world, SponsorshipExecuted(recipient, amount)), None, [w] + paid.seen)
        else
          Outcome(w, Some(TransferFailed), [w] + paid.seen))
    case EmergencyWithdraw(to, amount, callee) => (
      match EmergencyWithdrawCheck(w, sender, to, amount)
      case Some(e) => Outcome(w, Some(e), [w])
      case None =>
        var paid := Pay(w, VAULT, to, amount, callee);
        if paid.error.None? then
          Outcome(Emit(paid.world, EmergencyWithdrawal(to, amount)), None, [w] + paid.seen)
        else
          Outcome(w, Some(TransferFailed), [w] + paid.seen))
    case SetOperator(newOperator) =>
      if sender != w.owner then Outcome(w, Some(Unauthorized), [w])
      else if newOperator == ZERO then Outcome(w, Some(InvalidRecipient), [w])
      else Outcome(Emit(w.(operator := newOperator), OperatorUpdated(w.operator, newOperator)), None, [w])
    case SetPerTransactionLimit(limit) =>
      if sender != w.owner then Outcome(w, Some(Unauthorized), [w])
      else if limit == 0 then Outcome(w, Some(InvalidAmount), [w])
      else
        Outcome(Emit(w.(perTransactionLimit := limit), PerTransactionLimitUpdated(w.perTransactionLimit, limit)),
                None, [w])
    case InitializeRegistry(registry) =>
      if sender != w.owner then Outcome(w, Some(Unauthorized), [w])
      else if w.registry != ZERO then Outcome(w, Some(RegistryAlreadyInitialized), [w])
      else if registry == ZERO then Outcome(w, Some(InvalidRecipient), [w])
      else Outcome(Emit(w.(registry := registry), RegistryUpdated(registry)), None, [w])
    case RecordSponsorship(recipient, amount) =>
      if sender != VAULT then Outcome(w, Some(Unauthorized), [w])
      else Outcome(Recorded(w, recipient, amount), None, [w])
    case Send(to, amount, callee) =>
      if BalanceOf(w.balance, sender) < amount then Outcome(w, Some(Reverted), [w])
      else Pay(w, sender, to, amount, callee)
  }

  /**
   A value call: the ether moves first, then the code at `to` runs. The vault's own code is
   `receive`; the registry has none, so paying it fails. No code is at address zero.
   */
  function Pay(w: World, from: Address, to: Address, amount: nat, code: Code): Outcome
    requires amount <= BalanceOf(w.balance, from)
    decreases code, 1
  {
    var moved := w.(balance := Move(w.balance, from, to, amount));
    if to == VAULT then Outcome(Emit(moved, Received(amount)), None, [w])
    else if to == REGISTRY then Outcome(w, Some(Reverted), [w])
    else if to == ZERO then Outcome(moved, None, [w])
    else
      var run := Run(moved, to, code);
      if run.error.None? then run else Outcome(w, run.error, run.seen)
  }

  function Run(w: World, self: Address, code: Code): Outcome
    decreases code, 0
  {
    match code
    case Return => Outcome(w, None, [w])
    case Revert => Outcome(w, Some(Reverted), [w])
    case Then(call, rest) =>
      var first := Perform(w, self, call);
      var second := Run(first.world, self, rest);
      Outcome(second.world, second.error, [w] + first.seen + second.seen)
  }

  // ---------------------------------------------------------------- what always holds

  /**
   The invariant of every world that any code can observe: the vault is linked to the registry,
   every recorded count is exactly 1, the recorded addresses are exactly those with a Granted
   event, and no grant exceeds the largest limit the owner ever chose.
   */
  ghost predicate Sound(w: World) {
    && w.registry == REGISTRY
    && w.operator != ZERO
    && w.perTransactionLimit > 0
    && (forall a | a in w.sponsorshipCount :: w.sponsorshipCount[a] == 1)
    && BooksOf(w.log).grantedTo == multiset(w.sponsorshipCount.Keys)
    && BooksOf(w.log).largestGrant <= LargestLimit(w)
  }

  /** Between transactions nothing is in flight: every grant has been executed. */
  ghost predicate Settled(w: World) {
    && BooksOf(w.log).granted == BooksOf(w.log).executed
    && BooksOf(w.log).grantedTo == BooksOf(w.log).executedTo
  }

  /** Vault balance, plus what left it, minus what came in. */
  ghost function Net(w: World): int {
    var b := BooksOf(w.log);
    BalanceOf(w.balance, VAULT) + b.totalGranted + b.totalWithdrawn - b.totalReceived
  }

  /** The log of grants and the log of executions have moved apart by the same amount in both worlds. */
  ghost predicate SameInFlight(b: Books, b': Books) {
    && b'.granted + b.executed == b.granted + b'.executed
    && b'.grantedTo + b.executedTo == b.grantedTo + b'.executedTo
  }

  /**
   How the world after some activity relates to the world before it, when the activity spent
   `spent` of the vault's ether without logging it.
   */
  ghost predicate FollowsSpending(w: World, w': World, spent: nat) {
    && Sound(w')
    && w'.owner == w.owner
    && Total(w'.balance) == Total(w.balance)
    && Net(w') == Net(w) - spent
    && SameInFlight(BooksOf(w.log), BooksOf(w'.log))
    && w.sponsorshipCount.Keys <= w'.sponsorshipCount.Keys
  }

  /** How the world after a complete call relates to the world before it. */
  ghost predicate Follows(w: World, w': World) {
    FollowsSpending(w, w', 0)
  }

  ghost predicate AllSound(ws: seq<World>) {
    forall w | w in ws :: Sound(w)
  }

  lemma RecordedIsSound(w: World, recipient: Address, amount: nat)
    requires Sound(w)
    requires SponsorshipCount(w, recipient) == 0
    requires amount <= w.perTransactionLimit
    ensures Sound(Recorded(w, recipient, amount))
  {
    hide BooksOf;
    var r := Recorded(w, recipient, amount);
    assert recipient !in w.sponsorshipCount;
    assert r.sponsorshipCount == w.sponsorshipCount[recipient := 1];
    assert r.sponsorshipCount.Keys == w.sponsorshipCount.Keys + {recipient};
    assert multiset(r.sponsorshipCount.Keys) == multiset(w.sponsorshipCount.Keys) + multiset{recipient};
  }

  lemma BalancedTransitive<T>(g0: multiset<T>, e0: multiset<T>, g1: multiset<T>, e1: multiset<T>, g2: multiset<T>,
                              e2: multiset<T>)
    requires g1 + e0 == g0 + e1 && g2 + e1 == g1 + e2
    ensures g2 + e0 == g0 + e2
  {
    forall x: T | x in g2 + e0 + g0 + e2
      ensures (g2 + e0)[x] == (g0 + e2)[x]
    {
      assert (g1 + e0)[x] == (g0 + e1)[x];
      assert (g2 + e1)[x] == (g1 + e2)[x];
    }
    assert g2 + e0 <= g0 + e2;
    assert g0 + e2 <= g2 + e0;
  }

  lemma SpendingThenFollowing(w0: World, w1: World, w2: World, spent: nat)
    requires FollowsSpending(w0, w1, spent) && Follows(w1, w2)
    ensures FollowsSpending(w0, w2, spent)
  {
    hide Sound, BooksOf;
    var b0, b1, b2 := BooksOf(w0.log), BooksOf(w1.log), BooksOf(w2.log);
    BalancedTransitive(b0.granted, b0.executed, b1.granted, b1.executed, b2.granted, b2.executed);
    BalancedTransitive(b0.grantedTo, b0.executedTo, b1.grantedTo, b1.executedTo, b2.grantedTo, b2.executedTo);
  }

  lemma FollowsTransitive(w0: World, w1: World, w2: World)
    requires Follows(w0, w1) && Follows(w1, w2)
    ensures Follows(w0, w2)
  {
    SpendingThenFollowing(w0, w1, w2, 0);
  }

  // ---------------------------------------------------------------- every call tree keeps it

  lemma SponsorTransferFollows(w: World, recipient: Address, amount: nat, w': World)
    requires FollowsSpending(Recorded(w, recipient, amount), w', amount)
    requires recipient !in w.sponsorshipCount
    ensures Follows(w, Emit(w', SponsorshipExecuted(recipient, amount)))
  {
    var r := Recorded(w, recipient, amount);
    var e := Emit(w', SponsorshipExecuted(recipient, amount));
    var b, br, b', be := BooksOf(w.log), BooksOf(r.log), BooksOf(w'.log), BooksOf(e.log);
    assert w.sponsorshipCount.Keys <= r.sponsorshipCount.Keys;
    assert be.granted + b.executed == b.granted + be.executed by {
      assert (b.granted + multiset{(recipient, amount)}) + b'.executed == b.granted + be.executed;
    }
    assert be.grantedTo + b.executedTo == b.grantedTo + be.executedTo by {
      assert (b.grantedTo + multiset{recipient}) + b'.executedTo == b.grantedTo + be.executedTo;
    }
  }

  lemma EmergencyWithdrawFollows(w: World, to: Address, amount: nat, w': World)
    requires FollowsSpending(w, w', amount)
    ensures Follows(w, Emit(w', EmergencyWithdrawal(to, amount)))
  {
    hide BooksOf, Total, BalanceOf;
  }

  lemma SetOperatorFollows(w: World, newOperator: Address)
    requires Sound(w) && newOperator != ZERO
    ensures Follows(w, Emit(w.(operator := newOperator), OperatorUpdated(w.operator, newOperator)))
  {
    hide BooksOf, Total, BalanceOf;
  }

  lemma SetLimitFollows(w: World, limit: nat)
    requires Sound(w) && limit > 0
    ensures Follows(w, Emit(w.(perTransactionLimit := limit), PerTransactionLimitUpdated(w.perTransactionLimit, limit)))
  {
    hide BooksOf, Total, BalanceOf;
    var r := Emit(w.(perTransactionLimit := limit), PerTransactionLimitUpdated(w.perTransactionLimit, limit));
    assert LargestLimit(w) <= LargestLimit(r);
  }

  lemma FollowsReflexive(w: World)
    requires Sound(w)
    ensures Follows(w, w)
  {
  }

  lemma SoundMeans(w: World, a: Address)
    requires Sound(w)
    ensures w.registry == REGISTRY
    ensures SponsorshipCount(w, a) == 0 ==> a !in w.sponsorshipCount
  {
  }

  lemma {:induction false} PerformFollows(w: World, sender: Address, call: Call)
    requires Sound(w) && sender != VAULT
    ensures Follows(w, Perform(w, sender, call).world)
    ensures AllSound(Perform(w, sender, call).seen)
    decreases call
  {
    hide Sound, FollowsSpending, BooksOf;
    FollowsReflexive(w);
    SoundMeans(w, if call.SponsorTransfer? then call.recipient else ZERO);
    match call
    case SponsorTransfer(recipient, amount, callee) =>
      if SponsorTransferCheck(w, sender, recipient, amount).None? {
        var recorded := Recorded(w, recipient, amount);
        RecordedIsSound(w, recipient, amount);
        PayFollows(recorded, VAULT, recipient, amount, callee);
        var paid := Pay(recorded, VAULT, recipient, amount, callee);
        if paid.error.None? {
          SponsorTransferFollows(w, recipient, amount, paid.world);
        }
      }
    case EmergencyWithdraw(to, amount, callee) =>
      if EmergencyWithdrawCheck(w, sender, to, amount).None? {
        PayFollows(w, VAULT, to, amount, callee);
        var paid := Pay(w, VAULT, to, amount, callee);
        if paid.error.None? {
          EmergencyWithdrawFollows(w, to, amount, paid.world);
        }
      }
    case Send(to, amount, callee) =>
      if amount <= BalanceOf(w.balance, sender) {
        PayFollows(w, sender, to, amount, callee);
      }
    case SetOperator(newOperator) =>
      if newOperator != ZERO {
        SetOperatorFollows(w, newOperator);
      }
    case SetPerTransactionLimit(limit) =>
      if limit != 0 {
        SetLimitFollows(w, limit);
      }
    case InitializeRegistry(_) =>
    case RecordSponsorship(_, _) =>
  }

  lemma BalanceIsNoConcernOfSound(w: World, balance: Balances)
    requires Sound(w)
    ensures Sound(w.(balance := balance))
  {
  }

  lemma ReceivingKeepsSound(w: World, amount: nat)
    requires Sound(w)
    ensures Sound(Emit(w, Received(amount)))
  {
  }

  function SpentBy(from: Address, amount: nat): nat {
    if from == VAULT then amount else 0
  }

  /** Ether that leaves the vault is spent until something logs it. */
  lemma MovedFollows(w: World, from: Address, to: Address, amount: nat)
    requires Sound(w) && amount <= BalanceOf(w.balance, from) && to != VAULT
    ensures FollowsSpending(w, w.(balance := Move(w.balance, from, to, amount)), SpentBy(from, amount))
  {
    hide Sound, BooksOf;
    MoveConserves(w.balance, from, to, amount);
    BalanceIsNoConcernOfSound(w, Move(w.balance, from, to, amount));
  }

  /** Ether that reaches the vault is received. */
  lemma ReceivedFollows(w: World, from: Address, amount: nat)
    requires Sound(w) && amount <= BalanceOf(w.balance, from)
    ensures FollowsSpending(w, Emit(w.(balance := Move(w.balance, from, VAULT, amount)), Received(amount)),
                            SpentBy(from, amount))
  {
    hide Sound, BooksOf;
    var moved := w.(balance := Move(w.balance, from, VAULT, amount));
    MoveConserves(w.balance, from, VAULT, amount);
    BalanceIsNoConcernOfSound(w, moved.balance);
    ReceivingKeepsSound(moved, amount);
  }

  /** A value call out of the vault spends what left; one from elsewhere spends nothing. */
  lemma {:induction false} PayFollows(w: World, from: Address, to: Address, amount: nat, code: Code)
    requires Sound(w) && amount <= BalanceOf(w.balance, from)
    ensures AllSound(Pay(w, from, to, amount, code).seen)
    ensures Pay(w, from, to, amount, code).error.Some? ==> Pay(w, from, to, amount, code).world == w
    ensures Pay(w, from, to, amount, code).error.None? ==>
              FollowsSpending(w, Pay(w, from, to, amount, code).world, SpentBy(from, amount))
    decreases code, 1
  {
    hide Sound, FollowsSpending, BooksOf;
    var moved := w.(balance := Move(w.balance, from, to, amount));
    if to == VAULT {
      ReceivedFollows(w, from, amount);
    } else if to != REGISTRY {
      MovedFollows(w, from, to, amount);
      BalanceIsNoConcernOfSound(w, moved.balance);
      if to != ZERO {
        RunFollows(moved, to, code);
        SpendingThenFollowing(w, moved, Run(moved, to, code).world, SpentBy(from, amount));
      }
    }
  }

  lemma {:induction false} RunFollows(w: World, self: Address, code: Code)
    requires Sound(w) && self != VAULT
    ensures Follows(w, Run(w, self, code).world)
    ensures AllSound(Run(w, self, code).seen)
    decreases code, 0
  {
    match code
    case Return =>
    case Revert =>
    case Then(call, rest) =>
      var first := Perform(w, self, call);
      PerformFollows(w, self, call);
      RunFollows(first.world, self, rest);
      FollowsTransitive(w, first.world, Run(first.world, self, rest).world);
  }
}
