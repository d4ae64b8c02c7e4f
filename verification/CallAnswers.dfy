/** What each call answers, and the whole world it leaves when no other account's code runs. */
module CallAnswers {
  import opened Ledger
  import opened Wrappers
  import opened Contracts
  import opened ContractTheorems
  import opened Payments

  /**
   Which refusal a transfer meets, the first in the contract's order; past them all it fails only if the
   payment does: never for code that just returns, always for the registry or for code that reverts.
   */
  lemma TransferAnswers(w: World, sender: Address, recipient: Address, amount: nat, callee: Code)
    ensures var error, available := Perform(w, sender, SponsorTransfer(recipient, amount, callee)).error,
                                    BalanceOf(w.balance, VAULT);
      var authorized := sender == w.operator;
      var linked := authorized && w.registry != ZERO;
      var addressed := linked && recipient != ZERO;
      var positive := addressed && amount > 0;
      var allowed := positive && amount <= w.perTransactionLimit;
      var funded := allowed && amount <= available;
      var fresh_ := funded && SponsorshipCount(w, recipient) == 0;
      && (error == Some(Unauthorized) <==> !authorized)
      && (error == Some(RegistryNotInitialized) <==> authorized && w.registry == ZERO)
      && (error == Some(InvalidRecipient) <==> linked && recipient == ZERO)
      && (error == Some(InvalidAmount) <==> addressed && amount == 0)
      && (error == Some(ExceedsLimit(amount, w.perTransactionLimit)) <==> positive && amount > w.perTransactionLimit)
      && (error == Some(InsufficientBalance(amount, available)) <==> allowed && amount > available)
      && (error == Some(AlreadySponsored(recipient)) <==> funded && SponsorshipCount(w, recipient) != 0)
      && (fresh_ <==> error.None? || error == Some(TransferFailed))
      && (fresh_ && callee == Return && recipient != REGISTRY ==> error.None?)
      && (fresh_ && (recipient == REGISTRY || (IsAccount(recipient) && callee == Revert)) ==>
            error == Some(TransferFailed))
  {
    hide BooksOf, Recorded, BalanceOf, Move;
    if SponsorTransferCheck(w, sender, recipient, amount).None? {
      RecordedIs(w, recipient, amount);
      assert amount <= BalanceOf(Recorded(w, recipient, amount).balance, VAULT);
      PaymentAnswers(Recorded(w, recipient, amount), VAULT, recipient, amount, callee);
    }
    hide Pay;
  }

  lemma PaymentAnswers(w: World, from: Address, to: Address, amount: nat, code: Code)
    requires amount <= BalanceOf(w.balance, from)
    ensures code == Return && to != REGISTRY ==> Pay(w, from, to, amount, code).error.None?
    ensures to == REGISTRY || (IsAccount(to) && code == Revert) ==> Pay(w, from, to, amount, code).error.Some?
  {
    hide BooksOf, BalanceOf, Move;
  }

  /** The same for a withdrawal. */
  lemma WithdrawalAnswers(w: World, sender: Address, to: Address, amount: nat, callee: Code)
    ensures var error, available := Perform(w, sender, EmergencyWithdraw(to, amount, callee)).error,
                                    BalanceOf(w.balance, VAULT);
      var authorized := sender == w.owner;
      var addressed := authorized && to != ZERO;
      var positive := addressed && amount > 0;
      var funded := positive && amount <= available;
      && (error == Some(Unauthorized) <==> !authorized)
      && (error == Some(InvalidRecipient) <==> authorized && to == ZERO)
      && (error == Some(InvalidAmount) <==> addressed && amount == 0)
      && (error == Some(InsufficientBalance(amount, available)) <==> positive && amount > available)
      && (funded <==> error.None? || error == Some(TransferFailed))
      && (funded && callee == Return && to != REGISTRY ==> error.None?)
      && (funded && (to == REGISTRY || (IsAccount(to) && callee == Revert)) ==> error == Some(TransferFailed))
  {
    hide BooksOf, BalanceOf, Move;
    if EmergencyWithdrawCheck(w, sender, to, amount).None? {
      PaymentAnswers(w, VAULT, to, amount, callee);
    }
    hide Pay;
  }

  /** The owner, and nobody else, replaces the operator by any address but zero; nothing else changes. */
  lemma OperatorIsReplaced(w: World, sender: Address, newOperator: Address)
    ensures var out := Perform(w, sender, SetOperator(newOperator));
      && (out.error.None? <==> sender == w.owner && newOperator != ZERO)
      && (out.error == Some(Unauthorized) <==> sender != w.owner)
      && (out.error == Some(InvalidRecipient) <==> sender == w.owner && newOperator == ZERO)
      && (out.error.Some? ==> out.world == w)
      && (out.error.None? ==>
            && out.world.operator == newOperator && SameOffices(w.(operator := newOperator), out.world)
            && out.world.balance == w.balance && out.world.sponsorshipCount == w.sponsorshipCount
            && out.world.log == w.log + [OperatorUpdated(w.operator, newOperator)])
  {
    hide BooksOf;
  }

  /** The owner, and nobody else, replaces the limit by any positive one; nothing else changes. */
  lemma LimitIsReplaced(w: World, sender: Address, limit: nat)
    ensures var out := Perform(w, sender, SetPerTransactionLimit(limit));
      && (out.error.None? <==> sender == w.owner && limit > 0)
      && (out.error == Some(Unauthorized) <==> sender != w.owner)
      && (out.error == Some(InvalidAmount) <==> sender == w.owner && limit == 0)
      && (out.error.Some? ==> out.world == w)
      && (out.error.None? ==>
            && out.world.perTransactionLimit == limit && SameOffices(w.(perTransactionLimit := limit), out.world)
            && out.world.balance == w.balance && out.world.sponsorshipCount == w.sponsorshipCount
            && out.world.log == w.log + [PerTransactionLimitUpdated(w.perTransactionLimit, limit)])
  {
    hide BooksOf;
  }

  /** The owner links a registry once. */
  lemma RegistryIsLinkedOnce(w: World, sender: Address, registry: Address)
    ensures var out := Perform(w, sender, InitializeRegistry(registry));
      && (out.error.None? <==> sender == w.owner && w.registry == ZERO && registry != ZERO)
      && (out.error == Some(Unauthorized) <==> sender != w.owner)
      && (out.error == Some(RegistryAlreadyInitialized) <==> sender == w.owner && w.registry != ZERO)
      && (out.error == Some(InvalidRecipient) <==> sender == w.owner && w.registry == ZERO && registry == ZERO)
      && (out.error.Some? ==> out.world == w)
      && (out.error.None? ==>
            && out.world.registry == registry && SameOffices(w.(registry := registry), out.world)
            && out.world.balance == w.balance && out.world.sponsorshipCount == w.sponsorshipCount
            && out.world.log == w.log + [RegistryUpdated(registry)]
            && Perform(out.world, sender, InitializeRegistry(registry)).error == Some(RegistryAlreadyInitialized))
  {
    hide BooksOf;
  }

  /** Nobody but the vault can have a sponsorship recorded. */
  lemma OnlyVaultRecords(w: World, sender: Address, recipient: Address, amount: nat)
    ensures var out := Perform(w, sender, RecordSponsorship(recipient, amount));
      && (out.error.None? <==> sender == VAULT)
      && (out.error.Some? ==> out.error == Some(Unauthorized) && out.world == w)
  {
    hide Recorded;
  }

  /** What deployment leaves, besides a sound world: the deployer owns it, and its choices are in place. */
  lemma DeploymentLeaves(balance: Balances, deployer: Address, operator: Address, limit: nat)
    requires operator != ZERO && limit > 0
    ensures Deploy(balance, deployer, operator, limit).world
            == World(balance, deployer, operator, REGISTRY, limit, map[], [RegistryUpdated(REGISTRY)])
  {
    RegistryIsLinkedOnce(World(balance, deployer, operator, ZERO, limit, map[], []), deployer, REGISTRY);
    hide BooksOf, Perform;
  }
}
