/**
 The contracts as objects that update their own fields, proved against `Contracts.Perform`.
 `Ether` holds what the chain itself keeps: balances and the log.
 */
module SponsorVaultContract {
  import opened Ledger
  import opened Wrappers
  import opened Contracts
  import ContractTheorems

  class Ether {
    var balance: Balances
    var log: seq<Event>

    constructor (balance: Balances)
      ensures this.balance == balance && log == []
    {
      this.balance := balance;
      log := [];
    }

    method Emit(e: Event)
      modifies this`log
      ensures log == old(log) + [e]
    {
      log := log + [e];
    }
  }

  class SponsorshipRegistry {
    const vault: Address
    var sponsorshipCount: map<Address, nat>

    constructor (vault: Address)
      ensures this.vault == vault && sponsorshipCount == map[]
    {
      this.vault := vault;
      sponsorshipCount := map[];
    }

    method RecordSponsorship(sender: Address, recipient: Address, amount: nat, ether: Ether)
        returns (error: Option<Error>)
      modifies this`sponsorshipCount, ether`log
      ensures error == if sender == vault then None else Some(Unauthorized)
      ensures sender != vault ==> sponsorshipCount == old(sponsorshipCount) && ether.log == old(ether.log)
      ensures sender == vault ==>
                && sponsorshipCount.Keys == old(sponsorshipCount.Keys) + {recipient}
                && sponsorshipCount[recipient]
                   == (if recipient in old(sponsorshipCount) then old(sponsorshipCount)[recipient] else 0) + 1
                && (forall a | a in old(sponsorshipCount) && a != recipient ::
                      sponsorshipCount[a] == old(sponsorshipCount)[a])
                && ether.log == old(ether.log) + [SponsorshipGranted(recipient, amount)]
    {
      if sender != vault {
        return Some(Unauthorized);
      }
      var count := if recipient in sponsorshipCount then sponsorshipCount[recipient] else 0;
      sponsorshipCount := sponsorshipCount[recipient := count + 1];
      ether.Emit(SponsorshipGranted(recipient, amount));
      error := None;
    }
  }

  class SponsorVault {
    var owner: Address
    var operator: Address
    var registry: Address
    var perTransactionLimit: nat
    const ether: Ether
    const accounting: SponsorshipRegistry

    ghost predicate Valid() {
      accounting.vault == VAULT
    }

    function State(): World
      reads this, ether, accounting
    {
      World(ether.balance, owner, operator, registry, perTransactionLimit, accounting.sponsorshipCount, ether.log)
    }

    /** A vault with the registry still unset. `Deploy` refuses a zero operator or limit before it gets here. */
    constructor (deployer: Address, operator: Address, limit: nat, ether: Ether, accounting: SponsorshipRegistry)
      requires accounting.vault == VAULT
      ensures Valid() && this.ether == ether && this.accounting == accounting
      ensures State() == World(ether.balance, deployer, operator, ZERO, limit, accounting.sponsorshipCount, ether.log)
    {
      owner, this.operator, registry, perTransactionLimit := deployer, operator, ZERO, limit;
      this.ether, this.accounting := ether, accounting;
    }

    /** What a revert does: every field goes back to the world `w`. */
    method Restore(w: World)
      modifies this, ether, accounting
      ensures State() == w
    {
      ether.balance, ether.log := w.balance, w.log;
      owner, operator, registry, perTransactionLimit := w.owner, w.operator, w.registry, w.perTransactionLimit;
      accounting.sponsorshipCount := w.sponsorshipCount;
    }

    method SponsorTransfer(sender: Address, recipient: Address, amount: nat, callee: Code)
        returns (error: Option<Error>)
      requires Valid()
      modifies this, ether, accounting
      ensures var spec := Perform(old(State()), sender, Call.SponsorTransfer(recipient, amount, callee));
        State() == spec.world && error == spec.error
      decreases callee, 2
    {
      if sender != operator { return Some(Unauthorized); }
      if registry == ZERO { return Some(RegistryNotInitialized); }
      if recipient == ZERO { return Some(InvalidRecipient); }
      if amount == 0 { return Some(InvalidAmount); }
      if amount > perTransactionLimit { return Some(ExceedsLimit(amount, perTransactionLimit)); }
      var available := BalanceOf(ether.balance, VAULT);
      if available < amount { return Some(InsufficientBalance(amount, available)); }
      var before := State();
      if SponsorshipCount(before, recipient) != 0 { return Some(AlreadySponsored(recipient)); }

      var refused := accounting.RecordSponsorship(VAULT, recipient, amount, ether);
      assert State() == Recorded(before, recipient, amount);
      var failed := Pay(VAULT, recipient, amount, callee);
      if failed.Some? {
        Restore(before);
        return Some(TransferFailed);
      }
      ether.Emit(SponsorshipExecuted(recipient, amount));
      error := None;
    }

    method EmergencyWithdraw(sender: Address, to: Address, amount: nat, callee: Code) returns (error: Option<Error>)
      requires Valid()
      modifies this, ether, accounting
      ensures var spec := Perform(old(State()), sender, Call.EmergencyWithdraw(to, amount, callee));
        State() == spec.world && error == spec.error
      decreases callee, 2
    {
      if sender != owner { return Some(Unauthorized); }
      if to == ZERO { return Some(InvalidRecipient); }
      if amount == 0 { return Some(InvalidAmount); }
      var available := BalanceOf(ether.balance, VAULT);
      if available < amount { return Some(InsufficientBalance(amount, available)); }
      var before := State();
      var failed := Pay(VAULT, to, amount, callee);
      if failed.Some? {
        Restore(before);
        return Some(TransferFailed);
      }
      ether.Emit(EmergencyWithdrawal(to, amount));
      error := None;
    }

    method SetOperator(sender: Address, newOperator: Address) returns (error: Option<Error>)
      modifies this, ether
      ensures var spec := Perform(old(State()), sender, Call.SetOperator(newOperator));
        State() == spec.world && error == spec.error
    {
      if sender != owner { return Some(Unauthorized); }
      if newOperator == ZERO { return Some(InvalidRecipient); }
      var previousOperator := operator;
      operator := newOperator;
      ether.Emit(OperatorUpdated(previousOperator, newOperator));
      error := None;
    }

    method SetPerTransactionLimit(sender: Address, limit: nat) returns (error: Option<Error>)
      modifies this, ether
      ensures var spec := Perform(old(State()), sender, Call.SetPerTransactionLimit(limit));
        State() == spec.world && error == spec.error
    {
      if sender != owner { return Some(Unauthorized); }
      if limit == 0 { return Some(InvalidAmount); }
      var previousLimit := perTransactionLimit;
      perTransactionLimit := limit;
      ether.Emit(PerTransactionLimitUpdated(previousLimit, limit));
      error := None;
    }

    method InitializeRegistry(sender: Address, newRegistry: Address) returns (error: Option<Error>)
      modifies this, ether
      ensures var spec := Perform(old(State()), sender, Call.InitializeRegistry(newRegistry));
        State() == spec.world && error == spec.error
    {
      if sender != owner { return Some(Unauthorized); }
      if registry != ZERO { return Some(RegistryAlreadyInitialized); }
      if newRegistry == ZERO { return Some(InvalidRecipient); }
      registry := newRegistry;
      ether.Emit(RegistryUpdated(newRegistry));
      error := None;
    }

    /** Any one call, from any account, as the chain dispatches it. */
    method Dispatch(sender: Address, call: Call) returns (error: Option<Error>)
      requires Valid()
      modifies this, ether, accounting
      ensures var spec := Perform(old(State()), sender, call);
        State() == spec.world && error == spec.error
      decreases call
    {
      match call
      case SponsorTransfer(recipient, amount, callee) => error := SponsorTransfer(sender, recipient, amount, callee);
      case EmergencyWithdraw(to, amount, callee) => error := EmergencyWithdraw(sender, to, amount, callee);
      case SetOperator(newOperator) => error := SetOperator(sender, newOperator);
      case SetPerTransactionLimit(limit) => error := SetPerTransactionLimit(sender, limit);
      case InitializeRegistry(newRegistry) => error := InitializeRegistry(sender, newRegistry);
      case RecordSponsorship(recipient, amount) =>
        error := accounting.RecordSponsorship(sender, recipient, amount, ether);
        assert sender == VAULT ==> State() == Recorded(old(State()), recipient, amount);
      case Send(to, amount, callee) =>
        if BalanceOf(ether.balance, sender) < amount {
          error := Some(Reverted);
        } else {
          error := Pay(sender, to, amount, callee);
        }
    }

    method Pay(from: Address, to: Address, amount: nat, code: Code) returns (error: Option<Error>)
      requires Valid() && amount <= BalanceOf(ether.balance, from)
      modifies this, ether, accounting
      ensures var spec := Contracts.Pay(old(State()), from, to, amount, code);
        State() == spec.world && error == spec.error
      decreases code, 1
    {
      var before := State();
      ether.balance := Move(ether.balance, from, to, amount);
      if to == VAULT {
        ether.Emit(Received(amount));
        return None;
      }
      if to == REGISTRY {
        Restore(before);
        return Some(Reverted);
      }
      if to == ZERO {
        return None;
      }
      error := RunCode(to, code);
      if error.Some? {
        Restore(before);
      }
    }

    method RunCode(self: Address, code: Code) returns (error: Option<Error>)
      requires Valid()
      modifies this, ether, accounting
      ensures var spec := Run(old(State()), self, code);
        State() == spec.world && error == spec.error
      decreases code, 0
    {
      match code
      case Return => error := None;
      case Revert => error := Some(Reverted);
      case Then(call, rest) =>
        var ignored := Dispatch(self, call);
        error := RunCode(self, rest);
    }
  }

  /** The three deployment steps: vault, then registry, then the one call that links them. */
  method Deploy(deployer: Address, operator: Address, limit: nat, ether: Ether)
      returns (vault: SponsorVault?, error: Option<Error>)
    requires ether.log == []
    modifies ether
    ensures error == ContractTheorems.Deploy(old(ether.balance), deployer, operator, limit).error
    ensures error.Some? <==> vault == null
    ensures vault != null ==>
              && vault.Valid() && fresh(vault) && fresh(vault.accounting) && vault.ether == ether
              && vault.State() == ContractTheorems.Deploy(old(ether.balance), deployer, operator, limit).world
  {
    if operator == ZERO { return null, Some(InvalidRecipient); }
    if limit == 0 { return null, Some(InvalidAmount); }
    var accounting := new SponsorshipRegistry(VAULT);
    vault := new SponsorVault(deployer, operator, limit, ether, accounting);
    error := vault.InitializeRegistry(deployer, REGISTRY);
  }
}
