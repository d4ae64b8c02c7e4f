/** Who can make the vault do what, whatever the called accounts call in turn. */
module AccessControl {
  import opened Ledger
  import opened Contracts
  import opened ContractTheorems

  /** Every account that makes a call somewhere in a call tree. */
  function Callers(sender: Address, call: Call): set<Address>
    decreases call
  {
    {sender} +
    match call
    case SponsorTransfer(recipient, _, callee) => CalleeCallers(recipient, callee)
    case EmergencyWithdraw(to, _, callee) => CalleeCallers(to, callee)
    case Send(to, _, callee) => CalleeCallers(to, callee)
    case SetOperator(_) => {}
    case SetPerTransactionLimit(_) => {}
    case InitializeRegistry(_) => {}
    case RecordSponsorship(_, _) => {}
  }

  /** The two contracts' own code makes no calls when they are paid, and at address zero there is none. */
  function CalleeCallers(to: Address, code: Code): set<Address>
    decreases code, 1
  {
    if !IsAccount(to) then {} else CodeCallers(to, code)
  }

  function CodeCallers(self: Address, code: Code): set<Address>
    decreases code, 0
  {
    match code
    case Return => {}
    case Revert => {}
    case Then(call, rest) => Callers(self, call) + CodeCallers(self, rest)
  }

  /** What accounts start, only accounts take part in. */
  lemma {:induction false} CallersAreAccounts(sender: Address, call: Call)
    requires IsAccount(sender)
    ensures forall a | a in Callers(sender, call) :: IsAccount(a)
    decreases call
  {
    match call
    case SponsorTransfer(recipient, _, callee) => CalleesAreAccounts(recipient, callee);
    case EmergencyWithdraw(to, _, callee) => CalleesAreAccounts(to, callee);
    case Send(to, _, callee) => CalleesAreAccounts(to, callee);
    case SetOperator(_) =>
    case SetPerTransactionLimit(_) =>
    case InitializeRegistry(_) =>
    case RecordSponsorship(_, _) =>
  }

  lemma {:induction false} CalleesAreAccounts(to: Address, code: Code)
    ensures forall a | a in CalleeCallers(to, code) :: IsAccount(a)
    decreases code, 1
  {
    if IsAccount(to) {
      CodeCallersAreAccounts(to, code);
    }
  }

  lemma {:induction false} CodeCallersAreAccounts(self: Address, code: Code)
    requires IsAccount(self)
    ensures forall a | a in CodeCallers(self, code) :: IsAccount(a)
    decreases code, 0
  {
    if code.Then? {
      CallersAreAccounts(self, code.call);
      CodeCallersAreAccounts(self, code.rest);
    }
  }

  /** Nothing that only the owner may do has been done. */
  ghost predicate GovernedAlike(w: World, w': World) {
    && w'.owner == w.owner && w'.operator == w.operator && w'.registry == w.registry
    && w'.perTransactionLimit == w.perTransactionLimit
    && BooksOf(w'.log).totalWithdrawn == BooksOf(w.log).totalWithdrawn
  }

  /** Nobody has been sponsored and nothing granted. */
  ghost predicate NothingGranted(w: World, w': World) {
    && w'.sponsorshipCount == w.sponsorshipCount
    && BooksOf(w'.log).granted == BooksOf(w.log).granted && BooksOf(w'.log).totalGranted == BooksOf(w.log).totalGranted
  }

  /**
   Whatever a call tree does, with any re-entrancy, if the owner makes none of its calls then no
   operator, limit or registry changes and no ether is withdrawn.
   */
  lemma {:induction false} OnlyOwnerGoverns(w: World, sender: Address, call: Call)
    requires w.owner !in Callers(sender, call) && sender != VAULT
    ensures GovernedAlike(w, Perform(w, sender, call).world)
    decreases call
  {
    hide BooksOf;
    match call
    case SponsorTransfer(recipient, amount, callee) =>
      if SponsorTransferCheck(w, sender, recipient, amount).None? {
        PaymentGoverns(Recorded(w, recipient, amount), VAULT, recipient, amount, callee);
      }
    case EmergencyWithdraw(_, _, _) =>
    case Send(to, amount, callee) =>
      if amount <= BalanceOf(w.balance, sender) {
        PaymentGoverns(w, sender, to, amount, callee);
      }
    case SetOperator(_) =>
    case SetPerTransactionLimit(_) =>
    case InitializeRegistry(_) =>
    case RecordSponsorship(_, _) =>
  }

  lemma {:induction false} PaymentGoverns(w: World, from: Address, to: Address, amount: nat, code: Code)
    requires amount <= BalanceOf(w.balance, from) && w.owner !in CalleeCallers(to, code)
    ensures GovernedAlike(w, Pay(w, from, to, amount, code).world)
    decreases code, 1
  {
    hide BooksOf;
    if IsAccount(to) {
      CodeGoverns(w.(balance := Move(w.balance, from, to, amount)), to, code);
    }
  }

  lemma {:induction false} CodeGoverns(w: World, self: Address, code: Code)
    requires w.owner !in CodeCallers(self, code) && self != VAULT
    ensures GovernedAlike(w, Run(w, self, code).world)
    decreases code, 0
  {
    hide BooksOf;
    if code.Then? {
      OnlyOwnerGoverns(w, self, code.call);
      CodeGoverns(Perform(w, self, code.call).world, self, code.rest);
    }
  }

  /** If the operator makes none of its calls either, nobody is sponsored: the vault grants nothing. */
  lemma {:induction false} OnlyOperatorSponsors(w: World, sender: Address, call: Call)
    requires w.owner !in Callers(sender, call) && w.operator !in Callers(sender, call) && sender != VAULT
    ensures NothingGranted(w, Perform(w, sender, call).world)
    decreases call
  {
    hide BooksOf;
    match call
    case SponsorTransfer(_, _, _) =>
    case EmergencyWithdraw(_, _, _) =>
    case Send(to, amount, callee) =>
      if amount <= BalanceOf(w.balance, sender) && IsAccount(to) {
        CodeSponsorsNobody(w.(balance := Move(w.balance, sender, to, amount)), to, callee);
      }
    case SetOperator(_) =>
    case SetPerTransactionLimit(_) =>
    case InitializeRegistry(_) =>
    case RecordSponsorship(_, _) =>
  }

  lemma {:induction false} CodeSponsorsNobody(w: World, self: Address, code: Code)
    requires w.owner !in CodeCallers(self, code) && w.operator !in CodeCallers(self, code) && self != VAULT
    ensures NothingGranted(w, Run(w, self, code).world)
    decreases code
  {
    hide BooksOf;
    if code.Then? {
      OnlyOperatorSponsors(w, self, code.call);
      OnlyOwnerGoverns(w, self, code.call);
      CodeSponsorsNobody(Perform(w, self, code.call).world, self, code.rest);
    }
  }

  /** Every account that makes a call somewhere in a run of transactions. */
  function AllCallers(txs: seq<Transaction>): set<Address> {
    if txs == [] then {} else AllCallers(txs[..|txs| - 1]) + Callers(txs[|txs| - 1].sender, txs[|txs| - 1].call)
  }

  /** The same over whole runs of transactions. */
  lemma {:induction false} RunsNeedTheirOfficers(w: World, txs: seq<Transaction>)
    requires w.owner !in AllCallers(txs) && forall tx | tx in txs :: FromAccount(tx)
    ensures GovernedAlike(w, RunAll(w, txs).world)
    ensures w.operator !in AllCallers(txs) ==> NothingGranted(w, RunAll(w, txs).world)
    decreases |txs|
  {
    hide BooksOf, Perform, Callers;
    if txs != [] {
      var n := |txs| - 1;
      RunsNeedTheirOfficers(w, txs[..n]);
      var before, last := RunAll(w, txs[..n]).world, txs[n];
      assert last in txs;
      OnlyOwnerGoverns(before, last.sender, last.call);
      if w.operator !in AllCallers(txs) {
        OnlyOperatorSponsors(before, last.sender, last.call);
      }
    }
  }
}
