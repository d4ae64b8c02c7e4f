/** Who has the ether after a call, stated on balances alone: what the recipient's code sees, and what stays. */
module Payments {
  import opened Ledger
  import opened Wrappers
  import opened Contracts
  import opened ContractTheorems
  import opened AccessControl

  /** `to` has `amount` more, `from` has `amount` less, and everybody else has the same. */
  ghost predicate Moved(b: Balances, b': Balances, from: Address, to: Address, amount: nat) {
    && BalanceOf(b', to) == BalanceOf(b, to) + amount
    && BalanceOf(b', from) == BalanceOf(b, from) - amount
    && forall a | a != from && a != to :: BalanceOf(b', a) == BalanceOf(b, a)
  }

  lemma MoveMoves(b: Balances, from: Address, to: Address, amount: nat)
    requires amount <= BalanceOf(b, from) && from != to
    ensures Moved(b, Move(b, from, to, amount), from, to, amount)
  {
  }

  /** The rules of the vault: who owns and operates it, its registry and its limit. */
  predicate SameOffices(w: World, w': World) {
    && w'.owner == w.owner && w'.operator == w.operator && w'.registry == w.registry
    && w'.perTransactionLimit == w.perTransactionLimit
  }

  /** Nothing but the ether has moved. */
  predicate OnlyEther(w: World, w': World) {
    SameOffices(w, w') && w'.sponsorshipCount == w.sponsorshipCount && w'.log == w.log
  }

  // ---------------------------------------------------------------- what the recipient's code sees

  lemma CodeSeesItsStart(w: World, self: Address, code: Code)
    ensures Run(w, self, code).seen != [] && Run(w, self, code).seen[0] == w
  {
    hide Perform;
  }

  lemma PayeeSeesItsEther(w: World, from: Address, to: Address, amount: nat, code: Code)
    requires amount <= BalanceOf(w.balance, from) && IsAccount(to) && from != to
    ensures var seen := Pay(w, from, to, amount, code).seen;
      && seen != [] && Moved(w.balance, seen[0].balance, from, to, amount)
      && OnlyEther(w, seen[0])
  {
    MoveMoves(w.balance, from, to, amount);
    CodeSeesItsStart(w.(balance := Move(w.balance, from, to, amount)), to, code);
    hide Move, BalanceOf, Run;
  }

  lemma RecordedIs(w: World, recipient: Address, amount: nat)
    ensures var r := Recorded(w, recipient, amount);
      && r.balance == w.balance && SameOffices(w, r) && r.log == w.log + [SponsorshipGranted(recipient, amount)]
      && SponsorshipCount(r, recipient) == SponsorshipCount(w, recipient) + 1
      && (forall a | a != recipient :: SponsorshipCount(r, a) == SponsorshipCount(w, a))
  {
  }

  /** With the recipient unsponsored, the vault records it and pays; otherwise it does neither. */
  lemma TransferRecordsThenPays(w: World, sender: Address, recipient: Address, amount: nat, callee: Code)
    requires var error := Perform(w, sender, SponsorTransfer(recipient, amount, callee)).error;
      error.None? || error == Some(TransferFailed)
    ensures SponsorshipCount(w, recipient) == 0 && amount <= BalanceOf(w.balance, VAULT)
    ensures var recorded := Recorded(w, recipient, amount);
      var out, paid := Perform(w, sender, SponsorTransfer(recipient, amount, callee)),
                       Pay(recorded, VAULT, recipient, amount, callee);
      && out.seen == [w] + paid.seen && (out.error.None? <==> paid.error.None?)
      && (out.error.None? ==> out.world == Emit(paid.world, SponsorshipExecuted(recipient, amount)))
  {
    hide Pay, Recorded, BooksOf, BalanceOf;
  }

  /**
   Once the vault gets as far as paying, the first thing the recipient's code can observe is that it has
   the whole amount out of the vault, that it is recorded as sponsored, and that the grant is logged.
   */
  lemma RecipientSeesSponsorship(w: World, sender: Address, recipient: Address, amount: nat, callee: Code)
    requires IsAccount(recipient)
    requires var error := Perform(w, sender, SponsorTransfer(recipient, amount, callee)).error;
      error.None? || error == Some(TransferFailed)
    ensures var seen := Perform(w, sender, SponsorTransfer(recipient, amount, callee)).seen;
      && |seen| > 1 && seen[0] == w
      && Moved(w.balance, seen[1].balance, VAULT, recipient, amount)
      && SponsorshipCount(w, recipient) == 0 && SponsorshipCount(seen[1], recipient) == 1
      && (forall a | a != recipient :: SponsorshipCount(seen[1], a) == SponsorshipCount(w, a))
      && seen[1].log == w.log + [SponsorshipGranted(recipient, amount)]
  {
    RecordedIs(w, recipient, amount);
    TransferRecordsThenPays(w, sender, recipient, amount, callee);
    PayeeSeesItsEther(Recorded(w, recipient, amount), VAULT, recipient, amount, callee);
    hide Pay, BooksOf, Moved, Perform, Recorded;
  }

  lemma WithdrawalPays(w: World, sender: Address, to: Address, amount: nat, callee: Code)
    requires var error := Perform(w, sender, EmergencyWithdraw(to, amount, callee)).error;
      error.None? || error == Some(TransferFailed)
    ensures amount <= BalanceOf(w.balance, VAULT)
    ensures var out := Perform(w, sender, EmergencyWithdraw(to, amount, callee));
      var paid := Pay(w, VAULT, to, amount, callee);
      && out.seen == [w] + paid.seen && (out.error.None? <==> paid.error.None?)
      && (out.error.None? ==> out.world == Emit(paid.world, EmergencyWithdrawal(to, amount)))
  {
    hide Pay, BooksOf, BalanceOf, Recorded, SponsorTransferCheck;
  }

  /** The same for a withdrawal. */
  lemma RecipientSeesWithdrawal(w: World, sender: Address, to: Address, amount: nat, callee: Code)
    requires IsAccount(to)
    requires var error := Perform(w, sender, EmergencyWithdraw(to, amount, callee)).error;
      error.None? || error == Some(TransferFailed)
    ensures var seen := Perform(w, sender, EmergencyWithdraw(to, amount, callee)).seen;
      && |seen| > 1 && seen[0] == w
      && Moved(w.balance, seen[1].balance, VAULT, to, amount) && OnlyEther(w, seen[1])
  {
    WithdrawalPays(w, sender, to, amount, callee);
    PayeeSeesItsEther(w, VAULT, to, amount, callee);
    hide Pay, BooksOf, Moved, Perform, OnlyEther;
    var seen := Pay(w, VAULT, to, amount, callee).seen;
    assert ([w] + seen)[1] == seen[0];
  }

  // ---------------------------------------------------------------- recipients that make no call

  lemma QuietCodeJustAnswers(to: Address, code: Code)
    requires IsAccount(to) && to !in CalleeCallers(to, code)
    ensures !code.Then?
  {
    if code.Then? {
      assert to in Callers(to, code.call);
    }
  }

  lemma QuietPayment(w: World, from: Address, to: Address, amount: nat, code: Code)
    requires amount <= BalanceOf(w.balance, from) && from != to && IsAccount(to) && to !in CalleeCallers(to, code)
    requires Pay(w, from, to, amount, code).error.None?
    ensures var w' := Pay(w, from, to, amount, code).world;
      Moved(w.balance, w'.balance, from, to, amount) && OnlyEther(w, w')
  {
    MoveMoves(w.balance, from, to, amount);
    QuietCodeJustAnswers(to, code);
    hide Move, BalanceOf;
  }

  /**
   A transfer that succeeds to an account that makes no call: it has exactly the amount more, the vault
   exactly that much less, nobody else's ether or count changes, and the two events are logged.
   */
  lemma TransferPaysRecipient(w: World, sender: Address, recipient: Address, amount: nat, callee: Code)
    requires IsAccount(recipient) && recipient !in CalleeCallers(recipient, callee)
    requires Perform(w, sender, SponsorTransfer(recipient, amount, callee)).error.None?
    ensures var w' := Perform(w, sender, SponsorTransfer(recipient, amount, callee)).world;
      && Moved(w.balance, w'.balance, VAULT, recipient, amount) && SameOffices(w, w')
      && SponsorshipCount(w', recipient) == 1
      && (forall a | a != recipient :: SponsorshipCount(w', a) == SponsorshipCount(w, a))
      && w'.log == w.log + [SponsorshipGranted(recipient, amount), SponsorshipExecuted(recipient, amount)]
  {
    RecordedIs(w, recipient, amount);
    TransferRecordsThenPays(w, sender, recipient, amount, callee);
    QuietPayment(Recorded(w, recipient, amount), VAULT, recipient, amount, callee);
    hide Pay, BooksOf, Moved, Perform, Recorded;
  }

  /** The same for a withdrawal, which sponsors nobody. */
  lemma WithdrawalPaysRecipient(w: World, sender: Address, to: Address, amount: nat, callee: Code)
    requires IsAccount(to) && to !in CalleeCallers(to, callee)
    requires Perform(w, sender, EmergencyWithdraw(to, amount, callee)).error.None?
    ensures var w' := Perform(w, sender, EmergencyWithdraw(to, amount, callee)).world;
      && Moved(w.balance, w'.balance, VAULT, to, amount) && SameOffices(w, w')
      && w'.sponsorshipCount == w.sponsorshipCount && w'.log == w.log + [EmergencyWithdrawal(to, amount)]
  {
    WithdrawalPays(w, sender, to, amount, callee);
    QuietPayment(w, VAULT, to, amount, callee);
    hide Pay, BooksOf, Moved, Perform;
  }

  /** A plain payment to the vault arrives there and is logged as received. */
  lemma DepositArrives(w: World, sender: Address, amount: nat, callee: Code)
    requires sender != VAULT
    ensures Perform(w, sender, Send(VAULT, amount, callee)).error.None? <==> amount <= BalanceOf(w.balance, sender)
    ensures amount <= BalanceOf(w.balance, sender) ==>
      var w' := Perform(w, sender, Send(VAULT, amount, callee)).world;
      && Moved(w.balance, w'.balance, sender, VAULT, amount) && SameOffices(w, w')
      && w'.sponsorshipCount == w.sponsorshipCount && w'.log == w.log + [Received(amount)]
  {
    if amount <= BalanceOf(w.balance, sender) {
      MoveMoves(w.balance, sender, VAULT, amount);
    }
    hide Move, BalanceOf, BooksOf, Moved;
  }

  // ---------------------------------------------------------------- over all call trees

  /** All that the log says was paid out to an address. */
  function PaidTo(log: seq<Event>, a: Address): nat {
    if log == [] then 0
    else
      PaidTo(log[..|log| - 1], a) +
      match log[|log| - 1]
      case SponsorshipExecuted(recipient, n) => if recipient == a then n else 0
      case EmergencyWithdrawal(to, n) => if to == a then n else 0
      case _ => 0
  }

  lemma PaidToSnoc(w: World, e: Event, a: Address)
    ensures PaidTo(Emit(w, e).log, a) == PaidTo(w.log + [e], a)
    ensures PaidTo(w.log + [e], a) ==
              PaidTo(w.log, a)
              + (match e
                 case SponsorshipExecuted(recipient, n) => if recipient == a then n else 0
                 case EmergencyWithdrawal(to, n) => if to == a then n else 0
                 case _ => 0)
    ensures BooksOf(Emit(w, e).log).executedTo[a]
            == BooksOf(w.log).executedTo[a] + (if e.SponsorshipExecuted? && e.recipient == a then 1 else 0)
  {
    assert (w.log + [e])[..|w.log|] == w.log;
  }

  /**
   What the log says was paid to an address since then has arrived there, with `unlogged` more, and each
   sponsorship paid something.
   */
  ghost predicate Arrived(w: World, w': World, a: Address, unlogged: nat) {
    && BooksOf(w.log).executedTo[a] <= BooksOf(w'.log).executedTo[a]
    && PaidTo(w.log, a) + BooksOf(w'.log).executedTo[a] <= PaidTo(w'.log, a) + BooksOf(w.log).executedTo[a]
    && BalanceOf(w.balance, a) + PaidTo(w'.log, a) + unlogged <= BalanceOf(w'.balance, a) + PaidTo(w.log, a)
  }

  function To(a: Address, to: Address, amount: nat): nat {
    if to == a then amount else 0
  }

  lemma NothingArrives(w: World, a: Address)
    ensures Arrived(w, w, a, 0)
  {
  }

  /** An event that pays nobody. */
  lemma OtherEventArrives(w: World, w': World, e: Event, a: Address)
    requires w'.balance == w.balance && w'.log == w.log && !e.SponsorshipExecuted? && !e.EmergencyWithdrawal?
    ensures Arrived(w, Emit(w', e), a, 0)
  {
    PaidToSnoc(w', e, a);
    hide PaidTo, BooksOf, BalanceOf;
  }

  lemma ArrivedTransitive(w0: World, w1: World, w2: World, a: Address, n: nat, n': nat)
    requires Arrived(w0, w1, a, n) && Arrived(w1, w2, a, n')
    ensures Arrived(w0, w2, a, n + n')
  {
    hide PaidTo, BooksOf, BalanceOf;
  }

  lemma LoggingArrives(w: World, w': World, a: Address, e: Event)
    requires e.SponsorshipExecuted? || e.EmergencyWithdrawal?
    requires e.amount > 0
    requires Arrived(w, w', a, To(a, if e.SponsorshipExecuted? then e.recipient else e.to, e.amount))
    ensures Arrived(w, Emit(w', e), a, 0)
  {
    PaidToSnoc(w', e, a);
    hide PaidTo, BooksOf, BalanceOf;
  }

  /**
   Over every call tree, an account that makes none of its calls loses nothing: its balance grows by at
   least all that the vault logs as paid to it, and each sponsorship of it is logged with some ether.
   */
  lemma {:induction false} EtherArrives(w: World, sender: Address, call: Call, a: Address)
    requires a !in Callers(sender, call) && a != VAULT
    ensures Arrived(w, Perform(w, sender, call).world, a, 0)
    decreases call
  {
    hide BooksOf, Move, BalanceOf, PaidTo, Arrived;
    NothingArrives(w, a);
    match call
    case SponsorTransfer(recipient, amount, callee) =>
      if SponsorTransferCheck(w, sender, recipient, amount).None? {
        var recorded := Recorded(w, recipient, amount);
        var paid := Pay(recorded, VAULT, recipient, amount, callee);
        PaymentArrives(recorded, VAULT, recipient, amount, callee, a);
        if paid.error.None? {
          RecordingArrives(w, recipient, amount, a);
          ArrivedTransitive(w, recorded, paid.world, a, 0, To(a, recipient, amount));
          LoggingArrives(w, paid.world, a, SponsorshipExecuted(recipient, amount));
        }
      }
    case EmergencyWithdraw(to, amount, callee) =>
      if EmergencyWithdrawCheck(w, sender, to, amount).None? {
        var paid := Pay(w, VAULT, to, amount, callee);
        PaymentArrives(w, VAULT, to, amount, callee, a);
        if paid.error.None? {
          LoggingArrives(w, paid.world, a, EmergencyWithdrawal(to, amount));
        }
      }
    case Send(to, amount, callee) =>
      if amount <= BalanceOf(w.balance, sender) {
        PaymentArrives(w, sender, to, amount, callee, a);
        if Pay(w, sender, to, amount, callee).error.None? {
          ArrivedWeakens(w, Pay(w, sender, to, amount, callee).world, a, To(a, to, amount));
        }
      }
    case SetOperator(newOperator) =>
      OtherEventArrives(w, w.(operator := newOperator), OperatorUpdated(w.operator, newOperator), a);
    case SetPerTransactionLimit(limit) =>
      var updated := PerTransactionLimitUpdated(w.perTransactionLimit, limit);
      OtherEventArrives(w, w.(perTransactionLimit := limit), updated, a);
    case InitializeRegistry(registry) =>
      OtherEventArrives(w, w.(registry := registry), RegistryUpdated(registry), a);
    case RecordSponsorship(recipient, amount) => RecordingArrives(w, recipient, amount, a);
  }

  lemma RecordingArrives(w: World, recipient: Address, amount: nat, a: Address)
    ensures Arrived(w, Recorded(w, recipient, amount), a, 0)
  {
    var counts := Recorded(w, recipient, amount).sponsorshipCount;
    OtherEventArrives(w, w.(sponsorshipCount := counts), SponsorshipGranted(recipient, amount), a);
    hide Arrived, BooksOf;
  }

  lemma ArrivedWeakens(w: World, w': World, a: Address, unlogged: nat)
    requires Arrived(w, w', a, unlogged)
    ensures Arrived(w, w', a, 0)
  {
    hide PaidTo, BooksOf, BalanceOf;
  }

  lemma MovingArrives(w: World, from: Address, to: Address, amount: nat, a: Address)
    requires amount <= BalanceOf(w.balance, from) && a != from
    ensures Arrived(w, w.(balance := Move(w.balance, from, to, amount)), a, To(a, to, amount))
  {
    hide PaidTo, BooksOf;
  }

  lemma {:induction false} PaymentArrives(w: World, from: Address, to: Address, amount: nat, code: Code, a: Address)
    requires amount <= BalanceOf(w.balance, from) && a != from && a != VAULT && a !in CalleeCallers(to, code)
    ensures var paid := Pay(w, from, to, amount, code);
      if paid.error.None? then Arrived(w, paid.world, a, To(a, to, amount)) else paid.world == w
    decreases code, 1
  {
    hide BooksOf, Move, BalanceOf, PaidTo, Arrived;
    var moved := w.(balance := Move(w.balance, from, to, amount));
    MovingArrives(w, from, to, amount, a);
    if to == VAULT {
      OtherEventArrives(moved, moved, Received(amount), a);
      ArrivedTransitive(w, moved, Emit(moved, Received(amount)), a, To(a, to, amount), 0);
    } else if IsAccount(to) {
      CodeArrives(moved, to, code, a);
      ArrivedTransitive(w, moved, Run(moved, to, code).world, a, To(a, to, amount), 0);
    }
  }

  lemma {:induction false} CodeArrives(w: World, self: Address, code: Code, a: Address)
    requires a !in CodeCallers(self, code) && a != VAULT
    ensures Arrived(w, Run(w, self, code).world, a, 0)
    decreases code, 0
  {
    hide BooksOf, BalanceOf, PaidTo, Arrived;
    if code.Then? {
      var first := Perform(w, self, code.call);
      EtherArrives(w, self, code.call, a);
      CodeArrives(first.world, self, code.rest, a);
      ArrivedTransitive(w, first.world, Run(first.world, self, code.rest).world, a, 0, 0);
    } else {
      NothingArrives(w, a);
    }
  }

  /** The same over whole runs of transactions. */
  lemma {:induction false} EtherArrivesOverRuns(w: World, txs: seq<Transaction>, a: Address)
    requires a !in AllCallers(txs) && a != VAULT
    ensures Arrived(w, RunAll(w, txs).world, a, 0)
    decreases |txs|
  {
    hide Arrived, Perform, Callers;
    if txs == [] {
      NothingArrives(w, a);
    } else {
      var n := |txs| - 1;
      var before := RunAll(w, txs[..n]).world;
      EtherArrivesOverRuns(w, txs[..n], a);
      EtherArrives(before, txs[n].sender, txs[n].call, a);
      ArrivedTransitive(w, before, RunAll(w, txs).world, a, 0, 0);
    }
  }
}
