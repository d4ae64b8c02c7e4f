/** What registrations and posts leave in the tables, and what never happens to a wallet. */
module Registrations {
  import opened Ledger
  import opened Wrappers
  import opened Tables
  import opened Lifecycle
  import opened Processor
  import opened Protocol
  import opened Serializability
  import opened TableSafety
  import opened Api

  // ---------------------------------------------------------------- one registration

  /** Nothing but this wallet's row is different. */
  ghost predicate OnlyThisWallet(db: Db, db': Db, walletId: WalletId) {
    && db'.requests == db.requests && db'.relays == db.relays
    && walletId in db'.wallets && db'.wallets.Keys == db.wallets.Keys + {walletId}
    && forall w | w in db.wallets && w != walletId :: db'.wallets[w] == db.wallets[w]
  }

  /** A first registration adds one wallet: this address, not blocked, never sponsored, seen now. */
  lemma FirstRegistrationLeaves(db: Db, walletId: WalletId, address: Address, now: Time)
    requires walletId !in db.wallets
    ensures var db' := Register(db, walletId, address, now);
      && OnlyThisWallet(db, db', walletId)
      && db'.wallets[walletId].walletAddress == address && !db'.wallets[walletId].isBlocked
      && db'.wallets[walletId].sponsorshipCount == 0 && db'.wallets[walletId].lastSeenAt == now
  {
  }

  /** A repeated one is seen and counted, unless the wallet is blocked: then nothing is written. */
  lemma RepeatedRegistrationLeaves(db: Db, walletId: WalletId, address: Address, now: Time)
    requires walletId in db.wallets
    ensures var db', old_ := Register(db, walletId, address, now), db.wallets[walletId];
      && OnlyThisWallet(db, db', walletId)
      && (old_.isBlocked ==> db' == db)
      && (!old_.isBlocked ==>
            && db'.wallets[walletId].walletAddress == old_.walletAddress && !db'.wallets[walletId].isBlocked
            && db'.wallets[walletId].sponsorshipCount == old_.sponsorshipCount + 1
            && db'.wallets[walletId].lastSeenAt == now)
  {
  }

  /** So the first post after it is accepted: the condition under which a post answers that it created a request. */
  lemma NewWalletCanPost(db: Db, walletId: WalletId, address: Address, now: Time)
    requires ForeignKeys(db) && walletId !in db.wallets
    ensures var db' := Register(db, walletId, address, now);
      exists w | w in db'.wallets ::
        db'.wallets[w].walletAddress == address && !db'.wallets[w].isBlocked && Eligible(db', w)
  {
    FirstRegistrationLeaves(db, walletId, address, now);
    var db' := Register(db, walletId, address, now);
    hide Register;
    assert Eligible(db', walletId);
  }

  /** The two procedures one after another: whoever registers for the first time gets a request created. */
  method RegisterAndPost(store: Store, address: Address, walletId: WalletId, id: RequestId, now: Time)
      returns (registration: Registration, posted: Posted)
    requires UniqueAddresses(store.State()) && ForeignKeys(store.State())
    requires walletId !in store.wallets && id !in store.requests && !HasWallet(store.State(), address)
    modifies store
    ensures registration == Registration.Registered(walletId, true) && posted == Created(id)
    ensures id in store.requests && store.requests[id].walletId == walletId && store.requests[id].status == Pending
    ensures walletId in store.wallets && store.wallets[walletId].walletAddress == address
  {
    ghost var before := store.State();
    registration := Api.RegisterWallet(store, address, walletId, now);
    NewWalletCanPost(before, walletId, address, now);
    FirstRegistrationLeaves(before, walletId, address, now);
    posted := CreateSponsorshipRequest(store, address, id, now);
  }

  // ---------------------------------------------------------------- one post

  /** A new request is pending, made now, and has nothing else set; no other row changes. */
  lemma InsertLeaves(s: State, l: Label)
    requires Enabled(s, l) && l.InsertRequest?
    ensures var t := Apply(s, l);
      && l.post in s.posts && l.id !in s.db.requests && t.db.requests.Keys == s.db.requests.Keys + {l.id}
      && (forall r | r in s.db.requests :: t.db.requests[r] == s.db.requests[r])
      && t.db.relays == s.db.relays && t.db.wallets == s.db.wallets && t.posts == s.posts - {l.post}
      && var row := t.db.requests[l.id];
      && row.walletId == s.posts[l.post].walletId && row.status == Pending && row.requestedAt == s.clock
      && row.eligibilityReason == None && row.approvedAt == None && row.rejectedAt == None
      && row.completedAt == None && row.failedAt == None
  {
  }

  // ---------------------------------------------------------------- over runs

  /** Nobody's address or blocked flag is touched, and no count falls. */
  ghost predicate WalletsKept(db: Db, db': Db) {
    && (forall w | w in db.wallets ::
          && w in db'.wallets && db'.wallets[w].walletAddress == db.wallets[w].walletAddress
          && db'.wallets[w].isBlocked == db.wallets[w].isBlocked
          && db'.wallets[w].sponsorshipCount >= db.wallets[w].sponsorshipCount)
    && (forall w | w in db'.wallets && w !in db.wallets :: !db'.wallets[w].isBlocked)
  }

  lemma CommitKeepsWallets(db: Db, tx: Tx)
    requires TxCoherent(db, tx) && tx.pc.AtCommit?
    ensures WalletsKept(db, Install(db, tx.id, tx.writes))
    ensures forall w | w in db.wallets ::
              Install(db, tx.id, tx.writes).wallets[w].lastSeenAt == db.wallets[w].lastSeenAt
  {
    hide At, TxCoherent, Install;
    CommitHasEffects(db, tx);
  }

  lemma RegisterKeepsWallets(s: State, l: Label)
    requires Enabled(s, l) && l.RegisterWallet?
    ensures WalletsKept(s.db, Apply(s, l).db)
    ensures forall w | w in s.db.wallets && w != l.walletId :: Apply(s, l).db.wallets[w] == s.db.wallets[w]
  {
    hide Enabled, Apply;
    RegisterStepIs(s, l);
    if l.walletId in s.db.wallets {
      RepeatedRegistrationLeaves(s.db, l.walletId, l.address, s.clock);
    } else {
      FirstRegistrationLeaves(s.db, l.walletId, l.address, s.clock);
    }
    hide Register;
  }

  /** And a wallet is only seen when it registers. */
  lemma StepKeepsWallets(s: State, l: Label)
    requires Coherent(s) && Enabled(s, l)
    ensures WalletsKept(s.db, Apply(s, l).db)
    ensures forall w | w in s.db.wallets && !(l.RegisterWallet? && l.walletId == w) ::
              Apply(s, l).db.wallets[w].lastSeenAt == s.db.wallets[w].lastSeenAt
  {
    hide At, TxCoherent, ForeignKeys, Enabled, Apply;
    match l
    case RegisterWallet(_, _) => RegisterKeepsWallets(s, l);
    case InsertRequest(_, _) => InsertLeaves(s, l);
    case CommitTx(worker) =>
      CommitStepIs(s, l);
      CommitKeepsWallets(s.db, s.running[worker]);
    case _ => OnlyThreeStepsWrite(s, l);
  }

  lemma WalletsKeptTransitive(db0: Db, db1: Db, db2: Db)
    requires WalletsKept(db0, db1) && WalletsKept(db1, db2)
    ensures WalletsKept(db0, db2)
  {
    forall w | w in db2.wallets && w !in db0.wallets
      ensures !db2.wallets[w].isBlocked
    {
      if w in db1.wallets {
        assert db2.wallets[w].isBlocked == db1.wallets[w].isBlocked;
      }
    }
  }

  /** Over every run no wallet's address or blocked flag changes, and a wallet registered on the way is unblocked. */
  lemma {:induction false} WalletsStay(s: State, ls: seq<Label>)
    requires Coherent(s) && ValidRun(s, ls)
    ensures WalletsKept(s.db, After(s, ls).db) && Coherent(After(s, ls))
    decreases |ls|
  {
    if ls != [] {
      hide Coherent, WalletsKept, Enabled, Apply;
      var n := |ls| - 1;
      WalletsStay(s, ls[..n]);
      StepKeepsCoherence(After(s, ls[..n]), ls[n]);
      StepKeepsWallets(After(s, ls[..n]), ls[n]);
      WalletsKeptTransitive(s.db, After(s, ls[..n]).db, After(s, ls).db);
    }
  }
}
