/** The API's writes to the shared tables, as procedures over the store. */
module Api {
  import opened Ledger
  import opened Wrappers
  import opened Tables
  import opened Lifecycle
  import opened Protocol
  import opened TableSafety

  datatype Registration = Registered(walletId: WalletId, isNew: bool) | BlockedWallet

  datatype Ineligible = AlreadyInProgress | AlreadyCompleted

  datatype Posted = Created(id: RequestId) | WalletNotFound | WalletBlocked | NotEligible(reason: Ineligible)

  ghost predicate UniqueAddresses(db: Db) {
    forall v, w | v in db.wallets && w in db.wallets && v != w ::
      db.wallets[v].walletAddress != db.wallets[w].walletAddress
  }

  ghost predicate HasWallet(db: Db, address: Address) {
    exists w | w in db.wallets :: db.wallets[w].walletAddress == address
  }

  /** `findUnique` by address. */
  method FindWallet(store: Store, address: Address) returns (found: Option<WalletId>)
    ensures found.Some? ==> found.value in store.wallets && store.wallets[found.value].walletAddress == address
    ensures found.None? <==> !HasWallet(store.State(), address)
  {
    if w :| w in store.wallets && store.wallets[w].walletAddress == address {
      found := Some(w);
    } else {
      found := None;
    }
  }

  /** A new wallet starts at zero; a known one is seen again and counted; a blocked one is refused. */
  method RegisterWallet(store: Store, address: Address, fresh_: WalletId, now: Time) returns (result: Registration)
    requires UniqueAddresses(store.State()) && fresh_ !in store.wallets
    modifies store`wallets
    ensures UniqueAddresses(store.State())
    ensures result.Registered? ==>
              && result.isNew == !HasWallet(old(store.State()), address)
              && (result.isNew ==> result.walletId == fresh_)
              && (!result.isNew ==> result.walletId in old(store.wallets)
                                    && !old(store.wallets)[result.walletId].isBlocked
                                    && old(store.wallets)[result.walletId].walletAddress == address)
              && result.walletId in store.wallets && store.wallets[result.walletId].walletAddress == address
              && !store.wallets[result.walletId].isBlocked && store.wallets[result.walletId].lastSeenAt == now
              && store.wallets[result.walletId].sponsorshipCount
                 == (if result.isNew then 0 else old(store.wallets)[result.walletId].sponsorshipCount + 1)
              && store.wallets == old(store.wallets)[result.walletId := store.wallets[result.walletId]]
              && store.State() == Register(old(store.State()), result.walletId, address, now)
    ensures result.BlockedWallet? ==>
              && store.State() == old(store.State())
              && exists w | w in store.wallets ::
                   store.wallets[w].walletAddress == address && store.wallets[w].isBlocked
  {
    var found := FindWallet(store, address);
    match found {
      case None =>
        store.wallets := store.wallets[fresh_ := Wallet(address, false, 0, now)];
        result := Registration.Registered(fresh_, true);
      case Some(walletId) =>
        if store.wallets[walletId].isBlocked {
          return BlockedWallet;
        }
        var updated := store.wallets[walletId].(lastSeenAt := now);
        store.wallets := store.wallets[walletId := updated.(sponsorshipCount := updated.sponsorshipCount + 1)];
        result := Registration.Registered(walletId, false);
    }
  }

  /** The two queries of the eligibility check, in their order. */
  method ValidateNoPendingRequest(store: Store, walletId: WalletId) returns (error: Option<Ineligible>)
    ensures error.None? <==> Eligible(store.State(), walletId)
    ensures error == Some(AlreadyInProgress) <==> !IndexAllows(store.State(), walletId)
  {
    var ofWallet := set r | r in store.requests && store.requests[r].walletId == walletId;
    if exists r | r in ofWallet :: InProgress(store.requests[r].status) { return Some(AlreadyInProgress); }
    if exists r | r in ofWallet :: store.requests[r].status == Completed { return Some(AlreadyCompleted); }
    error := None;
  }

  /**
   A POST as one atomic step: it keeps one standing request per wallet, answers exactly why when it
   refuses, and then changes nothing.
   */
  method CreateSponsorshipRequest(store: Store, address: Address, fresh_: RequestId, now: Time) returns (result: Posted)
    requires UniqueAddresses(store.State()) && fresh_ !in store.requests
    modifies store`requests
    ensures result.WalletNotFound? <==> !HasWallet(old(store.State()), address)
    ensures result.Created? <==>
              exists w | w in store.wallets ::
                store.wallets[w].walletAddress == address && !store.wallets[w].isBlocked
                  && Eligible(old(store.State()), w)
    ensures result.WalletBlocked? <==>
              exists w | w in store.wallets :: store.wallets[w].walletAddress == address && store.wallets[w].isBlocked
    ensures result.Created? ==>
              && result.id == fresh_ && fresh_ in store.requests
              && store.requests[fresh_].walletId in store.wallets
              && store.wallets[store.requests[fresh_].walletId].walletAddress == address
              && store.requests[fresh_]
                 == SponsorshipRequest(store.requests[fresh_].walletId, Pending, None, now, None, None, None, None)
              && store.requests == old(store.requests)[fresh_ := store.requests[fresh_]]
    ensures !result.Created? ==> store.requests == old(store.requests)
    ensures AtMostOne(old(store.State()), Standing) ==> AtMostOne(store.State(), Standing)
  {
    var found := FindWallet(store, address);
    if found.None? { return WalletNotFound; }
    var walletId := found.value;
    if store.wallets[walletId].isBlocked { return WalletBlocked; }
    var error := ValidateNoPendingRequest(store, walletId);
    if error.Some? { return NotEligible(error.value); }
    store.requests := store.requests[fresh_ := NewRequest(walletId, now)];
    result := Created(fresh_);
  }

  predicate IsLastAttempt(rows: map<RelayId, RelayTransaction>, k: RelayId) {
    k in rows && forall j | j in rows :: rows[j].relayAttempt <= rows[k].relayAttempt
  }

  lemma {:induction false} LastAttemptExists(rows: map<RelayId, RelayTransaction>)
    requires rows != map[]
    ensures exists k :: IsLastAttempt(rows, k)
    decreases |rows|
  {
    var x :| x in rows;
    var rest := rows - {x};
    assert forall j | j in rows :: j == x || j in rest;
    if rest == map[] {
      assert IsLastAttempt(rows, x);
    } else {
      LastAttemptExists(rest);
      var y :| IsLastAttempt(rest, y);
      assert IsLastAttempt(rows, if rows[x].relayAttempt > rows[y].relayAttempt then x else y);
    }
  }

  /**
   The API's own relay rows are numbered one past the highest attempt in use; on well-numbered rows
   that is the number the worker would have given, one past their count.
   */
  method CreateRelayTransaction(store: Store, id: RequestId, fresh_: RelayId) returns (nextAttempt: nat)
    requires fresh_ !in store.relays
    modifies store`relays
    ensures nextAttempt > 0 && IsHighestAttempt(RelaysOf(old(store.relays), id), nextAttempt - 1)
    ensures store.relays == old(store.relays)[fresh_ := NewRelay(id, nextAttempt)]
    ensures WellNumbered(RelaysOf(old(store.relays), id)) ==> nextAttempt == RetryCount(old(store.State()), id) + 1
  {
    var rows := RelaysOf(store.relays, id);
    nextAttempt := 1;
    if rows != map[] {
      LastAttemptExists(rows);
      var lastAttempt :| lastAttempt in rows && IsLastAttempt(rows, lastAttempt);
      nextAttempt := rows[lastAttempt].relayAttempt + 1;
    }
    assert IsHighestAttempt(rows, nextAttempt - 1);
    if WellNumbered(rows) {
      NumberingsAgree(rows, nextAttempt - 1);
    }
    store.relays := store.relays[fresh_ := NewRelay(id, nextAttempt)];
  }
}
