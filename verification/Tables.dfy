/** The rows the API and the workers share, and the two tables of legal status transitions. */
module Tables {
  import opened Ledger
  import opened Wrappers

  type RequestId = nat
  type RelayId = nat
  type WalletId = nat
  type Time = nat

  datatype SponsorshipStatus = Pending | Approved | Rejected | Relayed | Completed | Failed

  datatype RelayStatus = Queued | Submitted | Confirmed | RelayFailed

  datatype Wallet = Wallet(walletAddress: Address, isBlocked: bool, sponsorshipCount: nat, lastSeenAt: Time)

  datatype SponsorshipRequest = SponsorshipRequest(
    walletId: WalletId,
    status: SponsorshipStatus,
    eligibilityReason: Option<string>,
    requestedAt: Time,
    approvedAt: Option<Time>,
    rejectedAt: Option<Time>,
    completedAt: Option<Time>,
    failedAt: Option<Time>
  )

  /** The SponsorshipGranted event, as decoded from a receipt. */
  datatype GrantEvent = GrantEvent(recipient: Address, amount: nat, timestamp: nat)

  datatype RelayTransaction = RelayTransaction(
    sponsorshipRequestId: RequestId,
    relayAttempt: nat,
    status: RelayStatus,
    submittedAt: Option<Time>,
    confirmedAt: Option<Time>,
    failedAt: Option<Time>,
    transactionHash: Option<string>,
    failureReason: Option<string>,
    blockNumber: Option<nat>,
    eventName: Option<string>,
    eventData: Option<GrantEvent>,
    explorerUrl: Option<string>
  )

  datatype Db = Db(
    requests: map<RequestId, SponsorshipRequest>,
    relays: map<RelayId, RelayTransaction>,
    wallets: map<WalletId, Wallet>
  )

  function ValidSponsorshipTransitions(s: SponsorshipStatus): set<SponsorshipStatus> {
    match s
    case Pending => {Approved, Rejected}
    case Approved => {SponsorshipStatus.Relayed}
    case Relayed => {Completed, Failed}
    case Rejected => {}
    case Completed => {}
    case Failed => {}
  }

  function ValidRelayTransitions(s: RelayStatus): set<RelayStatus> {
    match s
    case Queued => {Submitted, RelayFailed}
    case Submitted => {Confirmed, RelayFailed}
    case Confirmed => {}
    case RelayFailed => {}
  }

  predicate Terminal(s: SponsorshipStatus) {
    s in {Rejected, Completed, Failed}
  }

  /** The statuses the partial unique index on `walletId` covers. */
  predicate InProgress(s: SponsorshipStatus) {
    s in {Pending, Approved, Relayed}
  }

  predicate ActiveRelay(s: RelayStatus) {
    s in {Submitted, Confirmed}
  }

  /** The relay rows of one request. */
  function RelaysOf(relays: map<RelayId, RelayTransaction>, id: RequestId): map<RelayId, RelayTransaction> {
    map k | k in relays && relays[k].sponsorshipRequestId == id :: relays[k]
  }

  /** `getRetryCount`: how many relay rows a request has. */
  function RetryCount(db: Db, id: RequestId): nat {
    |RelaysOf(db.relays, id)|
  }
}
