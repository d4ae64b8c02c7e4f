/**
 The relay protocol as a state machine: any number of workers, each inside its own database
 transaction, the API inserting requests and registering wallets, and the chain mining transfers
 at any later time. A transaction reads the committed tables under its own buffered writes, one
 statement a step; other transactions and the chain move between the statements.
 */
module Protocol {
  import opened Ledger
  import opened Wrappers
  import opened Tables
  import opened Lifecycle
  import opened ContractClient
  import opened Processor
  import C = Contracts
  import T = ContractTheorems

  type WorkerId = nat
  type TxId = nat
  type PostId = nat

  /** The statement a transaction is about to make. */
  datatype Pc =
    | AtWallet
    | AtGuard
    | AtCount
    | AtApprove
    | AtCreate
    | AtRelayed
    | AtSubmit
    | AtExecute
    | AtReceipt(txId: TxId)
    | AtSettle
    | AtFinish
    | AtIncrement
    | AtCommit(result: ProcessResult)
    | Doomed

  /**
   One open transaction: the row it locked, its buffered writes, what the world told it so far, and the
   amount its worker is configured to pay.
   */
  datatype Tx = Tx(id: RequestId, pc: Pc, writes: Writes, env: Env, amount: nat)

  /** What the vault is asked to pay, and which attempt of which request asks it. */
  datatype Transfer = Transfer(recipient: Address, amount: nat, request: RequestId, attempt: RelayId)

  /** One committed change of the tables. */
  datatype Op =
    | Processed(id: RequestId, env: Env)
    | Inserted(id: RequestId, walletId: WalletId, at: Time)
    | Registered(walletId: WalletId, address: Address, at: Time)

  /** A POST on its way: the wallet it is for, and whether its second query has passed too. */
  datatype Post = Post(walletId: WalletId, cleared: bool)

  datatype State = State(
    account: Address,
    clock: Time,
    db: Db,
    running: map<WorkerId, Tx>,
    posts: map<PostId, Post>,
    world: C.World,
    mempool: map<TxId, Transfer>,
    mined: map<TxId, bool>,
    abandoned: map<RelayId, Transfer>,
    history: seq<Op>,
    reregistrations: map<WalletId, nat>,
    staleInserts: nat
  )

  datatype Label =
    | Tick
    | RegisterWallet(walletId: WalletId, address: Address)
    | CheckNoActive(post: PostId, walletId: WalletId)
    | CheckNoCompleted(post: PostId)
    | InsertRequest(post: PostId, id: RequestId)
    | Lock(worker: WorkerId, id: RequestId, maxRetries: nat, amount: nat, key: RelayId)
    | Statement(worker: WorkerId, pick: RelayId)
    | Broadcast(worker: WorkerId, txId: TxId)
    | Answer(worker: WorkerId, answer: RelayAnswer)
    | CommitTx(worker: WorkerId)
    | AbortTx(worker: WorkerId)
    | LateBroadcast(key: RelayId, txId: TxId)
    | Mine(txId: TxId, callee: C.Code)
    | Transact(tx: T.Transaction)

  // ---------------------------------------------------------------- one transaction's statements

  const NO_RESULT := RelayResult(false, None, None, None, None, None)

  function Open(id: RequestId, maxRetries: nat, amount: nat, key: RelayId): Tx {
    Tx(id, AtWallet, NO_WRITES, Env(maxRetries, 0, key, NO_RESULT, 0, 0, 0, 0), amount)
  }

  /** The transaction's own view of its request row. */
  function ViewRequest(s: Slice, tx: Tx): SponsorshipRequest {
    if tx.writes.request.Some? then tx.writes.request.value else s.request
  }

  /** A status move of the request row, or the exception thrown when the move is illegal. */
  function MoveOrThrow(s: Slice, tx: Tx, status: SponsorshipStatus, now: Time, next: Pc): Tx {
    match MoveRequest(ViewRequest(s, tx), status, now)
    case None => tx.(pc := Doomed)
    case Some(row) => tx.(pc := next, writes := tx.writes.(request := Some(row)))
  }

  function MoveRelayOrThrow(tx: Tx, status: RelayStatus, data: RelayData, now: Time, next: Pc): Tx {
    if tx.writes.relay.None? then tx.(pc := Doomed)
    else
      var old_ := tx.writes.relay.value;
      match MoveRelay(old_.row, status, data, now)
      case None => tx.(pc := Doomed)
      case Some(row) => tx.(pc := next, writes := tx.writes.(relay := Some(RelayWrite(old_.id, row))))
  }

  /** The next database statement, evaluated against the rows committed now. */
  function Step(s: Slice, tx: Tx, now: Time, pick: RelayId): Tx
    requires Active(s.relays) != {} ==> pick in Active(s.relays)
  {
    var env := tx.env;
    match tx.pc
    case AtWallet =>
      if !Processable(s.request.status) then
        tx.(pc := AtCommit(ProcessResult(true, s.request.status, NotProcessable)), env := env.(pick := pick))
      else if s.request.status == Pending && s.wallet == Some(true) then
        var moved := MoveOrThrow(s, tx.(env := env.(pick := pick, movedAt := now)), Rejected, now,
                                 AtCommit(Done(Rejected)));
        if moved.writes.request.None? then moved
        else moved.(writes := moved.writes.(request :=
                      Some(moved.writes.request.value.(eligibilityReason := Some("Wallet is blocked")))))
      else tx.(pc := AtGuard)
    case AtGuard =>
      if Active(s.relays) == {} then tx.(pc := AtCount, env := env.(pick := pick))
      else if s.relays[pick].status == Confirmed then
        MoveOrThrow(s, tx.(env := env.(pick := pick, movedAt := now)), Completed, now, AtIncrement)
      else
        tx.(pc := AtCommit(ProcessResult(true, s.request.status, ActiveRelayExists)), env := env.(pick := pick))
    case AtCount =>
      if |s.relays| >= env.maxRetries then
        MoveOrThrow(s, tx.(env := env.(movedAt := now)), Failed, now, AtCommit(Done(Failed)))
      else tx.(pc := if s.request.status == Pending then AtApprove else AtCreate, env := env.(movedAt := now))
    case AtApprove => MoveOrThrow(s, tx.(env := env.(movedAt := now)), Approved, now, AtCreate)
    case AtCreate =>
      if |s.relays| >= DEFAULT_MAX_RELAY_ATTEMPTS then tx.(pc := Doomed)
      else tx.(pc := if s.request.status == Pending then AtRelayed else AtSubmit,
               writes := tx.writes.(relay := Some(RelayWrite(env.relayId, NewRelay(tx.id, |s.relays| + 1)))))
    case AtRelayed => MoveOrThrow(s, tx, SponsorshipStatus.Relayed, now, AtSubmit)
    case AtSubmit =>
      MoveRelayOrThrow(tx.(env := env.(submittedAt := now)), Submitted, NO_DATA, now, AtExecute)
    case AtSettle =>
      var timed := tx.(env := env.(settledAt := now));
      if CountsAsSuccess(env.result) then MoveRelayOrThrow(timed, Confirmed, ConfirmData(env.result), now, AtFinish)
      else MoveRelayOrThrow(timed, RelayFailed, NO_DATA.(failureReason := env.result.failureReason), now, AtFinish)
    case AtFinish =>
      var timed := tx.(env := env.(finishedAt := now));
      if CountsAsSuccess(env.result) then MoveOrThrow(s, timed, Completed, now, AtIncrement)
      else MoveOrThrow(s, timed, Failed, now, AtCommit(Done(Failed)))
    case AtIncrement =>
      if s.wallet.None? then tx.(pc := Doomed)
      else tx.(pc := AtCommit(Done(Completed)), writes := tx.writes.(increment := true))
    case AtExecute => tx
    case AtReceipt(_) => tx
    case AtCommit(_) => tx
    case Doomed => tx
  }

  predicate AtStatement(pc: Pc) {
    !pc.AtExecute? && !pc.AtReceipt? && !pc.AtCommit? && !pc.Doomed?
  }

  // ---------------------------------------------------------------- the chain's side

  /** The address a request's transfer goes to. */
  function RecipientOf(db: Db, id: RequestId): Address
    requires id in db.requests && db.requests[id].walletId in db.wallets
  {
    db.wallets[db.requests[id].walletId].walletAddress
  }

  /** The transfer that an attempt's executor makes. */
  function OwnTransfer(db: Db, tx: Tx): Transfer
    requires tx.id in db.requests && db.requests[tx.id].walletId in db.wallets
  {
    Transfer(RecipientOf(db, tx.id), tx.amount, tx.id, tx.env.relayId)
  }

  /** A simulated transfer would be refused as AlreadySponsored. */
  ghost predicate RefusedAsSponsored(w: C.World, account: Address, recipient: Address) {
    exists amount: nat ::
      C.Perform(w, account, C.SponsorTransfer(recipient, amount, C.Return)).error == Some(C.AlreadySponsored(recipient))
  }

  /**
   A truthful node: decoded AlreadySponsored data comes from a call the vault refuses that way, and
   no raw text of its own happens to begin with that word.
   */
  ghost predicate HonestError(w: C.World, account: Address, recipient: Address, e: ThrownError) {
    match e
    case NotAnError(text) => !StartsWith(text, ALREADY_SPONSORED)
    case AnError(message, data) =>
      && (data.NoData? ==> !StartsWith(message, ALREADY_SPONSORED))
      && (data.Decoded? && data.errorName == ALREADY_SPONSORED ==> RefusedAsSponsored(w, account, recipient))
  }

  ghost predicate HonestAnswer(s: State, tx: Tx, answer: RelayAnswer)
    requires tx.id in s.db.requests && s.db.requests[tx.id].walletId in s.db.wallets
  {
    match answer
    case Mined(_, _, _, _) => tx.pc.AtReceipt? && tx.pc.txId in s.mined && s.mined[tx.pc.txId]
    case RevertedOnChain(_, _) => tx.pc.AtReceipt? && tx.pc.txId in s.mined && !s.mined[tx.pc.txId]
    case Threw(e, _) => HonestError(s.world, s.account, RecipientOf(s.db, tx.id), e)
    case DeadlinePassed => true
    case NotInitialized => tx.pc.AtExecute?
    case NoClient => tx.pc.AtExecute?
    case RequestMissing(_) => tx.pc.AtExecute?
    case LookupThrew(message) => tx.pc.AtExecute? && !StartsWith(message, ALREADY_SPONSORED)
  }

  // ---------------------------------------------------------------- the API's side

  /** `validateNoPendingRequest`: nothing in progress, nothing completed. */
  predicate Eligible(db: Db, walletId: WalletId) {
    forall r | r in db.requests && db.requests[r].walletId == walletId ::
      !InProgress(db.requests[r].status) && db.requests[r].status != Completed
  }

  /** The partial unique index: at most one request in progress per wallet. */
  predicate IndexAllows(db: Db, walletId: WalletId) {
    forall r | r in db.requests && db.requests[r].walletId == walletId :: !InProgress(db.requests[r].status)
  }

  function NewRequest(walletId: WalletId, now: Time): SponsorshipRequest {
    SponsorshipRequest(walletId, Pending, None, now, None, None, None, None)
  }

  function Register(db: Db, walletId: WalletId, address: Address, now: Time): Db {
    if walletId !in db.wallets then db.(wallets := db.wallets[walletId := Wallet(address, false, 0, now)])
    else if db.wallets[walletId].isBlocked then db
    else db.(wallets := db.wallets[walletId := Incremented(db.wallets[walletId].(lastSeenAt := now))])
  }

  function ReregistrationsOf(s: State, walletId: WalletId): nat {
    if walletId in s.reregistrations then s.reregistrations[walletId] else 0
  }

  // ---------------------------------------------------------------- the machine

  predicate OpenRow(s: State, worker: WorkerId) {
    && worker in s.running
    && s.running[worker].id in s.db.requests
    && s.db.requests[s.running[worker].id].walletId in s.db.wallets
  }

  ghost predicate Enabled(s: State, l: Label) {
    match l
    case Tick => true
    case RegisterWallet(walletId, address) =>
      && (walletId in s.db.wallets ==> s.db.wallets[walletId].walletAddress == address)
      && (walletId !in s.db.wallets ==> forall w | w in s.db.wallets :: s.db.wallets[w].walletAddress != address)
    case CheckNoActive(post, walletId) =>
      && post !in s.posts && walletId in s.db.wallets && !s.db.wallets[walletId].isBlocked
      && IndexAllows(s.db, walletId)
    case CheckNoCompleted(post) =>
      && post in s.posts
      && (forall r | r in s.db.requests && s.db.requests[r].walletId == s.posts[post].walletId ::
            s.db.requests[r].status != Completed)
    case InsertRequest(post, id) =>
      && post in s.posts && s.posts[post].cleared && s.posts[post].walletId in s.db.wallets
      && id !in s.db.requests && IndexAllows(s.db, s.posts[post].walletId)
    case Lock(worker, id, maxRetries, _, key) =>
      && worker !in s.running && id in s.db.requests && key !in s.db.relays && key !in s.abandoned
      && (forall x | x in s.mempool :: s.mempool[x].attempt != key)
      && (forall w | w in s.running :: s.running[w].id != id && s.running[w].env.relayId != key)
    case Statement(worker, pick) =>
      && OpenRow(s, worker) && AtStatement(s.running[worker].pc)
      && (var active := Active(SliceOf(s.db, s.running[worker].id).relays); active != {} ==> pick in active)
    case Broadcast(worker, txId) =>
      OpenRow(s, worker) && s.running[worker].pc == AtExecute && txId !in s.mempool
    case Answer(worker, answer) =>
      && OpenRow(s, worker) && (s.running[worker].pc.AtExecute? || s.running[worker].pc.AtReceipt?)
      && HonestAnswer(s, s.running[worker], answer)
    case CommitTx(worker) => OpenRow(s, worker) && s.running[worker].pc.AtCommit?
    case AbortTx(worker) => OpenRow(s, worker)
    case LateBroadcast(key, txId) => key in s.abandoned && txId !in s.mempool
    case Mine(txId, _) => txId in s.mempool && txId !in s.mined
    case Transact(tx) => T.FromAccount(tx)
  }

  /** An executor left running when nobody waits for it any more may still broadcast. */
  function Abandon(s: State, tx: Tx): State
    requires tx.id in s.db.requests && s.db.requests[tx.id].walletId in s.db.wallets
  {
    if tx.pc.AtExecute? then s.(abandoned := s.abandoned[tx.env.relayId := OwnTransfer(s.db, tx)]) else s
  }

  function Committed(s: State, worker: WorkerId): State
    requires OpenRow(s, worker)
  {
    var tx := s.running[worker];
    s.(db := Install(s.db, tx.id, tx.writes),
       running := s.running - {worker},
       history := s.history + [Processed(tx.id, tx.env)])
  }

  /** The relay executor returns. */
  function Told(tx: Tx, result: RelayResult): Tx {
    tx.(pc := AtSettle, env := tx.env.(result := result))
  }

  function Answered(s: State, worker: WorkerId, answer: RelayAnswer): State
    requires OpenRow(s, worker)
  {
    var tx := s.running[worker];
    var s' := s.(running := s.running[worker := Told(tx, ExecuteRelay(answer))]);
    if answer.DeadlinePassed? then Abandon(s', tx) else s'
  }

  function Stepped(s: State, worker: WorkerId, pick: RelayId): State
    requires OpenRow(s, worker)
    requires var active := Active(SliceOf(s.db, s.running[worker].id).relays); active != {} ==> pick in active
  {
    var tx := s.running[worker];
    s.(running := s.running[worker := Step(SliceOf(s.db, tx.id), tx, s.clock, pick)])
  }

  /** The transfer leaves the worker, whether or not the call that sends it will return. */
  function Broadcasted(s: State, worker: WorkerId, txId: TxId): State
    requires OpenRow(s, worker)
  {
    var tx := s.running[worker];
    s.(running := s.running[worker := tx.(pc := AtReceipt(txId))],
       mempool := s.mempool[txId := OwnTransfer(s.db, tx)])
  }

  function InsertedAt(s: State, post: PostId, id: RequestId): State
    requires post in s.posts
  {
    var walletId := s.posts[post].walletId;
    s.(db := s.db.(requests := s.db.requests[id := NewRequest(walletId, s.clock)]),
       posts := s.posts - {post},
       history := s.history + [Inserted(id, walletId, s.clock)],
       staleInserts := s.staleInserts + (if Eligible(s.db, walletId) then 0 else 1))
  }

  function RegisteredAt(s: State, walletId: WalletId, address: Address): State {
    var again := walletId in s.db.wallets && !s.db.wallets[walletId].isBlocked;
    s.(db := Register(s.db, walletId, address, s.clock),
       history := s.history + [Registered(walletId, address, s.clock)],
       reregistrations := s.reregistrations[walletId := ReregistrationsOf(s, walletId) + (if again then 1 else 0)])
  }

  function MinedAt(s: State, txId: TxId, callee: C.Code): State
    requires txId in s.mempool
  {
    var t := s.mempool[txId];
    var out := C.Perform(s.world, s.account, C.SponsorTransfer(t.recipient, t.amount, callee));
    s.(world := out.world, mined := s.mined[txId := out.error.None?])
  }

  function Apply(s: State, l: Label): State
    requires Enabled(s, l)
  {
    match l
    case Tick => s.(clock := s.clock + 1)
    case RegisterWallet(walletId, address) => RegisteredAt(s, walletId, address)
    case CheckNoActive(post, walletId) => s.(posts := s.posts[post := Post(walletId, false)])
    case CheckNoCompleted(post) => s.(posts := s.posts[post := s.posts[post].(cleared := true)])
    case InsertRequest(post, id) => InsertedAt(s, post, id)
    case Lock(worker, id, maxRetries, amount, key) =>
      s.(running := s.running[worker := Open(id, maxRetries, amount, key)])
    case Statement(worker, pick) => Stepped(s, worker, pick)
    case Broadcast(worker, txId) => Broadcasted(s, worker, txId)
    case Answer(worker, answer) => Answered(s, worker, answer)
    case CommitTx(worker) => Committed(s, worker)
    case AbortTx(worker) => Abandon(s.(running := s.running - {worker}), s.running[worker])
    case LateBroadcast(key, txId) =>
      s.(abandoned := s.abandoned - {key}, mempool := s.mempool[txId := s.abandoned[key]])
    case Mine(txId, callee) => MinedAt(s, txId, callee)
    case Transact(tx) => s.(world := C.Perform(s.world, tx.sender, tx.call).world)
  }

  ghost predicate ValidRun(s: State, ls: seq<Label>)
    decreases |ls|, 0
  {
    ls == [] || (var n := |ls| - 1; ValidRun(s, ls[..n]) && Enabled(After(s, ls[..n]), ls[n]))
  }

  /** The state after a run. */
  ghost function After(s: State, ls: seq<Label>): State
    requires ValidRun(s, ls)
    decreases |ls|, 1
  {
    if ls == [] then s else Apply(After(s, ls[..|ls| - 1]), ls[|ls| - 1])
  }

  /** There is always a number that is not in use. */
  lemma {:induction false} Unused(used: set<nat>) returns (x: nat)
    ensures x !in used && forall y | y in used :: y < x
    decreases used
  {
    if used == {} {
      x := 0;
    } else {
      var y :| y in used;
      var z := Unused(used - {y});
      x := if y < z then z else y + 1;
      assert used == (used - {y}) + {y};
    }
  }

  // ---------------------------------------------------------------- where runs start

  ghost predicate ForeignKeys(db: Db) {
    && (forall r | r in db.requests :: db.requests[r].walletId in db.wallets)
    && (forall k | k in db.relays :: db.relays[k].sponsorshipRequestId in db.requests)
  }

  /** Any well-formed tables, nobody at work yet. */
  ghost predicate Quiet(s: State) {
    && ForeignKeys(s.db) && s.running == map[] && s.posts == map[] && s.history == []
    && T.IsAccount(s.account) && C.Sound(s.world) && C.Settled(s.world)
    && s.mempool == map[] && s.mined == map[] && s.abandoned == map[]
    && s.reregistrations == map[] && s.staleInserts == 0
  }

  /** A fresh installation: a quiet start with wallets, none counted yet, and no requests. */
  ghost predicate Fresh(s: State) {
    && Quiet(s) && s.db.requests == map[] && s.db.relays == map[]
    && (forall w | w in s.db.wallets :: s.db.wallets[w].sponsorshipCount == 0)
    && (forall v, w | v in s.db.wallets && w in s.db.wallets && v != w ::
          s.db.wallets[v].walletAddress != s.db.wallets[w].walletAddress)
  }
}
