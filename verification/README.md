# ArcPass: a verified model of the relay protocol, its contracts and its limiters

ArcPass sponsors the first transaction of a wallet. A wallet is registered and a request is posted
through the API; a worker takes the request through one database transaction, in the middle of which
the SponsorVault contract is asked to pay; the SponsorshipRegistry contract keeps the count of
sponsorships. This project models that system in Dafny and proves what it promises: every wallet is
paid at most once, interleaved workers behave as if they ran one at a time, the tables always tell a
consistent story, and the limiters admit what they should. `dafny verify dfyconfig.toml` checks it.

## What is modelled

**The contracts** (`Ledger`, `Contracts`, `ContractTheorems`, `AccessControl`, `CallAnswers`, `Payments`,
`SponsorVault`). A
transaction is a finite tree: a call pays an account and runs whatever code is there, which may call
back into the vault or the registry, pay anybody, or revert. `Contracts.Perform` gives the world after
a call and every world that some code could have observed on the way. `SponsorVault.dfy` holds the same
contracts as objects that update their own fields and restore them on a revert, each method proved to
do what `Perform` says. `CallAnswers` says what each call answers and leaves, `Payments` who has the ether
afterwards. The theorems quantify over all call trees and all runs of transactions.

**The relay protocol.** `Tables` and `Lifecycle` hold the rows and the store's methods. `Processor`
holds `processRequest` twice: as a procedure over the store, with its early exits and its rollback, and
as a function from the rows a transaction reads to the rows it writes; the first is proved against the
second. `Protocol` splits the same transaction into its database statements and puts any number of
them, the API's POSTs (whose two queries and insert are three separate steps) and registrations, lock
timeouts, crashes, abandoned executors and late-mined transfers into one state machine.
`Serializability` carries an assertion for each program point and shows that the machine leaves the
tables that whole operations would leave. On top of it, `ChainSafety` relates the tables to the chain,
`TableSafety`, `Attempts` and `Records` say what the tables always satisfy, `Outcomes` what a commit writes,
column by column, and `AnsweredRuns` how the executor's answer decides it over runs (`ErrorTexts` the
failure reasons), `Registrations` what registrations and posts leave, `Broadcasts` what the worker's
transfers ask for and that the ether arrives, `EndToEnd` one wallet all the way, `Recovery` what happens
after a lost commit, `LateTransfers` what becomes of the transfers of an attempt or a request that has
ended (with `Payability`, what the vault can still be brought to pay, and `FailedButPaid`, runs in which a
failed request is paid), `Finishing` which requests can still be ended under a retry limit, `Drain`
what poll cycles finish. `Poller` is the poll loop, `Api` the API's writes.

**The limiters.** `RateLimit` and `ReplayProtection` are the table and the services over it.
`RateLimitTheorems` follows one identifier's requests that are served one after another;
`SlidingWindow` gives the exact worst case of what they let through. `ConcurrentLimiter` and
`ConcurrentReplay` are machines in which any number of requests overlap: every await of the services is
a step of its own, and the exact condition under which the sequential results still hold is proved over
all interleavings. `SharedTable` shows that many keys in the one table do not disturb each other.

**The history pages** (`History`): keyset pagination against the sorted listing, with rows inserted
between the pages.

Times are natural numbers of milliseconds, keys and addresses are natural numbers, ether amounts are
unbounded naturals. The clock, generated keys, the row an unordered query returns and every answer of
the chain are parameters of the steps, so each theorem holds for all of them.

## Hypotheses that the results carry

- Runs start quiet: any tables whose foreign keys hold, no open transaction, a linked and settled
  vault as deployed by `contracts/script/Deploy.s.sol`, and, for the results that link tables and chain,
  completed requests and confirmed relay rows already backed by the chain (`ChainSafety.Backed`, which
  an installation without requests meets).
- The node is truthful (`Protocol.HonestAnswer`): a success or revert receipt is the transaction's own,
  decoded AlreadySponsored data comes from a call that the vault refuses that way, and no raw text of
  the node's own begins with that word.
- Top-level transactions are sent by accounts: not by the two contracts, nor by address zero, whose key
  nobody has and where no code is.
- The poller is started once.
- `RateLimitTheorems.InOrder`: the results of `RateLimitTheorems` and `SlidingWindow` about runs of
  requests are for requests of one identifier that do not overlap. For overlapping ones, that every
  counted request was permitted and the table's one row stands for them holds exactly when every count is
  fresh (`ConcurrentLimiter.FaithfulExactlyWhenFresh`); the bounds then follow, and freshness is enough
  for them but not necessary.
- `History.WalkIgnoresNewer` and `History.WalkPastNewerEnds` are for inserted requests that are newer than
  those at the start.

## Where the code differs from its documentation

- `createRelayTransaction` is called without the configured limit, so its default of 3 caps attempts.
  A relayed request with three or more relay rows, none active, under a larger `maxRetries` throws on
  every call, and no run changes it while every worker's limit is above its rows:
  `ProcessTheorems.StuckWhenLimitsDisagree`, `Finishing.StuckOverRuns`. `Finishing.FinishableExactly` says
  exactly which requests some run can still end under a given limit. By `TableSafety.OnlySettledStoriesAreVisible`
  no run from a clean installation gets there; it takes rows put into the tables by other means.
- Pending requests cannot be failed or completed directly; the two branches that try it roll back.
  `ProcessTheorems.FinishesExactly` gives the exact condition under which a call finishes a request.
- The documented sliding window is a fixed one that starts at a request. The most requests that an
  interval of one window length can hold is 2 * max - 1 if a block is shorter than a window and
  2 * max - 2 if not (`SlidingWindow.IntervalIsBounded`, reached by `SlidingWindow.WorstCaseIsReached`),
  and it never exceeds the limit exactly when the window is at most 1 ms long, or max is 1, or max is 2
  and a block lasts at least a window (`SlidingWindow.SlidesExactly`).
- The limiter and the deduplication hook await the database between check and write, so overlapping
  requests are not limited at all: any number can be accepted at one moment, and each leaves a row of
  its own (`ConcurrentLimiter.OverlapAdmitsAny`, `ConcurrentReplay.TwinsBothPass`).
- `registerWallet` increments `sponsorshipCount` when a wallet registers again, so the count is the
  number of completed requests plus the number of repeated registrations.
- The eligibility check and the insert of a POST are separate statements. The partial unique index
  stops a second request in progress, but not a second request after the first has completed:
  `Recovery.StalePostsCanBothComplete` is a run that ends with two completed requests for one wallet,
  paid once. `TableSafety.OneStandingExactly` is the exact condition over runs.
- `handleExecutionError` looks for network words in the message before it decodes revert data, and a
  raw text that begins with "AlreadySponsored" is recognised too. `ContractClient.RecognisedExactly`
  says exactly which errors are taken for AlreadySponsored.
- "A failed request was not paid by its own attempt" is false. The deadline only stops the waiting: the
  transfer may be broadcast and mined after the request is failed (`FailedButPaid.FailedThenPaid`), be mined
  and pay while the worker still waits for the receipt (`FailedButPaid.PaidThenFailed`), or be broadcast by
  the executor that was left behind while the transaction is on its way to the commit
  (`FailedButPaid.BroadcastBeforeTheCommit`). The wallet is still paid at most once.
  `LateTransfers.LatePaymentExactly` is the exact condition, for any ended request and all the attempts it
  ever had, rolled back or committed, and for any single committed attempt: one of their transfers has paid
  already, or one is broadcast and not mined, or left to a running executor, and can still be made payable.
  A request failed on a revert receipt is never paid by that transfer
  (`LateTransfers.RevertedTransferNeverPays`).

## Model

| member | source | states |
|---|---|---|
| Ledger.MoveConserves | contracts/src/SponsorVault.sol:145 | a value call keeps the total of all balances, even when payer and payee are the same account |
| Contracts.PerformFollows | contracts/src/SponsorVault.sol:102-193 | every call tree, with any re-entrancy and reverts, keeps registry linkage, counts of exactly 1 and the recorded addresses equal to those granted, in every world any code observes; total ether and the owner stay the same |
| Contracts.PayFollows | contracts/src/SponsorVault.sol:145-146 | a value call that fails restores the world; one that succeeds spends exactly what left the vault, nothing if paid from elsewhere, a self-send counting both ways |
| Contracts.RunFollows | contracts/src/SponsorVault.sol:133-193 | whatever code a called account runs keeps the same invariant from start to end |
| Contracts.RecordedIsSound | contracts/src/SponsorshipRegistry.sol:41-49 | recording an unsponsored recipient within the limit keeps the invariant |
| ContractTheorems.DeploymentIsSound | contracts/script/Deploy.s.sol:41-49 | deployment succeeds exactly for a non-zero operator and limit, and leaves a linked vault with nothing in flight |
| ContractTheorems.TransactionSettles | contracts/src/SponsorVault.sol:133-149 | after each top-level call the Granted log and the Executed log hold the same (recipient, amount) pairs, counted with multiplicity |
| ContractTheorems.EveryRunIsSound | contracts/src/SponsorVault.sol:102-193 | the invariant holds in every world observed during any run of transactions, and nothing is in flight between them |
| ContractTheorems.CountNeverExceedsOne | contracts/src/SponsorshipRegistry.sol:41-49 | no address has a count above 1 in any world that code observes during a run of transactions, nor at its end, and it has one exactly when a grant to it is logged |
| ContractTheorems.PaidAtMostOnce | contracts/src/SponsorVault.sol:139-148 | over any run from deployment no address is paid twice |
| ContractTheorems.VaultAccounting | contracts/src/SponsorVault.sol:133-192 | vault balance equals opening balance plus deposits minus grants minus emergency withdrawals, and total ether never changes |
| ContractTheorems.GrantsAreBounded | contracts/src/SponsorVault.sol:137 | everything ever granted is at most the number of sponsored addresses times the largest limit ever set |
| ContractTheorems.TransferSponsors | contracts/src/SponsorVault.sol:139-148 | a transfer that succeeds found its recipient unsponsored and leaves it sponsored |
| ContractTheorems.AlreadySponsoredExactly | contracts/src/SponsorVault.sol:133-139 | a transfer is refused as AlreadySponsored exactly when all earlier checks pass and the recipient is sponsored, and then nothing changes |
| ContractTheorems.LinkageIsPermanent | contracts/src/SponsorVault.sol:102-109 | once linked, registry and owner never change, whatever runs |
| AccessControl.OnlyOwnerGoverns | contracts/src/SponsorVault.sol:114-117 | if the owner makes no call anywhere in a call tree, no operator, limit or registry changes and nothing is withdrawn |
| AccessControl.OnlyOperatorSponsors | contracts/src/SponsorVault.sol:120-123 | if neither owner nor operator makes a call in the tree, nobody is sponsored and nothing is granted |
| AccessControl.RunsNeedTheirOfficers | contracts/src/SponsorVault.sol:114-187 | the same over whole runs of transactions |
| CallAnswers.TransferAnswers | contracts/src/SponsorVault.sol:133-149 | which refusal a transfer meets, each one exactly, the first in the contract's order; past them all it fails only if the payment does |
| CallAnswers.WithdrawalAnswers | contracts/src/SponsorVault.sol:178-187 | the same for a withdrawal |
| CallAnswers.OperatorIsReplaced | contracts/src/SponsorVault.sol:155-162 | the owner alone replaces the operator, by any address but zero; old and new are logged and nothing else changes |
| CallAnswers.LimitIsReplaced | contracts/src/SponsorVault.sol:166-173 | the owner alone replaces the limit, by any positive one; old and new are logged and nothing else changes |
| CallAnswers.RegistryIsLinkedOnce | contracts/src/SponsorVault.sol:102-109 | the owner links a registry once, and the second try is refused |
| CallAnswers.OnlyVaultRecords | contracts/src/SponsorshipRegistry.sol:41-44 | nobody but the vault has a sponsorship recorded |
| CallAnswers.DeploymentLeaves | contracts/src/SponsorVault.sol:88-95 | deployment leaves the deployer as owner, its operator and limit, the linked registry and nobody sponsored |
| Payments.RecipientSeesSponsorship | contracts/src/SponsorVault.sol:141-146 | the first world that the recipient's code observes has the whole amount with it and out of the vault, everybody else's ether as before, and the sponsorship already recorded and logged |
| Payments.RecipientSeesWithdrawal | contracts/src/SponsorVault.sol:183 | the same ether for a withdrawal |
| Payments.TransferPaysRecipient | contracts/src/SponsorVault.sol:133-149 | a successful transfer to an account that makes no call: it has exactly the amount more, the vault that much less, nobody else's ether, count or office changes, and the two events are logged |
| Payments.WithdrawalPaysRecipient | contracts/src/SponsorVault.sol:178-187 | the same for a withdrawal, with its one event |
| Payments.DepositArrives | contracts/src/SponsorVault.sol:192 | a plain payment to the vault arrives there exactly if the sender has it |
| Payments.EtherArrives | contracts/src/SponsorVault.sol:133-187 | over every call tree an account that makes no call in it, and is not the vault, loses nothing and gains at least all that the vault logs as paid to it |
| Payments.EtherArrivesOverRuns | contracts/src/SponsorVault.sol:133-187 | the same over whole runs of transactions |
| SponsorVaultContract.SponsorshipRegistry.RecordSponsorship | contracts/src/SponsorshipRegistry.sol:41-49 | refuses everyone but the vault and changes nothing then; otherwise adds one to the recipient's count alone and logs the grant |
| SponsorVaultContract.SponsorVault.SponsorTransfer | contracts/src/SponsorVault.sol:133-149 | checks in order, record before paying, callee with re-entrancy, everything restored on a failed payment: the world and error that the call-tree semantics give |
| SponsorVaultContract.SponsorVault.EmergencyWithdraw | contracts/src/SponsorVault.sol:178-187 | the same for a withdrawal |
| SponsorVaultContract.SponsorVault.SetOperator | contracts/src/SponsorVault.sol:155-162 | new world and error of an operator change |
| SponsorVaultContract.SponsorVault.SetPerTransactionLimit | contracts/src/SponsorVault.sol:166-173 | new world and error of a limit change |
| SponsorVaultContract.SponsorVault.InitializeRegistry | contracts/src/SponsorVault.sol:102-109 | new world and error of linking the registry, which succeeds once |
| SponsorVaultContract.SponsorVault.Dispatch | contracts/src/SponsorVault.sol:102-193 | any call by any account on the objects does what the call-tree semantics says |
| SponsorVaultContract.SponsorVault.Pay | contracts/src/SponsorVault.sol:145-146 | value moves before the callee runs and comes back if it reverts; the vault's own code receives, the registry refuses |
| SponsorVaultContract.Deploy | contracts/script/Deploy.s.sol:41-49 | vault, registry and the one linking call, with the constructor's two checks |
| Lifecycle.Store.TransitionSponsorshipStatus | apps/worker/src/lifecycle.ts:36-80 | unknown row, illegal transition (row untouched) or the moved row with exactly its own timestamp set |
| Lifecycle.Store.GetRetryCount | apps/worker/src/lifecycle.ts:223-230 | the number of relay rows of the request |
| Lifecycle.Store.CreateRelayTransaction | apps/worker/src/lifecycle.ts:104-131 | throws exactly at the limit, default 3; otherwise adds one queued row numbered count + 1 |
| Lifecycle.Store.UpdateRelayTransaction | apps/worker/src/lifecycle.ts:145-217 | unknown row, illegal transition (row untouched) or the moved row with its timestamp and the data that was provided |
| Lifecycle.Store.IncrementSponsorshipCount | apps/worker/src/processor.ts:124-127 | adds one to that wallet's count alone, or reports the missing row |
| Lifecycle.MoveKeepsRecord | apps/worker/src/lifecycle.ts:36-80 | a legal transition keeps timestamps and status in agreement and never overwrites a timestamp |
| Lifecycle.EveryAttemptUsed | apps/worker/src/lifecycle.ts:110-120 | distinct attempt numbers up to a bound are at most that many, and as many only if the bound is used |
| Lifecycle.NumberingsAgree | apps/api/src/services/relay.service.js:11-29 | on well-numbered rows the API's highest + 1 is the worker's count + 1 |
| Lifecycle.NextAttemptKeepsNumbering | apps/worker/src/lifecycle.ts:104-131 | adding attempt count + 1 to rows with none active keeps them numbered 1..n with at most one active |
| ContractClient.TruncationKeepsPrefix | apps/worker/src/contract-client.ts:424-427 | truncating a reason of any length never changes how its first 997 characters begin |
| ContractClient.FormatRecognised | apps/worker/src/contract-client.ts:391-419 | a formatted revert begins with AlreadySponsored exactly when that is the decoded error |
| ContractClient.RecognisedExactly | apps/worker/src/contract-client.ts:291-340 | exactly which thrown errors, of any message and length, are taken for AlreadySponsored |
| ContractClient.OtherAnswersNotRecognised | apps/worker/src/relay-executor.ts:64-198 | no other answer is, except a lookup failure whose own text begins with that word |
| ErrorTexts.NetworkErrorExactly | apps/worker/src/contract-client.ts:296-322 | a message is taken for a network error exactly if one of nine words stands somewhere in it, in any case |
| ErrorTexts.NetworkWordInContext | apps/worker/src/contract-client.ts:296-322 | each word is found in any spelling and any surroundings |
| ErrorTexts.ReasonTells | apps/worker/src/contract-client.ts:291-340 | the reason of a thrown error by the first word it mentions, and without any by its data or its message |
| ErrorTexts.TruncationIs | apps/worker/src/contract-client.ts:424-427 | a reason that fits in 1000 characters is kept whole, a longer one is its first 997 and three dots |
| Outcomes.SuccessExactly | apps/worker/src/processor.ts:256-312 | an answer counts as success if and only if it is a success receipt, a thrown error recognised as AlreadySponsored, or a lookup failure whose text begins with that word |
| Outcomes.SettledRowTells | apps/worker/src/processor.ts:256-394 | every column of the relay row that an attempt commits, told by the answer: hash, block, event and link of a mined transfer; the hash alone for AlreadySponsored; the reason alone for a failure; with its number and clock readings |
| Outcomes.SettledRequestTells | apps/worker/src/lifecycle.ts:36-80 | every column of the request row after a commit: which timestamps are set, to which clock reading, and the reason of a rejection, which happens exactly to pending requests of blocked wallets |
| Outcomes.ResultTells | apps/worker/src/processor.ts:46-420 | the worker's answer names the request's status after the call, and says exactly when it was skipped, was in flight, or threw |
| AnsweredRuns.AnswerDecides | apps/worker/src/processor.ts:252-394 | over every run: if the attempt that was given an answer commits, its request is completed and its wallet counted once exactly when the answer means success, and failed otherwise; its relay row tells the answer, and no other row changes |
| AnsweredRuns.StampedInsideTransaction | apps/worker/src/lifecycle.ts:36-80 | over every run every timestamp that a commit writes was read between the lock of its row and the commit |
| Processor.RunTransaction | apps/worker/src/processor.ts:46-396 | the transaction body statement by statement: skipped when locked or missing, otherwise the tables and result of the specification, or a throw exactly when it rolls back |
| Processor.RunAttempt | apps/worker/src/processor.ts:181-395 | submission, relay and settlement together write what the specification of one attempt says |
| Processor.RunSubmission | apps/worker/src/processor.ts:184-242 | approved if pending, a new queued row, relayed, submitted; stops exactly at three rows |
| Processor.RunSettlement | apps/worker/src/processor.ts:255-395 | confirmed, completed and counted on success or AlreadySponsored; relay row and request failed otherwise |
| Processor.ProcessRequest | apps/worker/src/processor.ts:39-420 | one call's tables and answer; a thrown exception leaves the tables as they were |
| ProcessTheorems.CommitIsWellShaped | apps/worker/src/processor.ts:64-395 | a commit writes nothing or ends the request; it counts the wallet exactly when it completes; its relay row is settled, numbered count + 1, and below both limits |
| ProcessTheorems.FinishesExactly | apps/worker/src/processor.ts:64-395 | exactly when a call takes a request to a terminal status |
| ProcessTheorems.InstallSlices | apps/worker/src/processor.ts:45-400 | a commit changes no row that a transaction on another request reads |
| ProcessTheorems.ProcessEffects | apps/worker/src/processor.ts:116-127 | other requests and finished requests keep their rows; the wallet's count grows by one exactly when this call completes the request |
| ProcessTheorems.ProcessKeepsNumbering | apps/worker/src/processor.ts:106-179 | attempts stay numbered 1..n with at most one active, and no call adds one beyond min(maxRetries, 3) |
| Finishing.FinishableExactly | apps/worker/src/processor.ts:46-396 | for a request that has not ended and is not being processed, and any configured limit: some run, with any other workers, posts and answers, ends it if and only if it is pending on a blocked wallet, or relayed with a confirmed row, or has no active row and is relayed with the limit used up, or is pending or relayed with fewer rows than the limit and than three |
| Finishing.HopelessStays | apps/worker/src/processor.ts:67-175 | while every worker's limit rules an ending out, no run changes the request's row or its relay rows, whatever the chain answers |
| Finishing.StuckOverRuns | apps/worker/src/lifecycle.ts:86-118 | a relayed request with three or more rows, none active, stays exactly as it is over every run in which all limits are above its rows |
| ProcessTheorems.StuckWhenLimitsDisagree | apps/worker/src/lifecycle.ts:86-118 | with three or more rows, none active, and maxRetries above their number, every call throws and changes nothing; with maxRetries reached the request fails |
| ProcessTheorems.ProcessKeepsRecords | apps/worker/src/lifecycle.ts:66-72 | a call with ordered clock readings keeps timestamps consistent and overwrites none |
| Serializability.StepKeepsAssertion | apps/worker/src/processor.ts:47-396 | each database statement takes the assertion before it to the assertion after it |
| Serializability.CommitIsAtomic | apps/worker/src/processor.ts:45-400 | what a transaction commits is one whole processRequest on the tables committed at that moment |
| Serializability.CommitKeepsCoherence | apps/worker/src/processor.ts:48-52 | a commit leaves every other open transaction's view as it was |
| Serializability.RunsAreCoherent | apps/worker/src/processor.ts:45-400 | over every run, every open transaction's buffered writes are right for the rows committed now, and no two hold the same row |
| Serializability.EveryRunIsSerializable | apps/worker/src/processor.ts:45-400 | any interleaving of any number of workers leaves the tables of its committed operations run whole, one at a time, in commit order |
| ChainSafety.HonestSuccessIsBacked | apps/worker/src/processor.ts:256-359 | every answer that counts as success belongs to an address the chain has sponsored |
| ChainSafety.CommitIsBacked | apps/worker/src/processor.ts:113-138 | a commit that counts a wallet has a sponsored recipient, by the answer or by a confirmed relay row |
| ChainSafety.RunsKeepChain | apps/worker/src/processor.ts:256-359 | the link between tables, open transactions, mined transfers and chain holds over every run |
| ChainSafety.PaidExactlyOnce | contracts/src/SponsorVault.sol:139-148 | over every run with rollbacks, crashes, timeouts and late-mined transfers no address is paid twice, and each completed request or confirmed relay row has been paid exactly once with on-chain count 1 |
| TableSafety.CountsAreExact | apps/api/src/services/wallet.service.js:32-38 | every wallet's count is its completed requests plus its repeated registrations, in every reachable state |
| TableSafety.EffectsOnCompleted | apps/worker/src/processor.ts:296-299 | one call moves a wallet's count and its number of completed requests together |
| TableSafety.OnlySettledStoriesAreVisible | apps/worker/src/processor.ts:45-400 | from an installation without half-done rows no committed state shows an approved or relayed request or a queued or submitted relay row, and each request has at most one relay row |
| TableSafety.EndingsAreFinal | packages/shared/src/sponsorship-types.ts:40-64 | once rejected, completed or failed, a request and its relay rows never change again |
| TableSafety.CommitRevivesNothing | apps/worker/src/processor.ts:45-400 | a commit adds no request, and whatever stands or is in progress after it was so before |
| TableSafety.InsertKeepsAtMostOneExactly | apps/api/src/lib/sponsorship-validation.js:47-69 | an insert keeps one standing request per wallet if and only if the wallet is still eligible then; the index alone keeps one in progress |
| TableSafety.OneStandingExactly | apps/api/src/lib/sponsorship-validation.js:47-69 | over every run: a wallet never has two standing requests, at any point of the run, if and only if no insert found its wallet no longer eligible |
| TableSafety.OneRequestPerWallet | packages/shared/prisma/migrations/20260510060000_add_relay_fields_and_duplicate_index/migration.sql:7-9 | over every run at most one request of a wallet is in progress, and if every insert found the wallet eligible at most one is anything but failed or rejected |
| TableSafety.AtomicPostsAreNeverStale | apps/api/src/services/sponsorship.service.js:45-60 | over every run in which each insert directly follows its own two queries, no insert is for a wallet that is not eligible any more |
| TableSafety.AtomicPostsKeepOnePerWallet | apps/api/src/lib/sponsorship-validation.js:47-69 | so in such runs at most one request of a wallet is ever anything but failed or rejected |
| Attempts.AttemptsStayNumbered | apps/worker/src/lifecycle.ts:104-131 | over every run from well-numbered tables attempts stay 1..n with at most one active, and no request has more than min(maxRetries, 3) attempts or than it started with, whatever others started with |
| Records.CommitTellsTime | apps/worker/src/lifecycle.ts:36-80 | a commit keeps every row's timestamps in agreement with its status and order |
| Records.EveryRowTellsTime | apps/worker/src/lifecycle.ts:21-26 | over every run a request has exactly the terminal timestamp of its status, approval no later than completion, and relay rows the timestamps of theirs |
| Records.TimestampsAreFinal | apps/worker/src/lifecycle.ts:66-77 | over every run no committed timestamp of a request is overwritten, and a committed relay row never changes |
| Broadcasts.TransfersAreForTheirWallets | apps/worker/src/relay-executor.ts:79-116 | over every run whatever is broadcast, in time or late, asks for the amount of its attempt's worker to be paid to the address of its request's wallet |
| Broadcasts.CompletedWalletsHaveTheirEther | contracts/src/SponsorVault.sol:133-149 | over every run the wallet of a completed request, if not sponsored before and making no call itself, has more ether than at the start: at least all that the vault logged as paid to it |
| EndToEnd.SponsoredEndToEnd | apps/worker/src/processor.ts:256-312 | a run from empty tables: a wallet registers, posts, is paid by a mined transfer and completes with its relay row filled and counted once, one wei with it and out of the vault |
| Recovery.SecondTransferPaysNothing | contracts/src/SponsorVault.sol:139 | a transfer to a sponsored address, whenever mined, fails and leaves the world as it was |
| Recovery.LostCommitIsRecovered | apps/worker/src/processor.ts:314-359 | an attempt that meets decodable AlreadySponsored data, with any reason length, and commits, completes the request, confirms its row, counts the wallet once and leaves the recipient paid once |
| Recovery.StalePostsCanBothComplete | apps/api/src/services/sponsorship.service.js:45-60 | a concrete run in which two POSTs that passed their checks early end with two completed requests of one wallet, paid once |
| LateTransfers.VerdictsAreFinal | apps/worker/src/contract-client.ts:144-172 | over every run a mined transfer keeps its verdict and is never executed again |
| LateTransfers.RevertedTransferNeverPays | apps/worker/src/contract-client.ts:174-195 | an attempt answered with a revert receipt is never paid by its transfer, whatever follows |
| LateTransfers.MiningPaysExactly | contracts/src/SponsorVault.sol:133-149 | a broadcast transfer pays when mined exactly if the vault's checks pass then and the recipient can take ether |
| LateTransfers.LateExecutionExactly | apps/worker/src/relay-executor.ts:200-237 | for a committed attempt, or a request that has ended with all its attempts: a transfer of it is executed in some continuation exactly when one is broadcast and not mined yet, at whatever moment it was broadcast, or left to a running executor |
| LateTransfers.LatePaymentExactly | apps/worker/src/relay-executor.ts:104-237 | for the same: some continuation has one of its transfers paid if and only if one has paid already, or one that is broadcast and not mined, or left to a running executor, can be made payable |
| LateTransfers.PaymentAtCommitExactly | apps/worker/src/processor.ts:360-394 | the same seen from the commit of an attempt that reached the relay, for the one transfer it can make |
| LateTransfers.PaymentWasPayable | contracts/src/SponsorVault.sol:133-149 | whatever is paid later in a run, for any attempt of any request, could be made payable at its start |
| LateTransfers.UnpayableNeverPays | contracts/src/SponsorVault.sol:133-149 | a committed attempt or ended request with nothing paid and nothing outstanding that could be made payable is paid in no continuation |
| Payability.PayableExactly | contracts/src/SponsorVault.sol:133-173 | transactions of accounts can make the vault accept a transfer if and only if its recipient is not sponsored and can take ether, its amount is positive and within all ether but the registry's and address zero's, and operator and limit fit or the owner is an account |
| Payability.LostStaysLost | contracts/src/SponsorshipRegistry.sol:7-57 | over every call tree the registry's own balance never changes and what is at address zero never leaves it |
| LateTransfers.SettledForGood | apps/worker/src/processor.ts:360-394 | a committed attempt or ended request with nothing outstanding and nothing paid is paid by its own transfers in no continuation |
| FailedButPaid.FailedThenPaid | apps/worker/src/relay-executor.ts:159-175 | a run from a fresh installation whose only request is failed on the deadline and then paid by its own transfer |
| FailedButPaid.PaidThenFailed | apps/worker/src/contract-client.ts:144-148 | a run in which its own transfer pays while the receipt is awaited, and the request is then failed on the deadline |
| FailedButPaid.BroadcastBeforeTheCommit | apps/worker/src/relay-executor.ts:200-237 | a run in which the executor left behind at the deadline broadcasts before the commit, the request is failed, and the transfer is mined and pays after it |
| Registrations.FirstRegistrationLeaves | apps/api/src/services/wallet.service.js:19-25 | a first registration adds one wallet, with this address, not blocked, count 0 and seen now, and changes nothing else |
| Registrations.RepeatedRegistrationLeaves | apps/api/src/services/wallet.service.js:28-40 | a repeated one changes only that wallet's last-seen time and adds one to its count; a blocked wallet is left alone |
| Registrations.NewWalletCanPost | apps/api/src/services/sponsorship.service.js:45-60 | after a first registration the condition holds under which a POST creates a request |
| Registrations.RegisterAndPost | apps/api/src/services/wallet.service.js:12-41 | the two procedures one after another: whoever registers first gets a pending request created |
| Registrations.InsertLeaves | apps/api/src/services/sponsorship.service.js:45-60 | a new request is pending, made now, with nothing else set, and no other row changes |
| Registrations.WalletsStay | apps/api/src/services/wallet.service.js:12-41 | over every run no wallet's address or blocked flag changes, no count falls, and every new wallet is unblocked |
| Api.RegisterWallet | apps/api/src/services/wallet.service.js:12-41 | a new wallet unblocked and at zero, a known one seen now and counted once more, no other wallet touched, or refused because blocked; addresses stay unique |
| Api.ValidateNoPendingRequest | apps/api/src/lib/sponsorship-validation.js:47-69 | passes exactly eligible wallets, and names in-progress before completed |
| Api.CreateSponsorshipRequest | apps/api/src/services/sponsorship.service.js:45-60 | as one step: refuses for exactly the stated reasons, changes nothing then, and keeps one standing request per wallet |
| Api.CreateRelayTransaction | apps/api/src/services/relay.service.js:11-29 | numbers one past the highest attempt, which on well-numbered rows is one past their count |
| Drain.DiscoveredMeans | apps/worker/src/poller.ts:36-46 | the poll query finds exactly pending requests and relayed ones without a submitted or confirmed relay row |
| Drain.PassedOverIsUnchanged | apps/worker/src/poller.ts:36-46 | a request that it passes over would not be changed by any call, but for completing on a confirmed row |
| Drain.PollCycle | apps/worker/src/poller.ts:51-70 | the loop over a batch leaves the tables of its requests processed in order, up to the one before which the poller was stopped |
| Drain.ProcessFinishes | apps/worker/src/processor.ts:156-395 | whatever the chain answers, one call takes exactly its pending request off the backlog |
| Drain.CycleFinishes | apps/worker/src/poller.ts:36-70 | one cycle finishes exactly its batch |
| Drain.BacklogDrains | apps/worker/src/poller.ts:27-78 | after k cycles exactly max(0, n - k * batchSize) of n pending requests are left |
| Drain.EnoughCyclesFinishAll | apps/worker/src/poller.ts:27-78 | after ceil(n / batchSize) cycles every request is terminal |
| Drain.DispatchedInOrder | apps/worker/src/poller.ts:44-45 | across all cycles requests are dispatched once each, in the order of requestedAt |
| Poller.PollLoop.Start | apps/worker/src/poller.ts:96-104 | starts a cycle unless running |
| Poller.PollLoop.Stop | apps/worker/src/poller.ts:106-127 | cancels the timer, or leaves a pending promise exactly when a cycle is active |
| Poller.PollLoop.OnTimer | apps/worker/src/poller.ts:90-93 | the timer starts the next cycle |
| Poller.PollLoop.Dispatch | apps/worker/src/poller.ts:51-55 | hands over the next request, or ends the cycle when there is none or the poller was stopped |
| Poller.PollLoop.ScheduleNextCycle | apps/worker/src/poller.ts:80-94 | arms the timer, or resolves a pending stop |
| Poller.DispatchFollowsAnswers | apps/worker/src/poller.ts:51-70 | over every run requests are dispatched exactly as the queries answered them: each answer in its order from its first request on, each request once, and all of it before the next query unless the poller was stopped |
| Poller.EveryRunKeepsInv | apps/worker/src/poller.ts:21-130 | while running exactly one of timer armed and cycle active holds; a stop is pending exactly while the interrupted cycle is active; it is resolved at most once |
| Poller.TimerOnlyWhileRunning | apps/worker/src/poller.ts:28 | the early return of a cycle is never taken |
| Poller.NothingDispatchedAfterStop | apps/worker/src/poller.ts:52 | after a stop nothing more is dispatched, whatever follows |
| Poller.PendingStopResolves | apps/worker/src/poller.ts:80-88 | a pending stop always waits for an active cycle, and is resolved by exactly the event that ends it |
| RateLimit.FindFirst | apps/api/src/services/rate-limit.service.js:71-76 | some row with the key, on any table, or none if there is none |
| RateLimit.RateLimitService.CheckRateLimit | apps/api/src/services/rate-limit.service.js:70-102 | blocked, window over, full or allowed by a row of the key, with the delay each limiter names |
| RateLimit.RateLimitService.IncrementRequestCount | apps/api/src/services/rate-limit.service.js:112-167 | writes one row of its key where the query found it or appended, new, reset, counted or blocked, and no other row |
| RateLimit.RateLimitService.Admit | apps/api/src/server.js:59-68 | check, then count; a rejected request changes nothing; on a table with unique keys one row is written and keys stay unique |
| RateLimitTheorems.RowRefinesHistory | apps/api/src/services/rate-limit.service.js:70-167 | for requests of one identifier that do not overlap: over every run the single row stands for the whole history of accepted requests and decides as a limiter that keeps them all |
| RateLimitTheorems.AcceptedAreLawful | apps/api/src/services/rate-limit.service.js:70-167 | for requests of one identifier that do not overlap: each accepted request was permitted by those accepted before it |
| RateLimitTheorems.WindowsAreBounded | apps/api/src/services/rate-limit.service.js:176-275 | for requests of one identifier that do not overlap: each window accepts at most max, and successive windows open at least one length apart |
| SlidingWindow.StretchIsBounded | apps/api/src/services/rate-limit.service.js:84-101 | requests accepted within less than one window length of each other are at most the worst case |
| SlidingWindow.IntervalIsBounded | apps/api/src/services/rate-limit.service.js:90-101 | for requests of one identifier that do not overlap: any half-open interval one window long holds at most 2 * max - 1 accepted requests, at most 2 * max - 2 if a block lasts a window, and at most max if max is 1 or the window 1 ms |
| SlidingWindow.WorstCaseIsReached | apps/api/src/services/rate-limit.service.js:133-159 | for every configuration some run reaches that bound |
| SlidingWindow.SlidesExactly | docs/api/endpoints.md:702 | no interval of one window length ever holds more than max, over all runs, if and only if the window is at most 1 ms, or max is 1, or max is 2 and a block lasts at least a window |
| RateLimitTheorems.FullWindowBlocks | apps/api/src/services/rate-limit.service.js:150-159 | for requests of one identifier that do not overlap: after the request that fills a window nothing passes before both the window and its block are over |
| RateLimitTheorems.RefusalNames | apps/api/src/services/rate-limit.service.js:176-210 | for requests of one identifier that do not overlap: a refusal names the least whole seconds that outlast the running block; with the window full and no block running, those of a whole block to a wallet and none to a client address |
| RateLimitTheorems.DelayIsExact | apps/api/src/services/rate-limit.service.js:84-87 | asking again before a block's delay is over is refused; after it only a full window still refuses |
| ConcurrentLimiter.WriteKeepsFaithfulExactly | apps/api/src/services/rate-limit.service.js:112-167 | one count under any interleaving leaves all counted requests permitted and the key's one row standing for them if and only if it is fresh: its check passes on the row there now, and it counts from what is there now |
| ConcurrentLimiter.FaithfulExactlyWhenFresh | apps/api/src/server.js:59-68 | over every interleaving of any number of requests, the limiter is right at every point of the run if and only if every count was fresh |
| ConcurrentLimiter.FreshCountsAreBounded | apps/api/src/services/rate-limit.service.js:70-167 | so overlapping requests with fresh counts keep to max in each window, and to the worst case in any interval if their clocks follow the order of counting |
| ConcurrentLimiter.UndisturbedRunsAreFresh | apps/api/src/services/rate-limit.service.js:112-120 | if no request of the key is counted between another's check and count, every count is fresh |
| ConcurrentLimiter.UndisturbedRunsAreBounded | apps/api/src/services/rate-limit.service.js:70-167 | and then both bounds hold |
| ConcurrentLimiter.OverlapAdmitsAny | apps/api/src/services/rate-limit.service.js:122-131 | for every configuration and every n a run accepts n requests of one key at one moment and leaves n rows of it |
| SharedTable.EachLimiterStandsAlone | apps/api/src/services/rate-limit.service.js:70-167 | over every run of non-overlapping requests of any keys, keys stay unique and each limiter's row is what that key's requests alone would have left |
| ReplayProtection.ReplayGuard.PreHandler | apps/api/src/plugins/replay-protection.js:19-88 | a duplicate exactly if some row of the key is recent, and then nothing changes; otherwise one row of the key is stamped, and no other |
| ReplayProtection.AcceptedAreSpaced | apps/api/src/plugins/replay-protection.js:33-60 | for requests of one identifier that do not overlap: accepted requests of one key are at least 5000 ms apart, and the next passes exactly 5000 ms after the last accepted, so rejections extend nothing |
| ReplayProtection.RetryAfterIsExact | apps/api/src/plugins/replay-protection.js:46-59 | Retry-After is within 1..5 and is the least whole number of seconds after which the same request passes |
| ConcurrentReplay.StampKeepsFaithfulExactly | apps/api/src/plugins/replay-protection.js:62-87 | one write under any interleaving keeps accepted requests five seconds apart and the key's one row right if and only if the last accepted is still five seconds back and the key has a row exactly if one was found |
| ConcurrentReplay.FaithfulExactlyWhenFresh | apps/api/src/plugins/replay-protection.js:19-88 | over every interleaving the hook is right at every point of the run if and only if every write was so |
| ConcurrentReplay.UndisturbedRunsAreSpaced | apps/api/src/plugins/replay-protection.js:35-68 | over every run in which no request of the key is accepted between another's first query and its write, accepted requests are five seconds apart |
| ConcurrentReplay.TwinsBothPass | apps/api/src/plugins/replay-protection.js:35-86 | a run in which two requests of one key pass at one moment and leave two rows |
| SharedTable.ConfiguredLimitsHold | apps/api/src/services/rate-limit.service.js:70-275 | in the shared table client addresses are held to the limits configured for them and wallets to theirs |
| SharedTable.EachReplayKeyStandsAlone | apps/api/src/plugins/replay-protection.js:19-88 | over every run of non-overlapping requests of any keys, each replay row is what its key's requests alone would have left |
| History.ListingIsUnique | apps/api/src/services/wallet.service.js:109-116 | there is only one newest-first listing of a set of requests |
| History.PageTakesNewest | apps/api/src/services/wallet.service.js:108-129 | a page is the newest part of what lies beyond its cursor, has more exactly when something is left out, and names its last row as cursor |
| History.PageHolds | apps/api/src/services/wallet.service.js:74 | a page holds the limit asked for, at least 1 and at most 100, and fewer only when there are no more and no cursor |
| History.UnknownCursorStartsOver | apps/api/src/services/wallet.service.js:89-105 | a cursor that is no request's id gives the first page |
| History.ListingIsNewestFirst | apps/api/src/services/wallet.service.js:109-116 | the listing is every request of the wallet and nothing else, by falling time and, at one moment, by falling id |
| History.CursorIsLastPlace | apps/api/src/services/wallet.service.js:89-105 | a page's cursor leads, in any later table, exactly to what the page left out |
| History.WalkIsComplete | apps/api/src/services/wallet.service.js:70-130 | following the cursors lists every request present at the start exactly once, newest first, whatever is inserted between pages |
| History.QuietWalk | apps/api/src/services/wallet.service.js:74-129 | with no inserts the walk is exactly the listing, in max(1, ceil(n / pageSize)) pages |
| History.WalkIgnoresNewer | apps/api/src/services/wallet.service.js:89-129 | the same when the requests inserted between the pages are newer than those at the start |
| History.EveryWalkEnds | apps/api/src/services/wallet.service.js:118-127 | whatever is inserted, a walk that is not at its end has fetched fewer pages than the starting and inserted requests together fill |
| History.WalkPastNewerEnds | apps/api/src/services/wallet.service.js:118-127 | with inserts newer than the starting requests, fewer pages than the starting requests fill |

## Left out

- The web application, logging, security headers, CORS, correlation ids, error mapping, configuration, chain-id and key checks, Docker and scripts: they would add only single-branch or string checks.
- viem, Prisma, Fastify and PostgreSQL internals: the store commits atomically, locks rows, reads committed rows and enforces the partial unique index; the chain is the call machine with a mempool.
- Gas, account nonces, confirmation depth, reorganisations and event ABI decoding: outcomes of the chain are free within the truthful-node hypothesis. Block timestamps in the vault model's Granted event are left out; a decoded event is stored as the chain's answer gives it.
- Ether forced on a contract without a call, and calls with an unknown selector or with value to a function that takes none: the first is not modelled, the others only revert.
- The abort timer of the relay executor: the race is a free choice between its answer and the deadline; the executor left behind may broadcast later. Its listeners are not modelled.
- `blockIdentifier`, `updateSponsorshipStatus`, `updateRelayStatus`, `getPendingSponsorshipRequests`: no route or worker calls them. None calls the API's own `createRelayTransaction` either, so `Protocol` has no such step; `Api.CreateRelayTransaction` models it by itself.
- RateLimit.RateLimitService.Admit: one call from start to end; what other requests do between its awaits is `ConcurrentLimiter`'s. The same holds of ReplayProtection's hook and `ConcurrentReplay`.
- `getClientIp` and the joining of a composite key are parameters.
- SponsorVaultContract.SponsorshipRegistry.RecordSponsorship: the event's block timestamp is left out.
- SharedTable.EachLimiterStandsAlone: for keys that the deduplication hook does not use, and SharedTable's result on the hook for keys that no limiter uses; a composite key that equals a client address would share its row.
- Api.RegisterWallet: one atomic step; two first registrations of one address at the same time meet the unique column and are not modelled. Address normalisation is left out: addresses are numbers.
- Api.CreateSponsorshipRequest: the whole POST as one step; `Protocol` has its queries and insert as separate steps. The ipAddress and userAgent columns are not stored.
- History.PageTakesNewest: the query's sorted result is a function of the table, not a sorting procedure; the unknown-wallet error is left out, and ids are compared as numbers.
- Lifecycle.Store.UpdateRelayTransaction: the uniqueness of transaction hashes is left out.
- ContractClient.RecognisedExactly: lower-casing covers the ASCII letters, which decides all patterns that are looked for.
- Poller.PendingStopResolves: a second call of `stop` while one is pending resolves at once in the code and in the model; starting again during a pending stop is excluded.
- Wallets are not blocked or unblocked while the protocol runs: no route or worker writes `isBlocked`.
