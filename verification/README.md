# Wallet transfers: a verified model

This project models the money-moving core of the wallet service in Dafny and
proves what its comments and write-up promise of it: transfers (`Execute`),
reversals within a window (`ClaimBack`) and wallet get-or-create, running as
concurrent multi-statement PostgreSQL transactions over three tables.

`dafny verify dfyconfig.toml` checks everything.

## How it is built

1. **Ledger.** `Ledger` states each operation as one all-or-nothing function of
   the committed tables and of the time at which its transaction began, with
   Go's wrapping `int64` arithmetic (`Money`) and the schema's constraints.
   `Outcomes` says who is given which answer, and when, from the rows and
   balances alone. `History` folds such operations over empty tables.
   `LedgerLaws`, `Conservation`, `HoldLaws`, `HoldsWitness` and `Once` prove what
   every history keeps.
2. **Protocol.** `Protocol` is the running service: any number of requests, each
   executing its statements one at a time, with READ COMMITTED visibility, rows
   held by insertion or by FOR UPDATE until the transaction ends, and `now()`
   fixed when the transaction begins (sections 13.2.1, 13.3.2 and 9.9.5 of the
   PostgreSQL 16 documentation). A request may fail at any statement, and a
   commit may take effect without its acknowledgement arriving. `Interference`
   says what the others may do to the rows a request does not hold and not to
   those it holds; `LocalState`, `OwnStep`, `Serial` and `Steps` turn that into
   an invariant of every reachable state; `Progress`, `Guarantees`, `Replies`,
   `WalletAnswers`, `Solo`, `RefusedClaim` and `LockOrder` are what follows from
   it. The results of `Once` and `HoldLaws` about histories apply to the history
   of every reachable state (`Guarantees.Serialisable`), and those stated for the
   invariant `Inv` to every reachable state (`Steps.ReachableInv`).
3. **Code.** `Repository` and `TransferService` are the store, the transaction
   and the two service operations in the imperative form the Go code has: a
   store whose tables others keep changing before every statement, a
   transaction object with buffered writes, ids sorted in place, loops that
   insert and lock wallets and fill a map of balances. Whether a statement works,
   fails, or only loses its acknowledgement is an input of the store (`Fate`, one
   for each statement executed), and a call answers a storage failure exactly if
   its last statement did not work. Every statement is followed by a ghost request
   of `Protocol` (`Conform`), so the methods are proved to act as the one-step
   operations of `Ledger`.

User ids are natural numbers in place of UUIDs; all that is used of them is that
they are totally ordered. Time is counted in ticks. A transfer's random row id is
the number of the request that inserts it, which expresses that no two requests
draw the same UUID; in `Repository` it is a parameter that others do not draw.
The digest of a request body is taken to be injective, so a row stores the
encoded body itself. The users table and the configuration (`Config`) are fixed.

## What was found

* **The reversal is not unconditionally guaranteed.** The comment at
  internal/service/transfer.go:234-237 (and WRITEUP.md, "Claim-back") says a
  reversal can never fail for lack of funds because the balance covers the active
  holds at all times. A hold is evaluated at the clock of the transaction that
  spends, and `now()` is the time that transaction began, not the time it got its
  locks. It fails in two ways:
  * The recipient's spend begins after the window and commits while a claim that
    began inside the window still waits (`RefusedClaim.ClaimRefused`, a run
    statement by statement).
  * After such a late claim has succeeded, the hold of *another* row is no longer
    covered, and a claim of that row is refused although it arrives when nobody
    else is running, inside its window, and after every spend
    (`RefusedClaim.LaterClaimRefused`).

  So no clocks of a claim suffice: claims on rows created at `created`, begun at
  `claimed`, whose recipient's spends began by `limit`, are never short of funds
  if and only if `claimed >= created + window`, when there is nothing to refund
  any more (`HoldsWitness.GuaranteeIsExact`). A claim is *on time* if no committed
  spend of its recipient began after the claimed row's window. When the earlier
  claims against the same recipient were on time, the guarantee holds if and only
  if not `claimed < created + window <= limit`
  (`HoldsWitness.GuaranteeAfterOnTimeIsExact`), and `HoldLaws.HoldsCovered` proves
  the hold invariant of that recipient over whole runs, whatever happens to other
  wallets. A refused claim leaves no trace in any case
  (`Guarantees.RefusedLeavesNoTrace`), no balance is ever negative and the books
  still balance (`Guarantees.Reconciles`).
* **Locks are not always taken in ascending order**, as
  internal/service/transfer.go:52-54 has it: a transfer that inserts the higher
  wallet holds it while it waits for the lower one
  (`LockOrder.HigherFirstHappens`, a run). A transfer that begins may come to do so
  if and only if the higher wallet has not been committed yet
  (`LockOrder.HigherFirstExactly`); a claim never does (`LockOrder.ClaimsAscend`).
  There is still no deadlock (`Progress.NoDeadlock`): an uncommitted insert is
  invisible, so a lock waits only for a lock, and each of the two phases ascends.
* **Get-or-create is not one atomic operation.** The balance it answers is read
  by a third statement: `WalletAnswers.CreatedWithMore` is a run in which `created`
  is true and the balance is more than the seed, an answer that the whole
  operation gives on no tables. The answer is one operation's if and only if the
  wallet existed when the request looked for it, or did not exist when its insert
  resolved and what was committed from then until the balance was read added
  nothing to it on balance (`WalletAnswers.AtOnceExactly`).

## Model

| member | source | states |
|---|---|---|
| `Money.WrapIsNegative` | internal/service/transfer.go:154 | a sum of two balances or amounts that wraps in `int64` is negative, so the CHECK constraint catches exactly the wrapped sums |
| `Money.SubIsExact` | internal/service/transfer.go:128 | debits never wrap |
| `Body.EncodeInjective` | internal/service/transfer.go:338-341 | equal `name\|decimal` texts come from equal names and amounts, whatever characters the name holds |
| `Ledger.IdIndex` | internal/repository/transfers.go:11-13 | the lookup by primary key finds the first row with that id, or reports that there is none |
| `Ledger.KeyIndex` | internal/repository/transfers.go:15-18 | the lookup by (sender, key) finds the row that claimed the key, or reports that there is none |
| `Ledger.Validate` | internal/service/transfer.go:56-75 | validation passes exactly the requests with a positive amount, a key of 1 to 128 characters and a known recipient other than the sender, and refuses the others for the first of these that fails |
| `LedgerLaws.ExecuteSound` | internal/service/transfer.go:80-160 | a transfer, applied, refused or replayed, keeps unique ids and keys, existing parties, and every balance equal to seed plus received minus paid and not negative |
| `LedgerLaws.MoveApplied` | internal/service/transfer.go:128-158 | an applied transfer debits and credits exactly the amount, on a fresh key, within the sender's unheld funds, with no wrap-around, and answers the debited balance |
| `LedgerLaws.ClaimSound` | internal/service/transfer.go:259-290 | a claim keeps the same invariant, and never finds a wallet missing |
| `LedgerLaws.ReverseApplied` | internal/service/transfer.go:272-288 | an applied reversal moves exactly the amount back, with no wrap-around, and flips exactly that row |
| `LedgerLaws.OpenSound` | internal/repository/wallets.go:25-36 | opening a wallet keeps the invariant: its seed is its whole history |
| `LedgerLaws.KeyIffApplied` | internal/service/transfer.go:47-54 | an attempt changes the tables if and only if it is a first success, and leaves its key present if and only if it succeeded, now or before, or conflicted |
| `LedgerLaws.ClaimedKeyAnswer` | internal/service/transfer.go:186-205 | on a claimed key the answer is replay or conflict, whatever the funds; conflict exactly when recipient or amount differs |
| `LedgerLaws.AvailableIsSpendable` | internal/service/transfer.go:116-149 | a fresh transfer is refused for funds exactly when its amount exceeds what is available at the same clock: the figure of the balance query or, for a sender without a wallet, the seed |
| `LedgerLaws.HeldShrinks` | internal/repository/tx.go:80-92 | holds only shrink, so available only grows, as the clock advances |
| `LedgerLaws.TransferEffect` | internal/service/transfer.go:151-156 | at its own clock a transfer lowers the sender's available by the amount and nobody else's changes, the recipient's included |
| `LedgerLaws.ClaimEffect` | internal/service/transfer.go:240-286 | at its own clock a claim raises the sender's available by the amount and nobody else's changes: returned money carries no hold |
| `Outcomes.InvalidOutcome` | internal/service/transfer.go:56-75 | an invalid transfer changes nothing and is refused for the first thing wrong with it |
| `Outcomes.ClaimedOutcome` | internal/service/transfer.go:186-205 | any row with the sender and key decides: replay with its id and balance for the same recipient and amount, conflict otherwise |
| `Outcomes.FreshOutcome` | internal/service/transfer.go:86-160 | on a fresh key, with the wallets open or not: short of funds exactly when the amount exceeds what is available, refused by the CHECK constraint exactly when the credit overflows, and otherwise applied with the debited balance |
| `Outcomes.AppliedTables` | internal/service/transfer.go:128-156 | an applied transfer leaves exactly the two new balances and one more row, with all its columns |
| `Outcomes.TransferOutcomes` | internal/service/transfer.go:47-54 | each answer to a valid transfer, exactly when it is given |
| `Outcomes.StrangerOutcome` | internal/service/transfer.go:243-252 | whoever is not the sender of a row with that id is told that there is none, and nothing changes |
| `Outcomes.OwnerOutcome` | internal/service/transfer.go:254-322 | the sender is answered with the stored outcome of a reversed row, else that the window has expired, else by the two balances |
| `Outcomes.ReturnedTables` | internal/service/transfer.go:272-288 | an applied claim leaves exactly the two new balances and the one row reversed, with its time and balance |
| `Outcomes.ClaimOutcomes` | internal/service/transfer.go:242-322 | each answer to a claim, exactly when it is given |
| `Outcomes.BalanceOutcome` | internal/repository/wallets.go:47-60 | the balance query knows exactly the users with a wallet, and reports seed plus received minus paid, and that less the holds |
| `Outcomes.NeverStorageFailure` | internal/service/transfer.go:55-182 | no operation as such answers a storage failure |
| `Conservation.Conserved` | WRITEUP.md:41 | the sum of all balances is the number of wallets times the seed |
| `Conservation.TransferNeverWraps` | internal/service/transfer.go:154-156 | if all seeds together fit in 64 bits, the CHECK constraint never refuses a transfer |
| `Conservation.ReversalRefusedOnlyForFunds` | internal/service/transfer.go:272-286 | then it refuses a reversal exactly when the recipient no longer has the amount |
| `History.ReplaySound` | internal/service/transfer.go:49-51 | the books balance after every history of operations, with no assumption on the clocks |
| `HoldLaws.HoldsCovered` | internal/service/transfer.go:116-119 | in every history whose claims against a user are on time, that user's balance covers its holds at any clock not before the wallet's latest spend, whatever other wallets do |
| `HoldLaws.RecipientStillHas` | internal/service/transfer.go:234-237 | a claimable row's amount is still in the recipient's balance, when the claim and the earlier claims against that recipient are on time |
| `HoldLaws.ReversalGuaranteed` | internal/service/transfer.go:231-241 | then the reversal of a claimable row succeeds |
| `HoldLaws.InOrderIsOnTime` | internal/repository/tx.go:94-98 | if every claim against a user begins no earlier than the committed spends of that user, all of them are on time |
| `HoldLaws.AvailableNonNegative` | internal/repository/wallets.go:44-60 | when the claims against a user are on time, what is available to it is not negative from its last spend on |
| `HoldsWitness.SpentRefuses` | internal/service/transfer.go:281 | a history without other claims after which a claim inside its window is refused by the CHECK constraint, because the recipient's spend began after the window and committed first |
| `HoldsWitness.LateClaimRefuses` | internal/service/transfer.go:281 | for every claim inside its window, a history whose spends all began before the row was created, after which it is refused by the CHECK constraint, because an earlier late claim took the money |
| `HoldsWitness.GuaranteeIsExact` | internal/service/transfer.go:234-237 | claims with given clocks are never refused for lack of funds if and only if they begin after the window: inside it, no clocks of creation, claim and spends suffice |
| `HoldsWitness.GuaranteeAfterOnTimeIsExact` | internal/service/transfer.go:234-237 | when the earlier claims against the same recipient were on time, the guarantee holds if and only if the window does not close after the claim began but by the time a committed spend began |
| `Once.KeyPaysOnce` | internal/repository/tx.go:51-72 | no two applied transfers of a history share a sender and a key |
| `Once.RetryAnswer` | internal/service/transfer.go:125-127 | whatever was committed since, every attempt on the key changes nothing and is answered with the original id and balance, or with a conflict if the body differs |
| `Once.ReversesOnce` | internal/repository/tx.go:94-117 | no two applied reversals of a history are of the same transfer |
| `Once.ReclaimAnswer` | internal/service/transfer.go:324-336 | whatever was committed since, every further claim changes nothing and is answered with the original time and balance |
| `Once.CreatedOnce` | internal/repository/wallets.go:10-16 | each wallet is created and seeded by at most one operation |
| `Interference.ApplyRely` | internal/repository/tx.go:40-42 | a committed operation changes nothing about users other than its own parties |
| `Interference.HeldKept` | internal/repository/tx.go:77-78 | the hold sum read under the wallet's row lock cannot be invalidated by others |
| `Interference.KeyStaysFree` | internal/repository/tx.go:51-54 | a free key of a sender whose wallet is locked stays free |
| `LocalState.LocalStable` | internal/service/transfer.go:107-130 | nothing the other requests may do makes stale what a request has read, at any of its statements |
| `OwnStep.CommitIsApply` | internal/repository/store.go:34-48 | a commit installs exactly what the whole operation does to the tables at that moment, and answers the same |
| `OwnStep.OwnStepAnswers` | internal/service/transfer.go:162-181 | every answer of a transfer or claim is the whole operation's at that moment, and a first success exactly if the statement committed |
| `Steps.StepInv` | internal/repository/store.go:34-48 | every statement, failure, lost acknowledgement, arrival and tick keeps the system invariant |
| `Steps.ReachableInv` | internal/repository/store.go:31-48 | the system invariant holds in every reachable state |
| `Steps.TakesFreeRows` | internal/repository/tx.go:40-49 | a request makes a wallet row its own only when no other request holds it |
| `Guarantees.Serialisable` | internal/service/transfer.go:47-54 | in every interleaving the tables are those of the committed operations applied one at a time in commit order at their own clocks, and every answer to a transfer or a claim is its operation's at one moment between arrival and answer |
| `Guarantees.RefusedLeavesNoTrace` | internal/service/transfer.go:144-149 | a refused transfer or claim committed nothing |
| `Guarantees.Reconciles` | WRITEUP.md:41 | in every reachable state money is conserved and every balance accounts for its rows |
| `Guarantees.RetriesAgree` | internal/service/transfer.go:184-205 | all success answers for one sender and key carry the same id and balance and were given for the same request |
| `Guarantees.KeyMovesMoneyOnce` | internal/repository/tx.go:51-54 | over all attempts on one key, with failures and lost acknowledgements, money moves at most once, and exactly one row records it |
| `Guarantees.OneFirstSuccess` | internal/repository/tx.go:51-54 | at most one of those attempts is told that it moved the money |
| `Guarantees.ClaimedKeyNeverShort` | internal/service/transfer.go:125-127 | an attempt answered after its key was claimed is never told of a lack of funds |
| `Guarantees.ClaimsAgree` | internal/service/transfer.go:308-336 | all success answers to claims of one transfer carry the same time and balance |
| `Guarantees.ReversalAppliesOnce` | internal/repository/tx.go:94-98 | at most one claim of a transfer is told it applied the reversal |
| `Guarantees.ExpiredIsExpired` | internal/service/transfer.go:308-322 | "window expired" is answered only if the window had passed at the claim's own clock |
| `Replies.InvalidAnswered` | internal/service/transfer.go:56-75 | an invalid transfer is answered on arrival, for the first thing wrong with it |
| `Replies.TransferAnswered` | internal/service/transfer.go:55-182 | in every reachable state the answer to a valid transfer is the one that the rows and funds at its moment call for, each exactly when |
| `Replies.ClaimAnswered` | internal/service/transfer.go:242-322 | the same for claims: not found, replayed, expired, refused, applied |
| `Replies.StrangersLearnNothing` | internal/service/transfer.go:247-252 | a claim by anyone but the row's sender is answered not found, whatever state the row is in |
| `Replies.AnsweredSinceArrival` | internal/service/transfer.go:47-54 | a transfer or claim is answered as the whole operation on tables that hold everything committed before it arrived |
| `Replies.RunNeverFails` | internal/service/transfer.go:162-181 | a statement that is executed never settles its request with a storage failure |
| `Replies.OnlyFaultsFail` | internal/service/transfer.go:162-181 | a request ends in a storage failure only by failing or by losing the acknowledgement of its commit |
| `Replies.Faults` | internal/repository/store.go:34-48 | wherever a statement could be executed the request may fail, with no effect; and where it would commit, the commit may happen and the request be told of a failure |
| `Replies.RetryAfterLostAck` | internal/service/transfer.go:184-205 | after a commit whose acknowledgement was lost, the retry is given the id and balance of that transfer, and no more money moves |
| `Guarantees.StaleReadHarmless` | internal/service/transfer.go:243-273 | when a claim commits, what it read before its transaction is what the row holds, and its balances are current |
| `Guarantees.NeverMissingWallet` | internal/repository/tx.go:43-49 | locking never reports a missing wallet |
| `Guarantees.NeverDuplicateId` | migrations/0001_init.up.sql:16 | rows are numbered consistently: under the assumption that drawn ids are distinct, which the numbering of rows by requests expresses, no insert meets a row of its own number |
| `Guarantees.ClaimNeverShort` | internal/service/transfer.go:234-237 | in the running service a claim that is on time, after on-time claims against the same recipient, is never refused by the CHECK constraint |
| `Guarantees.HoldsAreCovered` | internal/service/transfer.go:116-119 | in every reachable state, a balance covers its holds from the wallet's last spend on, if the claims against that wallet were on time |
| `Guarantees.TransferNeverOverflows` | internal/service/transfer.go:154 | if all seeds fit in 64 bits, the running service never refuses a transfer by the CHECK constraint |
| `Guarantees.RaceLostExactly` | internal/repository/wallets.go:30-36 | the race-lost flag is raised exactly when the wallet was absent when looked for and another request's creation committed before the insert resolved |
| `Guarantees.CreatedExactly` | internal/repository/wallets.go:25-35 | the created flag is raised exactly when the wallet was absent when looked for and the request's own insert created it; one of the two flags exactly when it was absent |
| `Guarantees.AccountBalance` | internal/repository/wallets.go:38-41 | the balance answered is the wallet's at a moment after the insert resolved |
| `WalletAnswers.BalanceChanges` | internal/service/transfer.go:151-156 | between two moments a balance changes by exactly what the operations committed between them move to and from its user |
| `WalletAnswers.CreatedBalance` | internal/repository/wallets.go:38-41 | a wallet just created is answered with the seed and whatever has been moved to and from it since |
| `WalletAnswers.AtOnceByAnswer` | internal/repository/wallets.go:11-17 | a wallet request is answered as one operation at some moment of the call if and only if it lost no race and, if it created the wallet, answers the seed |
| `WalletAnswers.AtOnceExactly` | internal/repository/wallets.go:11-17 | that is so if and only if the wallet existed when looked for, or did not exist when the insert resolved and nothing was moved to or from it, on balance, until it was read |
| `WalletAnswers.CreatedWithMore` | internal/repository/wallets.go:33-41 | a reachable state in which a request that created a wallet has been answered with more than the seed |
| `Guarantees.WaitingIsRely` | internal/repository/tx.go:40-42 | however long a request waits between statements, what the others commit respects the rows it holds |
| `Progress.NoWaitAfterLocks` | internal/service/transfer.go:107-156 | once both wallets are locked a transaction never waits again, for a key, a row or a balance |
| `Progress.LockWaitsForLock` | internal/repository/tx.go:26-49 | a lock waits only for a lock, because an uncommitted insert is invisible |
| `LockOrder.HoldsHigherWaitsForLower` | internal/service/transfer.go:86-114 | while another request has locked the lower wallet and the higher does not exist, a transfer between them comes to hold the higher and wait for the lower |
| `LockOrder.HigherFirstHappens` | internal/service/transfer.go:52-54 | a run from the start to a state in which a transfer holds the higher wallet and waits for another that has locked the lower |
| `LockOrder.HigherFirstExactly` | internal/service/transfer.go:52-54 | from where a transfer begins, some continuation has it hold the higher wallet before the lower if and only if the higher wallet is not committed there |
| `LockOrder.ClaimsAscend` | internal/service/transfer.go:259-270 | a claim never holds the higher wallet before the lower |
| `Progress.NoDeadlock` | internal/service/transfer.go:52-54 | no chain of waiting requests comes back to where it started |
| `Progress.SomeoneCanStep` | internal/service/transfer.go:52-54 | while a request is unfinished, some request can execute its next statement |
| `Progress.StepShortens` | internal/service/transfer.go:80-160 | every statement leaves less work |
| `Progress.BurstFinishes` | internal/service/transfer.go:52-54 | all requests present can be brought to an answer within the remaining work |
| `Progress.BurstIsFinite` | internal/service/transfer.go:80-160 | however they are scheduled and whatever fails, they execute no more than that |
| `Solo.RunsAlone` | internal/service/transfer.go:55-182 | a request that runs while no other holds a row is answered, as its whole operation |
| `Replies.OpenRunsAlone` | internal/repository/wallets.go:17-42 | a wallet request that runs alone is answered with the account, with exact balance and flags; from its first statement, as the whole operation |
| `Solo.ArrivesNow` | internal/service/transfer.go:55 | a request that arrives counts exactly the commits that have happened |
| `Solo.LeadsKeeps` | internal/repository/store.go:31-48 | whatever happens next, commits and wallets stay, and a request keeps its job and its moment of arrival |
| `RefusedClaim.ClaimRefused` | internal/service/transfer.go:259-290 | for every order of clocks excluded by `GuaranteeAfterOnTimeIsExact`, a reachable state in which the first claim there ever was has been refused inside its window |
| `RefusedClaim.LaterClaimRefused` | internal/service/transfer.go:259-290 | a reachable state in which every request has been answered, and from which a claim that arrives and runs alone inside its window, on time and after every spend, is refused |
| `Repository.Store.GetOrCreateWallet` | internal/repository/wallets.go:17-42 | it fails exactly if its last statement did; otherwise two or three statements were executed, the flags say exactly whether the wallet was absent when looked for and when the insert resolved, and the wallet exists with the answered balance |
| `Repository.Store.GetWalletBalances` | internal/repository/wallets.go:47-60 | one snapshot: unknown exactly without a wallet, else the wallet's balance, and that less the holds; it fails exactly if its statement did |
| `Repository.Store.GetTransferByID` | internal/repository/transfers.go:11-13 | the committed row with that id, not found exactly if there is none; it fails exactly if its statement did |
| `Repository.Store.GetTransferBySenderKey` | internal/repository/transfers.go:15-18 | the committed row with that sender and key, not found exactly if there is none; it fails exactly if its statement did |
| `Repository.Store.GetUserByUsername` | internal/repository/users.go:24-31 | the user of that name, not found exactly if there is none |
| `Repository.Store.BeginTx` | internal/repository/store.go:34-38 | a transaction with nothing in it |
| `Repository.Store.Others` | internal/repository/tx.go:40-42 | before a statement others commit any operations that leave alone the rows the transaction holds |
| `Repository.Tx.WalletExists` | internal/repository/tx.go:18-24 | sees committed wallets and the transaction's own |
| `Repository.Tx.InsertWallet` | internal/repository/tx.go:28-38 | inserts the seed unless the wallet exists, and says which |
| `Repository.Tx.LockWallet` | internal/repository/tx.go:43-49 | answers the current balance and holds the row, or reports that there is none |
| `Repository.Tx.SumActiveHolds` | internal/repository/tx.go:82-92 | the holds at the transaction's clock |
| `Repository.Tx.InsertTransfer` | internal/repository/tx.go:55-72 | buffers the row unless the key is claimed, and says which |
| `Repository.Tx.MarkReversed` | internal/repository/tx.go:99-117 | buffers the reversal exactly if the row is completed and in its window |
| `Repository.Tx.UpdateWalletBalance` | internal/repository/tx.go:119-125 | buffers the balance if the wallet has a row, unless the CHECK constraint refuses it; without a row it changes nothing and reports success |
| `Repository.Tx.Commit` | internal/repository/store.go:44-47 | the writes are installed unless the commit fails, and acknowledged exactly if it works |
| `TransferService.SortIds` | internal/service/transfer.go:83-84 | the two ids, in ascending order |
| `TransferService.OpenWallets` | internal/service/transfer.go:86-105 | follows the protocol through get-or-create of both wallets |
| `TransferService.LockWallets` | internal/service/transfer.go:107-114 | follows the protocol through both locks, returning the balances it saw |
| `TransferService.PostTransfer` | internal/service/transfer.go:116-160 | follows the protocol to the commit, or errs with a claimed key, with the whole operation's refusal or, exactly if a statement did not work, with a storage failure |
| `TransferService.ResolveExistingKey` | internal/service/transfer.go:186-205 | answers as the whole operation on the tables of its own read, if that read works, and otherwise that it failed |
| `TransferService.Execute` | internal/service/transfer.go:55-182 | if its last statement worked, acts as the one-step transfer on the tables at one moment of the call; otherwise answers a storage failure, with nothing changed unless only the acknowledgement of the commit was lost |
| `TransferService.ReverseUnderLocks` | internal/service/transfer.go:272-290 | follows the protocol of a claim to the commit, or errs with an unapplied reversal or the whole operation's refusal |
| `TransferService.ResolveUnappliedClaim` | internal/service/transfer.go:311-322 | answers as the whole operation on the tables of its own read, if that read works, and otherwise that it failed |
| `TransferService.ClaimBack` | internal/service/transfer.go:242-306 | if its last statement worked, acts as the one-step claim on the tables at one moment of the call; otherwise answers a storage failure, with nothing changed unless only the acknowledgement of the commit was lost |
| `TransferService.FailsByStatement` | internal/service/transfer.go:162-181 | such a call answers a storage failure exactly if its last statement did not work |

## Left out

- HTTP, JSON, routing, middleware and the mapping of errors to status codes: plumbing with one branch per case.
- Signup, login, tokens and password hashing: the caller's id is a given parameter.
- GetByID of a transfer: one read and one comparison.
- SHA-256: the digest is taken to be injective; the encoding before it is proved injective.
- Characters and bytes: strings are sequences of characters, and the 128 limit on keys counts them.
- Metrics and logging, except that the race-lost flag of the wallet request is modelled; the same flag of a transfer's own inserts only feeds a counter.
- The `int64` scan of the hold sum: the sum is an unbounded integer here. Under the hold invariant it is at most a balance, so it fits.
- Rounding of the window by `make_interval`: time and window are whole ticks.
- Request deadlines, pooling, migrations, health checks and configuration parsing, except that the seed is not negative and the window is positive.
- PostgreSQL's row versions and the share locks its foreign keys take on users, which are never updated.
- UNIQUE and primary-key violations of user rows: the users table is fixed.
- Repository.Store.Others: a transaction's waiting is modelled as other operations committing whole before its statement; that real interleavings do no more is `Guarantees.WaitingIsRely`.
- Guarantees.NeverDuplicateId: that randomly drawn row ids are distinct is assumed, not proved.
- TransferService.Execute: the row id is required to be unused, because it is drawn at random.
