# Midaz ledger core: a Dafny model

Midaz is a double-entry ledger. A transaction sends a value from sources to destinations; it is
posted directly, or held first and committed or canceled later. This project models the code that
decides what such a transaction does to the balances it names, and proves what every run of it keeps.
Around that core it models the overdraft arithmetic, the retry engine of the queue consumers, ledger
settings as patches, the route cache, the document patch builder and the search escaper.

`dafny verify dfyconfig.toml` checks everything.

| file | what it holds |
|---|---|
| `Types.dfy`, `Sums.dfy` | the entities; finite sums over maps |
| `Aliases.dfy` | `index#alias#key` composite keys and their in-place rewriting |
| `Engine.dfy` | one operation on one balance, double-entry split, route-validation propagation |
| `Resolver.dfy`, `Shares.dfy` | amounts, shares and remainders of one side; what a share is worth |
| `Validation.dfy`, `Responses.dfy` | acceptance of both sides; what an accepted validation hands on |
| `Reresolution.dfy` | what resolving leaves in the entries, and what resolving them again then yields |
| `Ledger.dfy` | the state machine: rows, pending transactions, create / commit / cancel |
| `LedgerEffects.dfy`, `RowView.dfy` | a posted transaction as a displacement of each row; the ledger seen from one row |
| `LedgerRuns.dfy`, `Conservation.dfy` | laws of whole runs |
| `Versions.dfy` | the version of a row as a count of operations |
| `Witnesses.dfy` | concrete transactions on which laws fail that do not hold everywhere |
| `Overdraft.dfy` | overdraft splits, refunds, the companion balance, the published position |
| `Retry.dfy`, `RetryRuns.dfy` | retry headers and the failure protocol against a lossy broker; how a failing message ends |
| `Settings.dfy`, `RouteCache.dfy`, `Patch.dfy`, `LikeEscape.dfy` | the supporting cores |

## How the ledger is modelled

A row is a balance keyed by `alias#key`. A posting validates the entries of a transaction, propagates
route validation to the sources when the ledger asks for it, and applies every leg. `routed` is the
ledger's `validateRoutes` setting; it is read afresh at each step, so a hold and its commit may run
under different settings, and the theorems cover every mix. Operations are drawn from the map in any
order: they commute, so neither the map order nor the later sort by key matters.

Resolving writes the remainder of a side back into its `remaining` entries
(pkg/mtransaction/validations.go:498), and the handlers resolve the same entries several times. The
steps of the model do what they do. Creating a transaction validates the input under its raw aliases
(components/ledger/internal/adapters/http/in/transaction_create.go:1135), turns them into composite keys
(same file, lines 1220-1221), validates again what the first validation left in the entries (line 1227),
and posts that second result. A hold is stored with its entries as the second validation left them
(components/ledger/internal/services/command/create_balance_transaction_operations_async.go:231-232),
and commit and cancel resolve the stored entries once more
(components/ledger/internal/adapters/http/in/transaction_state_handlers.go:352-384). The model is of the
path on which the fee engine changes nothing.

The proof of the run laws has three layers. Every operation is a translation of Available and OnHold
(`Engine.dfy`). So a posting moves each row by a table entry that depends on the status, the setting,
the row's direction and the two sums the entries resolve to on that row, and acceptance depends on the
raw entries and the existing rows alone (`LedgerEffects.dfy`). So the whole run, seen from one row, is a
run of a small machine over money and claims (`RowView.dfy`, `LedgerRuns.RunIs`), on which the laws are
inductions. A creation claims what its raw entries resolve to and posts what they resolve to the second
time.

## What turned out false, and when it holds

- Resolved a second time, a `remaining` entry is first counted as the amount written back and then given
  what is left, so a positive remainder becomes zero; resolved a third time it is whole again
  (`SecondRowTotal`, `ThirdRowTotal`). Input that balances is accepted by the second validation exactly
  when no side shares a positive remainder between two entries and no index is ambiguous
  (`SecondAccepted`). So creation posts too little on the row of the `remaining` entry
  and commit takes too much: on rows that are not debit-direction the OnHold law, hold-then-commit and
  hold-then-cancel hold if and only if no positive remainder is involved (`OnHoldInvariant`,
  `LifecycleLawsIff`), and a direct creation keeps the sum over all rows if and only if both sides have
  the same positive remainder (`StepConserves`). With sources 30 and the rest of 100, hold and commit
  lower OnHold by 70 and a direct creation debits 30 and credits 100 (`RemainderGoesNegative`,
  `RemainderIsCreated`).
- The first validation of a creation sees raw aliases, while the ambiguity loops look for composite keys:
  it never finds an ambiguity (`RawAcceptedIff`), only the second does (`AmbiguityFoundLate`).
- In `OperateBalances`, DEBIT and CREDIT ignore the status on a debit-direction row
  (pkg/mtransaction/validations.go:211-220), so both lifecycle laws fail there in general. `DebitRowCommit`
  and `DebitRowCancel` give the exact conditions, `StepPosition` the exact amount by which each step
  misses conservation, and `DebitSourceFails`, `DebitDestinationFails` and `DebitSourceLeaks` instances.
  This is about the Go functions. The balance script treats a debit-direction source differently: it adds
  to Available on a legacy ON_HOLD and takes a committed DEBIT from OnHold
  (components/ledger/internal/adapters/redis/transaction/scripts/balance_atomic_operation.lua:404-410 and
  438-440), which is not part of this model.
- Splitting undoes concatenating exactly for aliases without `#` (`SplitUndoesConcat`), and a leg that
  already carries another leg's index collides with it (`StaleIndexCollides`).
- The comment on the overdraft split promises that neither half is negative; that holds exactly when
  both arguments are non-negative (`SplitHalves`).
- Applying two settings patches in turn equals applying their merge exactly when no group is wiped by
  the first and only partly refilled by the second (`MergeAssociativeIff`; `WipeHappens` shows one).
- The patch builder filters `$set` by the field names as given but writes `$unset` under their
  snake-cased form. The sections lie on one path exactly when a rewritten name does with a leaf that no
  given name removes (`ClashIff`, with an instance in `ClashHappens`).
- The comment on `computePosition` says a malformed limit is read as zero as in `ToTransactionBalance`;
  that function fails instead. The model follows the code, and validated settings never get there
  (`ValidatedConverts`).

## Model

| member | source | states |
|---|---|---|
| `LedgerRuns.OnHoldExact` | pkg/mtransaction/validations.go:179-411 | In every state reachable from any rows by any interleaving of direct, hold, commit and cancel steps, legacy or routed, on rows of every direction: OnHold is exactly its initial value, plus the source amounts of the transactions pending on it, less the positive remainders of the holds accepted on it, plus the claims that unrouted commits left on hold on a debit-direction row. |
| `LedgerRuns.OnHoldInvariant` | pkg/mtransaction/validations.go:179-411 | On a row that is not debit-direction, OnHold is its initial value plus the source amounts pending on it if and only if no hold accepted along the run had a positive remainder there. |
| `LedgerRuns.OnHoldInvariantAnyDirection` | pkg/mtransaction/validations.go:211-220 | On a row of any direction, with non-negative claims and no such hold, the same law holds if and only if no unrouted commit closed a transaction with a source claim on that debit-direction row. |
| `LedgerRuns.OnHoldNonNegative` | pkg/mtransaction/validations.go:179-411 | When held transactions have non-negative explicit contributions that sum to at most the send value and no hold has a positive remainder on the row, its OnHold never becomes negative. |
| `LedgerRuns.HoldCommitIsDirect` | pkg/mtransaction/validations.go:224-294 | For n:n transactions as the handlers run them, around any steps of other transactions and under any mix of settings: hold then commit leaves a row that is not debit-direction with the money and claims of the direct transaction if and only if neither side has a positive remainder on it. |
| `LedgerRuns.HoldCancelRestores` | pkg/mtransaction/validations.go:224-294 | Hold then cancel leaves such a row as if the transaction had never been created if and only if its sources have no positive remainder on it. |
| `LedgerRuns.LifecycleLawsIff` | components/ledger/internal/adapters/http/in/transaction_create.go:1135-1249 | Over all rows of a ledger without debit-direction rows: hold-then-commit equals direct if and only if no side has a positive remainder, hold-then-cancel restores if and only if the sources have none. |
| `LedgerRuns.DirectMeetsClaim` | components/ledger/internal/adapters/http/in/transaction_create.go:1227-1253 | A direct creation moves a row by what its raw entries claim if and only if both sides miss the same there. |
| `LedgerRuns.CommitLeaves` | components/ledger/internal/adapters/http/in/transaction_state_handlers.go:352-408 | After hold and commit a row that is not debit-direction has an OnHold short by exactly its positive remainder. |
| `LedgerRuns.DebitRowCommit` | pkg/mtransaction/validations.go:211-220 | On a debit-direction row, the exact condition on what is posted, what is claimed and the two settings under which hold-then-commit matches the direct transaction. |
| `LedgerRuns.DebitRowCancel` | pkg/mtransaction/validations.go:211-220 | On a debit-direction row, the exact condition under which hold-then-cancel restores it. |
| `LedgerRuns.DebitRowCommitPlain` | pkg/mtransaction/validations.go:211-335 | On a debit-direction row without a positive remainder or negative claims, hold-then-commit equals direct if and only if nothing arrives there and both steps are routed or nothing is taken. |
| `LedgerRuns.DebitRowCancelPlain` | pkg/mtransaction/validations.go:211-335 | On such a row hold-then-cancel under one setting restores it if and only if nothing arrives there; the exact conditions under two settings as well. |
| `LedgerRuns.LifecycleIs` | components/ledger/internal/adapters/http/in/transaction_state_handlers.go:352-408 | A hold, any steps of other transactions, and its commit or cancel move each row by what the hold posts and then by what the stored entries claim, on top of the other steps. |
| `LedgerRuns.CloseIs` | components/ledger/internal/adapters/http/in/transaction_state_handlers.go:365-408 | Closing a transaction succeeds if and only if it is pending, whatever happened in between, and moves each row by the table entry for what its stored entries resolve to; otherwise it is reported as not pending. |
| `LedgerRuns.CreateOutcome` | components/ledger/internal/adapters/http/in/transaction_create.go:1075-1236 | Which error a creation reports, or none, from the raw input and the existing rows: bad input, value not positive, not balanced, ambiguous, a shared positive remainder, a missing row, in this order. |
| `LedgerRuns.RunIs` | pkg/mtransaction/validations.go:179-411 | The final state of any run, seen from any row, is the run of that row's own machine over money and claims; the set of rows and their directions never change. |
| `Conservation.RunPosition` | pkg/mtransaction/validations.go:179-411 | For every run, with rows of any direction: the signed sum over all rows changes by exactly the leaks of the accepted steps. |
| `Conservation.StepPosition` | pkg/mtransaction/validations.go:211-294 | One step changes it by exactly the leaks of its debit-direction rows and, for a direct creation, the difference of the two positive remainders. |
| `Conservation.RunConserves` | pkg/mtransaction/validations.go:179-411 | Along a run without debit-direction rows the sum of Available plus OnHold stays the same throughout if and only if no accepted direct creation has different positive remainders on its two sides. |
| `Conservation.StepConserves` | pkg/mtransaction/validations.go:239-294 | A step keeps the sum if and only if it is not such a creation; holds, commits and cancels always keep it. |
| `Conservation.RowTotalsSum` | pkg/mtransaction/validations.go:429-511 | What the entries of a side resolve to, summed row by row over the ledger, is the side's total. |
| `Conservation.ShortfallsSum` | pkg/mtransaction/validations.go:491-499 | What is missing row by row on a second resolution sums to the side's positive remainder. |
| `Reresolution.SecondRowTotal` | components/ledger/internal/adapters/http/in/transaction_create.go:1227-1227 | Entries resolved a second time yield on each row what they yielded at first, less the positive remainder of the `remaining` entry on that row. |
| `Reresolution.ThirdRowTotal` | components/ledger/internal/adapters/http/in/transaction_state_handlers.go:384-384 | Resolved a third time, as on commit and cancel, they yield on each row what they yielded at first. |
| `Reresolution.SecondAccepted` | components/ledger/internal/adapters/http/in/transaction_create.go:1135-1236 | Input accepted by the first validation, under raw aliases, is accepted by the second, under composite keys, if and only if no positive remainder is shared by two entries of a side and no index is ambiguous. |
| `Reresolution.SecondFindsAmbiguity` | components/ledger/internal/adapters/http/in/transaction_create.go:1220-1236 | The second validation reports an ambiguity if and only if at some index source and destination name the same balance and one contributes. |
| `SendValidation.RawAcceptedIff` | components/ledger/internal/adapters/http/in/transaction_create.go:1135-1145 | Under raw aliases validation accepts exactly what balances, and any error it reports is the value mismatch. |
| `Reresolution.SecondTotal` | pkg/mtransaction/validations.go:491-499 | The second resolution of a side reaches the same total if and only if the remainder is not positive or at most one entry shares it. |
| `Reresolution.AcceptedIsTame` | pkg/mtransaction/validations.go:491-499 | With non-negative contributions that sum to at most the send value, an accepted side never shares a positive remainder. |
| `Reresolution.ResolvingTwiceLosesRemainder` | pkg/mtransaction/validations.go:491-499 | Of an accepted side: the map of the second resolution falls short of the send value by exactly the positive remainder, and the map of the third does not. |
| `Reresolution.StoredBody` | components/ledger/internal/adapters/http/in/transaction_create.go:1220-1227 | The input resolved under raw aliases, given composite keys, resolved again and its aliases put back is stored as the raw entries resolved twice. |
| `LedgerEffects.PostAgainEffect` | components/ledger/internal/adapters/http/in/transaction_create.go:1227-1253 | An accepted creation moves each row by its table entry for what is posted: the claim of the raw entries less the positive remainder on the row. |
| `LedgerEffects.PostAgainAcceptedIff` | components/ledger/internal/adapters/http/in/transaction_create.go:1075-1236 | Creation is accepted exactly when the value is positive and the raw entries balance, are not ambiguous, name existing rows and share no positive remainder. |
| `LedgerEffects.BodyIs` | components/ledger/internal/adapters/http/in/transaction_state_handlers.go:352-384 | What is stored for an accepted hold can be posted again under every status and setting. |
| `LedgerEffects.PostEffect` | components/ledger/internal/adapters/http/in/transaction_helper.go:128-212 | A posting, of entries of any kind, moves each row by a table entry over status, setting and direction applied to the row's reference sums; nothing depends on stored values. |
| `RowVersions.PostVersion` | components/ledger/internal/adapters/http/in/transaction_helper.go:128-212 | A posting advances a row's version by one per source entry on it, two where sources are split, and one per destination entry unless nothing arrives yet; it changes no field but the money and the version. |
| `RowVersions.PostAgainVersion` | components/ledger/internal/adapters/http/in/transaction_create.go:1227-1253 | A creation counts the same, although it posts what a first resolution left behind. |
| `LedgerEffects.DestinationsUntouched` | pkg/mtransaction/validations.go:239-269 | Hold and cancel, routed or not, leave a destination that is not debit-direction exactly as it was. |
| `LedgerEffects.PostAcceptedIff` | pkg/mtransaction/validations.go:545-631 | A posting is accepted exactly when the entries balance, are not ambiguous and name existing rows: for every status and setting, or for none. |
| `LedgerEffects.ApplySideMoney` | components/ledger/internal/adapters/http/in/transaction_helper.go:153-206 | Applying all legs of a side, in any order, moves a row by the sum of the values filed under it. |
| `Witnesses.RemainderGoesNegative` | pkg/mtransaction/validations.go:491-499 | With sources v and the rest of w (30 and the rest of 100), whatever the rows hold, hold and commit lower OnHold by w - v on the row of the rest. |
| `Witnesses.RemainderIsCreated` | pkg/mtransaction/validations.go:491-499 | Created directly, the same transaction adds w - v to the sum over all rows. |
| `Witnesses.AmbiguityFoundLate` | pkg/mtransaction/validations.go:603-618 | A transaction from an account to itself passes the first validation and is rejected as ambiguous by the second. |
| `Witnesses.DebitSourceFails` | pkg/mtransaction/validations.go:211-220 | A debit-direction source held and committed without route validation ends up different from the direct transaction. |
| `Witnesses.DebitDestinationFails` | pkg/mtransaction/validations.go:211-220 | A debit-direction destination is not restored by hold and cancel. |
| `Witnesses.DebitSourceLeaks` | pkg/mtransaction/validations.go:211-220 | Holding v from a debit-direction source without route validation changes the signed sum by 2v. |
| `LedgerModel.ApplyAnyFirst` | components/ledger/internal/adapters/http/in/transaction_helper.go:153-208 | Any leg may be applied first: the result does not depend on map order or on the sort. |
| `LedgerModel.Ledger.Apply` | components/ledger/internal/adapters/http/in/transaction_helper.go:153-206 | The loop over a side's legs leaves the rows that the side as a whole prescribes. |
| `LedgerModel.Ledger.Transact` | pkg/mtransaction/validations.go:379-411 | Given entries with composite keys: validates, propagates and applies everything, or reports the first error and changes nothing. |
| `LedgerModel.Ledger.CreateTransaction` | components/ledger/internal/adapters/http/in/transaction_create.go:1075-1249 | Rejects a value that is not positive, validates the raw input, validates again what that left behind under composite keys and posts it under the initial status; a hold becomes pending with its entries as the second validation left them; a rejected input leaves the state alone and reports the first error. |
| `LedgerModel.Ledger.CommitTransaction` | components/ledger/internal/adapters/http/in/transaction_state_handlers.go:352-408 | Resolves the stored entries of a pending transaction, posts them as APPROVED and closes it; anything else is rejected without change. |
| `LedgerModel.Ledger.CancelTransaction` | components/ledger/internal/adapters/http/in/transaction_state_handlers.go:352-408 | Resolves the stored entries of a pending transaction, posts them as CANCELED and closes it; anything else is rejected without change. |
| `RowView.StepHeld` | pkg/mtransaction/validations.go:239-283 | Every step of a row's machine moves OnHold and the held claims together, but for a hold that posts less than it claims and an unrouted commit on a debit-direction row. |
| `RowView.CreditLifecycle` | pkg/mtransaction/validations.go:239-294 | On rows that are not debit-direction, for every mix of settings: holding p and committing c is the direct move of p exactly when p is c, and holding p and canceling c is nothing exactly when they take the same. |
| `RowView.DebitLifecycle` | pkg/mtransaction/validations.go:211-220 | The same two laws on debit-direction rows, with the exact condition of each. |
| `RowView.ApartCarries` | pkg/mtransaction/validations.go:224-294 | Steps of other transactions carry a difference in money and one more pending transaction along unchanged. |
| `BalanceEngine.OperateTranslates` | pkg/mtransaction/validations.go:179-294 | Every operation shifts Available, OnHold and Version by an amount that depends on the row's direction only, and leaves all other fields of the row. |
| `BalanceEngine.LegTranslates` | pkg/mtransaction/validations.go:299-335 | So does a whole leg, split or not. |
| `BalanceEngine.OperationsCommute` | pkg/mtransaction/validations.go:179-203 | Any two operations on a row commute. |
| `BalanceEngine.OpSignsCorrect` | pkg/mtransaction/validations.go:211-294 | The direction in which each operation moves Available and OnHold under each status, setting and direction. |
| `BalanceEngine.OpVersion` | pkg/mtransaction/validations.go:186-202 | An operation adds one to the version exactly when it moves something, and otherwise leaves the row as it was; only Available, OnHold and Version change. |
| `BalanceEngine.LegVersion` | pkg/mtransaction/validations.go:299-335 | A split leg adds two to the version, any other one or nothing, and touches no other field but the money. |
| `BalanceEngine.OperationDirection` | pkg/mtransaction/validations.go:340-365 | DEBIT and ON_HOLD are always debits, CREDIT and RELEASE credits; a destination is only ever credited, a source that is not pending debited under every status, and a pending one held, released or debited exactly under PENDING, CANCELED and APPROVED. |
| `BalanceEngine.SplitIsDoubleEntry` | pkg/mtransaction/validations.go:317-335 | A split is a debit and a credit of the same amount, one moving Available only and the other OnHold only. |
| `BalanceEngine.PropagationKeeps` | pkg/mtransaction/validations.go:379-411 | Propagation is idempotent, keeps value, asset, status and direction, leaves direct transactions alone and changes the operation of a committed DEBIT only. |
| `BalanceEngine.DoubleEntryRefinesLegacy` | pkg/mtransaction/validations.go:299-411 | On rows that are not debit-direction, propagating, splitting and applying both halves in either order gives the money of the single legacy hold, commit or cancel. |
| `BalanceEngine.RoutedSourceLifecycle` | pkg/mtransaction/validations.go:299-411 | Under route validation, hold plus commit is the direct debit and hold plus cancel is nothing, on source rows of every direction. |
| `BalanceEngine.LegacySourceLifecycle` | pkg/mtransaction/validations.go:211-294 | Without it, the commit law holds exactly when the row is not debit-direction or nothing moves; the cancel law always. |
| `BalanceEngine.PropagateRouteValidation` | pkg/mtransaction/validations.go:379-411 | The loop over the From map rewrites each amount once, in any order, and only under PENDING, CANCELED and APPROVED. |
| `Resolver.CalculateTotal` | pkg/mtransaction/validations.go:429-511 | The loop over heap entries yields the total, amounts, keys and routes of the entries as they were, and leaves every `remaining` entry pointing to the one shared record, so that by value the entries are the rewritten ones. |
| `Resolver.ResolveEntry` | pkg/mtransaction/validations.go:444-501 | One iteration: share, amount and remaining branches in order, with the shared record updated in place. |
| `Shares.WholeIsSend` | pkg/mtransaction/validations.go:450-462 | A share of 100 percent is the send value, one of 0 percent nothing. |
| `Shares.SharesAddUp` | pkg/mtransaction/validations.go:450-462 | Shares add up in their percentages. |
| `Shares.MissingIsWhole` | pkg/mtransaction/validations.go:455-458 | A missing second percentage means 100. |
| `Shares.ShareOfShare` | pkg/mtransaction/validations.go:460-462 | The share p of q is the q percent share of the p percent share. |
| `Shares.PlainSideBalances` | pkg/mtransaction/validations.go:450-474 | A side of plain shares totals a non-zero send value if and only if its percentages sum to 100. |
| `Shares.ZeroShareIsAbsent` | pkg/mtransaction/validations.go:450-450 | A share of 0 percent leaves nothing in the map. |
| `Resolver.MapSumIsListSum` | pkg/mtransaction/validations.go:464-499 | With distinct keys no entry is lost: on any selection of keys the map sums to what the listed entries resolve to. |
| `Resolver.TotalIsResolvedSum` | pkg/mtransaction/validations.go:429-511 | For entries of one kind each, the total is the sum of what they resolve to. |
| `Resolver.TotalExact` | pkg/mtransaction/validations.go:450-499 | On any entries the total is the sum of what stays in the map plus what entries of several kinds added and then overwrote. |
| `Resolver.AcceptedMapBalances` | pkg/mtransaction/validations.go:620-628 | A side's map sums to the send value exactly when its total does. |
| `Resolver.ResolvedKeyIff` | pkg/mtransaction/validations.go:451-499 | The keys of the map are exactly the aliases of entries with an amount, a share or a remainder. |
| `Resolver.AcceptedIffQuiet` | pkg/mtransaction/validations.go:472-499 | With non-negative contributions that sum to at most the send value, a side with a remainder is accepted exactly when nothing contributes after the first `remaining` entry and every later one resolves to zero. |
| `Resolver.SingleRemainingTotal` | pkg/mtransaction/validations.go:472-499 | With one `remaining` entry the total exceeds the send value by exactly what the shared record loses afterwards. |
| `Resolver.SharedRemainderAgrees` | pkg/mtransaction/validations.go:435-499 | With one `remaining` entry, the record shared by pointer ends equal to the copy in the map exactly when the side is accepted. |
| `SendValidation.ValidateSendSourceAndDistribute` | pkg/mtransaction/validations.go:545-631 | Over entries held by reference: returns the response or the first error that the entries as they were call for, and leaves both sides rewritten with their remainders, accepted or not. |
| `SendValidation.AcceptedBalances` | pkg/mtransaction/validations.go:620-630 | Whenever raw input is accepted, the From map and the To map each sum to exactly the send value, and on every row to the reference sum of the raw entries. |
| `SendValidation.AmbiguousIff` | pkg/mtransaction/validations.go:603-618 | The two loops reject exactly when at some index source and destination name the same alias and balance key and one of them has a resolved amount. |
| `SendValidation.AcceptedIff` | pkg/mtransaction/validations.go:603-630 | Acceptance is equivalent to both raw totals being the send value and no ambiguous index; the status plays no part. |
| `SendValidation.RejectedIff` | pkg/mtransaction/validations.go:603-628 | The mismatch is reported exactly for what does not balance and is not ambiguous, and there is no third error. |
| `AcceptedResponses.AcceptedResponse` | pkg/mtransaction/validations.go:558-601 | Of accepted input: sources and destinations are the `alias#key` of their entries in order, each route map holds exactly the composite keys of its side's routed entries with their routes, aliases lists both sides without duplicates, each amount map holds exactly the contributing entries with the asset, value, operation and direction of each, and total, asset and pending are the transaction's. |
| `SendValidation.KeyResolvedIff` | pkg/mtransaction/validations.go:147-167 | A composite key is in the resolved map exactly when the entry at that index has that alias and key and contributes. |
| `SendValidation.FindClash` | pkg/mtransaction/validations.go:604-610 | One ambiguity loop finds a clash exactly when there is one. |
| `SendValidation.AppendIfNotExist` | pkg/mtransaction/validations.go:514-522 | The loop appends the missing strings in order. |
| `SendValidation.AppendedIsUnion` | pkg/mtransaction/validations.go:514-522 | The result holds exactly the strings of both lists and adds no duplicate. |
| `SendValidation.ResolvedUniform` | pkg/mtransaction/validations.go:340-365 | Every resolved amount of a side carries the operation and direction determined for that side and status. |
| `Aliases.MutateConcatAliases` | pkg/mtransaction/transaction.go:208-220 | The in-place loop turns every raw alias into its composite key and leaves the others. |
| `Aliases.MutateSplitAliases` | pkg/mtransaction/transaction.go:226-238 | The in-place loop turns every composite key back into its alias. |
| `Aliases.SplitUndoesConcat` | pkg/mtransaction/transaction.go:200-238 | Splitting undoes concatenating on a list exactly when its aliases are `#`-free. |
| `Aliases.RewritesIdempotent` | pkg/mtransaction/transaction.go:200-238 | Both rewrites are idempotent on every list. |
| `Aliases.ConcatDistinct` | pkg/mtransaction/transaction.go:171-220 | Resulting keys are pairwise distinct, also when part of the list was rewritten before. |
| `Aliases.StaleIndexCollides` | pkg/mtransaction/transaction.go:182-220 | A leg that carries another leg's index ends up with that leg's key. |
| `Aliases.ConcatKeyParts` | pkg/mtransaction/transaction.go:152-198 | A composite key is recognised as one, splits to its alias, and `SplitAliasWithKey` of it is the `AliasKey` of alias and balance key. |
| `Aliases.SplitParts` | pkg/mtransaction/transaction.go:152-167 | Without a `#` nothing is cut off; otherwise the first segment is, and the alias is the second. |
| `Aliases.ConcatKeyInjective` | pkg/mtransaction/transaction.go:171-178 | `index#alias#key` is injective over unbounded indices and `#`-free aliases, up to the default key. |
| `Aliases.ConcatedIff` | pkg/mtransaction/transaction.go:182-198 | The scan accepts exactly a non-empty run of digits followed by `#`. |
| `Overdraft.RunKeeps` | pkg/mtransaction/overdraft.go:28-152 | Over every run of debits and credits: Available and OverdraftUsed are non-negative and never both non-zero, an enabled limit that is respected stays so whether or not overdraft is allowed, the debit-direction companion's Available equals OverdraftUsed, and the net position moves by exactly the accepted entries. |
| `Overdraft.EntryKeeps` | components/ledger/internal/adapters/redis/transaction/scripts/balance_atomic_operation.lua:486-568 | One step keeps all of that, stale splits included, which are rejected; and an accepted refund reports `cleared` exactly when overdraft and companion reach zero. |
| `Overdraft.SplitHalves` | pkg/mtransaction/overdraft.go:28-120 | Both splits add up; their halves are non-negative exactly when both arguments are; a refund never exceeds the overdraft. |
| `Overdraft.SplitDetectedIff` | pkg/mtransaction/overdraft.go:81-152 | Splits and refunds are signalled exactly under the documented conditions, for the deficit and the repaid part; `cleared` exactly when the credit covers the overdraft. |
| `Overdraft.DebitAcceptedIff` | pkg/mtransaction/overdraft.go:45-99 | In a sound state a debit is accepted exactly up to Available plus what the limit leaves, or always without a limit; if it needs overdraft, only against the current version; a rejected one is reported as insufficient funds, stale or over the limit. |
| `Overdraft.CreditAcceptedIff` | pkg/mtransaction/overdraft.go:115-152 | In a sound state a credit is accepted if and only if nothing is overdrawn or it was computed from the current version; it repays the smaller of value and overdraft, and the rest becomes available. |
| `Overdraft.FullRepaymentClears` | pkg/mtransaction/overdraft.go:135-152 | In every reachable state a credit of what is overdrawn, against the current version, clears it and leaves Available as it was. |
| `Overdraft.StaleSplitRejected` | components/ledger/internal/adapters/redis/transaction/scripts/balance_atomic_operation.lua:491-546 | A split computed before an accepted entry is rejected after it. |
| `Overdraft.VersionCounts` | components/ledger/internal/adapters/redis/transaction/scripts/balance_atomic_operation.lua:583-592 | The version of a balance counts its accepted entries. |
| `Overdraft.HeadroomDecides` | pkg/mmodel/balance_position.go:73-110 | For validated settings and every reachable state, a debit against the current version is accepted if and only if the published headroom is absent or the debit is at most Available plus headroom. |
| `Overdraft.PositionAccounts` | pkg/mmodel/balance_position.go:73-77 | The published net position is the opening one plus every accepted entry. |
| `Overdraft.ValidatedConverts` | pkg/mmodel/balance.go:256-295 | Settings that pass validation never make the conversion fail. |
| `Overdraft.HeadroomIs` | pkg/mmodel/balance_settings.go:85-154 | For validated settings the published headroom is zero, absent, or limit minus used, as the converted balance says. |
| `Overdraft.SettingsValidIff` | pkg/mmodel/balance_settings.go:85-154 | Settings are valid exactly with a known scope and with a limit present exactly when enabled, and then a positive number. |
| `Overdraft.ConversionKeeps` | pkg/mmodel/balance.go:256-295 | Conversion fails exactly on a limit that does not parse, and otherwise keeps identity, direction, version and money. |
| `Overdraft.PositionShows` | pkg/mmodel/balance_position.go:73-110 | Headroom is absent exactly for unlimited overdraft, zero without overdraft, and minus what is used when the limit does not parse; OnHold is passed on. |
| `Retry.NoMessageLost` | pkg/rabbitmq/retry.go:67-151 | In every reachable state each published message was processed or has a copy queued, unacked or dead-lettered; queued copies keep all unrelated headers and never count more retries than the maximum, or than they were published with. |
| `Retry.DeliveriesBounded` | pkg/rabbitmq/retry.go:87-97 | Redeliveries apart, every chain of copies is delivered at most once per retry still allowed at publication and once more: maxRetries + 1 times for a fresh message. |
| `Retry.AckedOnlyAfterSuccessor` | pkg/rabbitmq/retry.go:121-132 | A failed delivery leaves the unacked set only into the dead-letter queue or after a copy with one more retry and the same unrelated headers was queued. |
| `Retry.FailKeeps` | pkg/rabbitmq/retry.go:67-138 | Handling a failure keeps the broker invariant, however classification, waiting, publishing, acks and nacks turn out. |
| `Retry.FailureOutcome` | pkg/rabbitmq/retry.go:67-138 | A failure queues exactly one successor if and only if it is retryable, below the maximum, not interrupted, and published or accepted anyway; the delivery is dead-lettered if and only if it is not worth retrying and the nack arrives, or the publish failed and its hook nacks; it is acked only after a publish without error; no other copy moves. |
| `RetryRuns.FreshMessageEndsDead` | pkg/rabbitmq/retry.go:67-138 | On a broker that loses nothing, a message published without retries that always fails retryably is delivered exactly maxRetries + 1 times and then dead-lettered, whatever else is on the broker. |
| `RetryRuns.AttemptIs` | pkg/rabbitmq/retry.go:80-132 | One lossless attempt replaces the copy by its successor below the maximum and dead-letters it at the maximum. |
| `Retry.HeadersRoundTrip` | pkg/rabbitmq/headers.go:37-89 | The count read back is one more than before, the reason is recorded, and every other header is preserved. |
| `Retry.CountOfEncodings` | pkg/rabbitmq/headers.go:37-75 | Every numeric encoding of a count is read back, negative ones as zero and fractions rounded down; anything else means no retry. |
| `Retry.Channel.OnFailure` | pkg/rabbitmq/retry.go:67-138 | The sequence of effects on the channel amounts to the protocol step. |
| `Retry.Channel.NackToDLQ` | pkg/rabbitmq/retry.go:143-151 | A nack that arrives moves the delivery to the dead-letter queue; one that does not changes nothing. |
| `LedgerSettingsModel.DeepMergeSettings` | pkg/mmodel/settings.go:496-547 | The two loops, in any map order, compute the group-wise merge. |
| `LedgerSettingsModel.ParseOfMerge` | pkg/mmodel/settings.go:231-281 | Parsing a merge equals overriding the parsed settings field by field; a null group or field means the default. |
| `LedgerSettingsModel.MergeValid` | pkg/mmodel/settings.go:350-547 | Merging a valid patch into valid settings stays valid. |
| `LedgerSettingsModel.MergeIdempotent` | pkg/mmodel/settings.go:496-547 | Merging a patch twice is merging it once; the empty patch is neutral on both sides. |
| `LedgerSettingsModel.MergeAssociativeIff` | pkg/mmodel/settings.go:496-547 | Merging p then q equals merging their merge exactly when p wipes no group that q refills only partly; so always when p has no null group. |
| `LedgerSettingsModel.WipeHappens` | pkg/mmodel/settings.go:496-547 | Clearing a group and then setting one of its fields differs from the merged patch. |
| `LedgerSettingsModel.ToMapRoundTrip` | pkg/mmodel/settings.go:197-281 | Parsing inverts `LedgerSettingsToMap`, whose result validates exactly when mode and posture hold allowed values. |
| `LedgerSettingsModel.StoredRoundTrip` | pkg/mmodel/settings.go:197-298 | The round trip also holds through stored JSON, where whole numbers come back as floats. |
| `LedgerSettingsModel.StoredValid` | pkg/mmodel/settings.go:421-441 | Storing as JSON does not change what is valid. |
| `LedgerSettingsModel.NumbersRead` | pkg/mmodel/settings.go:287-298 | A number is read in every encoding, fractions cut off toward zero. |
| `LedgerSettingsModel.UntypedIsDefault` | pkg/mmodel/settings.go:231-281 | A field that is missing, null or of another type is read as its default. |
| `LedgerSettingsModel.ParseLedgerSettings` | pkg/mmodel/settings.go:231-281 | Reading the groups one by one over the defaults gives each field its well-typed value or its default. |
| `LedgerSettingsModel.ValidateSettings` | pkg/mmodel/settings.go:350-416 | Accepts exactly the maps that fit the schema; reports a nested field at the root before anything else, the first of them in sorted order, and otherwise an error that some group or field really has. |
| `LedgerSettingsModel.ValidateField` | pkg/mmodel/settings.go:389-475 | Accepts exactly known fields that are null or have the right type and an allowed value, and otherwise reports which of the three is wrong. |
| `RouteCache.LookupIff` | pkg/mmodel/transaction-route.go:94-183 | For every list of routes, a lookup in the built cache succeeds if and only if a linear scan meets a route with that identifier, a known type and an entry for the action; among duplicates it returns the last source, else the last destination, else the last bidirectional one. |
| `RouteCache.LookupReturnsTheRoute` | pkg/mmodel/transaction-route.go:94-183 | With distinct identifiers it returns exactly that route's data, from which the route can be read back. |
| `RouteCache.OrderIndependent` | pkg/mmodel/transaction-route.go:133-183 | With distinct identifiers the order of the list does not matter. |
| `RouteCache.ToCache` | pkg/mmodel/transaction-route.go:133-183 | The double loop builds an index of the list: per type, action and identifier the last matching route, and an action key exactly where some route serves it. |
| `RouteCache.Actions` | pkg/mmodel/operation-route.go:57-97 | Exactly the actions with an entry, each once, in the fixed order. |
| `RouteCache.OwnEntries` | pkg/mmodel/operation-route.go:34-54 | Every action is served by its own entry, an unknown one by none. |
| `DocumentPatch.BuildDocumentToPatch` | pkg/mongo/mongo.go:17-48 | The patch of any document: the flattened leaves less the removed keys, and the unset map, each present only when not empty. |
| `DocumentPatch.SetHoldsKeptLeaves` | pkg/mongo/mongo.go:17-98 | For documents with non-empty, dot-free, distinct keys, `$set` holds exactly the leaves not at or below a removed path, each under its dotted path, and is absent exactly when there is none. |
| `DocumentPatch.PatchUnique` | pkg/mongo/mongo.go:50-74 | `$set` depends neither on iteration order nor on whether sub-documents are maps or ordered lists. |
| `DocumentPatch.FlatteningIsLeaves` | pkg/mongo/mongo.go:54-83 | Flattening such a document yields exactly its leaves under pairwise distinct dotted paths. |
| `DocumentPatch.FlattenValue` | pkg/mongo/mongo.go:62-75 | For any document, the recursion over the shared map writes every leaf under its joined key and touches nothing else. |
| `DocumentPatch.FlattenBSONM` | pkg/mongo/mongo.go:54-58 | The same for a whole map under a prefix. |
| `DocumentPatch.UnsetsIff` | pkg/mongo/mongo.go:88-98 | A dotted path is removed by a field, whatever string that is, exactly when the field's components begin the path: string prefixes are path prefixes. |
| `DocumentPatch.JoinIsDotted` | pkg/mongo/mongo.go:78-84 | Joining key by key gives the dotted path. |
| `DocumentPatch.UnsetKeys` | pkg/mongo/mongo.go:30-36 | The keys of the unset map are exactly the rewritten field names. |
| `DocumentPatch.UnsetEntry` | pkg/mongo/mongo.go:30-36 | A metadata field is unset under its own name with an empty value, any other under its snake-cased name with its own name as value; where names meet the last field counts. |
| `DocumentPatch.UnsetAbsentIff` | pkg/mongo/mongo.go:38-45 | The unset section is absent exactly when no field is removed. |
| `DocumentPatch.ClashIff` | pkg/mongo/mongo.go:24-36 | A set key and an unset path lie on one path exactly when a rewritten name does with a leaf that no given name removes; with names already snake-cased, exactly when a removed field lies strictly below such a leaf. |
| `DocumentPatch.ClashHappens` | pkg/mongo/mongo.go:24-36 | An instance of such a clash. |
| `LikeEscape.ThreePassesAreOne` | pkg/net/http/httputils.go:607-613 | The three sequential replacements equal one character-wise escape. |
| `LikeEscape.EscapedMatchesExactly` | pkg/net/http/httputils.go:605-613 | As a LIKE pattern the escaped string matches the original string and nothing else. |
| `LikeEscape.PrefixSearchExact` | components/ledger/internal/adapters/postgres/account/account.postgresql.go:305-314 | The case-insensitive prefix query built from the escaped term finds exactly the names that start with the term up to case. |
| `LikeEscape.EscapeInjective` | pkg/net/http/httputils.go:607-613 | Different terms escape to different patterns. |

## Left out

- Decimals are exact reals. Add, Sub and Mul of the decimal library are exact and the only division is by 100; parsing decimal text is a parameter of the overdraft settings.
- `remaining` is a flag on an entry; the test for a blank text belongs to a library that is not part of this model.
- Input checks are one predicate (`#`-free aliases, one kind per entry, the side marked on each entry); creation rejects input that fails it, and the checks themselves are not modelled one by one.
- The fee engine: with fee packages it resolves the entries once more and rebuilds both sides (components/ledger/internal/services/fees/calculate-fee.go:63-90). Reverts, annotations and idempotent replays are not modelled either.
- Asset, account-type and allow-sending rules of a balance (pkg/mtransaction/validations.go:57-125), rates, metadata and dates: independent conditions that add only further rejections. That every named row must exist is modelled.
- Insufficient funds inside the ledger runs: rows may go negative there; the overdraft machine models the rejection.
- `Overdraft.EntryKeeps`: leaves out external accounts, because the script exempts them from overdraft and from the funds check.
- The balance script beyond its direct debit and credit path: held transactions and their overdraft share. Its decimal strings are reals.
- The set of rows is fixed during a run, and holding under an identifier that is already pending is rejected.
- Versions of a balance under overdraft follow `OperateBalances`, which counts an entry of value zero; the script does not.
- Version is unbounded, as are share percentages and retry counts (int64 and int in the source); floats have no NaN or infinity.
- `OperateBalances` never returns an error in the source and has none here.
- Goroutines and channels of `ValidateSendSourceAndDistribute`: each result is awaited at once, so the calls are sequential. The source and destination slices are taken to be two different arrays.
- Backoff times, logging, tracing and metrics of the retry engine; what its environment decides is a parameter of each failure.
- Strings are compared character by character where the source sorts by bytes; the two orders agree on the field names of the schema.
- The transaction's own route, which validation only copies into its response.
- Route identifiers are their text form; the two JSON-valued rule fields are text. Msgpack encoding of the cache is not modelled.
- Snake-casing is a parameter of the patch builder, and lower-casing a parameter of the search query (one character for one, leaving the three metacharacters alone).
- The transaction DSL parser, encryption wrappers, Mongo, PostgreSQL and Redis drivers, HTTP handlers, pagination, cursors and cache keys.
