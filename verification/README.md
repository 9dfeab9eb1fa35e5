# Settlement program: verified model

This project models the CoW settlement program for Solana, in which solvers settle users' signed
intents. A transaction carries a `BeginSettle` and, later, a `FinalizeSettle`. The begin reads
the finalize through introspection, checks every payout before it happens, pulls the users'
funds and updates each order's totals; the finalize then pays with almost no checks of its own.
Around that protocol sit the order life cycle (create, cancel, settle, reclaim, create again),
a sorted list of approved solvers packed into raw account bytes, a compile-time hash index of
token buffers, the administrative roles, and the wire formats of all of it.

Verify everything with `dafny verify dfyconfig.toml`.

## How the model is built

- **Bytes.** `Basics`, `Intent`, `OrderAccounts`, `StateAccounts`, `SettleWire` and `SettleBuild`
  work on the actual byte layouts. Accessors that the program updates in place are classes over
  arrays (`OrderAccount`, `StateAccount`), and the order iterator is a class with its three cursors.
- **Worlds.** `Worlds` holds order accounts, state bytes, the token ledger, mints and the lamport
  ledger. `Ledger`, `Fills`, `Settle`, `OrderHandlers`, `AdminHandlers` and `BufferHandlers` define
  each instruction as a function on worlds, branch by branch and error by error.
- **Running program.** `Banks` is the same program as it runs: a class over the stored bytes of
  the order accounts and the state account and over the ledgers, whose methods loop and update in
  place through the accessors, each proved to end exactly as its specification function says, up
  to `RunTransaction`, which restores every account on failure.
- **Transactions.** `Transactions` runs instruction lists, all or nothing. Foreign instructions may
  appear anywhere, rewrite the token ledger, raise or lower lamports that are not the program's,
  and call any instruction of this program.
- **Histories.** `Lifecycle` is an abstract order book driven by events; `Histories` proves that
  every sequence of attempted transactions refines a legal run of it, and carries the results
  over. `Treasury` and `Custody` state what the program keeps true of the funds, `Receipts` ties
  the recorded totals to what the instructions pull and pay, and `Outflow` to the balances.
- **Off chain.** `Client` and `Cli` model the builders and the self-funding check.
- **Progress.** `Commits` says when a batch and a payout succeed; `Settlements` that a CLI
  settlement commits, `SwapExample` one such settlement in full, and
  `Reopening` that a live order settles for any acceptable amounts, and a complete one again.

Address derivation and hashing appear as function-valued fields of the deployment (`Env`, `Finder`).
Results that depend on an address identifying one order assume it of that address only
(`OnlyIntent`). The clock is a parameter, not decreasing where a result says so. `Env.Sound` is what
the build guarantees of the buffer index.

## Where the code and its documents differ

- `SECURITY_DESIGN.md` (line 32) says a cancellation cannot be undone. Over all histories that
  holds exactly when the order's exact side is still below its amount, or the order has expired
  (`Reopening.CancellationFinalIff`). A cancelled order that was already complete comes back by
  three transactions (`Reopening.CompleteOrderReopens`): a stranger closes it, its owner (or the
  authority, for the settlement's own orders) signs its creation again, and a solver settles it
  again.
- Line 31 says that an order is settled at most once, or fills at most its amount in all. That holds
  per live creation (`Histories.LifetimeBoundsHold`), so in all when the order is created once
  (`Histories.CreatedOnceGivesOnce`). A completed order gives nothing more exactly when it has
  expired (`Reopening.CompletedForGoodIff`): before that the same three transactions double what it
  gives.
- The settle builders cast list lengths to one byte. Beyond 255 orders, or 255 pulls of one order,
  the built instruction does not parse (`SettleBuild.BeginParsesIff`).
- An order created on a prefunded address may name itself as its creator
  (`Treasury.SelfCreatedOrder`). It can then only be reclaimed onto itself, which does not balance
  (`Treasury.SelfCreatedNeverRefunds`). The runtime refuses an unbalanced instruction, so on chain
  such an order cannot be reclaimed; the model has no such refusal and destroys the lamports. In
  every other case the two ledgers are conserved (`Treasury.DispatchConservesIff`).

## Model

| member | source | states |
|---|---|---|
| `Transactions.PerfectMatching` | programs/settlement/src/processor/utils/settle.rs:17-39 | In every committed transaction the settle instructions pair up one to one, each begin precedes its finalize, and the begin-to-finalize intervals of different pairs are disjoint |
| `Transactions.BeginIsPaired` | programs/settlement/src/processor/begin_settle.rs:159-195 | A begin that ran links to a later finalize that links back, with no settle instruction strictly between them |
| `Transactions.FinalizeIsPaired` | programs/settlement/src/processor/finalize_settle.rs:36-44 | A finalize never checks order or nesting, yet in a committed transaction the begin it links to precedes it |
| `Transactions.PairParses` | programs/settlement/src/processor/begin_settle.rs:139-153 | Both instructions of a pair parse, have as many orders as pushes, and the pushes the begin saw are the pushes the finalize executes |
| `Transactions.EveryOrderIsPaid` | programs/settlement/src/processor/begin_settle.rs:210-375 | In every committed transaction order k of a begin is settled once, judged as stored before the begin, against push k of its finalize: right destination, accepted and distinct source, at or above the limit price, totals grown by exactly the pulled and pushed amounts; orders it does not name are unchanged |
| `Transactions.EveryPushHasItsOrder` | programs/settlement/src/processor/finalize_settle.rs:23-120 | Every executed finalize has exactly one order per push in its begin, and moves exactly those amounts between exactly those accounts, conserving every mint and the lamports |
| `Transactions.NativeExactly` | programs/settlement/src/processor/begin_settle.rs:300-307 | An accepted source is the native buffer exactly when the order buys native SOL |
| `Transactions.RunIsCommitted` | programs/settlement/src/processor/mod.rs:35-76 | A transaction whose every instruction succeeds has a trace of worlds from the first to the last |
| `Transactions.CommittedRuns` | programs/settlement/src/processor/mod.rs:35-76 | Conversely, from any point of a committed trace the rest of the transaction runs to the last world |
| `Settle.ScanBetween` | programs/settlement/src/processor/begin_settle.rs:159-195 | The scan succeeds exactly when no settle instruction of this program lies in the range |
| `Settle.CounterpartExact` | programs/settlement/src/processor/utils/settle.rs:17-39 | Reciprocity holds exactly when the linked instruction exists, is this program's, starts with the expected byte and carries this instruction's index in its next two |
| `Settle.CheckOrderExact` | programs/settlement/src/processor/begin_settle.rs:276-341 | The checks of one order pass exactly when it is stored at its derivation and live, its sell account matches, its push pays its buy account from another, accepted account |
| `Settle.BeginExact` | programs/settlement/src/processor/begin_settle.rs:40-89 | BeginSettle succeeds exactly at the top level, on the right accounts, signed by a listed solver, paired without nesting, when its orders settle against the pushes it sees; it then does just that |
| `Settle.FinalizeExact` | programs/settlement/src/processor/finalize_settle.rs:23-56 | FinalizeSettle succeeds exactly at the top level, on the right accounts, with a begin linking back, when its payout succeeds; it then moves just those funds |
| `Settle.SettledPairing` | programs/settlement/src/processor/begin_settle.rs:210-254 | A successful batch has as many pushes as orders and strictly increasing order addresses |
| `Settle.BatchEffect` | programs/settlement/src/processor/begin_settle.rs:210-254 | Order k of a successful batch settles exactly once, against push k, judged on the order as stored before the whole batch |
| `Settle.BatchFrame` | programs/settlement/src/processor/begin_settle.rs:210-254 | An order the batch does not name keeps its body |
| `Settle.BatchShape` | programs/settlement/src/processor/begin_settle.rs:210-254 | A batch adds or removes no order and touches neither the state account nor the lamports |
| `Settle.ProcessOrderEffect` | programs/settlement/src/processor/begin_settle.rs:262-375 | One processed order was live, its push pays its buy account from an accepted source, its totals grew by the sum of its pulls and by the push, and each pull moved from its sell account to its own destination and nothing else |
| `Custody.FundsMoveOnlyForOrders` | SECURITY_DESIGN.md:26 | In a committed transaction every execution of this program, top-level or called by another one, lowers a token account that is not one of its buffers only if it is a BeginSettle with a live order the owner of that account placed on it, and by no more than such orders pull |
| `Transactions.ExecutedSucceeded` | programs/settlement/src/processor/mod.rs:35-76 | In a committed transaction every execution of this program, top-level or called by foreign code, succeeded on the world it met |
| `Custody.BeginMoves` | programs/settlement/src/processor/begin_settle.rs:317-362 | A begin changes every token balance by exactly what its orders pull into it less what they pull out of it, and each order names its sell account, that account's owner and its mint |
| `Custody.TokenAccessIsLimited` | SECURITY_DESIGN.md:38 | In a committed transaction every execution of this program, top-level or called, that lowers or removes a token account, buffer or not, is part of a settlement an approved solver signed or a ReclaimBuffer the reclaim authority signed |
| `Custody.DispatchTokenAccess` | SECURITY_DESIGN.md:38 | Outside the settle pair, called or not, only a ReclaimBuffer signed by the reclaim authority lowers a token account |
| `Treasury.NativeAccessIsLimited` | SECURITY_DESIGN.md:38 | Over any instruction of a committed transaction, foreign ones included, the native buffer falls only by the payout of a settlement an approved solver signed, or by a WithdrawNativeSol, top-level or called, that the settlement-owned-order authority signed |
| `Treasury.ActsNativeAccess` | SECURITY_DESIGN.md:38 | If the native buffer falls over what a foreign program does, one of its acts is such a signed call |
| `Custody.FinalizeDebitsBuffersOnly` | programs/settlement/src/processor/finalize_settle.rs:78-120 | A finalize checks no source, yet in a committed transaction it lowers no token or lamport balance outside the buffers |
| `Custody.OthersSpareUsers` | SECURITY_DESIGN.md:44 | Outside the settle instructions, and in every call from another program, no account but a buffer is debited |
| `Fills.ValidateLimitPrice` | programs/settlement/src/processor/begin_settle.rs:382-402 | Accepts exactly when amount_out * sell_amount >= amount_in * buy_amount over the unbounded products |
| `Fills.Product` | programs/settlement/src/processor/begin_settle.rs:391-398 | The product of two 64-bit amounts fits in 128 bits |
| `Fills.FillKeepsLimits` | programs/settlement/src/processor/begin_settle.rs:411-444 | A settlement keeps the cumulative price bound, the cap on the exact side and, for fill-or-kill, untouched-or-complete |
| `Fills.NeverOversold` | programs/settlement/src/processor/begin_settle.rs:411-444 | An account within its limits never withdrew more than the sell amount, for buy orders too, where the program checks only the bought side |
| `Fills.FilledOnce` | programs/settlement/src/processor/begin_settle.rs:411-444 | A later settlement of a filled fill-or-kill order withdraws nothing |
| `Fills.PricesAddUp` | programs/settlement/src/processor/begin_settle.rs:382-402 | Settlements each at or above the limit price are together at or above it |
| `Fills.FullFillAccepted` | programs/settlement/src/processor/begin_settle.rs:382-444 | Filling a fresh order completely at its limit passes, for both kinds and both fill modes |
| `Fills.FillExact` | programs/settlement/src/processor/begin_settle.rs:364-444 | A settlement is accepted exactly when it is at or above the limit price, both new totals fit 64 bits and the exact side of the order's kind stays within its amount, or reaches it for fill-or-kill; it then adds to both totals and changes nothing else |
| `Lifecycle.AccountsStayWithinLimits` | SECURITY_DESIGN.md:29-31 | Over any legal run of events every order account stays within its limits and is never oversold |
| `Lifecycle.CancellationIsFinal` | programs/settlement/src/processor/reclaim_order.rs:50-90 | An order cancelled below its amount, or expired, is never settled again without a reclaim its owner signed, even across closing and re-creation |
| `Lifecycle.LifetimeBounds` | programs/settlement/src/processor/create_order.rs:49-86 | Across all incarnations, the total withdrawn is at most the sell amount per live creation, and the total received is at or above the limit price |
| `Lifecycle.WithdrawnBound` | programs/settlement/src/processor/create_order.rs:49-86 | The same bound from any starting book: plus what the current incarnation has left |
| `Lifecycle.LifetimePrice` | programs/settlement/src/processor/begin_settle.rs:382-402 | Over any run, all settlements of an order together are at or above its limit price |
| `Lifecycle.FillOrKillOnce` | programs/settlement/src/processor/begin_settle.rs:431-442 | Of two settlements of one fill-or-kill order without a reclaim in between, the later withdraws nothing |
| `Lifecycle.RunsCompose` | programs/settlement/src/processor/mod.rs:35-76 | Legality and replay of a run split at any point |
| `Histories.DispatchRefines` | programs/settlement/src/processor/mod.rs:35-76 | Whatever instruction succeeds, on any accounts and data, its events are a legal run from the abstract book before to the one after, and the state bytes stay well-formed |
| `Histories.ActsRefine` | programs/settlement/src/processor/mod.rs:35-76 | The same for anything a foreign program does, calls into this program included |
| `Histories.TransactionRefines` | programs/settlement/src/processor/mod.rs:35-76 | The same for the rest of a transaction from any instruction on |
| `Histories.HistoryRefines` | programs/settlement/src/processor/mod.rs:35-76 | The same for every sequence of attempted transactions, the failed ones leaving no trace |
| `Histories.ReachableOrdersWithinLimits` | SECURITY_DESIGN.md:29-31 | After any history every order account is within its limits and never oversold |
| `Histories.CancelledOrderStaysDead` | programs/settlement/src/processor/cancel_order.rs:14-69 | Under a clock that does not go back, no history settles an order cancelled below its amount, or expired, unless its owner signed a reclaim of it |
| `Histories.CancelledForGood` | programs/settlement/src/processor/cancel_order.rs:14-69 | Once a transaction with a CancelOrder of an order below its amount, stored before or not, is committed, neither its later instructions nor any history after it settle that order, unless its owner signed a reclaim of it |
| `Histories.CommittedCancel` | programs/settlement/src/processor/cancel_order.rs:31-67 | A committed CancelOrder leaves the order it names stored and cancelled, otherwise as it was if it was stored, below its amount if not |
| `Histories.TraceKeeps` | SECURITY_DESIGN.md:29-31 | Along a committed transaction the state bytes stay whole and every order within its limits |
| `Reopening.CancellationFinalIff` | SECURITY_DESIGN.md:32 | Exactly when a stored cancellation is final over all histories of transactions: the exact side is below its amount, or the order has expired |
| `Reopening.CompletedForGoodIff` | SECURITY_DESIGN.md:31 | Exactly when a completed order gives nothing more over any later history: it has expired; before that one more creation doubles what it gives |
| `Reopening.CompleteOrderReopens` | programs/settlement/src/processor/reclaim_order.rs:64-76 | The history, of this program's instructions alone and paid from the ledgers it starts on, that brings back a complete order, cancelled or not: a stranger reclaims it, its owner (or the authority, for the settlement's own) creates it again, a begin and finalize pair settles it again in full |
| `Reopening.OpenOrderSettles` | programs/settlement/src/processor/begin_settle.rs:40-89 | From any world with a live order, fresh or partly filled, a listed solver, an accepted source and ledgers that afford both sides, and for any amounts at or above the limit price that keep the exact side within its amount (or complete it, for fill-or-kill), a pair of this program's instructions commits and fills the order by exactly those amounts, for token and native payouts |
| `Histories.LifetimeBoundsHold` | SECURITY_DESIGN.md:29 | Over any history all incarnations of an order obey the withdrawal bound and the limit price |
| `Histories.CreatedOnceGivesOnce` | SECURITY_DESIGN.md:31 | Created live at most once, an order gives at most its sell amount over any history |
| `Histories.ExpiredNeverSettles` | SECURITY_DESIGN.md:32 | After its expiry no history settles an order, whoever reclaims or creates it |
| `Receipts.OwedIsPaid` | programs/settlement/src/processor/finalize_settle.rs:36-44 | From any point of a committed transaction, the finalizes still to come pay exactly what the begins still to come record as received, plus what the one open begin recorded |
| `Receipts.TransactionRecords` | programs/settlement/src/processor/begin_settle.rs:364-375 | Over a committed transaction an order's recorded totals grow by exactly what begins pulled and finalizes paid for it |
| `Receipts.HistoryRecords` | programs/settlement/src/processor/begin_settle.rs:364-375 | The same over any history |
| `Receipts.FundsObeyLifetimeBounds` | SECURITY_DESIGN.md:29 | Over any history the amounts begins pull and finalizes pay for an order, across its incarnations, obey the withdrawal bound and the limit price |
| `Outflow.HistoryTakes` | SECURITY_DESIGN.md:26 | Over any history, executions of this program, top-level or called, lower the balance of an account that is not a buffer by no more in all than is pulled for the orders placed on it |
| `Outflow.AccountOutflowBounded` | SECURITY_DESIGN.md:29 | So such an account loses to this program at most the sell amount of each order placed on it, once per live creation of that order |
| `Histories.FillOrKillOnceInHistory` | SECURITY_DESIGN.md:31 | Over any history, a fill-or-kill order gives something at most once between two reclaims |
| `Histories.SolverListRefinesSet` | interface/src/data/state.rs:176-193 | Under any interleaving of instructions the solver bytes stay whole, strictly sorted and duplicate-free, and binary search decides membership in the set of solvers added and not since removed |
| `Histories.RolesFollowTransfers` | interface/src/data/state.rs:162-171 | Under any interleaving a role slot names the last account the role was given to: solver-list changes never alter it |
| `Histories.EveryCreationInHistoryAuthorised` | SECURITY_DESIGN.md:27 | Every creation of any history was signed by the owner or by the holder of the settlement-owned-order role at that moment |
| `Histories.EverySettlementInHistoryApproved` | programs/settlement/src/processor/utils/auth.rs:25-34 | Every fill of any history belongs to a begin with only fills between them, and whoever began it signed that instruction and was a solver added and not since removed |
| `Histories.HistoryFillsBegun` | programs/settlement/src/processor/begin_settle.rs:40-89 | In any history every fill follows a begin with nothing but fills of it in between |
| `Histories.EveryTransferInHistoryAuthorised` | programs/settlement/src/processor/transfer_authority.rs:15-45 | In any history a role changes hands only by the signature of the manager or of its holder at that moment |
| `Treasury.DispatchConservesIff` | programs/settlement/src/processor/reclaim_order.rs:34-44 | Every successful instruction conserves the lamports and moves each supply with its balances, with exactly one exception: reclaiming a funded order onto itself |
| `Treasury.TransactionConserves` | programs/settlement/src/processor/finalize_settle.rs:78-120 | A committed transaction of only this program's instructions conserves both ledgers from its first world to every later one |
| `Treasury.SelfCreatedOrder` | programs/settlement/src/processor/utils/pda.rs:47-93 | On a prefunded address a creation that names the order itself as its creator succeeds |
| `Treasury.SelfCreatedNeverRefunds` | programs/settlement/src/processor/reclaim_order.rs:34-60 | Such an order can only be reclaimed onto itself, which does not conserve lamports |
| `Treasury.DispatchKeepsRent` | programs/settlement/src/processor/add_solver.rs:45-65 | Every instruction leaves a rent-exempt state account rent-exempt at its new length |
| `Treasury.HistoryKeepsRent` | programs/settlement/src/processor/remove_solver.rs:46-57 | After any history the state account holds the minimum for its current length |
| `Treasury.RemovalNeverLacksRentInHistory` | programs/settlement/src/processor/remove_solver.rs:46-57 | With rent monotone in the length, the removal's rent guard never fires in a reachable world |
| `AdminHandlers.AddSolverKeepsRent` | programs/settlement/src/processor/add_solver.rs:22-68 | Adding a solver changes only the state bytes and the lamports of payer and state account, conserves these, and leaves the account rent-exempt |
| `AdminHandlers.RemoveSolverKeepsRent` | programs/settlement/src/processor/remove_solver.rs:24-60 | Removing a solver leaves the account at exactly its new minimum, the surplus going to the recipient and no other balance changing |
| `AdminHandlers.RemovalNeverLacksRent` | programs/settlement/src/processor/remove_solver.rs:46-57 | From a well-formed rent-exempt account the rent error is unreachable |
| `AdminHandlers.WithdrawalKeepsMinimum` | programs/settlement/src/processor/withdraw_native_sol.rs:22-64 | A withdrawal pays the smaller of the request and the surplus to its recipient alone, never takes the buffer below its minimum, leaves a buffer already below it alone, and conserves lamports |
| `AdminHandlers.AddSolverExact` | programs/settlement/src/processor/add_solver.rs:22-68 | AddSolver succeeds exactly when the holder in the solver-authority slot signs, the solver is not listed and the larger account can be funded; it then lists that solver, keeps the header bytes and moves exactly the missing rent |
| `AdminHandlers.RemoveSolverExact` | programs/settlement/src/processor/remove_solver.rs:24-60 | RemoveSolver succeeds exactly when that holder signs, the solver is listed, the rent is held and the recipient has room; it then unlists that solver, keeps the header bytes and refunds exactly the surplus |
| `AdminHandlers.TransferAuthorityExact` | interface/src/instruction/transfer_authority.rs:63-87 | TransferAuthority succeeds exactly on a selector below four and a key, signed by the key in slot 0 or in the selected slot; it then writes the key into exactly the 32 bytes of the selected slot |
| `AdminHandlers.WithdrawExact` | programs/settlement/src/processor/withdraw_native_sol.rs:22-64 | WithdrawNativeSol succeeds exactly when the settlement-owned-order authority signs, the native buffer is given and the recipient has room; it then pays the request capped by what is above the rent minimum, and nothing else changes |
| `OrderHandlers.NewOrderConserves` | programs/settlement/src/processor/utils/pda.rs:47-106 | Creating an order conserves lamports and leaves its account funded for its size |
| `OrderHandlers.CancelConserves` | programs/settlement/src/processor/cancel_order.rs:14-69 | Cancelling conserves lamports, whether it flips the flag or creates the order cancelled |
| `OrderHandlers.CloseConservesIff` | programs/settlement/src/processor/reclaim_order.rs:34-44 | Closing conserves lamports exactly when the recipient is another account or nothing was held |
| `OrderHandlers.ReclaimConserves` | programs/settlement/src/processor/reclaim_order.rs:17-47 | Reclaiming to an account other than the order conserves lamports |
| `OrderHandlers.ReclaimRefundsCreator` | SECURITY_DESIGN.md:33 | A reclaim closes one filled, expired or owner-released order, and its whole balance goes to its creator and nowhere else |
| `OrderHandlers.FilledClosedByAnyone` | programs/settlement/src/processor/reclaim_order.rs:50-90 | A completely filled order, cancelled or not, is closed without any signature |
| `OrderHandlers.ClosedCreatedAfresh` | programs/settlement/src/processor/create_order.rs:49-86 | Once closed, the owner's creation starts it unfilled and not cancelled |
| `OrderHandlers.TopUpExact` | programs/settlement/src/processor/utils/pda.rs:47-93 | Funding succeeds exactly when nothing is missing or a signing payer outside the program can pay it, and the payer pays what is missing and not more |
| `OrderHandlers.CreateOrderExact` | programs/settlement/src/processor/create_order.rs:16-40 | CreateOrder succeeds exactly when the owner in the intent bytes signs, the bytes are an intent whose canonical address is given, nothing is stored there and its rent can be paid; it then stores that intent unfilled and live, created by the payer |
| `OrderHandlers.CreateSettlementOwnedOrderExact` | programs/settlement/src/processor/create_settlement_owned_order.rs:24-54 | The same for the settlement's own orders, signed by the holder of the role |
| `OrderHandlers.CancelStoredExact` | programs/settlement/src/processor/cancel_order.rs:31-46 | On a stored order CancelOrder succeeds exactly when its owner, or for the settlement's own the holder of the role, signs, and sets its flag and nothing else |
| `OrderHandlers.CancelUnstoredExact` | programs/settlement/src/processor/cancel_order.rs:47-69 | On an order not stored it succeeds exactly when the intent is given, such an account signs and the order can be created, and stores it cancelled |
| `OrderHandlers.CancelCancels` | programs/settlement/src/processor/cancel_order.rs:14-69 | Whatever it was before, the order a successful CancelOrder names is stored and cancelled after, and no other order changes |
| `OrderHandlers.ReclaimExact` | programs/settlement/src/processor/reclaim_order.rs:17-90 | ReclaimOrder succeeds exactly on an order at its derivation, for its creator with room for the refund, when the exact side reached its amount, or the clock is past its expiry, or it is cancelled and its owner signs as the third account; it then closes just that order |
| `BufferHandlers.ReclaimBufferExact` | programs/settlement/src/processor/reclaim_buffer.rs:22-98 | On the entries its accounts and data list, ReclaimBuffer succeeds exactly when the reclaim authority named in the state bytes signs, every entry is the live canonical buffer of its mint, each one within its limit can be burned and closed and is not named again, the recipient has room, and at least one is within its limit; it then removes exactly the buffers within one of their limits, leaves all other accounts untouched and lowers each mint's supply by exactly the balances removed. The burn-limit error means exactly that none is within its limit and all else holds |
| `BufferHandlers.OnlyListsReclaim` | programs/settlement/src/processor/reclaim_buffer.rs:22-37 | Nothing but such a list succeeds or comes to the burn-limit error |
| `BufferHandlers.ReclaimedRentGoesToRecipient` | programs/settlement/src/processor/reclaim_buffer.rs:49-98 | The closed buffers end without lamports, every other account but the recipient keeps its own, and the total is conserved |
| `BufferHandlers.ParseEntriesExact` | interface/src/instruction/reclaim_buffer.rs:104-166 | Parsing gives exactly the listed entries, entry k being the buffer and mint at accounts 4 + 2k and 5 + 2k with the little-endian limit at bytes 8k to 8k + 8, and succeeds exactly for at least one whole pair and one limit per pair |
| `Ledger.TransferEffect` | programs/settlement/src/processor/utils/token.rs:97-120 | A successful transfer moves the amount between two accounts of one mint and changes nothing else |
| `Ledger.TransferConserves` | programs/settlement/src/processor/utils/token.rs:97-120 | It conserves the total of every mint |
| `Ledger.TransferSucceedsIff` | programs/settlement/src/processor/utils/token.rs:97-120 | When a transfer succeeds: same mint and program, balance, authority and room |
| `Ledger.TransferSpendsAllowance` | programs/settlement/src/processor/utils/token.rs:97-120 | A delegate spends its allowance and loses its place once nothing is left; no other delegation changes |
| `Ledger.MoveConserves` | programs/settlement/src/processor/utils/lamports.rs:13-29 | A lamport move conserves the total and changes exactly the two balances; onto itself it is a no-op |
| `Ledger.PullEffect` | programs/settlement/src/processor/begin_settle.rs:343-362 | The pulls debit the sell account by exactly the reported sum and credit exactly the listed destinations |
| `Ledger.TwoPassIsInOrder` | programs/settlement/src/processor/finalize_settle.rs:78-120 | Paying tokens first and native SOL second succeeds exactly when one pass in order would and leaves the native buffer funded, with the same balances |
| `Ledger.PushFundsEffect` | programs/settlement/src/processor/finalize_settle.rs:78-120 | A payout moves each push on its own ledger, conserves every mint and the lamports, and never leaves a paying native buffer at zero |
| `Commits.PullsSucceed` | programs/settlement/src/processor/begin_settle.rs:343-362 | Pulls that every account covers, in amount, authority and room, all succeed and leave the later orders covered |
| `Commits.BatchSucceeds` | programs/settlement/src/processor/begin_settle.rs:210-254 | A batch in increasing order, one push each, settles whenever every order passes the checks written out over accounts and amounts, its amounts are acceptable on top of what it already filled, and every account covers what the whole batch takes from it and brings it |
| `Commits.PayoutSucceeds` | programs/settlement/src/processor/finalize_settle.rs:78-120 | A payout that every account covers on its ledger succeeds, when something is left in a paying native buffer |
| `SettleWire.RecoverDiscriminator` | interface/src/instruction/mod.rs:96-105 | The first byte selects the instruction and the rest is handed back; byte 0 is BeginSettle and byte 1 FinalizeSettle, exactly |
| `SettleWire.DiscriminatorBytes` | interface/src/instruction/mod.rs:24-105 | Which byte selects which of the thirteen instructions, and that no other byte selects one |
| `Transactions.DispatchTable` | programs/settlement/src/processor/mod.rs:35-76 | The first data byte alone selects the handler that runs, and the rest of the data is its input |
| `SettleWire.ParseBegin` | interface/src/instruction/settle/begin.rs:263-330 | Every accepted input has one amount per destination and three further accounts per order |
| `SettleWire.ParseBeginExact` | interface/src/instruction/settle/begin.rs:263-330 | Which data and accounts parse as BeginSettle, byte by byte, and where each field is read |
| `SettleWire.ParseFinalizeExact` | interface/src/instruction/settle/finalize.rs:28-260 | The same for FinalizeSettle |
| `SettleWire.SplitCoversInput` | interface/src/instruction/settle/begin.rs:203-236 | The yielded account and amount groups concatenate to exactly the input, one group per count byte and of its size |
| `SettleWire.OrderCursor.Next` | interface/src/instruction/settle/begin.rs:203-236 | Each step stays in bounds and yields exactly the next order |
| `SettleWire.CollectOrders` | interface/src/instruction/settle/begin.rs:203-236 | Draining the iterator yields every order once, in order, covering the input |
| `SettleWire.IntrospectionAgrees` | programs/settlement/src/processor/begin_settle.rs:98-153 | Whatever FinalizeSettle parsing accepts, the pushes found by introspection equal the executed ones in number, order and content |
| `SettleWire.SplitPushBytes` | interface/src/instruction/settle/finalize.rs:28-42 | As many bumps as amounts |
| `SettleBuild.BuildBegin` | interface/src/instruction/settle/begin.rs:76-155 | The builder's loops produce the sorted layout |
| `SettleBuild.BeginParsesIff` | interface/src/instruction/settle/begin.rs:76-155 | A built BeginSettle parses exactly when it has at most 255 orders and at most 255 pulls each: beyond that the one-byte counts wrap |
| `SettleBuild.BeginRoundTrip` | interface/src/instruction/settle/begin.rs:76-330 | Parsing a built BeginSettle gives the stably sorted permutation, each order keeping its own accounts, destinations and amounts |
| `SettleBuild.BeginStrictlyIncreasing` | interface/src/instruction/settle/begin.rs:76-155 | With distinct order addresses the parsed orders are strictly increasing |
| `SettleBuild.MintSlot` | interface/src/instruction/settle/mod.rs:52-62 | A mint survives its slot exactly when it is not the placeholder |
| `SettleBuild.BuildFinalize` | interface/src/instruction/settle/finalize.rs:112-162 | The builder's loop produces the account layout and data |
| `SettleBuild.FinalizeRoundTrip` | interface/src/instruction/settle/finalize.rs:112-260 | Parsing a built FinalizeSettle gives back its pushes in order |
| `SettleBuild.TokenProgramSlots` | interface/src/instruction/settle/begin.rs:120-130 | Each token program is named in its slot unless only the other is used |
| `Sorting.SortIsStable` | interface/src/instruction/settle/begin.rs:76-155 | The index sort is a permutation, sorted, and stable |
| `Sorting.SortedListsAgree` | client/src/instruction/finalize_settle.rs:52-72 | A strictly sorted list is determined by its elements |
| `Client.BuildClientBegin` | client/src/instruction/begin_settle.rs:51-78 | The loop over four vectors builds the parallel lists of the orders |
| `Client.SortedIntentsAgree` | client/src/instruction/finalize_settle.rs:52-72 | Two lists of the same intents with distinct addresses, in any order, sort to the same list |
| `Client.SourceAccepted` | client/src/instruction/finalize_settle.rs:84-107 | The buffer the client pays from is accepted for the order's buy mint |
| `Client.BuiltPairIsReciprocal` | programs/settlement/src/processor/utils/settle.rs:17-39 | Built for each other's positions, both instructions pass the reciprocity check |
| `Client.ClientPairLinesUp` | client/src/instruction/finalize_settle.rs:52-133 | In any caller order on either side, order k keeps its sell account, sell mint, pull destinations and amounts, push k carries the buffer, destination, bump and amount of order k, and the addresses strictly increase |
| `Client.ClientFinalizeMints` | client/src/instruction/finalize_settle.rs:84-133 | Every push is read with its order's buy mint where the transfer is checked, and with the placeholder otherwise |
| `Client.ClientPairPassesChecks` | programs/settlement/src/processor/begin_settle.rs:40-89 | Such a pair, with no settle instruction between, passes every pairing check, has as many pushes as orders, and every push source is accepted |
| `Cli.PrepareSettlement` | test-cli/src/cmd/settle.rs:257-356 | The CLI's tally and balance check passes exactly when the simulated settlement does |
| `Cli.CheckMatchesSimulation` | test-cli/src/cmd/settle.rs:342-356 | Covered tallies without overflow are exactly the settlements that run from empty buffers without over- or underflow |
| `Cli.CliSettlementAccepted` | test-cli/src/cmd/settle.rs:360-371 | One pull of the whole sell amount and one push of the buy amount completes a fresh order of either kind and fill mode |
| `Settlements.PayoutsCovered` | test-cli/src/cmd/settle.rs:342-356 | When the check passes and the batch's mints have distinct buffers, no source pays out more than is pulled into it |
| `Settlements.CliSettlementCommits` | test-cli/src/cmd/settle.rs:101-157 | Fresh, live, distinct orders that pass the check, on accounts that hold and have delegated what they sell: after whatever set-up instructions led there, the pair the CLI builds commits, completes every order, and moves every balance by exactly the orders' amounts |
| `SwapExample.SwapIsPrepared` | test-cli/src/cmd/settle.rs:342-371 | A deployment, a ledger and two orders swapping two tokens meet every assumption of that theorem together |
| `SwapExample.SwapCommits` | test-cli/src/cmd/settle.rs:101-157 | The pair built for the two orders commits on that ledger and completes both |
| `StateAccounts.SearchIn` | interface/src/data/state.rs:185-188 | Binary search returns the key's index, or on a sorted list the place that splits it into smaller and larger |
| `StateAccounts.IsSolverIsMembership` | interface/src/data/state.rs:191-193 | On a well-formed account is_solver is membership in the abstract set |
| `StateAccounts.AddedRefinesUnion` | interface/src/data/state.rs:275-306 | Growing and inserting fails exactly on a member; otherwise it adds it to the set, keeps the bytes well-formed and the header unchanged |
| `StateAccounts.RemovedRefinesDifference` | interface/src/data/state.rs:315-342 | Removing and shrinking fails exactly on a non-member; otherwise it takes it out of the set, with the same frame |
| `StateAccounts.SetAuthorityFrame` | interface/src/data/state.rs:255-264 | Writing a role changes that role alone, and no solver |
| `StateAccounts.StateAccount.Insert` | interface/src/data/state.rs:275-306 | The in-place shift and write computes the specified bytes, or fails and changes nothing |
| `StateAccounts.StateAccount.Remove` | interface/src/data/state.rs:315-342 | The in-place shift computes the specified bytes and the shorter length, or fails and changes nothing |
| `StateAccounts.StateAccount.SetHolder` | interface/src/data/state.rs:255-264 | Writes the role's slot in place and no other byte |
| `KnownBuffers.LookupRefinesLinear` | programs/settlement/src/pda/buffer.rs:97-171 | With an accepted multiplier, the slot-table lookup is linear search by mint |
| `KnownBuffers.SlotIsTopBits` | programs/settlement/src/pda/buffer.rs:112-117 | A slot is the nine top bits of the product modulo 2^64 |
| `KnownBuffers.CollisionBreaksLookup` | programs/settlement/src/pda/buffer.rs:97-171 | Over distinct mints, the hashed lookup agrees with linear search exactly when the slots are distinct |
| `KnownBuffers.HasDistinctSlots` | programs/settlement/src/pda/buffer.rs:151-163 | The scan with a taken-table decides pairwise distinct slots |
| `KnownBuffers.FindSlotMultiplier` | programs/settlement/src/pda/buffer.rs:128-148 | Returns the first accepted digest within the attempt bound, or none exactly when no attempt is accepted |
| `KnownBuffers.BuildSlotTable` | programs/settlement/src/pda/buffer.rs:97-110 | The loop builds the specified table |
| `KnownBuffers.ValidateBufferExact` | programs/settlement/src/pda/buffer.rs:184-198 | Accepts exactly the stored address for a known mint, whatever the bump, and exactly the bump-derived one otherwise |
| `Intent.IntentRoundTrip` | interface/src/data/intent.rs:345-423 | Decoding undoes encoding exactly on intents whose token buy asset avoids the native marker |
| `Intent.IntentCanonical` | interface/src/data/intent.rs:390-423 | Encoding undoes decoding on every accepted byte string |
| `Intent.DecodeInjective` | interface/src/data/intent.rs:390-423 | No two byte strings decode to one intent |
| `Intent.EncodeInjective` | interface/src/data/intent.rs:345-388 | No two denotable intents share an encoding |
| `Intent.CheckAgreesWithDecode` | interface/src/data/intent.rs:259-266 | The byte check accepts exactly what decoding accepts |
| `Intent.DecodedSlots` | interface/src/data/intent.rs:390-423 | Which 213 bytes are an intent and at which offset each field is read |
| `Intent.FlagsByte` | interface/src/data/intent.rs:65-100 | The byte built by setting bits decodes to the flags |
| `Basics.LessIsLexicographic` | programs/settlement/src/processor/begin_settle.rs:210-254 | Addresses compare by the first byte where they differ |
| `Intent.WriteIntent` | interface/src/data/intent.rs:345-388 | Filling the array slot by slot gives the specified encoding |
| `OrderAccounts.OrderRoundTrip` | interface/src/data/order.rs:79-123 | Decoding undoes encoding exactly on bodies with a denotable intent |
| `OrderAccounts.OrderCanonical` | interface/src/data/order.rs:144-200 | Encoding undoes decoding on every readable account |
| `OrderAccounts.OrderAccount.Attach` | interface/src/data/order.rs:144-152 | Attaches exactly to a buffer of the right length and discriminator |
| `OrderAccounts.OrderAccount.Initialize` | interface/src/data/order.rs:266-289 | Stamps the whole encoding into a buffer of the right length and refuses any other, unchanged |
| `OrderAccounts.OrderAccount.FilledAmounts` | interface/src/data/order.rs:184-190 | Reads the two totals of the order the bytes encode |
| `OrderAccounts.OrderAccount.Cancelled` | interface/src/data/order.rs:174-180 | Reads the flag of the order the bytes encode, and fails exactly on a byte that is no boolean |
| `OrderAccounts.OrderAccount.ReadIntent` | programs/settlement/src/processor/utils/intent.rs:27-39 | The in-place check and read give the intent of the order the bytes encode |
| `OrderAccounts.OrderAccount.SetAmounts` | interface/src/data/order.rs:299-303 | The in-place write equals re-encoding the account with just the two totals changed |
| `OrderAccounts.OrderAccount.SetCancelled` | interface/src/data/order.rs:307-310 | The in-place write equals re-encoding the account with just the flag set |
| `Banks.ScanForNesting` | programs/settlement/src/processor/begin_settle.rs:159-195 | The scanning loop accepts exactly when the finalize comes later and no settle instruction lies between |
| `Banks.Bank.Load` | interface/src/data/order.rs:232-239 | Opening the stored bytes at an address succeeds exactly when they hold an order at its own derivation, and the accessor then holds that order |
| `Banks.Bank.Check` | programs/settlement/src/processor/begin_settle.rs:276-341 | Validating an order off its stored bytes and the ledgers gives the specified order or error |
| `Banks.Bank.Settle` | programs/settlement/src/processor/begin_settle.rs:364-375 | Folding a settlement into the stored bytes leaves the bytes of the settled order, or reports the specified error |
| `Banks.Bank.DoOrder` | programs/settlement/src/processor/begin_settle.rs:262-375 | On the stored bytes: validates one order, pulls its funds and rewrites its totals as specified, or reports its error |
| `Banks.Bank.DoOrders` | programs/settlement/src/processor/begin_settle.rs:210-254 | The loop over cursor, pushes and previous address ends as the batch specification does |
| `Banks.Bank.BeginSettleIx` | programs/settlement/src/processor/begin_settle.rs:40-89 | The handler ends in the specified accounts or with the specified error |
| `Banks.Bank.PayOut` | programs/settlement/src/processor/finalize_settle.rs:78-120 | The two payout loops end as the payout specification does |
| `Banks.Bank.FinalizeSettleIx` | programs/settlement/src/processor/finalize_settle.rs:23-56 | As above for FinalizeSettle |
| `Banks.Bank.CreateAt` | programs/settlement/src/processor/create_order.rs:49-86 | Stamping a new account's bytes in place adds exactly the specified order, after funding its rent |
| `Banks.Bank.CreateOrderIx` | programs/settlement/src/processor/create_order.rs:16-40 | On the stored bytes, CreateOrder ends in the specified world or error |
| `Banks.Bank.CreateSettlementOwnedOrderIx` | programs/settlement/src/processor/create_settlement_owned_order.rs:24-54 | On the stored order bytes and the role slot of the state bytes, CreateSettlementOwnedOrder ends in the specified world or error |
| `Banks.Bank.CancelExisting` | programs/settlement/src/processor/cancel_order.rs:31-46 | Setting the flag byte in place cancels exactly the order stored there, if the signer may |
| `Banks.Bank.CancelOrderIx` | programs/settlement/src/processor/cancel_order.rs:14-86 | On the stored bytes, CancelOrder ends in the specified world or error on both its paths |
| `Banks.Bank.Reclaimable` | programs/settlement/src/processor/reclaim_order.rs:50-90 | Read off the stored bytes, an account is reclaimable exactly as specified for the order it encodes |
| `Banks.Bank.ReclaimOrderIx` | programs/settlement/src/processor/reclaim_order.rs:17-47 | On the stored bytes, ReclaimOrder ends in the specified world or error |
| `Banks.Bank.AddSolverIx` | programs/settlement/src/processor/add_solver.rs:22-68 | As above for AddSolver, through the in-place account |
| `Banks.Bank.RemoveSolverIx` | programs/settlement/src/processor/remove_solver.rs:24-60 | As above for RemoveSolver, through the in-place account |
| `Banks.Bank.TransferAuthorityIx` | programs/settlement/src/processor/transfer_authority.rs:15-45 | As above for TransferAuthority, through the in-place account |
| `Banks.Bank.WithdrawNativeSolIx` | programs/settlement/src/processor/withdraw_native_sol.rs:22-64 | Pays the recipient exactly the smaller of the request and the surplus above rent, changes no other balance or account, conserves lamports, and ends as specified |
| `Banks.Bank.ReclaimBufferIx` | programs/settlement/src/processor/reclaim_buffer.rs:22-98 | As above for ReclaimBuffer, its loop included |
| `Banks.Bank.Process` | programs/settlement/src/processor/mod.rs:35-76 | The entry point ends as the dispatch specification does |
| `Banks.Bank.RunAll` | programs/settlement/src/processor/mod.rs:35-76 | The instruction loop ends in the specified world, or with the error of the first failing instruction |
| `Banks.Bank.RunTransaction` | programs/settlement/src/processor/mod.rs:35-76 | A transaction ends in the specified world, or with the error of its first failing instruction and every account restored, order accounts byte for byte |

## Left out

- Initialize and CreateBuffer handlers: account-creation calls with only easy members; initialising fails because the state exists, and CreateBuffer may do whatever a foreign instruction may do to the ledgers.
- SHA-256, program-address derivation and the bump search's cryptography: abstract functions; a collision is excluded per address where a result needs it.
- Token programs beyond checked, mint-matching transfers with owner or delegate authority, burn and close: no extensions, fees, hooks, frozen accounts, close authorities, decimals, or the lamports behind wrapped SOL.
- Foreign token writes are unconstrained, so results about token balances speak about executions of this program, at the top level or called by foreign code.
- Reopening.CancellationFinalIff: assumes that the ledgers the world starts on can pay for closing, creating and settling the order again.
- Solana runtime details: compute limits, borrow and writable flags, account data caps, the end-of-transaction rent check, the check that an instruction balances its lamports, and stack height beyond "called from another program".
- Account ownership by other programs: an account is program-owned when it is an order, the state account or the native buffer; a failing creation at a foreign-owned address is one generic system-program error.
- StateAccounts.StateAccount.Insert: requires the account to have been grown by one slot, where the program panics otherwise.
- Fixed-layout builders of single-record instructions (orders, roles, solvers, withdrawal, buffer reclaim): trivial round trips.
- The command-line tool beyond its amount logic, its RPC access and buffer registration, the JavaScript client, the IDL and deployment scripts.
- The list of known mints is an arbitrary list.
- Liveness: what makes each instruction succeed is stated exactly, but not that anyone will ever send it; and of an instruction that fails on several grounds, which error comes first is in the specification functions only.
