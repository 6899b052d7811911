# A verified model of the rsm runtime core

The repository is a minimal deterministic state-machine runtime in Rust. Two
pallets (state modules) are composed into one `Runtime`:

- the **balances pallet** keeps a map from account to `u128` balance, where a
  missing entry reads as zero, and moves funds with checked subtraction and
  checked addition that both run before anything is written;
- the **system pallet** keeps the block number and a nonce per account.

A block is a header plus an ordered list of extrinsics, each a caller and a
call. `execute_block` increments the block number, rejects the block when the
header carries a different number (the increment stays), and otherwise, for
each extrinsic in order, increments the caller's nonce and dispatches the
call. A failed extrinsic is only reported; the block still succeeds.
`dispatch` unwraps `RuntimeCall::Balances(call)` and hands the call to the
balances pallet, whose only call is `Transfer { to, amount }`, executed as
`transfer(caller, to, amount)`.

The model has four modules, one per component:

- `Support` (`support.dfy`): the account type (`string`) and `Outcome`, the
  runtime's `Result<(), &'static str>`. Errors carry the source's exact
  messages: `"Not enough funds"`, `"Overflow"` and
  `"block number does not match what is expected"`.
- `Balances` (`balances.dfy`): `Balance` is a `nat` at most 2^128 − 1, and
  checked arithmetic is an explicit bound test. The pure functions
  `LedgerBalance`, `LedgerTransfer` and `LedgerDispatch` say what each
  operation does to a ledger. The class `Pallet` holds the map as a field,
  updates it in place, and is proved against those functions. `Total` is the
  sum of all balances.
- `System` (`system.dfy`): a block counter and a nonce map, both starting at
  zero and only ever incremented by one.
- `Runtime` (`runtime.dfy`): `RuntimeCall`, `Extrinsic`, `Header` and
  `Block`. `State` is a snapshot of both pallets. `ApplyExtrinsic`,
  `ApplyRange` and `BlockExecution` say what one extrinsic, a run of
  extrinsics and a whole block do to a snapshot. The class `Runtime` owns one
  instance of each pallet. Its `ExecuteBlock` runs the source's loop and is
  proved equal to `BlockExecution`. The failures that the source prints are
  returned as a list of `Failure(blockNumber, index, error)` records.

**Self-transfer.** When the source and the destination of a transfer are the
same account, both reads return the same balance `b`. The second write
(`b + amount`) overwrites the first (`b − amount`), so the account gains
`amount` (`src/balances.rs:32-39`). Conservation of the total therefore holds
only between distinct accounts. `Balances.TransferToSelf` states what happens
to the account and to the total. `Balances.TransferConserves` and
`Runtime.BlockConserves` state conservation under the `source != dest`
condition. The model keeps the source's behaviour; it does not correct it. A
self-transfer also fails with `"Overflow"` when the account's balance plus
`amount` exceeds 2^128 − 1, although nothing leaves the account.

## Model

| member | source | states |
|---|---|---|
| `Balances.Pallet.constructor` | src/balances.rs:14-16 | a new pallet has an empty map, so every account's balance is 0 |
| `Balances.Pallet.SetBalance` | src/balances.rs:18-20 | the entry of `who` is overwritten or inserted: `who` now reads `amount` and every other account reads what it read before |
| `Balances.Pallet.Transfer` | src/balances.rs:26-42 | the in-place transfer (two reads, both checks, then the source write and the destination write) leaves the map and returns the result that `LedgerTransfer` gives for the old map; on an error the map is unchanged |
| `Balances.Pallet.Dispatch` | src/main.rs:86 | the pallet's dispatch of `Transfer { to, amount }` is `transfer(caller, to, amount)`, with the same effect and result |
| `Balances.SetBalanceOnlyTouchesItsAccount` | src/balances.rs:18-24 | an account never set reads 0; after a set, the account reads the amount set and all other accounts are unchanged |
| `Balances.TransferNotEnoughFunds` | src/balances.rs:35 | a transfer returns `Err("Not enough funds")` exactly when `amount` exceeds the source balance |
| `Balances.TransferOverflow` | src/balances.rs:35-36 | a transfer returns `Err("Overflow")` exactly when the source check passes and `dest + amount` exceeds 2^128 − 1 |
| `Balances.TransferIsAtomic` | src/balances.rs:35-41 | a transfer succeeds exactly when both checks pass; a failed transfer leaves the map exactly as it was |
| `Balances.TransferMovesFunds` | src/balances.rs:35-39 | a successful transfer between distinct accounts sets the source to `old − amount` and the destination to `old + amount`, and no third account changes |
| `Balances.TransferToSelf` | src/balances.rs:32-39 | a successful self-transfer leaves the account at `old + amount` (the last write wins), changes no other account, and raises the total by `amount` |
| `Balances.TransferConserves` | src/balances.rs:32-39 | any transfer between distinct accounts, successful or not, preserves the sum of all balances |
| `Balances.TotalRemove` | src/balances.rs:10 | the total of a map is one entry's balance plus the total of the rest, whichever entry is taken out |
| `Balances.TotalUpdate` | src/balances.rs:18-20 | overwriting one balance changes the total by the new value minus the old one |
| `Balances.InitBalances` | src/balances.rs:57-65 | the `init_balances` test: alice reads 0, then 100 after `set_balance`; bob reads 0 |
| `Balances.TransferBalance` | src/balances.rs:67-85 | the `transfer_balance` test: a transfer from an empty account fails with "Not enough funds"; after funding, a transfer of 1 leaves 99 and 1; transferring 100 then fails |
| `System.Pallet.constructor` | src/main.rs:45-47 | the system pallet starts at block 0 with every nonce 0 |
| `System.Pallet.IncBlockNumber` | src/main.rs:51 | the block number rises by exactly one and no nonce changes |
| `System.Pallet.IncNonce` | src/main.rs:60 | the caller's nonce rises by exactly one (its entry is created if absent); no other nonce and not the block number changes |
| `Runtime.Runtime.constructor` | src/main.rs:45-47 | a new runtime holds fresh pallets, at block 0, with no nonces and no balances |
| `Runtime.Runtime.Dispatch` | src/main.rs:80-90 | dispatching `Balances(call)` has exactly the effect and result of the balances pallet's dispatch; its error comes back unchanged |
| `Runtime.Runtime.ExecuteBlock` | src/main.rs:50-69 | the in-place execution (increment, header check, then for each extrinsic: nonce, dispatch, report a failure) leaves both pallets in the state `BlockExecution` gives for the old state, with its result and failure list |
| `Runtime.DispatchIsTransfer` | src/main.rs:85-87 | dispatching `Balances(Transfer { to, amount })` for `caller` is the pallet's `transfer(caller, to, amount)` |
| `Runtime.ExtrinsicStep` | src/main.rs:59-61 | one extrinsic raises its caller's nonce by one whatever the outcome, leaves other nonces and the block number alone, and, when it fails, leaves the ledger unchanged |
| `Runtime.ApplyKeepsBlockNumber` | src/main.rs:58-67 | applying extrinsics never changes the block number |
| `Runtime.NoncesCountCalls` | src/main.rs:58-61 | after a run of extrinsics, every account's nonce has risen by the number of those extrinsics it called |
| `Runtime.ApplyInSequence` | src/main.rs:58-67 | extrinsics are applied strictly in order: a run splits at any position into the first part and then the second from the state the first reached, with failures in that order |
| `Runtime.FailuresInOrder` | src/main.rs:58-66 | failures are reported with the block's number, at most one per extrinsic, each naming a position of the run, in increasing position order |
| `Runtime.FailureReported` | src/main.rs:61-66 | position `k` is reported as failed exactly when extrinsic `k` fails on the state the extrinsics before it reached, and then a record carries the block number, `k` and that dispatch's own error message |
| `Runtime.ApplyConserves` | src/main.rs:58-67 | a run with no self-transfer preserves the sum of all balances |
| `Runtime.BlockAdvancesBlockNumber` | src/main.rs:51-54 | executing a block raises the block number by exactly one, whether or not the block is accepted |
| `Runtime.BlockRejectedOnMismatch` | src/main.rs:51-54 | a block fails exactly when its header differs from the incremented block number; it then fails with "block number does not match what is expected", reports nothing, and changes no nonce and no balance, while the increment stays |
| `Runtime.BlockNonces` | src/main.rs:56-68 | in an accepted block, each account's nonce rises by its number of extrinsics; accounts that call nothing keep their nonce |
| `Runtime.BlockConserves` | src/main.rs:50-69 | a block with no self-transfer leaves the sum of all balances unchanged |
| `Runtime.RunExample` | src/main.rs:93-119 | the example in `main`: alice at 100, block 1 transferring 69 to bob and 20 to charlie, ends with alice 11, bob 69, charlie 20, alice's nonce 2, block number 1, result `Ok` and no failures |
| `Runtime.RunFailingExtrinsic` | src/main.rs:56-68 | in a valid block, a transfer from an empty account is reported as failure 0 with "Not enough funds", moves nothing, still raises the caller's nonce to 1, and the block succeeds |
| `Runtime.RunReusedBlockNumber` | src/main.rs:51-54 | blocks 1 and 2 succeed; a third block reusing number 2 is rejected without moving funds or raising nonces, and the block number still becomes 3 |

## Left out

- `main`'s debug dump (`println!("{:#?}", rt)`) and its `expect` panic are I/O. `Runtime.RunExample` keeps only the example's data and checks its end state.
- The `eprintln!` of a failed extrinsic is I/O. The model returns the `(block number, index, error)` records it would print as a list.
- The generic `Config` traits and the `num` crate's `CheckedAdd`, `CheckedSub` and `Zero` are left out. The model fixes the concrete types: `string` accounts, a `Balance` bounded by 2^128 − 1, and `nat` for the block number and nonces.
- `System.Pallet.IncBlockNumber`: the runtime's block number is a `u32`. The model uses an unbounded `nat` and does not model wrap-around at 2^32 − 1. `system.rs` is not part of this model, and nothing in `main.rs` or `balances.rs` reaches the bound.
- `System.Pallet.IncNonce`: the nonce is a `u32` too. It is an unbounded `nat` here for the same reason.
- `system.rs` and `support.rs` are not part of this model beyond the minimal counter, nonce map, `Extrinsic`/`Header`/`Block` records and `DispatchResult` that the runtime uses.
- The balances pallet's `Call` enum and its `dispatch` are defined outside `balances.rs` and `main.rs`. The model gives them the single variant `Transfer { to, amount }` that `main` uses, dispatched as `transfer(caller, to, amount)`.
- `#[derive(Debug)]` output is not modelled.
