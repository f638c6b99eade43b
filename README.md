# Gas economics of go-ethereum's state transition and block processor (pre-London)

This project is a Dafny model of how go-ethereum charges gas before EIP-1559. It covers two layers:

- **The state transition of one message** (`core/state_transition.go`):
  - the intrinsic gas charge;
  - the nonce check;
  - the gas purchase from the sender and the block gas pool;
  - dispatch to contract creation or call, with the sender's nonce bumped first for a call;
  - the special case of `ErrInsufficientBalance`;
  - the refund, capped at half the gas used and at the refund counter;
  - the fee paid to the coinbase.
- **The block loop** (`core/state_processor.go`). `Process` threads one gas pool, initialised to the block gas limit, through every transaction, and stops at the first error. `ApplyTransaction` builds each receipt: cumulative and own gas, failure flag, contract address for creations, and an intermediate root before Byzantium.

Each core file's imperative code is imperative Dafny:

- `StateTransition` is a class whose methods update `gas` and `initialGas` and change a `GasPool` and a `StateDB`.
- `Process` is a loop over the transactions.
- `IntrinsicGas` is a loop over the data bytes.

Each method is proved equal to a function on values:

- `Transition` for `TransitionDb` and `ApplyMessage`;
- `ApplyTx` for `ApplyTransaction`;
- `Replay` for the loop of `Process`.

The lemmas state what those functions mean: which errors leave everything unchanged, that the fee moves from the sender to the coinbase, that gas is conserved between the used total and the pool, that receipts keep transaction order, and the running totals.

The EVM is an opaque total function. Given a call frame and the accounts, it returns the gas it spent, its error, the refund it earned and the logs it emitted. Sender recovery, contract-address derivation, the log bloom, trie hashing, the DAO migration and the consensus engine's block rewards are function-typed parameters (`Primitives`, `StateDB.rootOf`).

`uint64` is the subset type `u64`, and `big.Int` amounts are `int`. uint64 wrap-around is written out wherever the source adds in uint64 (`WrapAdd`):

- the `st.gas += msg.Gas()` of `buyGas`;
- the nonce increment;
- the refund counter;
- the `*usedGas` accumulator.

`ReplayAccounts` proves that the block total never actually wraps.

`core/state_processor.go:114` binds the converted message to `sg`, but lines 122-178 use `msg`. The model reads the converted message as `msg`, which is what the code evidently intends.

## Model

| member | source | states |
|---|---|---|
| `StateTransitions.IntrinsicGas` | core/state_transition.go:83-117 | succeeds exactly when the cost fits in uint64 (base + 68 per non-zero byte + 4 per zero byte) and then returns that cost; otherwise returns `ErrOutOfGas` and 0 |
| `StateTransitions.BaseGas` | core/state_transition.go:85-90 | the base charge is 53000 exactly for a contract creation under Homestead, and 21000 otherwise |
| `StateTransitions.IntrinsicCostBounds` | core/state_transition.go:92-116 | empty data costs exactly the base charge; every byte costs between 4 and 68; the cost is never below 21000 |
| `StateTransitions.NonZeroBytesExtremes` | core/state_transition.go:94-101 | the non-zero count is 0 exactly for all-zero data, and equals the length exactly when no byte is zero |
| `StateTransitions.NonZeroBytesConcat` | core/state_transition.go:94-101 | the non-zero count of a concatenation is the sum of the counts |
| `StateTransitions.IntrinsicCostConcat` | core/state_transition.go:92-116 | the data part of the intrinsic cost is additive over concatenated data |
| `StateTransitions.DivGuard` | core/state_transition.go:104-111 | the guard `(MaxUint64-gas)/rate < k` fires exactly when `k*rate` exceeds the room left, so each guard catches exactly an overflow of its term |
| `StateTransitions.NonceCheck` | core/state_transition.go:196-207 | no error exactly when the check is off or the nonces are equal; `ErrNonceTooHigh` exactly when the state nonce is lower; `ErrNonceTooLow` exactly when it is higher |
| `StateTransitions.GasAfterRefund` | core/state_transition.go:287-300 | the refund added to the gas left is at most half the gas used and at most the refund counter, and equals one of them; the result stays between the gas left and the initial gas |
| `StateTransitions.StateTransition.constructor` | core/state_transition.go:121-133 | the new transition holds the pool, the EVM and the message; price, value and data are the message's and the state is the EVM's StateDB; `gas` and `initialGas` start at 0 |
| `StateTransitions.StateTransition.To` | core/state_transition.go:148-153 | the recipient, or the zero address for a creation |
| `StateTransitions.StateTransition.GasUsed` | core/state_transition.go:316-319 | while `gas <= initialGas`, gas used plus gas left is the initial gas |
| `StateTransitions.StateTransition.UseGas` | core/state_transition.go:155-163 | fails with `ErrOutOfGas` and leaves `gas` unchanged when `gas < amount`; otherwise lowers `gas` by exactly `amount` |
| `StateTransitions.StateTransition.BuyGas` | core/state_transition.go:166-194 | on a short balance or a short pool: returns the error, and the state, pool, `gas` and `initialGas` are unchanged. Otherwise: the pool loses `msg.gas`, the sender loses gas×price, `gas` grows by `msg.gas` (uint64), and `initialGas == msg.gas` |
| `StateTransitions.StateTransition.PreCheck` | core/state_transition.go:196-209 | the nonce check first, with nothing changed on a mismatch; then `BuyGas` |
| `StateTransitions.StateTransition.RefundGas` | core/state_transition.go:287-312 | `gas` becomes `GasAfterRefund`; the sender is credited gas×price; the pool gets `gas` back |
| `StateTransitions.StateTransition.RunEvm` | core/state_transition.go:253-262 | a call first bumps the sender's nonce (uint64); then the EVM runs the frame with the gas left |
| `StateTransitions.StateTransition.RefundAndPay` | core/state_transition.go:278-281 | after the refund, the coinbase is credited gas used × price, with gas used computed after the refund |
| `StateTransitions.StateTransition.Conclude` | core/state_transition.go:264-283 | stops with no refund and no fee on `ErrInsufficientBalance`; otherwise settles as `Settle` says |
| `StateTransitions.StateTransition.ExecuteMessage` | core/state_transition.go:226-283 | the state and results after `preCheck` are exactly `Execute` |
| `StateTransitions.StateTransition.TransitionDb` | core/state_transition.go:219-284 | the new state and pool, `ret`, `usedGas`, `failed` and `err` are exactly `Transition` of the old state |
| `StateTransitions.ApplyMessage` | core/state_transition.go:142-145 | a fresh state transition on the EVM's StateDB gives exactly `Transition` |
| `StateTransitions.NonceMismatchRejected` | core/state_transition.go:199-206 | a nonce mismatch under the check changes nothing, uses no gas and names the right error |
| `StateTransitions.PurchaseRejected` | core/state_transition.go:173-184 | a short balance (checked first) or a short pool changes nothing and uses no gas |
| `StateTransitions.PurchaseCharges` | core/state_transition.go:182-193 | a purchase takes exactly `msg.gas` from the pool and gas×price from the sender, and nothing else |
| `StateTransitions.IntrinsicShortfall` | core/state_transition.go:236-243 | when the bought gas does not cover the intrinsic cost, the result is `ErrOutOfGas`, and the purchase is not undone |
| `StateTransitions.OnlyCallsBumpNonce` | core/state_transition.go:254-262 | the world handed to the EVM has the sender's nonce raised by one (uint64) for a call and untouched for a creation, with every other nonce as before; settling after the EVM changes no nonce, whatever the EVM did. With this model's EVM, the transition as a whole changes only the sender's nonce, and only for a call |
| `StateTransitions.InsufficientBalanceStops` | core/state_transition.go:265-276 | `ErrInsufficientBalance` from the EVM gives that error with zero gas used; there is no refund to the sender or the pool and no fee |
| `StateTransitions.SettlementAccounts` | core/state_transition.go:264-312 | any other outcome gives `err == None` with `failed` iff the EVM failed. Used gas is at most `msg.gas` and at least half the intrinsic cost. Pool after + used gas == pool before. Measured against the world the EVM left, whatever it did: the sender is credited unused gas × price, the coinbase used gas × price (both, when they are the same account), every other balance is unchanged, and nonces, refund counter and logs are as the EVM left them |
| `StateTransitions.RefundPlusFeeIsPurchase` | core/state_transition.go:278-311 | measured against the world the EVM left, the sender's refund credit plus the coinbase's fee credit equals `initialGas × gasPrice`; when sender and coinbase coincide, that account gains exactly `initialGas × gasPrice` |
| `StateTransitions.FeeMovesToCoinbase` | core/state_transition.go:166-312 | with this model's EVM, which moves no balance, the whole transition debits the sender exactly used gas × price and credits the coinbase the same; every other balance is unchanged |
| `StateTransitions.PlainTransferUsesBaseGas` | core/state_transition.go:219-284 | a data-less call bought with exactly 21000 gas uses between 10500 and 21000 gas, and all 21000 when the refund counter is zero |
| `GasPools.GasPool.SubGas` | core/state_transition.go:182-184 | fails with `ErrGasLimitReached` and leaves the pool unchanged when short; otherwise takes exactly the amount |
| `GasPools.GasPool.AddGas` | core/state_transition.go:311 | the pool grows by the amount, saturating at MaxUint64 |
| `Common.WrapAdd` | core/state_transition.go:187 | uint64 addition: the sum when it fits; otherwise the sum minus 2^64, which is smaller than the first operand |
| `Common.WrapAddIsModular` | core/state_transition.go:187 | `WrapAdd` is addition modulo 2^64, which is Go's `+` on `uint64` |
| `Vm.Run` | core/state_transition.go:254-262 | the gas left never exceeds the gas given. Balances and nonces are untouched. A failed run leaves the state as it was. An execution that needs more gas than the frame has fails with `ErrOutOfGas` and 0 left |
| `Vm.Evm.Create` | core/state_transition.go:256 | a creation frame (no recipient) run as `Run` says |
| `Vm.Evm.Call` | core/state_transition.go:261 | a call frame to the recipient run as `Run` says |
| `StateProcessing.ApplyTransaction` | core/state_processor.go:110-186 | the new state and pool, and the receipt, gas, error and new running total, are exactly `ApplyTx`. On error: no receipt, 0 gas, and the total unchanged |
| `StateProcessing.AsMessage` | core/state_processor.go:114 | the message carries the recovered sender and the transaction's recipient, nonce, gas, price, value and data, and always asks for the nonce check |
| `StateProcessing.EvmContext` | core/state_processor.go:122 | the origin is the sender, the coinbase is the block's, and Homestead rules apply exactly from the Homestead block on |
| `StateProcessing.InvalidSignatureRejected` | core/state_processor.go:114-117 | a transaction without a recoverable sender changes nothing and yields `ErrInvalidSig` |
| `StateProcessing.ApplyTxReceipt` | core/state_processor.go:155-185 | the receipt's gas is the transition's used gas, and its cumulative gas is the running total plus that (uint64). The pool lost exactly that gas. There is a contract address exactly for a creation, derived from the sender and the transaction nonce. There is a root exactly before Byzantium. The logs are those under the transaction's hash, the bloom is taken from them, and the refund counter is cleared. A receipt exists only when gas was bought, the intrinsic gas was covered and the EVM did not lack balance; it is marked failed exactly when the EVM reported an error, so a reverted transaction still gets a receipt |
| `StateProcessing.TxApplierAccounts` | core/state_processor.go:155-175 | every applied transaction names itself in its receipt, extends the running total by its own gas, and takes that gas from the pool |
| `StateProcessing.ReplayStops` | core/state_processor.go:88-92 | after the first error, later transactions change nothing |
| `StateProcessing.ReplayStep` | core/state_processor.go:83-95 | one more transaction that goes through appends exactly one receipt, and the total becomes that receipt's cumulative gas |
| `StateProcessing.ReplayAccounts` | core/state_processor.go:83-100 | one receipt per transaction, in order. Each cumulative gas is the sum of gas used up to and including it, and the total is the sum of all. Used total + pool left == the starting pool |
| `StateProcessing.RunningTotalsExtend` | core/state_processor.go:167-175 | appending a receipt whose cumulative gas extends the sum keeps every cumulative gas equal to its running sum |
| `StateProcessing.BlockGasConservation` | core/state_processor.go:67-100 | in a block that goes through, the receipts' gas adds up to at most the block gas limit, and the pool keeps exactly the rest |
| `StateProcessing.PlainTransferBlock` | core/state_processor.go:67-100 | a block with one plain 21000-gas transfer and a gas limit of 21000 yields one successful receipt using 21000 gas and leaves the pool empty |
| `StateProcessing.BlockStart` | core/state_processor.go:74-80 | the pool starts at exactly the block gas limit; the DAO migration is applied exactly at the fork block |
| `StateProcessing.ApplyDaoHardFork` | core/state_processor.go:78-80 | the balances become the DAO migration of the old balances |
| `StateProcessing.Finalize` | core/state_processor.go:98 | the balances become the engine's finalization of the old balances, and the refund counter is cleared |
| `StateProcessing.StateProcessor.ApplyTransactions` | core/state_processor.go:83-95 | the loop's state, receipts, logs and total are exactly `Replay`; on the first error it returns only the error |
| `StateProcessing.StateProcessor.Process` | core/state_processor.go:67-101 | The transactions replay from `BlockStart`, so the DAO migration comes before any transaction. On error: no receipts, no logs, 0 gas, and no finalization. Otherwise: `Replay`'s receipts, their logs in order, and their total, then the engine's finalization |

## Left out

- EVM execution: the interpreter is an opaque function of the frame and the accounts.
- Vm.Run: value transfer, the creator's nonce bump inside `evm.Create`, and the returned contract address are not modelled. The EVM here never changes balances or nonces. On failure it keeps no refund and no logs, as a revert does.
- StateDB internals are not modelled: tries, storage, code, journalling, and the deletion of empty accounts that `IntermediateRoot(deleteEmptyObjects)` and `Finalise` perform. The EIP-158 flag is passed through but has no effect.
- Signature recovery (`tx.AsMessage`, `MakeSigner`), `crypto.CreateAddress`, `types.CreateBloom` and trie hashing are uninterpreted functions, because they are cryptography and hashing.
- The body of `misc.ApplyDAOHardFork` and the consensus engine's `Finalize` are not modelled. They are functions on the balances, and only where they are called is modelled. The engine's `Finalize` also computes the state root, which clears the refund counter; `Finalize` models that effect and nothing else of the root computation.
- `NewEVMContext` is not modelled beyond origin, coinbase and the Homestead flag. The coinbase is taken from the block header; the engine's author lookup is not modelled.
- `vm.NewEVM`, `log.Debug`, the chain context and `vm.Config` are not modelled.
- GasPools.GasPool.AddGas: `core/gas_pool.go` is not part of this model. The pool follows the contract its callers rely on and saturates at MaxUint64. `SettlementAccounts` shows that saturation never happens during settlement.
- StateProcessing.ApplyTransaction: the `*usedGas` pointer is an in-parameter with the new total returned. The `author` argument is taken as nil.

