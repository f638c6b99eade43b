/** The block loop: every transaction of a block is turned into a message,
    run through the state transition against one shared gas pool, and
    summarised in a receipt. ApplyTx and Replay say on values what
    ApplyTransaction and StateProcessor.Process do on a StateDB. */
module StateProcessing {
  import opened Common
  import opened GasPools
  import opened State
  import opened Vm
  import opened StateTransitions

  /** A signed transaction; the sender is recovered from the signature. */
  datatype Transaction = Transaction(
    hash: Hash,
    nonce: u64,
    gasPrice: Wei,
    gas: u64,
    to: Option<Address>,
    value: Wei,
    data: seq<byte>)

  datatype Header = Header(number: nat, gasLimit: u64, coinbase: Address)

  datatype Block = Block(header: Header, hash: Hash, transactions: seq<Transaction>, uncles: seq<Header>)

  /** `postState` is the intermediate state root, recorded only before
      Byzantium; `contractAddress` is set only for contract creations. */
  datatype Receipt = Receipt(
    postState: Option<Hash>,
    failed: bool,
    cumulativeGasUsed: u64,
    txHash: Hash,
    gasUsed: u64,
    contractAddress: Option<Address>,
    logs: seq<Log>,
    bloom: Bloom)

  /** The fork schedule: a fork is active from its block on; a fork without
      a block is never active. */
  datatype ChainConfig = ChainConfig(
    daoForkSupport: bool,
    daoForkBlock: Option<nat>,
    homesteadBlock: Option<nat>,
    byzantiumBlock: Option<nat>,
    eip158Block: Option<nat>)

  predicate IsForked(forkBlock: Option<nat>, number: nat)
  {
    forkBlock.Some? && forkBlock.value <= number
  }

  /** The computations this model takes as given: signature recovery under
      the block's signer, contract-address derivation, the log bloom, the EVM,
      trie hashing, the DAO balance migration and the consensus engine's
      block rewards. */
  datatype Primitives = Primitives(
    sender: (Transaction, nat) -> Option<Address>,
    createAddress: (Address, u64) -> Address,
    bloom: seq<Log> -> Bloom,
    executor: Executor,
    rootOf: (map<Address, Wei>, map<Address, u64>) -> Hash,
    daoHardFork: map<Address, Wei> -> map<Address, Wei>,
    finalize: (Header, seq<Header>, map<Address, Wei>) -> map<Address, Wei>)

  /** AsMessage once the sender is known: the nonce is always checked. */
  function AsMessage(tx: Transaction, from: Address): (msg: Message)
    ensures msg.checkNonce && msg.from == from && msg.to == tx.to && msg.nonce == tx.nonce
    ensures msg.gas == tx.gas && msg.gasPrice == tx.gasPrice && msg.value == tx.value && msg.data == tx.data
  {
    Message(from, tx.to, tx.gasPrice, tx.gas, tx.value, tx.nonce, true, tx.data)
  }

  /** NewEVMContext: the origin is the sender, the fee goes to the block's
      coinbase. */
  function EvmContext(config: ChainConfig, header: Header, msg: Message): (ctx: Context)
    ensures ctx.origin == msg.from && ctx.coinbase == header.coinbase
    ensures ctx.homestead <==> IsForked(config.homesteadBlock, header.number)
  {
    Context(msg.from, header.coinbase, IsForked(config.homesteadBlock, header.number))
  }

  // ---------------------------------------------------------------------------
  // One transaction on values

  /** The state after a transaction and its receipt or the error that makes
      the block invalid. */
  datatype Applied = Applied(post: Snapshot, result: Result<Receipt>)

  /** What ApplyTransaction does to a snapshot, given the block gas used so
      far: recover the sender, run the state transition, end the
      transaction, and build the receipt. */
  function ApplyTx(config: ChainConfig, prims: Primitives, header: Header, tx: Transaction, usedGas: u64, s: Snapshot): Applied
  {
    match prims.sender(tx, header.number)
    case None => Applied(s, Err(ErrInvalidSig))
    case Some(from) =>
      var msg := AsMessage(tx, from);
      var ctx := EvmContext(config, header, msg);
      var o := Transition(ctx, prims.executor, msg, s);
      if o.err.Some? then Applied(o.post, Err(o.err.value))
      else
        var w := o.post.world.(refund := 0);
        var root := if IsForked(config.byzantiumBlock, header.number) then None else Some(prims.rootOf(w.balances, w.nonces));
        var contract := if msg.to.None? then Some(prims.createAddress(ctx.origin, tx.nonce)) else None;
        var logs := LogsOf(w.logs, tx.hash);
        var receipt := Receipt(root, o.failed, WrapAdd(usedGas, o.usedGas), tx.hash, o.usedGas, contract, logs, prims.bloom(logs));
        Applied(Snapshot(w, o.post.pool), Ok(receipt))
  }

  /** A transaction whose signature does not yield a sender changes nothing. */
  lemma InvalidSignatureRejected(config: ChainConfig, prims: Primitives, header: Header, tx: Transaction, usedGas: u64, s: Snapshot)
    requires prims.sender(tx, header.number).None?
    ensures ApplyTx(config, prims, header, tx, usedGas, s) == Applied(s, Err(ErrInvalidSig))
  {
  }

  /** The receipt of an applied transaction: its gas is what the transition
      used, its cumulative gas the running total after it, and the pool lost
      exactly that gas; the contract address is present exactly for a
      creation and is derived from the sender and the transaction's nonce; the
      root is present exactly before Byzantium; the logs are those recorded
      under the transaction's hash; the refund counter is cleared. A receipt
      exists only once the gas was bought, the intrinsic gas covered and the
      EVM did not lack balance, and it is marked failed exactly when the EVM
      reported an error: a reverted transaction still has a receipt. */
  lemma ApplyTxReceipt(config: ChainConfig, prims: Primitives, header: Header, tx: Transaction, usedGas: u64, s: Snapshot)
    requires ApplyTx(config, prims, header, tx, usedGas, s).result.Ok?
    ensures var a := ApplyTx(config, prims, header, tx, usedGas, s);
      var r := a.result.value;
      && prims.sender(tx, header.number).Some?
      && r.txHash == tx.hash
      && r.gasUsed == Transition(EvmContext(config, header, AsMessage(tx, prims.sender(tx, header.number).value)),
                                 prims.executor, AsMessage(tx, prims.sender(tx, header.number).value), s).usedGas
      && r.cumulativeGasUsed == WrapAdd(usedGas, r.gasUsed)
      && a.post.pool + r.gasUsed == s.pool
      && (r.contractAddress.Some? <==> tx.to.None?)
      && (tx.to.None? ==> r.contractAddress == Some(prims.createAddress(prims.sender(tx, header.number).value, tx.nonce)))
      && (r.postState.Some? <==> !IsForked(config.byzantiumBlock, header.number))
      && r.logs == LogsOf(a.post.world.logs, tx.hash) && r.bloom == prims.bloom(r.logs)
      && a.post.world.refund == 0
    ensures var from := prims.sender(tx, header.number).value;
      var msg := AsMessage(tx, from);
      var ctx := EvmContext(config, header, msg);
      && Admit(s, msg).Ok?
      && IntrinsicCost(msg.data, msg.to.None?, ctx.homestead) <= msg.gas
      && EvmResult(ctx, prims.executor, msg, Admit(s, msg).value).err != Some(ErrInsufficientBalance)
      && ApplyTx(config, prims, header, tx, usedGas, s).result.value.failed
         == EvmResult(ctx, prims.executor, msg, Admit(s, msg).value).err.Some?
  {
    var from := prims.sender(tx, header.number).value;
    var msg := AsMessage(tx, from);
    var ctx := EvmContext(config, header, msg);
    var admitted := Admit(s, msg);
    if admitted.Err? {
    } else if msg.gas < IntrinsicCost(msg.data, msg.to.None?, ctx.homestead) {
    } else if EvmResult(ctx, prims.executor, msg, admitted.value).err == Some(ErrInsufficientBalance) {
      InsufficientBalanceStops(ctx, prims.executor, msg, s);
    } else {
      SettlementAccounts(ctx, prims.executor, msg, s);
    }
  }

  // ---------------------------------------------------------------------------
  // A block on values

  /** Where the block loop stands: the state, the receipts so far, the gas
      used so far, and the error that stopped it, if any. */
  datatype Progress = Progress(post: Snapshot, receipts: seq<Receipt>, usedGas: u64, err: Option<Error>)

  /** Statedb.Prepare as seen in the world state: logs are now recorded under
      `h`. */
  function Prepared(s: Snapshot, h: Hash): Snapshot
  {
    s.(world := s.world.(thash := h))
  }

  /** One transaction of a block as a function of the transaction, the gas
      total so far and the state. */
  type Applier = (Transaction, u64, Snapshot) -> Applied

  /** ApplyTransaction for the transactions of the block with `header`. */
  function TxApplier(config: ChainConfig, prims: Primitives, header: Header): Applier
  {
    (tx: Transaction, usedGas: u64, s: Snapshot) => ApplyTx(config, prims, header, tx, usedGas, s)
  }

  /** The block loop over `txs` from `start` with a zero gas total: each
      transaction is prepared and applied in turn, and the first error stops
      the loop. */
  function Replay(apply: Applier, txs: seq<Transaction>, start: Snapshot): (p: Progress)
    decreases |txs|
  {
    if txs == [] then Progress(start, [], 0, None)
    else
      var p := Replay(apply, txs[..|txs| - 1], start);
      if p.err.Some? then p
      else
        var tx := txs[|txs| - 1];
        var a := apply(tx, p.usedGas, Prepared(p.post, tx.hash));
        match a.result
        case Err(e) => Progress(a.post, p.receipts, p.usedGas, Some(e))
        case Ok(r) => Progress(a.post, p.receipts + [r], r.cumulativeGasUsed, None)
  }

  /** What the block loop relies on of each transaction it applies: the
      receipt names the transaction, its cumulative gas is the running total
      plus its own gas, and the pool lost exactly that gas. */
  ghost predicate Accounts(apply: Applier)
  {
    forall tx, usedGas, s :: apply(tx, usedGas, s).result.Ok? ==>
      var a := apply(tx, usedGas, s);
      && a.result.value.txHash == tx.hash
      && a.result.value.cumulativeGasUsed == WrapAdd(usedGas, a.result.value.gasUsed)
      && a.post.pool + a.result.value.gasUsed == s.pool
  }

  lemma TxApplierAccounts(config: ChainConfig, prims: Primitives, header: Header)
    ensures Accounts(TxApplier(config, prims, header))
  {
    forall tx, usedGas, s | ApplyTx(config, prims, header, tx, usedGas, s).result.Ok? {
      ApplyTxReceipt(config, prims, header, tx, usedGas, s);
    }
  }

  /** Replay of the first `i + 1` transactions, in terms of the first `i`. */
  lemma ReplayNext(apply: Applier, txs: seq<Transaction>, i: nat, start: Snapshot)
    requires i < |txs| && Replay(apply, txs[..i], start).err.None?
    ensures var p := Replay(apply, txs[..i], start);
      var a := apply(txs[i], p.usedGas, Prepared(p.post, txs[i].hash));
      Replay(apply, txs[..i + 1], start)
      == match a.result
         case Err(e) => Progress(a.post, p.receipts, p.usedGas, Some(e))
         case Ok(r) => Progress(a.post, p.receipts + [r], r.cumulativeGasUsed, None)
  {
    assert txs[..i + 1][..i] == txs[..i];
  }

  /** The sum of the gas used by `receipts`. */
  function SumGasUsed(receipts: seq<Receipt>): nat
  {
    if receipts == [] then 0 else SumGasUsed(receipts[..|receipts| - 1]) + receipts[|receipts| - 1].gasUsed
  }

  /** The logs of `receipts`, in order. */
  function AllLogs(receipts: seq<Receipt>): seq<Log>
  {
    if receipts == [] then [] else AllLogs(receipts[..|receipts| - 1]) + receipts[|receipts| - 1].logs
  }

  /** Once the loop has stopped on an error, further transactions change
      nothing. */
  lemma {:induction false} ReplayStops(apply: Applier, txs: seq<Transaction>, rest: seq<Transaction>, start: Snapshot)
    requires Replay(apply, txs, start).err.Some?
    ensures Replay(apply, txs + rest, start) == Replay(apply, txs, start)
    decreases |rest|
  {
    if rest == [] {
      assert txs + rest == txs;
    } else {
      var rest' := rest[..|rest| - 1];
      assert (txs + rest)[..|txs + rest| - 1] == txs + rest';
      ReplayStops(apply, txs, rest', start);
    }
  }

  /** One more transaction that goes through adds its receipt, whose
      cumulative gas is the previous total plus its own gas, and takes that
      gas from the pool. */
  lemma ReplayStep(apply: Applier, txs: seq<Transaction>, start: Snapshot)
    requires Accounts(apply) && txs != [] && Replay(apply, txs, start).err.None?
    ensures var q := Replay(apply, txs[..|txs| - 1], start);
      var p := Replay(apply, txs, start);
      && q.err.None?
      && |p.receipts| == |q.receipts| + 1 && p.receipts[..|q.receipts|] == q.receipts
      && p.receipts[|q.receipts|].txHash == txs[|txs| - 1].hash
      && p.receipts[|q.receipts|].cumulativeGasUsed == WrapAdd(q.usedGas, p.receipts[|q.receipts|].gasUsed)
      && p.usedGas == p.receipts[|q.receipts|].cumulativeGasUsed
      && p.post.pool + p.receipts[|q.receipts|].gasUsed == q.post.pool
  {
    var q := Replay(apply, txs[..|txs| - 1], start);
    var tx := txs[|txs| - 1];
    var a := apply(tx, q.usedGas, Prepared(q.post, tx.hash));
    assert (q.receipts + [a.result.value])[..|q.receipts|] == q.receipts;
  }

  /** A block that went through: one receipt per transaction, in transaction
      order; the receipt's gas is its own and its cumulative gas the sum up to
      and including it; the total is the sum of all; and the gas used plus the
      gas left in the pool is the pool the block started with, so the running
      total never wraps around. */
  lemma {:induction false} ReplayAccounts(apply: Applier, txs: seq<Transaction>, start: Snapshot)
    requires Accounts(apply) && Replay(apply, txs, start).err.None?
    ensures var p := Replay(apply, txs, start);
      && |p.receipts| == |txs|
      && (forall i :: 0 <= i < |txs| ==> p.receipts[i].txHash == txs[i].hash)
      && RunningTotals(p.receipts)
      && p.usedGas == SumGasUsed(p.receipts)
      && p.post.pool + p.usedGas == start.pool
    decreases |txs|
  {
    if txs != [] {
      var txs' := txs[..|txs| - 1];
      var q := Replay(apply, txs', start);
      var p := Replay(apply, txs, start);
      ReplayAccounts(apply, txs', start);
      ReplayStep(apply, txs, start);
      var r := p.receipts[|q.receipts|];
      assert p.receipts == q.receipts + [r];
      RunningTotalsExtend(q.receipts, r);
      forall i | 0 <= i < |txs|
        ensures p.receipts[i].txHash == txs[i].hash
      {
        if i < |txs'| {
          assert p.receipts[i] == q.receipts[i];
        }
      }
    }
  }

  /** Receipts whose cumulative gas is the running sum of their own gas. */
  ghost predicate RunningTotals(receipts: seq<Receipt>)
  {
    forall i :: 0 <= i < |receipts| ==> receipts[i].cumulativeGasUsed == SumGasUsed(receipts[..i + 1])
  }

  /** A receipt whose cumulative gas extends the running sum keeps the
      running sums right. */
  lemma RunningTotalsExtend(receipts: seq<Receipt>, r: Receipt)
    requires RunningTotals(receipts) && r.cumulativeGasUsed == SumGasUsed(receipts) + r.gasUsed
    ensures RunningTotals(receipts + [r]) && SumGasUsed(receipts + [r]) == r.cumulativeGasUsed
  {
    var rs := receipts + [r];
    assert rs[..|receipts|] == receipts;
    forall i | 0 <= i < |rs|
      ensures rs[i].cumulativeGasUsed == SumGasUsed(rs[..i + 1])
    {
      if i < |receipts| {
        assert rs[..i + 1] == receipts[..i + 1];
      } else {
        assert rs[..i + 1] == rs;
      }
    }
  }

  /** The logs of the receipts after one more receipt. */
  lemma AllLogsAppend(receipts: seq<Receipt>, r: Receipt)
    ensures AllLogs(receipts + [r]) == AllLogs(receipts) + r.logs
  {
    assert (receipts + [r])[..|receipts|] == receipts;
  }

  /** Gas conservation over a block that goes through: the receipts' gas adds
      up to at most the block's gas limit, and the pool keeps exactly the
      rest. */
  lemma BlockGasConservation(config: ChainConfig, prims: Primitives, block: Block, w: WorldState)
    requires Replay(TxApplier(config, prims, block.header), block.transactions, BlockStart(config, prims, block, w)).err.None?
    ensures var p := Replay(TxApplier(config, prims, block.header), block.transactions, BlockStart(config, prims, block, w));
      && |p.receipts| == |block.transactions|
      && SumGasUsed(p.receipts) == p.usedGas <= block.header.gasLimit
      && p.post.pool == block.header.gasLimit - SumGasUsed(p.receipts)
  {
    TxApplierAccounts(config, prims, block.header);
    ReplayAccounts(TxApplier(config, prims, block.header), block.transactions, BlockStart(config, prims, block, w));
  }

  /** A block holding one plain value transfer of 21000 gas at price 1 from
      an account holding 1,000,000, with a block gas limit of 21000, to an
      account without code: one successful receipt using 21000 gas, and the
      pool is empty afterwards. */
  lemma PlainTransferBlock(config: ChainConfig, prims: Primitives, block: Block, w: WorldState)
    requires |block.transactions| == 1 && block.header.gasLimit == 21000
    requires var tx := block.transactions[0];
      && tx.to.Some? && tx.data == [] && tx.gas == 21000 && tx.gasPrice == 1
      && prims.sender(tx, block.header.number).Some?
      && BalanceOf(w.balances, prims.sender(tx, block.header.number).value) == 1000000
      && NonceOf(w.nonces, prims.sender(tx, block.header.number).value) == tx.nonce
    requires !IsDaoForkBlock(config, block.header.number) && w.refund == 0
    requires forall f, b, n :: prims.executor(f, b, n) == Execution([], 0, None, 0, [])
    ensures var p := Replay(TxApplier(config, prims, block.header), block.transactions, BlockStart(config, prims, block, w));
      && p.err.None? && |p.receipts| == 1
      && !p.receipts[0].failed && p.receipts[0].gasUsed == 21000 && p.receipts[0].cumulativeGasUsed == 21000
      && p.usedGas == 21000 && p.post.pool == 0
  {
    var tx := block.transactions[0];
    var apply := TxApplier(config, prims, block.header);
    var start := BlockStart(config, prims, block, w);
    var from := prims.sender(tx, block.header.number).value;
    var msg := AsMessage(tx, from);
    var ctx := EvmContext(config, block.header, msg);
    var s := Prepared(start, tx.hash);
    assert block.transactions[..0] == [];
    ReplayNext(apply, block.transactions, 0, start);
    assert block.transactions[..1] == block.transactions;
    var bought := Admit(s, msg).value;
    var x := EvmResult(ctx, prims.executor, msg, bought);
    assert x.post.refund == 0;
    PlainTransferUsesBaseGas(ctx, prims.executor, msg, s);
    var o := Transition(ctx, prims.executor, msg, s);
    SettleUnfolds(ctx, msg, bought.pool, x);
    assert !o.failed;
  }

  // ---------------------------------------------------------------------------
  // The imperative layer

  /** Runs `tx` against `statedb` and the shared pool `gp`. `usedGas` is the
      block's running total before the transaction and `usedGasAfter` after it
      (the accumulator the caller passes by reference). */
  method ApplyTransaction(config: ChainConfig, prims: Primitives, gp: GasPool, statedb: StateDB, header: Header, tx: Transaction, usedGas: u64)
    returns (receipt: Option<Receipt>, gas: u64, err: Option<Error>, usedGasAfter: u64)
    requires statedb.rootOf == prims.rootOf
    modifies gp, statedb`balances, statedb`nonces, statedb`refund, statedb`logs
    ensures var a := ApplyTx(config, prims, header, tx, usedGas, old(Snapshot(statedb.World(), gp.gas)));
      && Snapshot(statedb.World(), gp.gas) == a.post
      && (a.result.Err? ==> receipt == None && gas == 0 && err == Some(a.result.error) && usedGasAfter == usedGas)
      && (a.result.Ok? ==> receipt == Some(a.result.value) && gas == a.result.value.gasUsed && err == None
                           && usedGasAfter == a.result.value.cumulativeGasUsed)
  {
    var from := prims.sender(tx, header.number);
    if from.None? {
      return None, 0, Some(ErrInvalidSig), usedGas;
    }
    var msg := AsMessage(tx, from.value);
    var context := EvmContext(config, header, msg);
    var vmenv := new Evm(context, statedb, prims.executor);
    var ret, failed;
    ret, gas, failed, err := ApplyMessage(vmenv, msg, gp);
    if err.Some? {
      return None, 0, err, usedGas;
    }
    var root: Option<Hash>;
    if IsForked(config.byzantiumBlock, header.number) {
      statedb.Finalise(true);
      root := None;
    } else {
      var r := statedb.IntermediateRoot(IsForked(config.eip158Block, header.number));
      root := Some(r);
    }
    usedGasAfter := WrapAdd(usedGas, gas);
    var contractAddress := None;
    if msg.to.None? {
      contractAddress := Some(prims.createAddress(context.origin, tx.nonce));
    }
    var logs := statedb.GetLogs(tx.hash);
    receipt := Some(Receipt(root, failed, usedGasAfter, tx.hash, gas, contractAddress, logs, prims.bloom(logs)));
  }

  /** The DAO hard-fork balance migration. */
  method ApplyDaoHardFork(prims: Primitives, statedb: StateDB)
    modifies statedb`balances
    ensures statedb.balances == prims.daoHardFork(old(statedb.balances))
  {
    statedb.balances := prims.daoHardFork(statedb.balances);
  }

  /** The consensus engine's end of block: rewards, then the refund counter
      is cleared as the state root is computed. */
  method Finalize(prims: Primitives, header: Header, statedb: StateDB, uncles: seq<Header>)
    modifies statedb`balances, statedb`refund
    ensures statedb.balances == prims.finalize(header, uncles, old(statedb.balances))
    ensures statedb.refund == 0
  {
    statedb.balances := prims.finalize(header, uncles, statedb.balances);
    statedb.Finalise(true);
  }

  /** Whether the DAO migration applies to the block numbered `number`. */
  predicate IsDaoForkBlock(config: ChainConfig, number: nat)
  {
    config.daoForkSupport && config.daoForkBlock == Some(number)
  }

  /** The state a block's transactions start from: the DAO migration applied
      at the fork block, and a fresh pool holding the block's gas limit. */
  function BlockStart(config: ChainConfig, prims: Primitives, block: Block, w: WorldState): (s: Snapshot)
    ensures s.pool == block.header.gasLimit
    ensures IsDaoForkBlock(config, block.header.number) ==> s.world == w.(balances := prims.daoHardFork(w.balances))
    ensures !IsDaoForkBlock(config, block.header.number) ==> s.world == w
  {
    var balances := if IsDaoForkBlock(config, block.header.number) then prims.daoHardFork(w.balances) else w.balances;
    Snapshot(w.(balances := balances), block.header.gasLimit)
  }

  class StateProcessor {
    const config: ChainConfig
    const prims: Primitives

    constructor (config: ChainConfig, prims: Primitives)
      ensures this.config == config && this.prims == prims
    {
      this.config := config;
      this.prims := prims;
    }

    /** The transaction loop of Process: each transaction of `block` is
        prepared and applied against the shared pool `gp`, stopping at the
        first error with nothing returned but the error. */
    method ApplyTransactions(block: Block, statedb: StateDB, gp: GasPool) returns (receipts: seq<Receipt>, allLogs: seq<Log>, usedGas: u64, err: Option<Error>)
      requires statedb.rootOf == prims.rootOf
      modifies gp, statedb`balances, statedb`nonces, statedb`refund, statedb`logs, statedb`thash, statedb`bhash, statedb`txIndex
      ensures var p := Replay(TxApplier(config, prims, block.header), block.transactions, old(Snapshot(statedb.World(), gp.gas)));
        && Snapshot(statedb.World(), gp.gas) == p.post
        && (p.err.Some? ==> receipts == [] && allLogs == [] && usedGas == 0 && err == p.err)
        && (p.err.None? ==> receipts == p.receipts && allLogs == AllLogs(p.receipts) && usedGas == p.usedGas && err == None)
    {
      var header := block.header;
      var txs := block.transactions;
      ghost var start := Snapshot(statedb.World(), gp.gas);
      ghost var apply := TxApplier(config, prims, header);
      usedGas := 0;
      receipts, allLogs := [], [];
      for i := 0 to |txs|
        invariant Replay(apply, txs[..i], start).err.None?
        invariant Snapshot(statedb.World(), gp.gas) == Replay(apply, txs[..i], start).post
        invariant receipts == Replay(apply, txs[..i], start).receipts
        invariant usedGas == Replay(apply, txs[..i], start).usedGas
        invariant allLogs == AllLogs(receipts)
      {
        var tx := txs[i];
        ghost var before := Replay(apply, txs[..i], start);
        ReplayNext(apply, txs, i, start);
        statedb.Prepare(tx.hash, block.hash, i);
        assert Snapshot(statedb.World(), gp.gas) == Prepared(before.post, tx.hash);
        var receipt, gas, txErr, usedGasAfter := ApplyTransaction(config, prims, gp, statedb, header, tx, usedGas);
        ghost var a := apply(tx, before.usedGas, Prepared(before.post, tx.hash));
        assert Snapshot(statedb.World(), gp.gas) == a.post;
        if txErr.Some? {
          assert Replay(apply, txs[..i + 1], start) == Progress(a.post, before.receipts, before.usedGas, txErr);
          ReplayStops(apply, txs[..i + 1], txs[i + 1..], start);
          assert txs[..i + 1] + txs[i + 1..] == txs;
          return [], [], 0, txErr;
        }
        assert Replay(apply, txs[..i + 1], start) == Progress(a.post, before.receipts + [receipt.value], usedGasAfter, None);
        AllLogsAppend(receipts, receipt.value);
        receipts := receipts + [receipt.value];
        allLogs := allLogs + receipt.value.logs;
        usedGas := usedGasAfter;
      }
      assert txs[..|txs|] == txs;
      err := None;
    }

    /** Processes `block` on `statedb`: on the first failing transaction it
        returns the error with no receipts, no logs and no gas, and the block
        is not finalized; otherwise it returns the receipts, their logs in
        order and the block's gas total, and finalizes the block. */
    method Process(block: Block, statedb: StateDB) returns (receipts: seq<Receipt>, allLogs: seq<Log>, usedGas: u64, err: Option<Error>)
      requires statedb.rootOf == prims.rootOf
      modifies statedb`balances, statedb`nonces, statedb`refund, statedb`logs, statedb`thash, statedb`bhash, statedb`txIndex
      ensures var p := Replay(TxApplier(config, prims, block.header), block.transactions, BlockStart(config, prims, block, old(statedb.World())));
        && (p.err.Some? ==> receipts == [] && allLogs == [] && usedGas == 0 && err == p.err && statedb.World() == p.post.world)
        && (p.err.None? ==> receipts == p.receipts && allLogs == AllLogs(p.receipts) && usedGas == p.usedGas && err == None
                            && statedb.World() == p.post.world.(balances := prims.finalize(block.header, block.uncles, p.post.world.balances), refund := 0))
    {
      var gp := new GasPool();
      gp.AddGas(block.header.gasLimit);
      if IsDaoForkBlock(config, block.header.number) {
        ApplyDaoHardFork(prims, statedb);
      }
      ghost var p := Replay(TxApplier(config, prims, block.header), block.transactions, Snapshot(statedb.World(), gp.gas));
      receipts, allLogs, usedGas, err := ApplyTransactions(block, statedb, gp);
      if err.Some? {
        return;
      }
      ghost var w := statedb.World();
      Finalize(prims, block.header, statedb, block.uncles);
      assert statedb.World() == w.(balances := statedb.balances, refund := 0);
    }
  }
}
