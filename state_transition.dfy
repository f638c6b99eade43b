/** The per-transaction state machine: intrinsic gas, the nonce check, the gas
    purchase, dispatch to the EVM, the refund and the fee paid to the coinbase.
    The class StateTransition does this step by step on a StateDB and a
    GasPool; the function Transition says on values what it does, and the
    lemmas at the end of the module state what that means. */
module StateTransitions {
  import opened Common
  import opened Params
  import opened GasPools
  import opened State
  import opened Vm

  /** A transaction as the state transition sees it; `to == None` creates a
      contract. */
  datatype Message = Message(
    from: Address,
    to: Option<Address>,
    gasPrice: Wei,
    gas: u64,
    value: Wei,
    nonce: u64,
    checkNonce: bool,
    data: seq<byte>)

  // ---------------------------------------------------------------------------
  // Intrinsic gas

  /** Number of non-zero bytes in `data`. */
  function NonZeroBytes(data: seq<byte>): (n: nat)
    ensures n <= |data|
  {
    if |data| == 0 then 0
    else NonZeroBytes(data[..|data| - 1]) + (if data[|data| - 1] != 0 then 1 else 0)
  }

  /** Counting non-zero bytes distributes over concatenation. */
  lemma {:induction false} NonZeroBytesConcat(a: seq<byte>, b: seq<byte>)
    ensures NonZeroBytes(a + b) == NonZeroBytes(a) + NonZeroBytes(b)
    decreases |b|
  {
    if |b| == 0 {
      assert a + b == a;
    } else {
      var b' := b[..|b| - 1];
      assert (a + b)[..|a + b| - 1] == a + b';
      NonZeroBytesConcat(a, b');
    }
  }

  /** The count is zero exactly for all-zero data and is the length exactly
      when no byte is zero. */
  lemma {:induction false} NonZeroBytesExtremes(data: seq<byte>)
    ensures NonZeroBytes(data) == 0 <==> forall i :: 0 <= i < |data| ==> data[i] == 0
    ensures NonZeroBytes(data) == |data| <==> forall i :: 0 <= i < |data| ==> data[i] != 0
  {
    if |data| > 0 {
      var init := data[..|data| - 1];
      NonZeroBytesExtremes(init);
      assert forall i :: 0 <= i < |init| ==> init[i] == data[i];
    }
  }

  /** The base charge of a transaction: contract creation costs more only
      from Homestead on. */
  function BaseGas(contractCreation: bool, homestead: bool): (g: nat)
    ensures g == TX_GAS_CONTRACT_CREATION <==> contractCreation && homestead
    ensures g == TX_GAS <==> !(contractCreation && homestead)
  {
    if contractCreation && homestead then TX_GAS_CONTRACT_CREATION else TX_GAS
  }

  /** The intrinsic cost of a transaction as an unbounded number: the base
      charge plus a rate per non-zero byte and a rate per zero byte. */
  function IntrinsicCost(data: seq<byte>, contractCreation: bool, homestead: bool): nat
  {
    var nz := NonZeroBytes(data);
    BaseGas(contractCreation, homestead) + nz * TX_DATA_NON_ZERO_GAS + (|data| - nz) * TX_DATA_ZERO_GAS
  }

  /** Empty data costs exactly the base charge; every byte costs between the
      zero-byte and the non-zero-byte rate. */
  lemma IntrinsicCostBounds(data: seq<byte>, contractCreation: bool, homestead: bool)
    ensures data == [] ==> IntrinsicCost(data, contractCreation, homestead) == BaseGas(contractCreation, homestead)
    ensures BaseGas(contractCreation, homestead) + |data| * TX_DATA_ZERO_GAS
            <= IntrinsicCost(data, contractCreation, homestead)
            <= BaseGas(contractCreation, homestead) + |data| * TX_DATA_NON_ZERO_GAS
    ensures TX_GAS <= IntrinsicCost(data, contractCreation, homestead)
  {
  }

  /** The data part of the cost is additive: the cost of `a + b` is the cost
      of `a` plus what the bytes of `b` add. */
  lemma IntrinsicCostConcat(a: seq<byte>, b: seq<byte>, contractCreation: bool, homestead: bool)
    ensures IntrinsicCost(a + b, contractCreation, homestead)
            == IntrinsicCost(a, contractCreation, homestead) + IntrinsicCost(b, contractCreation, homestead)
               - BaseGas(contractCreation, homestead)
  {
    NonZeroBytesConcat(a, b);
  }

  /** The overflow guard of IntrinsicGas: `room / rate < k` says exactly that
      `k` units at `rate` do not fit in `room`. */
  lemma DivGuard(room: nat, rate: nat, k: nat)
    requires rate > 0
    ensures room / rate < k <==> room < k * rate
  {
    var q := room / rate;
    assert q * rate <= room < q * rate + rate;
    if q < k {
      assert (q + 1) * rate <= k * rate by {
        MulMonotone(q + 1, k, rate);
      }
    } else {
      MulMonotone(k, q, rate);
    }
  }

  lemma MulMonotone(a: nat, b: nat, c: nat)
    requires a <= b
    ensures a * c <= b * c
  {
  }

  /** IntrinsicGas: the gas charged before any code runs, or ErrOutOfGas when
      the data term or the zero-byte term would overflow uint64. */
  method IntrinsicGas(data: seq<byte>, contractCreation: bool, homestead: bool) returns (gas: u64, err: Option<Error>)
    ensures err.None? <==> IntrinsicCost(data, contractCreation, homestead) <= MAX_UINT64
    ensures err.None? ==> gas == IntrinsicCost(data, contractCreation, homestead)
    ensures err.Some? ==> err == Some(ErrOutOfGas) && gas == 0
  {
    if contractCreation && homestead {
      gas := TX_GAS_CONTRACT_CREATION;
    } else {
      gas := TX_GAS;
    }
    if |data| > 0 {
      var nz := 0;
      for i := 0 to |data|
        invariant nz == NonZeroBytes(data[..i])
      {
        assert data[..i + 1][..i] == data[..i];
        if data[i] != 0 {
          nz := nz + 1;
        }
      }
      assert data[..|data|] == data;
      DivGuard(MAX_UINT64 - gas, TX_DATA_NON_ZERO_GAS, nz);
      if (MAX_UINT64 - gas) / TX_DATA_NON_ZERO_GAS < nz {
        return 0, Some(ErrOutOfGas);
      }
      gas := gas + nz * TX_DATA_NON_ZERO_GAS;
      var z := |data| - nz;
      DivGuard(MAX_UINT64 - gas, TX_DATA_ZERO_GAS, z);
      if (MAX_UINT64 - gas) / TX_DATA_ZERO_GAS < z {
        return 0, Some(ErrOutOfGas);
      }
      gas := gas + z * TX_DATA_ZERO_GAS;
    }
    return gas, None;
  }

  // ---------------------------------------------------------------------------
  // The transition on values

  /** What the state transition works on: the world state and the block's
      gas pool. */
  datatype Snapshot = Snapshot(world: WorldState, pool: u64)

  /** The result of TransitionDb together with the state it leaves. */
  datatype Outcome = Outcome(post: Snapshot, ret: seq<byte>, usedGas: u64, failed: bool, err: Option<Error>)

  /** The nonce check of preCheck: the account's nonce must equal the
      message's nonce when the message asks for the check. */
  function NonceCheck(stateNonce: u64, msg: Message): (r: Option<Error>)
    ensures r.None? <==> !msg.checkNonce || stateNonce == msg.nonce
    ensures r == Some(ErrNonceTooHigh) <==> msg.checkNonce && stateNonce < msg.nonce
    ensures r == Some(ErrNonceTooLow) <==> msg.checkNonce && stateNonce > msg.nonce
  {
    if !msg.checkNonce then None
    else if stateNonce < msg.nonce then Some(ErrNonceTooHigh)
    else if stateNonce > msg.nonce then Some(ErrNonceTooLow)
    else None
  }

  /** The price in Wei of `gas` at `gasPrice`. */
  function GasValue(gas: u64, gasPrice: Wei): Wei
  {
    gas * gasPrice
  }

  /** What buyGas does: check the balance against gas times price, take the gas
      from the pool, debit the sender. */
  function Purchase(s: Snapshot, msg: Message): Result<Snapshot>
  {
    var cost := GasValue(msg.gas, msg.gasPrice);
    if BalanceOf(s.world.balances, msg.from) < cost then Err(ErrInsufficientBalanceForGas)
    else if s.pool < msg.gas then Err(ErrGasLimitReached)
    else Ok(Snapshot(s.world.(balances := Credit(s.world.balances, msg.from, -cost)), s.pool - msg.gas))
  }

  /** What preCheck does: the nonce check, then buyGas. */
  function Admit(s: Snapshot, msg: Message): Result<Snapshot>
  {
    var nonceErr := NonceCheck(NonceOf(s.world.nonces, msg.from), msg);
    if nonceErr.Some? then Err(nonceErr.value) else Purchase(s, msg)
  }

  /** The remaining gas after refundGas: the refund is half the gas used,
      rounded down, capped at the refund counter. */
  function GasAfterRefund(initialGas: u64, gasLeft: u64, refundCounter: u64): (g: u64)
    requires gasLeft <= initialGas
    ensures gasLeft <= g <= initialGas
    ensures g - gasLeft <= (initialGas - gasLeft) / 2 && g - gasLeft <= refundCounter
    ensures g - gasLeft == (initialGas - gasLeft) / 2 || g - gasLeft == refundCounter
  {
    var refund := (initialGas - gasLeft) / 2;
    gasLeft + (if refund > refundCounter then refundCounter else refund)
  }

  /** The whole of TransitionDb on values. */
  function Transition(ctx: Context, executor: Executor, msg: Message, s: Snapshot): Outcome
  {
    match Admit(s, msg)
    case Err(e) => Outcome(s, [], 0, false, Some(e))
    case Ok(bought) => Execute(ctx, executor, msg, bought)
  }

  /** The world a call runs in: the sender's nonce is bumped first (uint64
      wrap-around); a creation runs in the world as it is. */
  function BumpNonce(w: WorldState, msg: Message): WorldState
  {
    if msg.to.None? then w
    else w.(nonces := w.nonces[msg.from := WrapAdd(NonceOf(w.nonces, msg.from), 1)])
  }

  /** The frame the EVM runs: the message with the gas left after the
      intrinsic charge. */
  function Frame(msg: Message, intrinsic: nat): CallFrame
    requires intrinsic <= msg.gas
  {
    CallFrame(msg.from, msg.to, msg.data, msg.gas - intrinsic, msg.value)
  }

  /** TransitionDb after a successful preCheck: charge the intrinsic gas,
      bump the nonce of a call, run the EVM, settle. */
  function Execute(ctx: Context, executor: Executor, msg: Message, bought: Snapshot): Outcome
  {
    var intrinsic := IntrinsicCost(msg.data, msg.to.None?, ctx.homestead);
    if intrinsic > msg.gas then Outcome(bought, [], 0, false, Some(ErrOutOfGas))
    else Settle(ctx, msg, bought.pool, Run(executor, Frame(msg, intrinsic), BumpNonce(bought.world, msg)))
  }

  /** TransitionDb after the EVM returned `x`: stop on ErrInsufficientBalance,
      otherwise refund the sender, refill the pool and pay the coinbase. */
  function Settle(ctx: Context, msg: Message, pool: u64, x: Executed): Outcome
    requires x.leftOverGas <= msg.gas
  {
    if x.err == Some(ErrInsufficientBalance) then
      Outcome(Snapshot(x.post, pool), [], 0, false, x.err)
    else
      var remaining := GasAfterRefund(msg.gas, x.leftOverGas, x.post.refund);
      var used := msg.gas - remaining;
      var balances := Credit(Credit(x.post.balances, msg.from, GasValue(remaining, msg.gasPrice)), ctx.coinbase, GasValue(used, msg.gasPrice));
      Outcome(Snapshot(x.post.(balances := balances), SaturatingAdd(pool, remaining)), x.ret, used, x.err.Some?, None)
  }

  /** Settle when the EVM did not fail for lack of balance, written out. */
  lemma SettleUnfolds(ctx: Context, msg: Message, pool: u64, x: Executed)
    requires x.leftOverGas <= msg.gas && x.err != Some(ErrInsufficientBalance)
    ensures var remaining := GasAfterRefund(msg.gas, x.leftOverGas, x.post.refund);
      var refunded := Credit(x.post.balances, msg.from, GasValue(remaining, msg.gasPrice));
      Settle(ctx, msg, pool, x)
      == Outcome(Snapshot(x.post.(balances := Credit(refunded, ctx.coinbase, GasValue(msg.gas - remaining, msg.gasPrice))),
                          SaturatingAdd(pool, remaining)),
                 x.ret, msg.gas - remaining, x.err.Some?, None)
  {
  }

  // ---------------------------------------------------------------------------
  // The state machine

  class StateTransition {
    const gp: GasPool
    const msg: Message
    var gas: u64
    const gasPrice: Wei
    var initialGas: u64
    const value: Wei
    const data: seq<byte>
    const state: StateDB
    const evm: Evm

    /** The fields copied from the message and the EVM at construction. */
    ghost predicate Wired()
    {
      gasPrice == msg.gasPrice && value == msg.value && data == msg.data && state == evm.stateDB
    }

    /** NewStateTransition. */
    constructor (evm: Evm, msg: Message, gp: GasPool)
      ensures this.evm == evm && this.msg == msg && this.gp == gp && Wired()
      ensures gas == 0 && initialGas == 0
    {
      this.gp := gp;
      this.evm := evm;
      this.msg := msg;
      gasPrice := msg.gasPrice;
      value := msg.value;
      data := msg.data;
      state := evm.stateDB;
      gas := 0;
      initialGas := 0;
    }

    function Snap(): Snapshot
      reads state, gp
    {
      Snapshot(state.World(), gp.gas)
    }

    /** The recipient, or the zero address for a contract creation. */
    function To(): (r: Address)
      ensures msg.to.Some? ==> r == msg.to.value
      ensures msg.to.None? ==> r == ZERO_ADDRESS
    {
      if msg.to.None? then ZERO_ADDRESS else msg.to.value
    }

    /** Gas used so far: what was bought minus what is left (uint64
        subtraction). */
    function GasUsed(): (r: u64)
      reads this
      ensures gas <= initialGas ==> r + gas == initialGas
    {
      if gas <= initialGas then initialGas - gas else initialGas - gas + (MAX_UINT64 + 1)
    }

    method UseGas(amount: u64) returns (err: Option<Error>)
      modifies this`gas
      ensures old(gas) < amount ==> err == Some(ErrOutOfGas) && gas == old(gas)
      ensures amount <= old(gas) ==> err == None && gas + amount == old(gas)
    {
      if gas < amount {
        return Some(ErrOutOfGas);
      }
      gas := gas - amount;
      return None;
    }

    method BuyGas() returns (err: Option<Error>)
      requires Wired()
      modifies this`gas, this`initialGas, gp, state`balances
      ensures var r := Purchase(old(Snap()), msg);
        && (r.Err? ==> err == Some(r.error) && Snap() == old(Snap()) && gas == old(gas) && initialGas == old(initialGas))
        && (r.Ok? ==> err == None && Snap() == r.value && gas == WrapAdd(old(gas), msg.gas) && initialGas == msg.gas)
    {
      var mgval := GasValue(msg.gas, gasPrice);
      if state.GetBalance(msg.from) < mgval {
        return Some(ErrInsufficientBalanceForGas);
      }
      err := gp.SubGas(msg.gas);
      if err.Some? {
        return err;
      }
      gas := WrapAdd(gas, msg.gas);
      initialGas := msg.gas;
      state.SubBalance(msg.from, mgval);
    }

    method PreCheck() returns (err: Option<Error>)
      requires Wired()
      modifies this`gas, this`initialGas, gp, state`balances
      ensures var r := Admit(old(Snap()), msg);
        && (r.Err? ==> err == Some(r.error) && Snap() == old(Snap()) && gas == old(gas) && initialGas == old(initialGas))
        && (r.Ok? ==> err == None && Snap() == r.value && gas == WrapAdd(old(gas), msg.gas) && initialGas == msg.gas)
    {
      if msg.checkNonce {
        var nonce := state.GetNonce(msg.from);
        if nonce < msg.nonce {
          return Some(ErrNonceTooHigh);
        } else if nonce > msg.nonce {
          return Some(ErrNonceTooLow);
        }
      }
      err := BuyGas();
    }

    method RefundGas()
      requires Wired() && gas <= initialGas
      modifies this`gas, gp, state`balances
      ensures gas == GasAfterRefund(initialGas, old(gas), state.refund)
      ensures state.balances == Credit(old(state.balances), msg.from, GasValue(gas, gasPrice))
      ensures gp.gas == SaturatingAdd(old(gp.gas), gas)
    {
      var refund := GasUsed() / 2;
      if refund > state.GetRefund() {
        refund := state.GetRefund();
      }
      gas := gas + refund;
      var remaining := GasValue(gas, gasPrice);
      state.AddBalance(msg.from, remaining);
      gp.AddGas(gas);
    }

    /** Step 4 of TransitionDb: a call bumps the sender's nonce, then the EVM
        runs the frame with the gas left after the intrinsic charge. */
    method RunEvm(intrinsic: nat) returns (ret: seq<byte>, vmerr: Option<Error>)
      requires Wired() && intrinsic <= msg.gas && gas == msg.gas - intrinsic
      modifies this`gas, state`nonces, state`refund, state`logs
      ensures Executed(state.World(), ret, gas, vmerr)
              == Run(evm.executor, Frame(msg, intrinsic), BumpNonce(old(state.World()), msg))
    {
      if msg.to.None? {
        ret, gas, vmerr := evm.Create(msg.from, data, gas, value);
      } else {
        state.SetNonce(msg.from, WrapAdd(state.GetNonce(msg.from), 1));
        assert state.World() == BumpNonce(old(state.World()), msg);
        ret, gas, vmerr := evm.Call(msg.from, To(), data, gas, value);
      }
    }

    /** Steps 6 and 7 of TransitionDb: refund the sender, then pay the
        coinbase for the gas used. */
    method RefundAndPay() returns (usedGas: u64)
      requires Wired() && gas <= initialGas && initialGas == msg.gas
      modifies this`gas, gp, state`balances
      ensures var remaining := GasAfterRefund(msg.gas, old(gas), state.refund);
        && gas == remaining && usedGas == msg.gas - remaining
        && gp.gas == SaturatingAdd(old(gp.gas), remaining)
        && state.balances == Credit(Credit(old(state.balances), msg.from, GasValue(remaining, msg.gasPrice)),
                                    evm.context.coinbase, GasValue(usedGas, msg.gasPrice))
    {
      RefundGas();
      usedGas := GasUsed();
      state.AddBalance(evm.context.coinbase, GasValue(usedGas, gasPrice));
    }

    /** Steps 5 to 7 of TransitionDb, once the EVM returned `ret` and `vmerr`:
        stop on ErrInsufficientBalance, otherwise refund and pay. */
    method Conclude(ret: seq<byte>, vmerr: Option<Error>) returns (r: seq<byte>, usedGas: u64, failed: bool, err: Option<Error>)
      requires Wired() && gas <= msg.gas && initialGas == msg.gas
      modifies this`gas, gp, state`balances
      ensures Outcome(Snap(), r, usedGas, failed, err)
              == Settle(evm.context, msg, old(gp.gas), Executed(old(state.World()), ret, old(gas), vmerr))
    {
      ghost var x := Executed(state.World(), ret, gas, vmerr);
      if vmerr == Some(ErrInsufficientBalance) {
        return [], 0, false, vmerr;
      }
      SettleUnfolds(evm.context, msg, gp.gas, x);
      usedGas := RefundAndPay();
      assert state.World() == x.post.(balances := state.balances);
      return ret, usedGas, vmerr.Some?, None;
    }

    /** TransitionDb once preCheck has bought the gas: charge the intrinsic
        gas, run the EVM, settle. */
    method ExecuteMessage() returns (ret: seq<byte>, usedGas: u64, failed: bool, err: Option<Error>)
      requires Wired() && gas == msg.gas && initialGas == msg.gas
      modifies this`gas, gp, state`balances, state`nonces, state`refund, state`logs
      ensures Outcome(Snap(), ret, usedGas, failed, err) == Execute(evm.context, evm.executor, msg, old(Snap()))
    {
      var intrinsic;
      intrinsic, err := IntrinsicGas(data, msg.to.None?, evm.context.homestead);
      if err.Some? {
        return [], 0, false, err;
      }
      err := UseGas(intrinsic);
      if err.Some? {
        return [], 0, false, err;
      }
      var vmerr;
      ret, vmerr := RunEvm(intrinsic);
      ret, usedGas, failed, err := Conclude(ret, vmerr);
    }

    method TransitionDb() returns (ret: seq<byte>, usedGas: u64, failed: bool, err: Option<Error>)
      requires Wired() && gas == 0
      modifies this`gas, this`initialGas, gp, state`balances, state`nonces, state`refund, state`logs
      ensures Outcome(Snap(), ret, usedGas, failed, err) == Transition(evm.context, evm.executor, msg, old(Snap()))
    {
      err := PreCheck();
      if err.Some? {
        return [], 0, false, err;
      }
      ret, usedGas, failed, err := ExecuteMessage();
    }
  }

  /** ApplyMessage: runs a fresh state transition for `msg`. */
  method ApplyMessage(evm: Evm, msg: Message, gp: GasPool) returns (ret: seq<byte>, usedGas: u64, failed: bool, err: Option<Error>)
    modifies gp, evm.stateDB`balances, evm.stateDB`nonces, evm.stateDB`refund, evm.stateDB`logs
    ensures Outcome(Snapshot(evm.stateDB.World(), gp.gas), ret, usedGas, failed, err)
            == Transition(evm.context, evm.executor, msg, old(Snapshot(evm.stateDB.World(), gp.gas)))
  {
    var st := new StateTransition(evm, msg, gp);
    ret, usedGas, failed, err := st.TransitionDb();
  }

  // ---------------------------------------------------------------------------
  // What a transition means

  /** A message whose nonce does not match the account's is rejected before
      anything is bought: nothing changes and no gas is used. */
  lemma NonceMismatchRejected(ctx: Context, executor: Executor, msg: Message, s: Snapshot)
    requires msg.checkNonce && NonceOf(s.world.nonces, msg.from) != msg.nonce
    ensures var o := Transition(ctx, executor, msg, s);
      && o.post == s && o.usedGas == 0 && !o.failed
      && o.err == Some(if NonceOf(s.world.nonces, msg.from) < msg.nonce then ErrNonceTooHigh else ErrNonceTooLow)
  {
  }

  /** A sender who cannot pay gas times price, or a block pool with less gas
      than the message asks for, rejects the message with nothing changed;
      the balance is checked first. */
  lemma PurchaseRejected(ctx: Context, executor: Executor, msg: Message, s: Snapshot)
    requires NonceCheck(NonceOf(s.world.nonces, msg.from), msg).None?
    requires BalanceOf(s.world.balances, msg.from) < GasValue(msg.gas, msg.gasPrice) || s.pool < msg.gas
    ensures var o := Transition(ctx, executor, msg, s);
      && o.post == s && o.usedGas == 0 && !o.failed
      && o.err == Some(if BalanceOf(s.world.balances, msg.from) < GasValue(msg.gas, msg.gasPrice)
                       then ErrInsufficientBalanceForGas else ErrGasLimitReached)
  {
  }

  /** A successful purchase takes exactly the message's gas from the pool and
      exactly gas times price from the sender, and touches nothing else. */
  lemma PurchaseCharges(s: Snapshot, msg: Message)
    requires Purchase(s, msg).Ok?
    ensures var b := Purchase(s, msg).value;
      && b.pool + msg.gas == s.pool
      && BalanceOf(b.world.balances, msg.from) + GasValue(msg.gas, msg.gasPrice) == BalanceOf(s.world.balances, msg.from)
      && (forall a :: a != msg.from ==> BalanceOf(b.world.balances, a) == BalanceOf(s.world.balances, a))
      && b.world.nonces == s.world.nonces && b.world.refund == s.world.refund && b.world.logs == s.world.logs
  {
  }

  /** When the gas bought does not cover the intrinsic cost the transition
      stops with ErrOutOfGas, and what was bought stays bought: the pool and
      the sender's balance are not given back. */
  lemma IntrinsicShortfall(ctx: Context, executor: Executor, msg: Message, s: Snapshot)
    requires Admit(s, msg).Ok?
    requires msg.gas < IntrinsicCost(msg.data, msg.to.None?, ctx.homestead)
    ensures var o := Transition(ctx, executor, msg, s);
      o == Outcome(Admit(s, msg).value, [], 0, false, Some(ErrOutOfGas))
  {
  }

  /** The value of `a + b` gas is the value of `a` plus the value of `b`. */
  lemma GasValueAdds(a: u64, b: u64, price: Wei)
    requires a + b <= MAX_UINT64
    ensures GasValue(a, price) + GasValue(b, price) == GasValue(a + b, price)
  {
    assert (a + b) * price == a * price + b * price;
  }

  /** The EVM result that a transition settles, once preCheck succeeded and
      the intrinsic gas is covered. */
  function EvmResult(ctx: Context, executor: Executor, msg: Message, bought: Snapshot): (x: Executed)
    requires IntrinsicCost(msg.data, msg.to.None?, ctx.homestead) <= msg.gas
    ensures x.leftOverGas <= msg.gas - IntrinsicCost(msg.data, msg.to.None?, ctx.homestead)
  {
    Run(executor, Frame(msg, IntrinsicCost(msg.data, msg.to.None?, ctx.homestead)), BumpNonce(bought.world, msg))
  }

  /** Only a call bumps the sender's nonce: the world handed to the EVM has
      the sender's nonce raised by one (uint64 wrap-around) for a call and
      untouched for a creation, every other nonce as bought, and settling
      afterwards changes no nonce, whatever the EVM did. With the EVM of this
      model, which leaves nonces alone (Vm.Run), the transition as a whole
      therefore changes only the sender's nonce, and only for a call. */
  lemma OnlyCallsBumpNonce(ctx: Context, executor: Executor, msg: Message, s: Snapshot)
    requires Admit(s, msg).Ok?
    requires IntrinsicCost(msg.data, msg.to.None?, ctx.homestead) <= msg.gas
    ensures var bought := Admit(s, msg).value;
      var handed := BumpNonce(bought.world, msg);
      && bought.world.nonces == s.world.nonces
      && NonceOf(handed.nonces, msg.from)
         == (if msg.to.Some? then WrapAdd(NonceOf(s.world.nonces, msg.from), 1) else NonceOf(s.world.nonces, msg.from))
      && (forall a :: a != msg.from ==> NonceOf(handed.nonces, a) == NonceOf(s.world.nonces, a))
      && Transition(ctx, executor, msg, s).post.world.nonces == EvmResult(ctx, executor, msg, bought).post.nonces
    ensures var o := Transition(ctx, executor, msg, s);
      && NonceOf(o.post.world.nonces, msg.from)
         == (if msg.to.Some? then WrapAdd(NonceOf(s.world.nonces, msg.from), 1) else NonceOf(s.world.nonces, msg.from))
      && forall a :: a != msg.from ==> NonceOf(o.post.world.nonces, a) == NonceOf(s.world.nonces, a)
  {
    var bought := Admit(s, msg).value;
    var x := EvmResult(ctx, executor, msg, bought);
    assert x.post.nonces == BumpNonce(bought.world, msg).nonces;
    if x.err != Some(ErrInsufficientBalance) {
      SettleUnfolds(ctx, msg, bought.pool, x);
    }
  }

  /** When the EVM reports ErrInsufficientBalance the transition stops with
      that error: no gas is counted as used, nothing is refunded to the sender
      or the pool and the coinbase is not paid. */
  lemma InsufficientBalanceStops(ctx: Context, executor: Executor, msg: Message, s: Snapshot)
    requires Admit(s, msg).Ok?
    requires IntrinsicCost(msg.data, msg.to.None?, ctx.homestead) <= msg.gas
    requires EvmResult(ctx, executor, msg, Admit(s, msg).value).err == Some(ErrInsufficientBalance)
    ensures var o := Transition(ctx, executor, msg, s);
      && o.err == Some(ErrInsufficientBalance) && o.usedGas == 0 && !o.failed
      && o.post.pool == Admit(s, msg).value.pool
      && o.post.world.balances == Admit(s, msg).value.world.balances
  {
  }

  /** After the EVM ran (and did not lack balance) the message is accepted:
      `err` is None and `failed` says whether the EVM failed. The gas used is
      at most what was bought and at least half the intrinsic cost, and the
      pool gets back exactly what was not used. Measured against the world
      the EVM left, whatever the EVM did to it: the sender is credited the
      unused gas times the price, the coinbase the used gas times the price,
      and nothing else changes. */
  lemma SettlementAccounts(ctx: Context, executor: Executor, msg: Message, s: Snapshot)
    requires Admit(s, msg).Ok?
    requires IntrinsicCost(msg.data, msg.to.None?, ctx.homestead) <= msg.gas
    requires EvmResult(ctx, executor, msg, Admit(s, msg).value).err != Some(ErrInsufficientBalance)
    ensures var o := Transition(ctx, executor, msg, s);
      var x := EvmResult(ctx, executor, msg, Admit(s, msg).value);
      var refund := GasValue(msg.gas - o.usedGas, msg.gasPrice);
      var fee := GasValue(o.usedGas, msg.gasPrice);
      && o.err == None
      && o.failed == x.err.Some?
      && o.usedGas <= msg.gas
      && IntrinsicCost(msg.data, msg.to.None?, ctx.homestead) <= 2 * o.usedGas
      && o.post.pool + o.usedGas == s.pool
      && (msg.from != ctx.coinbase ==>
            && BalanceOf(o.post.world.balances, msg.from) == BalanceOf(x.post.balances, msg.from) + refund
            && BalanceOf(o.post.world.balances, ctx.coinbase) == BalanceOf(x.post.balances, ctx.coinbase) + fee)
      && (msg.from == ctx.coinbase ==>
            BalanceOf(o.post.world.balances, msg.from) == BalanceOf(x.post.balances, msg.from) + refund + fee)
      && (forall a :: a != msg.from && a != ctx.coinbase ==> BalanceOf(o.post.world.balances, a) == BalanceOf(x.post.balances, a))
      && o.post.world.nonces == x.post.nonces && o.post.world.refund == x.post.refund && o.post.world.logs == x.post.logs
  {
    var bought := Admit(s, msg).value;
    var x := EvmResult(ctx, executor, msg, bought);
    SettleUnfolds(ctx, msg, bought.pool, x);
  }

  /** The refund the sender gets back on settlement plus the fee the coinbase
      receives is exactly what the sender paid for the gas it bought,
      measured against the world the EVM left. */
  lemma RefundPlusFeeIsPurchase(ctx: Context, executor: Executor, msg: Message, s: Snapshot)
    requires Admit(s, msg).Ok?
    requires IntrinsicCost(msg.data, msg.to.None?, ctx.homestead) <= msg.gas
    requires EvmResult(ctx, executor, msg, Admit(s, msg).value).err != Some(ErrInsufficientBalance)
    ensures var o := Transition(ctx, executor, msg, s);
      var x := EvmResult(ctx, executor, msg, Admit(s, msg).value);
      var senderGain := BalanceOf(o.post.world.balances, msg.from) - BalanceOf(x.post.balances, msg.from);
      var coinbaseGain := BalanceOf(o.post.world.balances, ctx.coinbase) - BalanceOf(x.post.balances, ctx.coinbase);
      && (msg.from != ctx.coinbase ==> senderGain + coinbaseGain == GasValue(msg.gas, msg.gasPrice))
      && (msg.from == ctx.coinbase ==> senderGain == GasValue(msg.gas, msg.gasPrice))
  {
    var bought := Admit(s, msg).value;
    var x := EvmResult(ctx, executor, msg, bought);
    SettleUnfolds(ctx, msg, bought.pool, x);
    var remaining := GasAfterRefund(msg.gas, x.leftOverGas, x.post.refund);
    GasValueAdds(remaining, msg.gas - remaining, msg.gasPrice);
  }

  /** With the EVM of this model, which moves no balance (Vm.Run), the whole
      transition charges the sender exactly the gas used times the price and
      pays it to the coinbase; every other balance is as it was. */
  lemma FeeMovesToCoinbase(ctx: Context, executor: Executor, msg: Message, s: Snapshot)
    requires Admit(s, msg).Ok?
    requires IntrinsicCost(msg.data, msg.to.None?, ctx.homestead) <= msg.gas
    requires EvmResult(ctx, executor, msg, Admit(s, msg).value).err != Some(ErrInsufficientBalance)
    ensures var o := Transition(ctx, executor, msg, s);
      var fee := GasValue(o.usedGas, msg.gasPrice);
      && (msg.from != ctx.coinbase ==>
            && BalanceOf(o.post.world.balances, msg.from) == BalanceOf(s.world.balances, msg.from) - fee
            && BalanceOf(o.post.world.balances, ctx.coinbase) == BalanceOf(s.world.balances, ctx.coinbase) + fee)
      && (msg.from == ctx.coinbase ==> BalanceOf(o.post.world.balances, msg.from) == BalanceOf(s.world.balances, msg.from))
      && forall a :: a != msg.from && a != ctx.coinbase ==> BalanceOf(o.post.world.balances, a) == BalanceOf(s.world.balances, a)
  {
    var bought := Admit(s, msg).value;
    var x := EvmResult(ctx, executor, msg, bought);
    SettlementAccounts(ctx, executor, msg, s);
    PurchaseCharges(s, msg);
    assert x.post.balances == bought.world.balances;
    var used := Transition(ctx, executor, msg, s).usedGas;
    GasValueAdds(msg.gas - used, used, msg.gasPrice);
  }

  /** A plain value transfer (a call with no data) bought with exactly the
      base charge: the whole 21000 gas is charged before the EVM runs, so at
      most the refund counter's share of it comes back, and all of it is used
      when the counter is zero. */
  lemma PlainTransferUsesBaseGas(ctx: Context, executor: Executor, msg: Message, s: Snapshot)
    requires Admit(s, msg).Ok?
    requires msg.to.Some? && msg.data == [] && msg.gas == TX_GAS
    requires EvmResult(ctx, executor, msg, Admit(s, msg).value).err != Some(ErrInsufficientBalance)
    ensures var o := Transition(ctx, executor, msg, s);
      && o.err == None && TX_GAS / 2 <= o.usedGas <= TX_GAS && o.post.pool + o.usedGas == s.pool
      && (EvmResult(ctx, executor, msg, Admit(s, msg).value).post.refund == 0 ==> o.usedGas == TX_GAS)
  {
    IntrinsicCostBounds(msg.data, msg.to.None?, ctx.homestead);
    var bought := Admit(s, msg).value;
    var x := EvmResult(ctx, executor, msg, bought);
    SettleUnfolds(ctx, msg, bought.pool, x);
  }
}
