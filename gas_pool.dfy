/** The block gas pool: one counter of the gas still available to the
    transactions of a block. Only the contract its callers rely on is modelled. */
module GasPools {
  import opened Common

  /** Addition that clamps at the largest uint64 instead of wrapping. */
  function SaturatingAdd(a: u64, b: u64): (r: u64)
    ensures a <= r && b <= r
    ensures a + b <= MAX_UINT64 <==> r == a + b
    ensures a + b > MAX_UINT64 <==> r == MAX_UINT64 && r != a + b
  {
    if a + b <= MAX_UINT64 then a + b else MAX_UINT64
  }

  class GasPool {
    var gas: u64

    /** `new(GasPool)`: an empty pool. */
    constructor ()
      ensures gas == 0
    {
      gas := 0;
    }

    /** Makes `amount` more gas available, saturating at the largest uint64. */
    method AddGas(amount: u64)
      modifies this
      ensures gas == SaturatingAdd(old(gas), amount)
      ensures gas >= old(gas)
    {
      gas := SaturatingAdd(gas, amount);
    }

    /** Takes `amount` gas out of the pool, or fails and leaves it unchanged
        when less than `amount` is available. */
    method SubGas(amount: u64) returns (err: Option<Error>)
      modifies this
      ensures old(gas) < amount ==> err == Some(ErrGasLimitReached) && gas == old(gas)
      ensures amount <= old(gas) ==> err == None && gas + amount == old(gas)
    {
      if gas < amount {
        return Some(ErrGasLimitReached);
      }
      gas := gas - amount;
      return None;
    }
  }
}
