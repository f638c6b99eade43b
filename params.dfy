/** The protocol gas constants the core charges (values before the Istanbul
    repricing of transaction data). */
module Params {

  /** Base cost of every transaction that does not create a contract. */
  const TX_GAS: nat := 21000

  /** Base cost of a contract-creating transaction from Homestead on. */
  const TX_GAS_CONTRACT_CREATION: nat := 53000

  /** Cost of each zero byte of transaction data. */
  const TX_DATA_ZERO_GAS: nat := 4

  /** Cost of each non-zero byte of transaction data. */
  const TX_DATA_NON_ZERO_GAS: nat := 68
}
