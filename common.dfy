/** Basic types shared by the whole model: fixed-width integers, addresses,
    hashes, amounts of Wei, logs and the error taxonomy of the core. */
module Common {

  const MAX_UINT64: nat := 0xFFFF_FFFF_FFFF_FFFF

  /** Go's uint64. */
  type u64 = x: nat | x <= MAX_UINT64

  type byte = b: nat | b < 0x100

  /** A 20-byte account address, as a number. */
  type Address = a: nat | a < 0x1_0000_0000_0000_0000_0000_0000_0000_0000_0000_0000

  /** The zero address, `common.Address{}`. */
  const ZERO_ADDRESS: Address := 0

  /** A 32-byte Keccak-256 hash, as a number. */
  type Hash = h: nat | h < 0x1_0000_0000_0000_0000_0000_0000_0000_0000_0000_0000_0000_0000_0000_0000

  /** Amounts of Ether are `*big.Int` values: unbounded and signed. */
  type Wei = int

  /** A 2048-bit log bloom, as bytes. */
  type Bloom = seq<byte>

  datatype Option<+T> = None | Some(value: T)

  datatype Result<+T> = Ok(value: T) | Err(error: Error)

  /** The errors the core produces or distinguishes. The first five are
      reported by the state transition itself, ErrInvalidSig by signature
      recovery, the rest by the EVM. */
  datatype Error =
    | ErrNonceTooHigh
    | ErrNonceTooLow
    | ErrInsufficientBalanceForGas
    | ErrGasLimitReached
    | ErrOutOfGas
    | ErrInvalidSig
    | ErrInsufficientBalance
    | ErrDepth
    | ErrExecutionReverted
    | ErrContractAddressCollision
    | ErrCodeStoreOutOfGas
    | ErrInvalidOpcode

  /** A log entry emitted during execution. */
  datatype Log = Log(address: Address, topics: seq<Hash>, data: seq<byte>)

  /** Go's `a + b` on uint64: wraps around modulo 2^64. */
  function WrapAdd(a: u64, b: u64): (r: u64)
    ensures a + b <= MAX_UINT64 ==> r == a + b
    ensures a + b > MAX_UINT64 ==> r == a + b - (MAX_UINT64 + 1) && r < a
  {
    if a + b <= MAX_UINT64 then a + b else a + b - (MAX_UINT64 + 1)
  }

  /** WrapAdd is addition modulo 2^64. */
  lemma WrapAddIsModular(a: u64, b: u64)
    ensures WrapAdd(a, b) == (a + b) % (MAX_UINT64 + 1)
  {
  }
}
