/** The fixed-width words of the EVM, as bounded integers. No operation of the
    model does arithmetic on them, so only their ranges are recorded. */
module Words {

  type Byte = x: nat | x < 0x100

  /** `u64`, and ethers' `U64`. */
  type U64 = x: nat | x < 0x1_0000_0000_0000_0000

  /** ethers' `U256`, an unsigned 256-bit word. */
  type U256 = x: nat | x < 0x1_0000000000000000000000000000000000000000000000000000000000000000

  /** A signed 256-bit word (Solidity's `int`), two's complement range. */
  type I256 = x: int | -0x8000000000000000000000000000000000000000000000000000000000000000 <= x < 0x8000000000000000000000000000000000000000000000000000000000000000

  /** `H160`, a 20-byte account address. */
  type Address = x: nat | x < 0x1_0000000000000000000000000000000000000000

  /** `H256`, a 32-byte storage slot or storage value. */
  type H256 = x: nat | x < 0x1_0000000000000000000000000000000000000000000000000000000000000000
}
