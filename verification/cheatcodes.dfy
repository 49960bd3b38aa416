/** The `Cheatcodes` context store: overrides of the block number and of the
    block timestamp, and an account map. */
module Cheatcodes {
  import opened Wrappers
  import opened Words
  import opened Backend

  /** The `Cheatcodes` struct. `None` means "no override: use the vicinity". */
  datatype Context = Context(
    blockNumber: Option<U256>,
    blockTimestamp: Option<U256>,
    accounts: map<Address, Account>)

  /** `Cheatcodes::default()`. */
  function DefaultContext(): (c: Context)
    ensures c.blockNumber == None && c.blockTimestamp == None
    ensures |c.accounts| == 0
  {
    Context(None, None, map[])
  }

  /** The block number in effect: the override when one is set, else the
      vicinity's value `fallback`. */
  function EffectiveBlockNumber(c: Context, fallback: U256): (n: U256)
    ensures c.blockNumber.None? ==> n == fallback
    ensures c.blockNumber.Some? ==> n == c.blockNumber.value
  {
    c.blockNumber.GetOr(fallback)
  }

  /** The timestamp in effect: the override when one is set, else `fallback`. */
  function EffectiveTimestamp(c: Context, fallback: U256): (t: U256)
    ensures c.blockTimestamp.None? ==> t == fallback
    ensures c.blockTimestamp.Some? ==> t == c.blockTimestamp.value
  {
    c.blockTimestamp.GetOr(fallback)
  }

  /** A fresh context overrides nothing: the vicinity's values are in effect. */
  lemma DefaultOverridesNothing(number: U256, timestamp: U256)
    ensures EffectiveBlockNumber(DefaultContext(), number) == number
    ensures EffectiveTimestamp(DefaultContext(), timestamp) == timestamp
  {
  }
}
