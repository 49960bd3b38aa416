/** Building the block context (`vicinity`) from a chain-data provider, and
    the log contract of the pass-through executor. */
module Sputnik {
  import opened Wrappers
  import opened Words
  import opened Backend

  /** An error the provider reports (a transport or RPC failure). */
  datatype ProviderError = ProviderError(message: string)

  /** The fields of a fetched block that the vicinity uses. A block may lack
      a number (a pending block does). */
  datatype Block = Block(number: Option<U64>, author: Address, difficulty: U256, gasLimit: U256, timestamp: U256)

  /** The provider's answers, one per query the vicinity issues. A height
      with no entry in `blocks` is a block the chain does not have. */
  datatype Provider = Provider(
    head: Result<U64, ProviderError>,
    gasPrice: Result<U256, ProviderError>,
    chainId: Result<U256, ProviderError>,
    blocks: map<U64, Result<Block, ProviderError>>)

  /** `get_block(n)`: the block, `None` when it does not exist, or an error. */
  function GetBlock(p: Provider, n: U64): (r: Result<Option<Block>, ProviderError>)
    ensures n !in p.blocks ==> r == Success(None)
    ensures n in p.blocks && p.blocks[n].Success? ==> r == Success(Some(p.blocks[n].value))
    ensures n in p.blocks && p.blocks[n].Failure? ==> r == Failure(p.blocks[n].error)
  {
    if n !in p.blocks then Success(None)
    else
      match p.blocks[n]
      case Success(b) => Success(Some(b))
      case Failure(e) => Failure(e)
  }

  /** sputnik's `MemoryVicinity`. */
  datatype MemoryVicinity = MemoryVicinity(
    gasPrice: U256,
    origin: Address,
    chainId: U256,
    blockHashes: seq<H256>,
    blockNumber: U256,
    blockCoinbase: Address,
    blockTimestamp: U256,
    blockDifficulty: U256,
    blockGasLimit: U256)

  /** The height to build the vicinity at: the pinned one, else the current head. */
  function RequestedBlock(p: Provider, pin: Option<U64>): (r: Result<U64, ProviderError>)
    ensures pin.Some? ==> r == Success(pin.value)
    ensures pin.None? ==> r == p.head
  {
    match pin
    case Some(n) => Success(n)
    case None => p.head
  }

  /** The three queries issued together for height `n`; the first error among
      them, if any, is the result. */
  function FetchAll(p: Provider, n: U64): (r: Result<(U256, U256, Option<Block>), ProviderError>)
    ensures r.Success? <==> p.gasPrice.Success? && p.chainId.Success? && GetBlock(p, n).Success?
    ensures r.Success? ==> r.value == (p.gasPrice.value, p.chainId.value, GetBlock(p, n).value)
    ensures r.Failure? ==>
              || (p.gasPrice.Failure? && r.error == p.gasPrice.error)
              || (p.chainId.Failure? && r.error == p.chainId.error)
              || (GetBlock(p, n).Failure? && r.error == GetBlock(p, n).error)
  {
    match (p.gasPrice, p.chainId, GetBlock(p, n))
    case (Failure(e), _, _) => Failure(e)
    case (_, Failure(e), _) => Failure(e)
    case (_, _, Failure(e)) => Failure(e)
    case (Success(g), Success(c), Success(b)) => Success((g, c, b))
  }

  /** The two `expect`s of `vicinity` hold: whenever every query succeeds, the
      block exists and carries a number. */
  predicate BlockIsComplete(p: Provider, pin: Option<U64>)
  {
    match RequestedBlock(p, pin)
    case Failure(_) => true
    case Success(n) =>
      FetchAll(p, n).Success? ==> GetBlock(p, n).value.Some? && GetBlock(p, n).value.value.number.Some?
  }

  /** `vicinity(provider, pin_block)`. */
  function Vicinity(p: Provider, pin: Option<U64>): (r: Result<MemoryVicinity, ProviderError>)
    requires BlockIsComplete(p, pin)
    // it fails exactly when one of the queries fails, and with that query's error
    ensures r.Failure? <==> RequestedBlock(p, pin).Failure? || FetchAll(p, RequestedBlock(p, pin).value).Failure?
    ensures RequestedBlock(p, pin).Failure? ==> r == Failure(RequestedBlock(p, pin).error)
    ensures RequestedBlock(p, pin).Success? && FetchAll(p, RequestedBlock(p, pin).value).Failure? ==>
              r == Failure(FetchAll(p, RequestedBlock(p, pin).value).error)
    // on success, the block fields come from the fetched block, the rest from the provider
    ensures r.Success? ==>
              var b := p.blocks[RequestedBlock(p, pin).value].value;
              && r.value.blockNumber == b.number.value
              && r.value.blockCoinbase == b.author
              && r.value.blockDifficulty == b.difficulty
              && r.value.blockGasLimit == b.gasLimit
              && r.value.blockTimestamp == b.timestamp
              && r.value.gasPrice == p.gasPrice.value
              && r.value.chainId == p.chainId.value
    ensures r.Success? ==> r.value.origin == 0 && r.value.blockHashes == []
  {
    match RequestedBlock(p, pin)
    case Failure(e) => Failure(e)
    case Success(n) =>
      match FetchAll(p, n)
      case Failure(e) => Failure(e)
      case Success((gasPrice, chainId, block)) =>
        var b := block.value;
        Success(MemoryVicinity(
          gasPrice := gasPrice,
          origin := 0,
          chainId := chainId,
          blockHashes := [],
          blockNumber := b.number.value,
          blockCoinbase := b.author,
          blockTimestamp := b.timestamp,
          blockDifficulty := b.difficulty,
          blockGasLimit := b.gasLimit))
  }

  /** With a pinned block the head is never consulted: the provider's answer
      for the head, failed or not, makes no difference. */
  lemma PinnedIgnoresHead(p: Provider, n: U64, head: Result<U64, ProviderError>)
    requires BlockIsComplete(p, Some(n))
    ensures BlockIsComplete(p.(head := head), Some(n))
    ensures Vicinity(p.(head := head), Some(n)) == Vicinity(p, Some(n))
  {
  }

  /** Without a pin the vicinity is the one pinned at the current head. */
  lemma UnpinnedUsesHead(p: Provider, n: U64)
    requires p.head == Success(n)
    requires BlockIsComplete(p, None)
    ensures BlockIsComplete(p, Some(n))
    ensures Vicinity(p, None) == Vicinity(p, Some(n))
  {
  }

  /** A provider whose blocks carry the height they are stored under. */
  predicate Consistent(p: Provider)
  {
    forall n :: n in p.blocks && p.blocks[n].Success? ==> p.blocks[n].value.number == Some(n)
  }

  /** Against a consistent provider, a pinned vicinity is at exactly the pinned
      height (the vicinity copies the block's own number, not the request). */
  lemma PinnedVicinityNumber(p: Provider, n: U64)
    requires Consistent(p) && BlockIsComplete(p, Some(n))
    ensures Vicinity(p, Some(n)).Success? ==> Vicinity(p, Some(n)).value.blockNumber == n
  {
  }

  /** The executor state the pass-through implementation keeps: the backend
      state and the gas the gasometer has left. */
  datatype StackExecutor = StackExecutor(state: State, gas: U64)

  /** `logs()`: the plain executor parses no logs. */
  function Logs(e: StackExecutor): (r: seq<string>)
    ensures |r| == 0
  {
    []
  }

  /** `clear_logs()`: the plain executor has nothing to clear. */
  function ClearLogs(e: StackExecutor): (r: StackExecutor)
    ensures r.state == e.state && r.gas == e.gas
  {
    e
  }

  /** The contract every executor owes its callers: after `clear_logs`,
      `logs` reports nothing, so nothing is reported twice. */
  lemma ClearLogsEmptiesLogs(e: StackExecutor)
    ensures Logs(ClearLogs(e)) == []
    ensures ClearLogs(ClearLogs(e)) == ClearLogs(e)
  {
  }
}
