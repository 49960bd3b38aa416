/** ABI values at the level of their declared types. The byte-level encoding,
    and the 4-byte selectors derived from Keccak, are not modelled: a call or
    an event is represented by its signature and its list of typed values. */
module Abi {
  import opened Words

  datatype AbiType =
    | UintType        // uint256 (Solidity `uint`)
    | IntType         // int256 (Solidity `int`)
    | AddressType
    | Bytes32Type
    | BytesType
    | StringType
    | StringArrayType // string[]

  datatype AbiValue =
    | UintVal(u: U256)
    | IntVal(i: I256)
    | AddressVal(addr: Address)
    | Bytes32Val(word: H256)
    | BytesVal(bytes: seq<Byte>)
    | StringVal(str: string)
    | StringArrayVal(strs: seq<string>)

  function TypeOf(v: AbiValue): AbiType
  {
    match v
    case UintVal(_) => UintType
    case IntVal(_) => IntType
    case AddressVal(_) => AddressType
    case Bytes32Val(_) => Bytes32Type
    case BytesVal(_) => BytesType
    case StringVal(_) => StringType
    case StringArrayVal(_) => StringArrayType
  }

  /** The values `vs` have, position by position, the declared types `ts`. */
  predicate Conforms(vs: seq<AbiValue>, ts: seq<AbiType>)
  {
    |vs| == |ts| && forall i :: 0 <= i < |vs| ==> TypeOf(vs[i]) == ts[i]
  }

  /** The canonical name of a type, as it appears in a signature. */
  function TypeName(t: AbiType): string
  {
    match t
    case UintType => "uint256"
    case IntType => "int256"
    case AddressType => "address"
    case Bytes32Type => "bytes32"
    case BytesType => "bytes"
    case StringType => "string"
    case StringArrayType => "string[]"
  }

  /** A parameter list as written in a signature: type names separated by commas. */
  function TypeList(ts: seq<AbiType>): (r: string)
    ensures |ts| == 1 ==> r == TypeName(ts[0])
    ensures |ts| == 2 ==> r == TypeName(ts[0]) + "," + TypeName(ts[1])
  {
    if ts == [] then ""
    else if |ts| == 1 then TypeName(ts[0])
    else TypeName(ts[0]) + "," + TypeList(ts[1..])
  }
}
