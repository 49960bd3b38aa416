/** The `HevmConsole` events: the fixed set of sixteen log-event shapes that
    test contracts emit and the harness understands. */
module Console {
  import opened Wrappers
  import opened Words
  import opened Abi

  datatype LogEvent =
    | Log(message: string)
    | Logs(data: seq<Byte>)
    | LogAddress(address: Address)
    | LogBytes32(word: H256)
    | LogInt(intValue: I256)
    | LogUint(uintValue: U256)
    | LogBytes(bytes: seq<Byte>)
    | LogString(str: string)
    | LogNamedAddress(key: string, addressVal: Address)
    | LogNamedBytes32(key: string, wordVal: H256)
    | LogNamedDecimalInt(key: string, intVal: I256, decimals: U256)
    | LogNamedDecimalUint(key: string, uintVal: U256, decimals: U256)
    | LogNamedInt(key: string, intVal: I256)
    | LogNamedUint(key: string, uintVal: U256)
    | LogNamedBytes(key: string, bytesVal: seq<Byte>)
    | LogNamedString(key: string, strVal: string)

  /** The event names, in declaration order. */
  const EventNames: seq<string> := [
    "log", "logs", "log_address", "log_bytes32", "log_int", "log_uint", "log_bytes", "log_string",
    "log_named_address", "log_named_bytes32", "log_named_decimal_int", "log_named_decimal_uint",
    "log_named_int", "log_named_uint", "log_named_bytes", "log_named_string"]

  /** The declared parameter types of each event, in the order of `EventNames`. */
  const EventParams: seq<seq<AbiType>> := [
    [StringType], [BytesType], [AddressType], [Bytes32Type], [IntType], [UintType], [BytesType], [StringType],
    [StringType, AddressType], [StringType, Bytes32Type], [StringType, IntType, UintType],
    [StringType, UintType, UintType], [StringType, IntType], [StringType, UintType],
    [StringType, BytesType], [StringType, StringType]]

  /** The position of an event's shape in the set. */
  function KindOf(e: LogEvent): (k: nat)
    ensures k < |EventNames| && k < |EventParams|
  {
    match e
    case Log(_) => 0
    case Logs(_) => 1
    case LogAddress(_) => 2
    case LogBytes32(_) => 3
    case LogInt(_) => 4
    case LogUint(_) => 5
    case LogBytes(_) => 6
    case LogString(_) => 7
    case LogNamedAddress(_, _) => 8
    case LogNamedBytes32(_, _) => 9
    case LogNamedDecimalInt(_, _, _) => 10
    case LogNamedDecimalUint(_, _, _) => 11
    case LogNamedInt(_, _) => 12
    case LogNamedUint(_, _) => 13
    case LogNamedBytes(_, _) => 14
    case LogNamedString(_, _) => 15
  }

  function Name(e: LogEvent): string
  {
    EventNames[KindOf(e)]
  }

  /** The values an event carries; they have its declared parameter types. */
  function Values(e: LogEvent): (vs: seq<AbiValue>)
    ensures Conforms(vs, EventParams[KindOf(e)])
  {
    match e
    case Log(m) => [StringVal(m)]
    case Logs(d) => [BytesVal(d)]
    case LogAddress(a) => [AddressVal(a)]
    case LogBytes32(w) => [Bytes32Val(w)]
    case LogInt(i) => [IntVal(i)]
    case LogUint(u) => [UintVal(u)]
    case LogBytes(b) => [BytesVal(b)]
    case LogString(s) => [StringVal(s)]
    case LogNamedAddress(k, a) => [StringVal(k), AddressVal(a)]
    case LogNamedBytes32(k, w) => [StringVal(k), Bytes32Val(w)]
    case LogNamedDecimalInt(k, i, d) => [StringVal(k), IntVal(i), UintVal(d)]
    case LogNamedDecimalUint(k, u, d) => [StringVal(k), UintVal(u), UintVal(d)]
    case LogNamedInt(k, i) => [StringVal(k), IntVal(i)]
    case LogNamedUint(k, u) => [StringVal(k), UintVal(u)]
    case LogNamedBytes(k, b) => [StringVal(k), BytesVal(b)]
    case LogNamedString(k, s) => [StringVal(k), StringVal(s)]
  }

  /** The position in the set of the event called `name`, if there is one. */
  function EventIndex(name: string): (r: Option<nat>)
    ensures r.Some? ==> r.value < |EventNames| && EventNames[r.value] == name
    ensures r.None? <==> name !in EventNames
  {
    if name == "log" then Some(0)
    else if name == "logs" then Some(1)
    else if name == "log_address" then Some(2)
    else if name == "log_bytes32" then Some(3)
    else if name == "log_int" then Some(4)
    else if name == "log_uint" then Some(5)
    else if name == "log_bytes" then Some(6)
    else if name == "log_string" then Some(7)
    else if name == "log_named_address" then Some(8)
    else if name == "log_named_bytes32" then Some(9)
    else if name == "log_named_decimal_int" then Some(10)
    else if name == "log_named_decimal_uint" then Some(11)
    else if name == "log_named_int" then Some(12)
    else if name == "log_named_uint" then Some(13)
    else if name == "log_named_bytes" then Some(14)
    else if name == "log_named_string" then Some(15)
    else None
  }

  /** The event of shape `k` carrying the values `vs`. */
  function Build(k: nat, vs: seq<AbiValue>): (e: LogEvent)
    requires k < |EventParams| && Conforms(vs, EventParams[k])
    ensures KindOf(e) == k
  {
    if k == 0 then Log(vs[0].str)
    else if k == 1 then Logs(vs[0].bytes)
    else if k == 2 then LogAddress(vs[0].addr)
    else if k == 3 then LogBytes32(vs[0].word)
    else if k == 4 then LogInt(vs[0].i)
    else if k == 5 then LogUint(vs[0].u)
    else if k == 6 then LogBytes(vs[0].bytes)
    else if k == 7 then LogString(vs[0].str)
    else if k == 8 then LogNamedAddress(vs[0].str, vs[1].addr)
    else if k == 9 then LogNamedBytes32(vs[0].str, vs[1].word)
    else if k == 10 then LogNamedDecimalInt(vs[0].str, vs[1].i, vs[2].u)
    else if k == 11 then LogNamedDecimalUint(vs[0].str, vs[1].u, vs[2].u)
    else if k == 12 then LogNamedInt(vs[0].str, vs[1].i)
    else if k == 13 then LogNamedUint(vs[0].str, vs[1].u)
    else if k == 14 then LogNamedBytes(vs[0].str, vs[1].bytes)
    else LogNamedString(vs[0].str, vs[1].str)
  }

  /** Recognising an emitted event from its name and values; an event outside
      the set, or one whose values have the wrong types, is not recognised. */
  function Decode(name: string, vs: seq<AbiValue>): (r: Option<LogEvent>)
    ensures r.Some? <==> EventIndex(name).Some? && Conforms(vs, EventParams[EventIndex(name).value])
    ensures r.Some? ==> Name(r.value) == name
  {
    match EventIndex(name)
    case None => None
    case Some(k) =>
      if Conforms(vs, EventParams[k]) then Some(Build(k, vs)) else None
  }

  /** The set holds sixteen events with distinct names, and those are exactly
      the names the decoder knows. */
  lemma EventSetIsExact(e: LogEvent)
    ensures |EventNames| == 16
    ensures forall i, j :: 0 <= i < j < |EventNames| ==> EventNames[i] != EventNames[j]
    ensures Name(e) in EventNames
  {
  }

  /** Names are distinct, so each name leads back to its own position. */
  lemma EventIndexOfName(k: nat)
    requires k < |EventNames|
    ensures EventIndex(EventNames[k]) == Some(k)
  {
  }

  lemma BuildValues(e: LogEvent)
    ensures Build(KindOf(e), Values(e)) == e
  {
  }

  lemma ValuesBuild(k: nat, vs: seq<AbiValue>)
    requires k < |EventParams| && Conforms(vs, EventParams[k])
    ensures Values(Build(k, vs)) == vs
  {
    var expected := Values(Build(k, vs));
    assert |vs| == |expected| == |EventParams[k]|;
    forall i | 0 <= i < |vs|
      ensures vs[i] == expected[i]
    {
      assert TypeOf(vs[i]) == EventParams[k][i];
    }
  }

  /** Recognising what an event carries gives the event back. */
  lemma DecodeValues(e: LogEvent)
    ensures Decode(Name(e), Values(e)) == Some(e)
  {
    EventIndexOfName(KindOf(e));
    BuildValues(e);
  }

  /** Values of the types of shape `k`, emitted under that shape's name, are
      recognised as the event of shape `k` carrying exactly those values. */
  lemma DecodeIsInverse(k: nat, vs: seq<AbiValue>)
    requires k < |EventNames| && Conforms(vs, EventParams[k])
    ensures Decode(EventNames[k], vs).Some?
    ensures KindOf(Decode(EventNames[k], vs).value) == k
    ensures Values(Decode(EventNames[k], vs).value) == vs
  {
    EventIndexOfName(k);
    ValuesBuild(k, vs);
  }

  /** A named event carries its key as a leading string, ahead of the value. */
  predicate IsNamed(e: LogEvent)
  {
    || e.LogNamedAddress? || e.LogNamedBytes32? || e.LogNamedDecimalInt? || e.LogNamedDecimalUint?
    || e.LogNamedInt? || e.LogNamedUint? || e.LogNamedBytes? || e.LogNamedString?
  }

  /** The shapes: plain events carry one value; named ones a key and a value;
      the decimal ones, and only they, a third `decimals` count. */
  lemma EventShapes(e: LogEvent)
    ensures !IsNamed(e) ==> |Values(e)| == 1
    ensures IsNamed(e) ==> |Values(e)| >= 2 && Values(e)[0] == StringVal(e.key)
    ensures (e.LogNamedDecimalInt? || e.LogNamedDecimalUint?) <==> |Values(e)| == 3
    ensures |Values(e)| == 3 ==> Values(e)[2] == UintVal(e.decimals)
  {
  }
}
