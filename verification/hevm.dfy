/** The `HEVM` cheatcode table: five operations, their ABI signatures, the
    decoding of a call against the table, and the host-side effect of each. */
module Hevm {
  import opened Wrappers
  import opened Words
  import opened Abi
  import opened Backend
  import opened Cheatcodes

  /** The entries of the table. */
  datatype Cheat = Roll | Warp | Store | Load | Ffi

  /** The table, in declaration order. */
  const Table: seq<Cheat> := [Roll, Warp, Store, Load, Ffi]

  /** Each entry's function name. */
  function CheatName(k: Cheat): string
  {
    match k
    case Roll => "roll"
    case Warp => "warp"
    case Store => "store"
    case Load => "load"
    case Ffi => "ffi"
  }

  /** Each entry's function signature: its name and argument types, the part
      of a declaration that identifies a call (the return types are not part
      of it). */
  function Signature(k: Cheat): string
  {
    match k
    case Roll => "roll(uint256)"
    case Warp => "warp(uint256)"
    case Store => "store(address,bytes32,bytes32)"
    case Load => "load(address,bytes32)"
    case Ffi => "ffi(string[])"
  }

  lemma RollSignature()
    ensures Signature(Roll) == CheatName(Roll) + "(" + TypeList(Inputs(Roll)) + ")"
  {
    assert TypeList(Inputs(Roll)) == "uint256";
    assert "roll" + "(" + "uint256" + ")" == "roll(uint256)";
  }

  lemma WarpSignature()
    ensures Signature(Warp) == CheatName(Warp) + "(" + TypeList(Inputs(Warp)) + ")"
  {
    assert TypeList(Inputs(Warp)) == "uint256";
    assert "warp" + "(" + "uint256" + ")" == "warp(uint256)";
  }

  lemma StoreSignature()
    ensures Signature(Store) == CheatName(Store) + "(" + TypeList(Inputs(Store)) + ")"
  {
    var ts := Inputs(Store);
    var tail := TypeList(ts[1..]);
    assert tail == "bytes32,bytes32" by {
      assert ts[1..] == [Bytes32Type, Bytes32Type];
    }
    var args := TypeList(ts);
    assert args == "address" + "," + tail;
    assert args == "address,bytes32,bytes32" by {
      assert "address" + "," + "bytes32,bytes32" == "address,bytes32,bytes32";
    }
    assert "store" + "(" + args + ")" == "store(address,bytes32,bytes32)" by {
      assert "store" + "(" + "address,bytes32,bytes32" + ")" == "store(address,bytes32,bytes32)";
    }
  }

  lemma LoadSignature()
    ensures Signature(Load) == CheatName(Load) + "(" + TypeList(Inputs(Load)) + ")"
  {
    assert TypeList(Inputs(Load)) == "address,bytes32";
    assert "load" + "(" + "address,bytes32" + ")" == "load(address,bytes32)";
  }

  lemma FfiSignature()
    ensures Signature(Ffi) == CheatName(Ffi) + "(" + TypeList(Inputs(Ffi)) + ")"
  {
    assert TypeList(Inputs(Ffi)) == "string[]";
    assert "ffi" + "(" + "string[]" + ")" == "ffi(string[])";
  }

  /** Every signature is the entry's name followed by its declared argument
      types, so the signatures and the argument types agree. */
  lemma SignatureSpellsInputs(k: Cheat)
    ensures Signature(k) == CheatName(k) + "(" + TypeList(Inputs(k)) + ")"
  {
    match k
    case Roll => RollSignature();
    case Warp => WarpSignature();
    case Store => StoreSignature();
    case Load => LoadSignature();
    case Ffi => FfiSignature();
  }

  /** Each entry's declared argument types. */
  function Inputs(k: Cheat): seq<AbiType>
  {
    match k
    case Roll => [UintType]
    case Warp => [UintType]
    case Store => [AddressType, Bytes32Type, Bytes32Type]
    case Load => [AddressType, Bytes32Type]
    case Ffi => [StringArrayType]
  }

  /** Each entry's declared return types. */
  function Outputs(k: Cheat): seq<AbiType>
  {
    match k
    case Load => [Bytes32Type]
    case Ffi => [BytesType]
    case _ => []
  }

  /** An entry's full declaration: its signature followed, when it returns
      something, by its return types. */
  function Declaration(k: Cheat): string
  {
    Signature(k) + if Outputs(k) == [] then "" else "(" + TypeList(Outputs(k)) + ")"
  }

  /** The names, argument types and return types above spell out, entry by
      entry, the five declarations of the table. */
  lemma TableDeclarations()
    ensures Declaration(Roll) == "roll(uint256)"
    ensures Declaration(Warp) == "warp(uint256)"
    ensures Declaration(Store) == "store(address,bytes32,bytes32)"
    ensures Declaration(Load) == "load(address,bytes32)(bytes32)"
    ensures Declaration(Ffi) == "ffi(string[])(bytes)"
  {
  }

  /** The table lists every operation exactly once, and the signatures the
      decoder recognises are exactly those of the table's entries. */
  lemma TableIsExact(k: Cheat, sig: string)
    ensures |Table| == 5 && k in Table
    ensures forall i, j :: 0 <= i < j < |Table| ==> Table[i] != Table[j]
    ensures Lookup(sig).Some? <==> exists i :: 0 <= i < |Table| && Signature(Table[i]) == sig
  {
    if Lookup(sig).Some? {
      var c := Lookup(sig).value;
      assert Table[if c == Roll then 0 else if c == Warp then 1 else if c == Store then 2 else if c == Load then 3 else 4] == c;
    }
  }

  /** Finding the table entry that a signature names; `None` when it names none. */
  function Lookup(sig: string): (r: Option<Cheat>)
    ensures r.Some? ==> Signature(r.value) == sig
    ensures r.None? ==> forall k: Cheat :: Signature(k) != sig
  {
    if sig == Signature(Roll) then Some(Roll)
    else if sig == Signature(Warp) then Some(Warp)
    else if sig == Signature(Store) then Some(Store)
    else if sig == Signature(Load) then Some(Load)
    else if sig == Signature(Ffi) then Some(Ffi)
    else None
  }

  /** No two entries share a signature, so a signature picks out one entry. */
  lemma LookupSignature(k: Cheat)
    ensures Lookup(Signature(k)) == Some(k)
  {
  }

  /** A decoded call to the cheatcode address. */
  datatype Call =
    | RollCall(number: U256)
    | WarpCall(timestamp: U256)
    | StoreCall(who: Address, slot: H256, value: H256)
    | LoadCall(who: Address, slot: H256)
    | FfiCall(args: seq<string>)

  function CheatOf(c: Call): Cheat
  {
    match c
    case RollCall(_) => Roll
    case WarpCall(_) => Warp
    case StoreCall(_, _, _) => Store
    case LoadCall(_, _) => Load
    case FfiCall(_) => Ffi
  }

  /** The argument list a call carries on the wire. */
  function Arguments(c: Call): (vs: seq<AbiValue>)
    ensures Conforms(vs, Inputs(CheatOf(c)))
  {
    match c
    case RollCall(n) => [UintVal(n)]
    case WarpCall(t) => [UintVal(t)]
    case StoreCall(a, s, v) => [AddressVal(a), Bytes32Val(s), Bytes32Val(v)]
    case LoadCall(a, s) => [AddressVal(a), Bytes32Val(s)]
    case FfiCall(xs) => [StringArrayVal(xs)]
  }

  /** Why a call to the cheatcode address fails. */
  datatype CheatError =
    | UnknownSignature(sig: string)
    | MalformedArguments
    | FfiDisabled

  /** Decoding a call against the table: the signature must name an entry and
      the arguments must have that entry's declared types. */
  function Decode(sig: string, args: seq<AbiValue>): (r: Result<Call, CheatError>)
    ensures r.Success? <==> Lookup(sig).Some? && Conforms(args, Inputs(Lookup(sig).value))
    ensures Lookup(sig).None? ==> r == Failure(UnknownSignature(sig))
    ensures Lookup(sig).Some? && !Conforms(args, Inputs(Lookup(sig).value)) ==> r == Failure(MalformedArguments)
    ensures r.Success? ==> CheatOf(r.value) == Lookup(sig).value
  {
    match Lookup(sig)
    case None => Failure(UnknownSignature(sig))
    case Some(k) =>
      if !Conforms(args, Inputs(k)) then Failure(MalformedArguments)
      else
        match k
        case Roll => Success(RollCall(args[0].u))
        case Warp => Success(WarpCall(args[0].u))
        case Store => Success(StoreCall(args[0].addr, args[1].word, args[2].word))
        case Load => Success(LoadCall(args[0].addr, args[1].word))
        case Ffi => Success(FfiCall(args[0].strs))
  }

  /** Encoding then decoding gives the call back. */
  lemma DecodeArguments(c: Call)
    ensures Decode(Signature(CheatOf(c)), Arguments(c)) == Success(c)
  {
    LookupSignature(CheatOf(c));
  }

  /** A successful decode came from exactly one encoding. */
  lemma DecodeIsInverse(sig: string, args: seq<AbiValue>)
    requires Decode(sig, args).Success?
    ensures sig == Signature(CheatOf(Decode(sig, args).value))
    ensures args == Arguments(Decode(sig, args).value)
  {
    var k := Lookup(sig).value;
    var c := Decode(sig, args).value;
    var expected := Arguments(c);
    assert |args| == |expected| == |Inputs(k)|;
    forall i | 0 <= i < |args|
      ensures args[i] == expected[i]
    {
      assert TypeOf(args[i]) == Inputs(k)[i];
    }
  }

  /** The host's side of the table: whether `ffi` is enabled, and the output
      of running a command line, a deterministic function of its argv. */
  datatype Host = Host(ffiEnabled: bool, run: seq<string> -> seq<Byte>)

  /** `ffi` is off unless the user turns it on. */
  function DefaultHost(run: seq<string> -> seq<Byte>): (h: Host)
    ensures !h.ffiEnabled
    ensures h.run == run
  {
    Host(false, run)
  }

  /** What a cheatcode acts on: the context store and the backend's state. */
  datatype Session = Session(ctx: Context, state: State)

  /** A successful cheatcode call: the new session and the returned values. */
  datatype Outcome = Outcome(session: Session, output: seq<AbiValue>)

  /** The host-side effect of one decoded cheatcode call. */
  function Apply(host: Host, s: Session, c: Call): (r: Result<Outcome, CheatError>)
    // only a disabled ffi fails, and what comes back has the declared return types
    ensures r.Failure? <==> c.FfiCall? && !host.ffiEnabled
    ensures r.Failure? ==> r.error == FfiDisabled
    ensures r.Success? ==> Conforms(r.value.output, Outputs(CheatOf(c)))
    // roll and warp set their override and nothing else
    ensures r.Success? ==> r.value.session.ctx.accounts == s.ctx.accounts
    ensures r.Success? ==> r.value.session.ctx.blockNumber
                           == if c.RollCall? then Some(c.number) else s.ctx.blockNumber
    ensures r.Success? ==> r.value.session.ctx.blockTimestamp
                           == if c.WarpCall? then Some(c.timestamp) else s.ctx.blockTimestamp
    // only store changes the state, and only at the one slot it names
    ensures r.Success? && !c.StoreCall? ==> r.value.session.state == s.state
    ensures r.Success? && c.StoreCall? ==> r.value.session.state == SetStorage(s.state, c.who, c.slot, c.value)
    ensures r.Success? && c.StoreCall? ==>
              forall b, t :: Storage(r.value.session.state, b, t)
                             == if b == c.who && t == c.slot then c.value else Storage(s.state, b, t)
    // load returns the stored word, ffi the command's output
    ensures c.LoadCall? ==> r == Success(Outcome(s, [Bytes32Val(Storage(s.state, c.who, c.slot))]))
    ensures c.FfiCall? && host.ffiEnabled ==> r == Success(Outcome(s, [BytesVal(host.run(c.args))]))
  {
    match c
    case RollCall(n) => Success(Outcome(Session(s.ctx.(blockNumber := Some(n)), s.state), []))
    case WarpCall(t) => Success(Outcome(Session(s.ctx.(blockTimestamp := Some(t)), s.state), []))
    case StoreCall(a, slot, v) =>
      var st := SetStorage(s.state, a, slot, v);
      assert forall b, t :: Storage(st, b, t) == if b == a && t == slot then v else Storage(s.state, b, t) by {
        forall b, t
          ensures Storage(st, b, t) == if b == a && t == slot then v else Storage(s.state, b, t)
        {
          SetStorageReads(s.state, a, slot, v, b, t);
        }
      }
      Success(Outcome(Session(s.ctx, st), []))
    case LoadCall(a, slot) => Success(Outcome(s, [Bytes32Val(Storage(s.state, a, slot))]))
    case FfiCall(argv) =>
      if host.ffiEnabled then Success(Outcome(s, [BytesVal(host.run(argv))]))
      else Failure(FfiDisabled)
  }

  /** A call to the cheatcode address, given by its signature and arguments:
      decode it, then apply it. */
  function Dispatch(host: Host, s: Session, sig: string, args: seq<AbiValue>): (r: Result<Outcome, CheatError>)
    ensures Lookup(sig).None? ==> r == Failure(UnknownSignature(sig))
    ensures Decode(sig, args).Success? ==> r == Apply(host, s, Decode(sig, args).value)
    ensures r.Success? ==> Decode(sig, args).Success?
  {
    match Decode(sig, args)
    case Failure(e) => Failure(e)
    case Success(c) => Apply(host, s, c)
  }

  /** `roll(x)` puts `x` in effect whatever the vicinity says, and rolling
      twice leaves only the second number. */
  lemma RollTakesEffect(host: Host, s: Session, x: U256, y: U256, fallback: U256)
    ensures Apply(host, s, RollCall(x)).Success?
    ensures EffectiveBlockNumber(Apply(host, s, RollCall(x)).value.session.ctx, fallback) == x
    ensures Apply(host, Apply(host, s, RollCall(x)).value.session, RollCall(y))
         == Apply(host, s, RollCall(y))
  {
  }

  /** `warp(t)` puts `t` in effect whatever the vicinity says, and warping
      twice leaves only the second timestamp. */
  lemma WarpTakesEffect(host: Host, s: Session, x: U256, y: U256, fallback: U256)
    ensures Apply(host, s, WarpCall(x)).Success?
    ensures EffectiveTimestamp(Apply(host, s, WarpCall(x)).value.session.ctx, fallback) == x
    ensures Apply(host, Apply(host, s, WarpCall(x)).value.session, WarpCall(y))
         == Apply(host, s, WarpCall(y))
  {
  }

  /** `load(a, s)` right after `store(a, s, v)` returns `v`. */
  lemma LoadAfterStore(host: Host, s: Session, a: Address, slot: H256, v: H256)
    ensures Apply(host, s, StoreCall(a, slot, v)).Success?
    ensures Apply(host, Apply(host, s, StoreCall(a, slot, v)).value.session, LoadCall(a, slot)).value.output
         == [Bytes32Val(v)]
  {
  }

  /** `ffi` fails under the default host, and succeeds once enabled. */
  lemma FfiGate(run: seq<string> -> seq<Byte>, s: Session, argv: seq<string>)
    ensures Apply(DefaultHost(run), s, FfiCall(argv)) == Failure(FfiDisabled)
    ensures Apply(DefaultHost(run).(ffiEnabled := true), s, FfiCall(argv)).Success?
  {
  }

  /** The result of one call as its caller sees it. */
  type CallResult = Result<seq<AbiValue>, CheatError>

  /** A run of calls: the final session and each call's result. */
  datatype Trace = Trace(session: Session, results: seq<CallResult>)

  /** The session a call leaves behind: a failed call reverts, so it changes
      nothing. */
  function Next(host: Host, s: Session, c: Call): Session
  {
    var r := Apply(host, s, c);
    if r.Success? then r.value.session else s
  }

  function ResultOf(r: Result<Outcome, CheatError>): CallResult
  {
    match r
    case Success(o) => Success(o.output)
    case Failure(e) => Failure(e)
  }

  /** Calls applied one after another; each sees the effects of the earlier ones. */
  function Run(host: Host, s: Session, calls: seq<Call>): (r: Trace)
    ensures |r.results| == |calls|
    decreases |calls|
  {
    if calls == [] then Trace(s, [])
    else
      var rest := Run(host, Next(host, s, calls[0]), calls[1..]);
      Trace(rest.session, [ResultOf(Apply(host, s, calls[0]))] + rest.results)
  }

  /** Running `xs + ys` is running `xs`, then `ys` from where `xs` left off. */
  lemma {:induction false} RunAppend(host: Host, s: Session, xs: seq<Call>, ys: seq<Call>)
    ensures Run(host, s, xs + ys).session == Run(host, Run(host, s, xs).session, ys).session
    ensures Run(host, s, xs + ys).results == Run(host, s, xs).results + Run(host, Run(host, s, xs).session, ys).results
    decreases |xs|
  {
    if xs != [] {
      var s1 := Next(host, s, xs[0]);
      var r0 := ResultOf(Apply(host, s, xs[0]));
      assert (xs + ys)[0] == xs[0];
      assert (xs + ys)[1..] == xs[1..] + ys;
      RunAppend(host, s1, xs[1..], ys);
      var front := Run(host, s1, xs[1..]);
      var back := Run(host, front.session, ys);
      assert Run(host, s, xs) == Trace(front.session, [r0] + front.results);
      assert Run(host, s, xs + ys).results == [r0] + (front.results + back.results);
      assert [r0] + (front.results + back.results) == ([r0] + front.results) + back.results;
    } else {
      assert xs + ys == ys;
    }
  }

  /** In a run, a call fails exactly when it is an `ffi` on a host that has
      not enabled it. */
  lemma {:induction false} RunFailures(host: Host, s: Session, calls: seq<Call>, i: nat)
    requires i < |calls|
    ensures Run(host, s, calls).results[i].Failure? <==> calls[i].FfiCall? && !host.ffiEnabled
    decreases |calls|
  {
    if i > 0 {
      RunFailures(host, Next(host, s, calls[0]), calls[1..], i - 1);
    }
  }

  /** No call in `calls` stores to `slot` of `a`. */
  predicate LeavesSlot(calls: seq<Call>, a: Address, slot: H256)
  {
    forall i :: 0 <= i < |calls| ==> !(calls[i].StoreCall? && calls[i].who == a && calls[i].slot == slot)
  }

  /** Calls that do not store to a slot leave its value alone. */
  lemma {:induction false} RunKeepsSlot(host: Host, s: Session, calls: seq<Call>, a: Address, slot: H256)
    requires LeavesSlot(calls, a, slot)
    ensures Storage(Run(host, s, calls).session.state, a, slot) == Storage(s.state, a, slot)
    decreases |calls|
  {
    if calls != [] {
      assert !(calls[0].StoreCall? && calls[0].who == a && calls[0].slot == slot);
      assert Storage(Next(host, s, calls[0]).state, a, slot) == Storage(s.state, a, slot);
      var tail := calls[1..];
      assert LeavesSlot(tail, a, slot) by {
        forall i | 0 <= i < |tail|
          ensures !(tail[i].StoreCall? && tail[i].who == a && tail[i].slot == slot)
        {
          assert tail[i] == calls[i + 1];
        }
      }
      RunKeepsSlot(host, Next(host, s, calls[0]), tail, a, slot);
    }
  }

  /** A `load` sees the last `store` to its slot, however many other calls
      come between them. */
  lemma LoadSeesLastStore(host: Host, s: Session, a: Address, slot: H256, v: H256, between: seq<Call>)
    requires LeavesSlot(between, a, slot)
    ensures Run(host, s, [StoreCall(a, slot, v)] + between + [LoadCall(a, slot)]).results[|between| + 1]
         == Success([Bytes32Val(v)])
  {
    var first := [StoreCall(a, slot, v)] + between;
    var afterStore := Next(host, s, StoreCall(a, slot, v));
    RunAppend(host, s, [StoreCall(a, slot, v)], between);
    RunAppend(host, s, first, [LoadCall(a, slot)]);
    assert Run(host, s, [StoreCall(a, slot, v)]).session == afterStore;
    RunKeepsSlot(host, afterStore, between, a, slot);
    var mid := Run(host, s, first).session;
    assert Storage(mid.state, a, slot) == v;
    assert Run(host, mid, [LoadCall(a, slot)]).results == [Success([Bytes32Val(v)])];
  }

  /** No call in `calls` is a `roll`. */
  predicate LeavesBlockNumber(calls: seq<Call>)
  {
    forall i :: 0 <= i < |calls| ==> !calls[i].RollCall?
  }

  /** A rolled block number stays in effect until the next `roll`. */
  lemma {:induction false} RollPersists(host: Host, s: Session, x: U256, later: seq<Call>)
    requires LeavesBlockNumber(later)
    ensures Run(host, s, [RollCall(x)] + later).session.ctx.blockNumber == Some(x)
    decreases |later|
  {
    if later == [] {
      assert [RollCall(x)] + later == [RollCall(x)];
    } else {
      var init := later[..|later| - 1];
      var prefix := [RollCall(x)] + init;
      var last := later[|later| - 1];
      assert [RollCall(x)] + later == prefix + [last];
      assert LeavesBlockNumber(init) by {
        forall i | 0 <= i < |init|
          ensures !init[i].RollCall?
        {
          assert init[i] == later[i];
        }
      }
      RollPersists(host, s, x, init);
      RunAppend(host, s, prefix, [last]);
      assert !last.RollCall?;
    }
  }
}
