# HEVM cheatcode state layer of the sputnik EVM adapter

A Dafny model of the cheatcode core of `evm-adapters` (dapptools-rs): the
`Cheatcodes` context store, the `BackendExt::set_storage` storage override on
sputnik's `MemoryBackend`, the five-entry `HEVM` cheatcode table with the
host-side effect of each entry, the sixteen `HevmConsole` log events, the
construction of the block context (`vicinity`) from a chain-data provider,
and the log contract of the pass-through `SputnikExecutor`.

Modules:

- `Wrappers` — `Option` and `Result`.
- `Words` — the EVM word types (`U64`, `U256`, `I256`, `H160` as `Address`, `H256`, bytes) as bounded integers.
- `Abi` — typed ABI values and the "values have these declared types" predicate; no byte encoding.
- `Backend` — `MemoryAccount`, the backend's account map, reading a slot, and `set_storage`.
- `Cheatcodes` — the `Cheatcodes` struct (here `Context`) and its default.
- `Hevm` — the cheatcode table (`roll`, `warp`, `store`, `load`, `ffi`), decoding a call against it, applying it to a session (context + backend state), and runs of several calls.
- `Console` — the `HevmConsole` event set, its shapes, and recognising an emitted event.
- `Sputnik` — `vicinity` over a provider given as a record of its answers, and the pass-through executor's `logs`/`clear_logs`.

The executor's `logs()` returns a list of strings (mod.rs:79). The vicinity's
block number is the fetched block's own `number` field (mod.rs:40), not the
height that was requested; `Sputnik.PinnedVicinityNumber` shows the two agree
for a provider whose blocks carry their own height.

The cheatcode handler that intercepts calls to the cheatcode address and
dispatches them to the `HEVM` table is not part of this model, so the effect
of each entry (`Hevm.Apply`) is taken from the comments that document the
table. `store` writes through `SetStorage` into the backend state, and `load`
reads the backend state with the zero default of sputnik's
`MemoryBackend::storage` (`Backend.Storage`). `Hevm.Dispatch` (decode, then
apply) and `Hevm.Run` (calls one after another) are this model's own
composition of `Hevm.Decode` and `Hevm.Apply`; they assume that an
undecodable call fails and that a failed call leaves the session unchanged.
The host process run by `ffi` is a parameter: a pure function from argv to
output bytes.

## Model

| member | source | states |
|---|---|---|
| Backend.Storage | evm-adapters/src/sputnik/cheatcodes/mod.rs:49 | a slot of an absent account, or an absent slot, reads as zero; a present slot reads its stored value |
| Backend.SetStorage | evm-adapters/src/sputnik/cheatcodes/mod.rs:31-36 | the written slot holds the value; an absent account is created as the default account holding only that slot; nonce, balance, code and other slots of the account, and every other account, are unchanged |
| Backend.SetStorageReads | evm-adapters/src/sputnik/cheatcodes/mod.rs:32-35 | after the write, reading the written (address, slot) gives the value and every other pair reads as before |
| Backend.SetStorageIdempotent | evm-adapters/src/sputnik/cheatcodes/mod.rs:34-35 | writing the same value twice equals writing it once |
| Backend.SetStorageLastWriteWins | evm-adapters/src/sputnik/cheatcodes/mod.rs:34-35 | two writes to one slot leave exactly the state of the second write alone |
| Backend.SetStorageCommutes | evm-adapters/src/sputnik/cheatcodes/mod.rs:32-35 | writes to different (address, slot) pairs commute |
| Cheatcodes.DefaultContext | evm-adapters/src/sputnik/cheatcodes/mod.rs:18-25 | the default context has no block-number override, no timestamp override and no accounts |
| Cheatcodes.EffectiveBlockNumber | evm-adapters/src/sputnik/cheatcodes/mod.rs:22 | an absent block-number override means the vicinity's number is in effect; a present one is what is in effect |
| Cheatcodes.EffectiveTimestamp | evm-adapters/src/sputnik/cheatcodes/mod.rs:23 | an absent timestamp override means the vicinity's timestamp is in effect; a present one is what is in effect |
| Cheatcodes.DefaultOverridesNothing | evm-adapters/src/sputnik/cheatcodes/mod.rs:18-25 | under the default context the vicinity's block number and timestamp are in effect |
| Hevm.Signature | evm-adapters/src/sputnik/cheatcodes/mod.rs:44-54 | each entry's signature as declared, without the return types that `load` (line 50) and `ffi` (line 54) declare after it; it is its name followed by its argument types (`Hevm.SignatureSpellsInputs`) |
| Hevm.SignatureSpellsInputs | evm-adapters/src/sputnik/cheatcodes/mod.rs:44-54 | every signature is the entry's name followed by the comma-separated names of its declared argument types |
| Hevm.Inputs | evm-adapters/src/sputnik/cheatcodes/mod.rs:44-54 | each entry's declared argument types |
| Hevm.Outputs | evm-adapters/src/sputnik/cheatcodes/mod.rs:44-54 | each entry's declared return types: `bytes32` for `load`, `bytes` for `ffi`, none for the others |
| Hevm.TableDeclarations | evm-adapters/src/sputnik/cheatcodes/mod.rs:44-54 | names, argument types and return types together spell out the five declarations of the table, return types included |
| Hevm.TableIsExact | evm-adapters/src/sputnik/cheatcodes/mod.rs:40-58 | the table has five entries, no repeats, contains every operation, and the signatures the decoder recognises are exactly those of its entries |
| Hevm.Lookup | evm-adapters/src/sputnik/cheatcodes/mod.rs:42-55 | a signature found names that entry; a signature not found names no entry |
| Hevm.LookupSignature | evm-adapters/src/sputnik/cheatcodes/mod.rs:42-55 | every entry's signature is found, and finds that entry (signatures are distinct) |
| Hevm.Arguments | evm-adapters/src/sputnik/cheatcodes/mod.rs:44-54 | a call's arguments have its entry's declared argument types |
| Hevm.Decode | evm-adapters/src/sputnik/cheatcodes/mod.rs:40-58 | decoding succeeds exactly when the signature is in the table and the arguments have its declared types; an unknown signature and malformed arguments are distinct errors |
| Hevm.DecodeArguments | evm-adapters/src/sputnik/cheatcodes/mod.rs:42-55 | decoding a call's signature and arguments gives the call back |
| Hevm.DecodeIsInverse | evm-adapters/src/sputnik/cheatcodes/mod.rs:42-55 | a successfully decoded call was given exactly its own signature and arguments |
| Hevm.DefaultHost | evm-adapters/src/sputnik/cheatcodes/mod.rs:51-53 | `ffi` is disabled by default |
| Hevm.Apply | evm-adapters/src/sputnik/cheatcodes/mod.rs:43-54 | only a disabled `ffi` fails; outputs have the declared return types; `roll`/`warp` set only their override; only `store` changes state, and its new state is exactly `SetStorage` of the old one, so only its one slot differs; `load` returns the stored word; an enabled `ffi` returns the command's output |
| Hevm.Dispatch | evm-adapters/src/sputnik/cheatcodes/mod.rs:40-58 | the model's composition of decoding and applying: an unknown signature fails; a decodable call has the effect of the decoded operation; nothing undecodable succeeds |
| Hevm.RollTakesEffect | evm-adapters/src/sputnik/cheatcodes/mod.rs:43-44 | `roll(x)` puts x in effect whatever the vicinity says; rolling twice equals rolling once with the latest value |
| Hevm.WarpTakesEffect | evm-adapters/src/sputnik/cheatcodes/mod.rs:45-46 | `warp(t)` puts t in effect whatever the vicinity says; warping twice equals warping once with the latest value |
| Hevm.LoadAfterStore | evm-adapters/src/sputnik/cheatcodes/mod.rs:47-50 | `load(a, s)` right after `store(a, s, v)` returns v |
| Hevm.FfiGate | evm-adapters/src/sputnik/cheatcodes/mod.rs:51-54 | `ffi` fails with the ffi-disabled error under the default host and succeeds once enabled |
| Hevm.Run | evm-adapters/src/sputnik/cheatcodes/mod.rs:43-54 | the model's composition of calls one after another: a run yields one result per call |
| Hevm.RunFailures | evm-adapters/src/sputnik/cheatcodes/mod.rs:51-54 | in a run, a call fails exactly when it is an `ffi` on a host that has not enabled it |
| Hevm.RunAppend | evm-adapters/src/sputnik/cheatcodes/mod.rs:43-54 | a run of two call lists is the second run started where the first left off |
| Hevm.RunKeepsSlot | evm-adapters/src/sputnik/cheatcodes/mod.rs:47-48 | calls that never store to a slot leave its value unchanged |
| Hevm.LoadSeesLastStore | evm-adapters/src/sputnik/cheatcodes/mod.rs:47-50 | a `load` returns the value of the last `store` to its slot, whatever other calls come between |
| Hevm.RollPersists | evm-adapters/src/sputnik/cheatcodes/mod.rs:43-44 | a rolled block number stays in effect through any later calls that are not `roll` |
| Console.KindOf | evm-adapters/src/sputnik/cheatcodes/mod.rs:62-79 | every event has one of the sixteen declared shapes |
| Console.Values | evm-adapters/src/sputnik/cheatcodes/mod.rs:62-79 | an event's values have its declared parameter types |
| Console.EventIndex | evm-adapters/src/sputnik/cheatcodes/mod.rs:62-79 | a name found is the name of the event at that position; a name not found is not in the set |
| Console.Build | evm-adapters/src/sputnik/cheatcodes/mod.rs:62-79 | the event built from shape k has shape k |
| Console.Decode | evm-adapters/src/sputnik/cheatcodes/mod.rs:60-80 | an emitted event is recognised exactly when its name is in the set and its values have that event's types; a recognised event has the emitted name |
| Console.EventSetIsExact | evm-adapters/src/sputnik/cheatcodes/mod.rs:62-79 | the set holds sixteen distinct event names and every event's name is among them |
| Console.EventIndexOfName | evm-adapters/src/sputnik/cheatcodes/mod.rs:62-79 | every event name leads back to its own position in the set |
| Console.BuildValues | evm-adapters/src/sputnik/cheatcodes/mod.rs:62-79 | rebuilding an event from its shape and values gives the event |
| Console.ValuesBuild | evm-adapters/src/sputnik/cheatcodes/mod.rs:62-79 | the event built from well-typed values carries exactly those values |
| Console.DecodeValues | evm-adapters/src/sputnik/cheatcodes/mod.rs:60-80 | recognising an event's name and values gives the event back |
| Console.DecodeIsInverse | evm-adapters/src/sputnik/cheatcodes/mod.rs:60-80 | values of a shape's declared types, emitted under that shape's name, are recognised as an event of that shape carrying exactly those values |
| Console.EventShapes | evm-adapters/src/sputnik/cheatcodes/mod.rs:63-78 | plain events carry one value; named events lead with their key; exactly the two decimal events carry a third value, the `decimals` count |
| Sputnik.GetBlock | evm-adapters/src/sputnik/mod.rs:32-34 | a height the chain lacks gives no block; otherwise the block or the provider's error |
| Sputnik.RequestedBlock | evm-adapters/src/sputnik/mod.rs:24-28 | the pinned height when there is one, else the provider's head answer, error included |
| Sputnik.FetchAll | evm-adapters/src/sputnik/mod.rs:29-33 | the joint query succeeds exactly when gas price, chain id and block all succeed, and otherwise fails with one of their errors |
| Sputnik.Vicinity | evm-adapters/src/sputnik/mod.rs:20-47 | fails exactly when a query fails, with its error; on success block number, coinbase, difficulty, gas limit and timestamp come from the fetched block, gas price and chain id from the provider, origin is zero and block hashes empty |
| Sputnik.PinnedIgnoresHead | evm-adapters/src/sputnik/mod.rs:24-25 | with a pinned block the head's answer, even an error, does not change the vicinity |
| Sputnik.UnpinnedUsesHead | evm-adapters/src/sputnik/mod.rs:26-28 | without a pin the vicinity is the one pinned at the current head |
| Sputnik.PinnedVicinityNumber | evm-adapters/src/sputnik/mod.rs:40 | for a provider whose blocks carry their own height, a pinned vicinity's block number is the pin |
| Sputnik.Logs | evm-adapters/src/sputnik/mod.rs:132-135 | the pass-through executor's logs are always empty |
| Sputnik.ClearLogs | evm-adapters/src/sputnik/mod.rs:136 | clearing logs on the pass-through executor changes neither its state nor its gas |
| Sputnik.ClearLogsEmptiesLogs | evm-adapters/src/sputnik/mod.rs:77-83 | after `clear_logs`, `logs` is empty, and clearing twice equals clearing once |

## Left out

- Sputnik.Vicinity: the two `expect` panics (block not found, block without a number) are the precondition `BlockIsComplete`, not an error outcome, because the code aborts rather than returning an error there.
- Sputnik.FetchAll: `tokio::try_join!` reports whichever failing query completes first, which depends on the network; the model picks gas price, then chain id, then block, and its contract only says the error is one of the failing queries'.
- The async runtime and the RPC calls of the provider: the provider is a record of its answers.
- ABI byte encoding, 4-byte selectors and Keccak hashing (`parse_abi`, `BaseContract`, `abigen!`): calls and events are given by signature and typed values.
- Running the `ffi` process: the host command is a pure function parameter.
- Hevm.Dispatch: that an undecodable call fails, rather than panicking, is an assumption about the cheatcode handler, whose source is not part of this model.
- Hevm.Run: that a failed call leaves the session unchanged is an assumption about the cheatcode handler, whose source is not part of this model.
- The cheatcode handler that intercepts calls to the cheatcode address, the forked backend, `memory_stackstate_owned` and the `backend` submodule: they are not part of this model.
- `config`, `state`, `state_mut`, `gas_left`, `transact_call`, `transact_create` and `create_address` of `SputnikExecutor`: they forward to the EVM engine's own execution, gas metering and address derivation.
- 256-bit and 160-bit widths are ranges of the word types; no operation of the model does arithmetic, so no wrap-around arises.
