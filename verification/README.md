# Verified model of coreum-test-tube

This Dafny project models the glue code of coreum-test-tube, a library that runs a Coreum
application inside a test process: a Go library exports the operations of test environments, and a
Rust driver (`BaseApp`) calls them. The chain application itself is an abstract state with stated
behaviour; everything else below is decided by the repository's own code.

| file | what it models |
|---|---|
| `Base64.dfy`, `Utf8.dfy`, `Frames.dfy` | the base64 text and the one-byte tags that cross the language boundary, both directions |
| `Binary64.dfy`, `Fee.dfy` | binary64 rounding and the fee arithmetic of `calculate_fee` |
| `Decimal.dfy`, `Coins.dfy` | coin normalisation: in-place stable sort, decimal amounts, conversion back |
| `Messages.dfy` | conversion of message batches |
| `Chain.dfy`, `Environment.dfy` | the application and one environment: blocks, time, sequences, what every export does |
| `Exports.dfy` | the exported functions over the registry, in the load, work, store form of the source |
| `Operations.dfy`, `Driver.dfy` | the driver's public operations, on values and as a class over the library |
| `States.dfy` | what a list of writes leaves of a state, entry by entry: the last one to a parameter or key, the first to create an account |
| `Runs.dfy`, `Executions.dfy`, `Traces.dfy`, `ParamRuns.dfy` | whole runs: blocks, height, clock, sequences, fees, the committed state of each operation, its export calls, parameters |
| `Interleaving.dfy`, `InterleavingProofs.dfy`, `Concurrency.dfy` | threads, atomic steps, the mutex; refinement, exclusion, identifiers, deadlock freedom |
| `Workloads.dfy` | threads that choose each export by the answers so far: what they see is what they would see alone; termination |
| `Registry.dfy` | the parameter type registry and its shared map |
| `Responses.dfy` | the two conversions into `ExecuteResponse` |

`dafny verify dfyconfig.toml` checks all of it. Lemmas about recursive functions carry
`{:induction false}`, so every induction is the recursive call in a proof body, and proofs that do
not need a definition hide it.

## Assumptions

What is assumed of the chain is built into `Chain.AppState`:

- FinalizeBlock fails unless the height is the last committed one plus one; it continues the open
  block state when there is one. Commit makes the open state the committed one.
- Simulate reads the last committed state, compares the transaction's sequence with it and keeps
  nothing. SimDeliver works on the open block, fails unless signer, sequence and account number
  match, and on success raises the sequence by one.
- FundAccount refuses coins whose denoms do not strictly ascend or whose amount is zero; beyond that
  (the syntax of denoms, say) the keepers accept or refuse a funding as an input says (`Grant`), and
  a refusal makes InitAccount panic.
- The parameter keeper panics on a key its subspace does not know or a value that fails its
  validator; whether it does is an input (`accepted`).
- What hooks, keepers and messages write is an arbitrary input (`Effect`): they may create accounts,
  overwrite parameters and set or delete single keys of the rest of the store, but do not change the
  number or sequence of an account that exists.
- The error texts of the chain and of protobuf are inputs, arbitrary bytes; those of the glue code
  are built from the names they report. A protobuf payload decodes to the value it was encoded from.

A panic in Go ends the process and a panic in Rust the test, so properties speak of calls that return
(`Returned`). When a call does not return is stated wherever the glue code decides it; that includes
names that `CString::new` refuses and error texts that `from_ptr` cannot read.

## Results that differ from what one might expect

- The default adjustment 1.2 is not a binary64 value. The gas limit is still exactly the ceiling of
  6/5 of the gas used for every amount below 3 * 2^49, and at 3 * 2^49 it is one too small
  (`Fee.DefaultGasLimitExactUpTo`). Which amounts lose one is a matter of their residue modulo 5
  and four thresholds, up to a limit of 2^53 (`Fee.DefaultGasLimitExactly`); beyond, the limit stays
  within one part in 2^49 (`Fee.DefaultGasLimitNear`).
- The gas limit covers the gas used, under every finite adjustment of at least 1, exactly when
  converting the gas used to binary64 does not round it down (`Fee.GasLimitCovers`); 2^53 + 1 is
  the first amount that is not covered (`Fee.FirstUncovered`).
- An error does not always come back as an error. Go puts names into its error texts, and Rust
  panics on a text with a NUL: `set_param_set` on a known subspace panics for the type URL "\0"
  (`Runs.NulTypeUrlPanics`). It returns exactly when the subspace name has no NUL and what comes
  back is the keeper's consent or a readable text (`Runs.SetParamReturns`,
  `Executions.SetParamExactly`). A failed simulation comes back as an error exactly when its text is
  NUL-free UTF-8, and otherwise panics inside the block (`Executions.ExecutionExactly`).
- `increase_time` moves the clock by the seconds asked for exactly when they are at most 9223372036;
  one second more turns it back by almost 292 years (`Runs.IncreaseTimeExactly`,
  `Environment.DurationWraps`).
- `NodeHome` is never assigned, so `CleanUp` returns early and a dropped app stays registered
  (`Exports.Library.CleanUp`).
- The comment in `result.rs` speaks of 4 tag bytes; the code on both sides uses 1, and so does the
  model.
- The two base64 decoders differ: Go's skips line breaks and ignores unused bits, Rust's accepts
  encoder output only (`Base64.RustDecodeExactly`, `Base64.GoIsMoreLenient`).

## Model

| member | source | states |
|---|---|---|
| `Base64.DecodeEncode` | packages/test-tube/src/runner/app.rs:232-233 | either decoder, strict or lenient, returns the encoded bytes |
| `Base64.EncodeIs` | packages/test-tube/src/runner/app.rs:232-233 | every group of three bytes becomes the symbols of its four sextets in order, padding where it holds no data |
| `Base64.AlphabetIs` | packages/test-tube/src/runner/app.rs:232-233 | which character stands for which sextet, and the padding character |
| `Base64.RustDecodeExactly` | packages/test-tube/src/runner/result.rs:163-165 | Rust's decoder yields d from a text exactly when the text is the encoding of d |
| `Base64.GoDecodeEncode` | packages/coreum-test-tube/libcoreumtesttube/main.go:167-170 | Go's decoder returns the encoded bytes |
| `Base64.GoExtendsRust` | packages/coreum-test-tube/libcoreumtesttube/main.go:195-198 | what Rust accepts Go reads the same way |
| `Base64.GoIsMoreLenient` | packages/coreum-test-tube/libcoreumtesttube/main.go:265-268 | a text Go accepts and Rust refuses |
| `Base64.GoSkipsLineBreaks` | packages/coreum-test-tube/libcoreumtesttube/main.go:265-268 | a line feed or carriage return anywhere does not change what Go reads |
| `Base64.EncodeIsPlain` | packages/test-tube/src/conversions.rs:19-27 | base64 text is ASCII and holds no NUL and no line break |
| `Utf8.FromStringIsValid` | packages/test-tube/src/conversions.rs:19-27 | a Rust string is well-formed UTF-8 and has a NUL byte exactly when it has a NUL |
| `Utf8.ValidExactly` | packages/test-tube/src/runner/result.rs:171-176 | bytes pass the UTF-8 check exactly when they encode some string |
| `Utf8.FromStringInjective` | packages/test-tube/src/conversions.rs:19-27 | different strings have different bytes |
| `Frames.OkFrameRoundTrip` | packages/coreum-test-tube/libcoreumtesttube/result/result.go:27-30 | every success payload written by Go is read back by Rust |
| `Frames.ErrorFrameRoundTrip` | packages/test-tube/src/runner/result.rs:158-189 | an error frame is read as the matching error exactly for codes 1 and 2 and NUL-free UTF-8 messages; all other outcomes are named |
| `Frames.FramesDistinct` | packages/coreum-test-tube/libcoreumtesttube/result/result.go:14-30 | frames coincide exactly when tag and payload do |
| `Frames.FrameOfIs` | packages/coreum-test-tube/libcoreumtesttube/result/result.go:8-30 | the text of each kind of reply, with the tag bytes 0, 1 and 2 written out |
| `Frames.FromPtrOnlyReadsFrames` | packages/test-tube/src/runner/result.rs:158-189 | the result read from a C string determines the frame it came from, for every text |
| `Frames.ReceivedIs` | packages/test-tube/src/runner/result.rs:158-203 | a reply of an export is read as it was sent, except that an error text with a NUL or invalid UTF-8 is a panic |
| `Frames.GoStringIs` | packages/test-tube/src/conversions.rs:19-27 | a name crosses to Go unchanged exactly when it holds no NUL, and panics otherwise |
| `Frames.TextIsPrintable` | packages/coreum-test-tube/libcoreumtesttube/main.go:297-313 | an error text built around a name can be read exactly when the name holds no NUL |
| `Frames.PrintableExactly` | packages/test-tube/src/runner/result.rs:171-176 | an error text can be read exactly when it is that of a string without a NUL |
| `Frames.NullIsNoResult` | packages/test-tube/src/runner/result.rs:158-162 | the null pointer and nothing else is read as no result |
| `Frames.KeyCrosses` | packages/test-tube/src/runner/app.rs:126-141 | the private key that Go generates reaches Rust unchanged |
| `Frames.RequestCrosses` | packages/test-tube/src/conversions.rs:19-27 | request payloads never make `CString::new` panic and reach Go unchanged |
| `Binary64.RoundIsNearest` | packages/test-tube/src/runner/app.rs:255-259 | the model's rounding picks a nearest representable value |
| `Binary64.RoundTiesToEven` | packages/test-tube/src/runner/app.rs:255-259 | between two equally near values it picks the one with the even significand |
| `Binary64.RoundIsFloat` | packages/test-tube/src/runner/app.rs:255-259 | and its result is representable unless it overflows |
| `Binary64.RoundMono` | packages/test-tube/src/runner/app.rs:255-259 | rounding keeps the order |
| `Fee.GasLimitExactly` | packages/test-tube/src/runner/app.rs:255 | the gas limit for every gas amount and adjustment: 0 for NaN and from 0 down, saturation at infinity, otherwise the least integer not below the twice rounded product, saturated |
| `Fee.FeeAmountExactly` | packages/test-tube/src/runner/app.rs:259-260 | the fee for every limit and price, likewise |
| `Fee.GasLimitMonotone` | packages/test-tube/src/runner/app.rs:255 | more gas used never lowers the gas limit, for every adjustment including NaN and infinities |
| `Fee.FeeAmountMonotone` | packages/test-tube/src/runner/app.rs:259-260 | a higher gas limit never lowers the fee |
| `Fee.FeeMonotoneInGasUsed` | packages/test-tube/src/runner/app.rs:254-263 | more gas used never lowers the fee, for every adjustment and price |
| `Fee.GasLimitCovers` | packages/test-tube/src/runner/app.rs:255 | exactly when the gas limit covers the gas used under all finite adjustments of at least 1; always up to 2^53 |
| `Fee.FirstUncovered` | packages/test-tube/src/runner/app.rs:255 | at 2^53 + 1 and adjustment 1 the gas limit is below the gas used |
| `Fee.FeeAmountExactUpTo` | packages/test-tube/src/runner/app.rs:259-260 | the fee is the integer product for all products up to P exactly when P is at most 2^53 |
| `Fee.DefaultAdjustmentIsRounded` | packages/coreum-test-tube/src/runner/app.rs:15 | the constant is 1.2 rounded to binary64 and by how much it falls short |
| `Fee.DefaultGasLimitExactly` | packages/test-tube/src/runner/app.rs:255 | the gas limit for every gas amount whose ceiling of 6/5 is at most 2^53: that ceiling, or one less for the stated residues and thresholds |
| `Fee.DefaultGasLimitExactUpTo` | packages/test-tube/src/runner/app.rs:255 | the formula ceil(6g/5) holds for all amounts up to G exactly when G is below 3 * 2^49 |
| `Fee.DefaultGasLimitNear` | packages/test-tube/src/runner/app.rs:255 | for every u64 gas amount, up to the saturation of the cast, the limit is within one unit and one part in 2^49 of 6/5 of it |
| `Fee.DefaultFeeExact` | packages/test-tube/src/runner/app.rs:254-263 | limit and fee together are integer arithmetic below both thresholds |
| `Decimal.ParsePrint` | packages/test-tube/src/utils.rs:18-30 | every u128 amount survives printing and parsing |
| `Decimal.PrintParse` | packages/test-tube/src/utils.rs:25-30 | a parsed text prints back unchanged exactly when it has no sign and no leading zero |
| `Decimal.PrintIs` | packages/test-tube/src/utils.rs:18-20 | character by character: the decimal digit at each place, and as many places as the number needs |
| `Coins.StableSortIs` | packages/test-tube/src/utils.rs:14-15 | the sort is a permutation with bytewise ascending denoms that keeps the order within each denom |
| `Coins.AtMostIs` | packages/test-tube/src/utils.rs:15 | the order on denoms: a prefix, or smaller at the first byte that differs |
| `Coins.SortedStableUnique` | packages/test-tube/src/utils.rs:14-15 | sortedness and stability determine the result |
| `Coins.SortByDenom` | packages/test-tube/src/runner/app.rs:119-122 | the in-place sort leaves exactly that result in the array: denoms ascend, each denom keeps its coins in order |
| `Coins.ProtoRoundTrip` | packages/test-tube/src/utils.rs:13-34 | to protobuf and back is the stable sort by ascending denom; amounts and per-denom totals are conserved; amounts carry no sign and no leading zero |
| `Coins.SameProtoExactly` | packages/test-tube/src/utils.rs:13-23 | two lists give the same message exactly when they agree denom by denom |
| `Coins.PermutationsGiveSameProto` | packages/test-tube/src/utils.rs:13-23 | with distinct denoms the order of coins does not matter |
| `Coins.NormaliseTwice` | packages/test-tube/src/utils.rs:13-34 | normalising what a normalised message converts back to gives the same message |
| `Coins.SortedIsFundable` | packages/test-tube/src/runner/app.rs:121-122 | sorted coins are fundable exactly when no denom occurs twice and no amount is zero |
| `Coins.CustomFeeAmountUnchanged` | packages/test-tube/src/runner/app.rs:369-375 | a Custom fee amount is parsed back to itself |
| `Messages.CollectExactly` | packages/test-tube/src/runner/mod.rs:52-63 | a batch converts to a list of the same length and order, or has the outcome of its first failing message |
| `Messages.CosmosBatchExactly` | packages/test-tube/src/runner/mod.rs:52-63 | a list of Cosmos messages converts exactly when all kinds are supported, and then each Any carries, for every decoder that undoes the encoder, the type URL and the fields of its message; otherwise the first that is not decides between an error and a panic |
| `Messages.ConversionSays` | packages/test-tube/src/utils.rs:47-131 | what the Any of each supported message decodes to, field by field: who sends, who receives, which URL, which coins |
| `Messages.TypedBatchExactly` | packages/test-tube/src/runner/app.rs:341-352 | a typed list converts, or has the error of the first message that does not encode |
| `Messages.WasmConversionExactly` | packages/test-tube/src/utils.rs:64-131 | two wasm messages convert to the same Any exactly when they differ in coin order or empty admin only, for every encoder that tells messages of one type apart |
| `Chain.App.FinalizeBlock` | packages/coreum-test-tube/libcoreumtesttube/testenv/setup.go:191-206 | the application object follows the stated block behaviour |
| `Chain.App.SimDeliver` | packages/coreum-test-tube/libcoreumtesttube/main.go:172-177 | delivery checks signer, sequence and number, raises the sequence and applies what the messages write; `Executions.ExecutionExactly` has what is committed of it |
| `Environment.DurationExactly` | packages/coreum-test-tube/libcoreumtesttube/testenv/setup.go:187 | an increment is taken at face value exactly up to 9223372036 seconds |
| `Environment.DurationWraps` | packages/coreum-test-tube/libcoreumtesttube/testenv/setup.go:187 | the increment of 9223372037 seconds is negative |
| `Environment.DurationIs` | packages/coreum-test-tube/libcoreumtesttube/testenv/setup.go:187 | every increment is the int64 that differs from its nanoseconds by a multiple of 2^64 |
| `Environment.ClockReading` | packages/coreum-test-tube/libcoreumtesttube/main.go:217-220 | for every block time the nanosecond reading, and the seconds it truncates to |
| `Environment.TruncatedSecondsAdvance` | packages/coreum-test-tube/src/runner/app.rs:46-48 | exactly when truncated seconds grow by the seconds added |
| `Environment.BlocksOfLog` | packages/coreum-test-tube/libcoreumtesttube/main.go:139-158 | an unbroken log has each committed height finalized twice and committed once |
| `Environment.StepKeepsInv` | packages/coreum-test-tube/libcoreumtesttube/main.go:106-346 | every export that returns keeps blocks unnested, heights in step and sequences consecutive |
| `Environment.BlocksAlternate` | packages/coreum-test-tube/libcoreumtesttube/main.go:139-158 | BeginBlock returns exactly on a closed, EndBlock exactly on an open environment |
| `Environment.NewEnvIs` | packages/coreum-test-tube/libcoreumtesttube/main.go:46-83 | a new environment is closed at height 1, five seconds after its start |
| `Exports.Library.InitTestEnv` | packages/coreum-test-tube/libcoreumtesttube/main.go:35-91 | registers a new environment with its own application under the next id and touches no other |
| `Exports.Library.CleanUp` | packages/coreum-test-tube/libcoreumtesttube/main.go:94-104 | removes an entry only if its NodeHome is set, which never happens |
| `Exports.Library.InitAccount` | packages/coreum-test-tube/libcoreumtesttube/main.go:107-128 | funds the address of the generated key with the given coins in the open block of its environment only, returns the key as base64, panics when the funding is refused |
| `Exports.Library.BeginBlock` | packages/coreum-test-tube/libcoreumtesttube/main.go:139-143 | opens the next block of its environment only |
| `Exports.Library.EndBlock` | packages/coreum-test-tube/libcoreumtesttube/main.go:146-158 | finalizes and commits the open block of its environment only |
| `Exports.Library.IncreaseTime` | packages/coreum-test-tube/libcoreumtesttube/main.go:131-136 | is a begin with the given seconds followed by an end |
| `Exports.Library.Execute` | packages/coreum-test-tube/libcoreumtesttube/main.go:161-190 | delivers in the open block, panics on an error, and its store loses nothing |
| `Exports.Library.Simulate` | packages/coreum-test-tube/libcoreumtesttube/main.go:259-281 | simulates on committed state; errors become an ExecuteError |
| `Exports.Library.SetParamSet` | packages/coreum-test-tube/libcoreumtesttube/main.go:284-320 | the error cases in source order with their texts, the keeper's panic, and the write otherwise |
| `Exports.Library.GetParamSet` | packages/coreum-test-tube/libcoreumtesttube/main.go:323-346 | the error cases in source order with their texts, and the stored value otherwise |
| `Exports.Library.AccountSequence` | packages/coreum-test-tube/libcoreumtesttube/main.go:229-243 | reads the open block if there is one, panics on an unknown account |
| `Driver.BaseApp.ExecuteMultipleRaw` | packages/test-tube/src/runner/app.rs:357-391 | the driver's block around an execution does what the operation on values says, to its own environment only |
| `Driver.BaseApp.InitAccount` | packages/test-tube/src/runner/app.rs:118-153 | likewise for `init_account`, with a copy of the coins sorted in place first and the key read from its base64 text |
| `Driver.BaseApp.InitAccounts` | packages/test-tube/src/runner/app.rs:156-158 | likewise for the series, which stops at the first error |
| `Driver.BaseApp.SetParamSet` | packages/test-tube/src/runner/app.rs:288-303 | likewise for `set_param_set`; the name crosses after the begin and the reply is read after the end |
| `Driver.BaseApp.GetParamSet` | packages/test-tube/src/runner/app.rs:306-320 | likewise for `get_param_set`, which changes nothing |
| `Driver.BaseApp.RunQuery` | packages/test-tube/src/runner/app.rs:393-414 | likewise for `query` |
| `Driver.BaseApp.CreateSignedTx` | packages/test-tube/src/runner/app.rs:160-201 | the transaction carries the sequence and number read from the environment |
| `Driver.BaseApp.FeeFor` | packages/test-tube/src/runner/app.rs:367-376 | Auto simulates first and reads the reply inside the block, Custom takes the given amount and limit |
| `Runs.RunBlockAdvances` | packages/test-tube/src/runner/app.rs:273-285 | whatever runs inside, the block is closed on success and failure and took exactly one height and one second |
| `Runs.InitManyAdvances` | packages/test-tube/src/runner/app.rs:156-158 | success gives exactly one account and one block per request, failure names the key that stopped it |
| `Runs.InitAdvances` | packages/test-tube/src/runner/app.rs:118-131 | `init_account` takes coins in any order: it returns exactly when no denom repeats, no amount is zero and the keepers accept, after one block |
| `Runs.SetParamAdvances` | packages/test-tube/src/runner/app.rs:288-303 | `set_param_set` returns exactly when the name crosses and the answer is consent or a readable text, and takes one block on success and error alike |
| `Runs.NulTypeUrlPanics` | packages/test-tube/src/runner/result.rs:171-176 | an input on which `set_param_set` panics instead of returning its error |
| `Runs.BatchAllOrNothing` | packages/test-tube/src/runner/app.rs:332-391 | a failing conversion changes nothing, a converting batch takes one block |
| `Runs.CosmosMsgsAllOrNothing` | packages/test-tube/src/runner/mod.rs:44-66 | the same for `execute_cosmos_msgs`: which message decides, what it gives, and that what is executed carries the URLs and fields of the messages in order |
| `Runs.MultipleAllOrNothing` | packages/test-tube/src/runner/app.rs:333-355 | the same for `execute_multiple`, where only an encoding can fail |
| `Runs.RunAdvances` | packages/test-tube/src/runner/app.rs:52-320 | over every run the environment stays closed between operations and height and clock add up |
| `Runs.RunOfNewEnv` | packages/test-tube/src/runner/app.rs:36-391 | the same from construction: height 1 plus blocks as the height reading shows it, start plus 5 seconds plus increments, block events, sequences |
| `Runs.IncreaseTimeExactly` | packages/test-tube/src/runner/app.rs:53-57 | exactly when `increase_time` moves the clock by the seconds asked for |
| `Runs.HeightOverRun` | packages/coreum-test-tube/libcoreumtesttube/main.go:223-226 | over every run the height reading grows by exactly the blocks opened |
| `Runs.ClockOverRun` | packages/coreum-test-tube/libcoreumtesttube/main.go:217-220 | over a run within bounds the nanosecond and second readings grow by exactly the increments |
| `Executions.ExecutionExactly` | packages/test-tube/src/runner/app.rs:245-269 | every execution: the simulated and delivered transactions, their common sequence, the fee, the events, the whole committed state (what hooks and messages wrote, the signer at the next sequence; hooks alone after a failed simulation), the result, and when there is none, an unreadable error text included |
| `Executions.SimulationExactly` | packages/test-tube/src/runner/app.rs:203-243 | every `simulate_tx`, in a block or outside: it succeeds exactly when the committed account has the sequence the context shows and the messages run; nothing but the call is recorded |
| `Executions.QueryExactly` | packages/test-tube/src/runner/app.rs:393-408 | every `query`: the payload, the error with its text, or a panic |
| `Executions.DefaultSignerFee` | packages/test-tube/src/runner/app.rs:145-152 | the fee of accounts from `init_account` in integers |
| `Executions.InitExactly` | packages/coreum-test-tube/libcoreumtesttube/main.go:107-128 | the block of an `init_account` funds the account with the coins in sorted order and nothing else; the whole committed state, a new account at sequence 0; the result is the key Go generated |
| `Executions.SetParamExactly` | packages/coreum-test-tube/libcoreumtesttube/main.go:284-320 | every `set_param_set`: exactly when it returns, and by the first of its errors, with its text, the events of its block, the whole committed state and the result |
| `Executions.IncreaseExactly` | packages/test-tube/src/runner/app.rs:53-57 | every `increase_time` is one empty block that commits what its hooks wrote |
| `Executions.NewEnvExactly` | packages/coreum-test-tube/libcoreumtesttube/main.go:35-91 | a new environment has committed its genesis and what the hooks of one block wrote |
| `Traces.TraceIs` | packages/test-tube/src/runner/app.rs:52-391 | every operation is the run of the export calls it makes, reads included |
| `Traces.RunTraceIs` | packages/test-tube/src/runner/app.rs:52-391 | and so is every run of operations |
| `ParamRuns.TraceSpares` | packages/test-tube/src/runner/app.rs:52-391 | the export calls of an operation write no subspace the operation spares |
| `ParamRuns.GetParamExactly` | packages/coreum-test-tube/libcoreumtesttube/main.go:323-346 | every `get_param_set`: when it panics, which of the errors it returns with which text, and the value otherwise |
| `ParamRuns.SetThenGet` | packages/test-tube/src/runner/app.rs:288-319 | a value set is what a later get returns after any run that spares its subspace |
| `ParamRuns.DeliveryCommits` | packages/coreum-test-tube/libcoreumtesttube/main.go:172-187 | an execution that delivers commits what its messages wrote and the next sequence of the signer |
| `ParamRuns.ExecuteThenGet` | packages/test-tube/src/runner/app.rs:306-391 | parameters that delivered messages write are what a later get returns after any run that spares their subspace |
| `Interleaving.ProgramsCheck` | packages/coreum-test-tube/libcoreumtesttube/main.go:34-346 | no export locks the mutex it holds, each releases it and leaves no copy unstored |
| `InterleavingProofs.NextKeeps` | packages/coreum-test-tube/libcoreumtesttube/main.go:28-190 | every atomic step of every thread keeps the invariant that ties each environment to a sequential run |
| `Concurrency.InterleavingRefinesSequential` | packages/coreum-test-tube/libcoreumtesttube/main.go:93-190 | in every interleaving an environment equals the sequential run of its owner's calls, with the same results |
| `Concurrency.InterleavedEnvironmentsAreSound` | packages/coreum-test-tube/libcoreumtesttube/main.go:28-190 | so heights, blocks and sequences are right in every interleaving |
| `Concurrency.MutualExclusion` | packages/coreum-test-tube/libcoreumtesttube/main.go:35-38 | in every interleaving two threads are never both between lock and unlock |
| `Concurrency.OnlyForeignLocksBlock` | packages/coreum-test-tube/libcoreumtesttube/main.go:365-376 | in every interleaving lookups find their environments and only another thread's lock can hold a thread up |
| `Concurrency.SomeThreadMoves` | packages/coreum-test-tube/libcoreumtesttube/main.go:161-165 | in every interleaving, while a thread is inside an export, some thread is not blocked |
| `Concurrency.IdentifiersFollowLocks` | packages/coreum-test-tube/libcoreumtesttube/main.go:85-90 | in every interleaving the ids are 1, 2, 3, ... in the order in which the InitTestEnv calls took the mutex, and no other key is registered |
| `Concurrency.IdentifiersGrow` | packages/coreum-test-tube/libcoreumtesttube/main.go:85-90 | what is created later in a run has a greater id than everything created before |
| `Workloads.AloneAmongOthers` | packages/coreum-test-tube/libcoreumtesttube/main.go:93-190 | in every interleaving a thread that chooses its calls by the answers so far gets the answers, and its environments the values, that it would get alone |
| `Workloads.AloneIsUnique` | packages/coreum-test-tube/libcoreumtesttube/main.go:93-190 | alone, what a thread has seen determines what it sees next |
| `Workloads.SameOutcome` | packages/coreum-test-tube/libcoreumtesttube/main.go:93-190 | a finished thread has made the same calls, got the same answers and has the same environments in any two interleavings, whatever the other threads do in them |
| `Workloads.InterleavedRun` | packages/test-tube/src/runner/app.rs:36-391 | an environment driven by `BaseApp` operations inside any interleaving has the value, height and clock of the operations alone |
| `Workloads.WorkloadsFinish` | packages/coreum-test-tube/libcoreumtesttube/main.go:161-165 | at most seven steps per export the plans allow, and a run that cannot go on has finished every plan |
| `Registry.ParamTypeRegistry.GetEmptyParamsSet` | packages/coreum-test-tube/libcoreumtesttube/testenv/params.go:30-38 | returns a fresh empty set and writes nothing that existed |
| `Registry.ParamTypeRegistry.UnpackAny` | packages/coreum-test-tube/libcoreumtesttube/testenv/params.go:40-53 | returns a fresh set with the decoded fields and writes nothing that existed |
| `Registry.SetupParamTypes` | packages/coreum-test-tube/libcoreumtesttube/testenv/setup.go:263-268 | registering through a copy of the struct reaches the environment's registry |
| `Registry.RegisteredAre` | packages/coreum-test-tube/libcoreumtesttube/testenv/setup.go:263-268 | the type URLs of the two registered parameter sets |
| `Responses.ConversionsAgree` | packages/test-tube/src/runner/result.rs:32-125 | the two conversions agree on errors always and on success exactly when attributes that are not UTF-8 are reported as empty, so always on text |
| `Responses.SimulationConversion` | packages/test-tube/src/runner/result.rs:32-73 | the first message response alone decides between an error and a result; every field of the result, events in order |
| `Responses.CommitConversion` | packages/test-tube/src/runner/result.rs:82-125 | likewise for a committed transaction, where the payload may also fail to decode |

## Left out

- The Cosmos SDK, the Coreum keepers, genesis building and `setupValidator`: the application is abstract; an environment always has a validator.
- Two threads on one environment: load and store are not serialised there, so each environment is used by the thread that created it, which names it by the order of creation.
- Writes through the context of a closed block (`InitAccount` or `SetParamSet` outside a block): the driver never makes them; the model lets such a call not return.
- Key generation, signatures, bech32 and public keys: a transaction carries signer, sequence and account number.
- Protobuf and JSON encodings: decoded values are inputs, encoders are arbitrary functions. A parameter set comes back as the bytes its fields encode to.
- Fee denoms: only amount and gas limit of a fee are modelled; a denom that `cosmrs` refuses panics in the source.
- Balances: what funding does to them is part of the effect input.
- Whether `SigningKey::from_slice` accepts a generated key: an input of the driver's operation.
- Chain.App.FinalizeBlock: the request's time, votes and proposer are left out, because the chain code that reads them is an input.
- Chain.App.SimDeliver: ante-handler writes that survive a failed message are left out, because `Execute` panics on that failure and nothing follows it.
- Raw pointers, bindgen layouts and headers: C strings are byte sequences with a terminating NUL.
- Module wrappers and macros: each is one delegated call.
- Build script, temporary directories and file removal: I/O.
- `Query`: what the route answers is an input; the call reads one environment and changes nothing.
- What a test that catches a panic of the driver finds: a panic inside a block leaves it open.
- The environment counter and block heights are unbounded integers: wrap-around after 2^64 environments or 2^63 blocks is not modelled.
- The range of Go's time.Time (about 2^63 seconds): block time is an unbounded count of nanoseconds; only durations and UnixNano wrap.
- The mutex in `Exports`: the class is sequential; locking is modelled in `Interleaving`.
- Fee.DefaultGasLimitExactly: does not name gas limits above 2^53, where binary64 no longer holds every integer; `Fee.DefaultGasLimitNear` bounds them.
- Error `PartialEq` implementations: case matches.
