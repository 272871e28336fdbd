/** The public operations of the Rust driver (`BaseApp` in app.rs) on the value of one environment:
    each is an ordered sequence of calls of the exported functions. */
module Operations {
  import opened Outcomes
  import opened Binary64
  import opened Fee
  import opened Chain
  import opened Environment
  import Coins
  import Frames
  import Messages

  datatype FeeSetting =
    | Auto(gasPrice: u128, gasAdjustment: F64)
    | Custom(amount: u128, gasLimit: u64)

  datatype Signer = Signer(address: Address, feeSetting: FeeSetting)

  /** The outcomes of one execution that chain code decides. */
  datatype Verdicts = Verdicts(begin: Effect, simulated: SimulateVerdict, delivered: DeliverVerdict, end: Effect)

  /** One `init_account`: the coins asked for, the key Go generates, what the keepers make of the
      funding, and whether Rust refuses the key. */
  datatype NewAccount = NewAccount(
    key: Key, coins: seq<Coins.Coin>, grant: Grant, begin: Effect, end: Effect, keyError: Option<RunnerError>)

  /** One `set_param_set`. */
  datatype ParamWrite = ParamWrite(
    subspace: string, any: Result<Any, bytes>, decoded: Result<bytes, bytes>, accepted: bool, begin: Effect, end: Effect)

  type Done<T> = Outcome<(Env, T)>

  // ---------- the operations on one environment ----------

  const SIMULATION_FEE := TxFee(MIN_GAS_PRICE, 0)

  function CreateSignedTx(e: Env, msgs: seq<Any>, signer: Signer, fee: TxFee): Outcome<Tx> {
    var _ :- Frames.GoString(signer.address);
    var (_, sequence) :- Step(e, Sequence(signer.address));
    var (_, number) :- Step(e, Number(signer.address));
    Returned(Tx(signer.address, sequence.n, number.n, fee, msgs))
  }

  function SimulateTx(e: Env, msgs: seq<Any>, signer: Signer, verdict: SimulateVerdict): Done<Result<u64, RunnerError>> {
    var tx :- CreateSignedTx(e, msgs, signer, SIMULATION_FEE);
    var (e', r) :- Step(e, Simulate(tx, verdict));
    var payload :- Frames.Received(r.reply);
    Returned((e', GasFrom(payload, verdict)))
  }

  /** Decoding the gas info: the payload it was encoded to gives it back. */
  function GasFrom(payload: Result<bytes, RunnerError>, verdict: SimulateVerdict): Result<u64, RunnerError> {
    if payload.Err? then Err(payload.error)
    else if verdict.gasUsed.Some? && payload.value == verdict.gasUsed.value.bytes then Ok(verdict.gasUsed.value.value)
    else Err(DecodeError("invalid protobuf"))
  }

  /** Decoding the simulation response, likewise. */
  function ResponseFrom(payload: Result<bytes, RunnerError>, verdict: DeliverVerdict): Result<bytes, RunnerError> {
    if payload.Err? then Err(payload.error)
    else if verdict.Accepted? && payload.value == verdict.response.bytes then verdict.response.value
    else Err(DecodeError("invalid protobuf"))
  }

  function AutoFee(gasUsed: u64, gasPrice: u128, gasAdjustment: F64): TxFee {
    var gasLimit := GasLimit(gasUsed, gasAdjustment);
    TxFee(FeeAmount(gasLimit, gasPrice), gasLimit)
  }

  function FeeFor(e: Env, msgs: seq<Any>, signer: Signer, verdict: SimulateVerdict): Done<Result<TxFee, RunnerError>> {
    match signer.feeSetting
    case Auto(gasPrice, gasAdjustment) =>
      var (e', gas) :- SimulateTx(e, msgs, signer, verdict);
      Returned((e', if gas.Ok? then Ok(AutoFee(gas.value, gasPrice, gasAdjustment)) else Err(gas.error)))
    case Custom(amount, gasLimit) =>
      var parsed :- Coins.CustomFeeAmount(amount);
      Returned((e, Ok(TxFee(parsed, gasLimit))))
  }

  function ExecuteTx(e: Env, tx: Tx, verdict: DeliverVerdict): Done<Result<bytes, RunnerError>> {
    var (e', r) :- Step(e, Execute(tx, verdict));
    var payload :- Frames.Received(r.reply);
    Returned((e', ResponseFrom(payload, verdict)))
  }

  function ExecuteInBlock(e: Env, msgs: seq<Any>, signer: Signer, v: Verdicts): Done<Result<bytes, RunnerError>> {
    var (e1, fee) :- FeeFor(e, msgs, signer, v.simulated);
    if fee.Err? then Returned((e1, Err(fee.error)))
    else
      var tx :- CreateSignedTx(e1, msgs, signer, fee.value);
      ExecuteTx(e1, tx, v.delivered)
  }

  /** `run_block`: the block is ended whether the execution succeeds or fails. */
  function RunBlock<T>(e: Env, begin: Effect, end: Effect, execution: Env -> Done<T>): Done<T> {
    var (e1, _) :- Step(e, Begin(1, begin));
    var (e2, r) :- execution(e1);
    var (e3, _) :- Step(e2, End(end));
    Returned((e3, r))
  }

  function ExecuteMultipleRaw(e: Env, msgs: seq<Any>, signer: Signer, v: Verdicts): Done<Result<bytes, RunnerError>> {
    RunBlock(e, v.begin, v.end, e1 => ExecuteInBlock(e1, msgs, signer, v))
  }

  /** `execute_multiple` and `execute_cosmos_msgs`: the batch is converted before any block opens. */
  function ExecuteBatch(e: Env, batch: seq<Messages.Conversion>, signer: Signer, v: Verdicts):
    Done<Result<bytes, RunnerError>>
  {
    var msgs :- Messages.Collect(batch);
    if msgs.Err? then Returned((e, Err(msgs.error)))
    else ExecuteMultipleRaw(e, msgs.value, signer, v)
  }

  function ExecuteCosmosMsgs(e: Env, msgs: seq<Messages.CosmosMsg>, encode: Messages.Encoder, signer: Signer, v: Verdicts):
    Done<Result<bytes, RunnerError>>
  {
    ExecuteBatch(e, Messages.CosmosBatch(msgs, signer.address, encode), signer, v)
  }

  function ExecuteMultiple(e: Env, msgs: seq<Messages.TypedMsg>, signer: Signer, v: Verdicts):
    Done<Result<bytes, RunnerError>>
  {
    ExecuteBatch(e, Messages.TypedBatch(msgs), signer, v)
  }

  function IncreaseTime(e: Env, seconds: u64, begin: Effect, end: Effect): Done<()> {
    var e' :- Steps(e, [Begin(seconds, begin), End(end)]);
    Returned((e', ()))
  }

  /** The result is the private key of the new signing account. */
  function InitAccount(e: Env, n: NewAccount): Done<Result<bytes, RunnerError>> {
    var (e1, _) :- Step(e, Begin(1, n.begin));
    FundAndEnd(e1, n, Coins.StableSort(n.coins))
  }

  function FundAndEnd(e: Env, n: NewAccount, coins: seq<Coins.Coin>): Done<Result<bytes, RunnerError>> {
    var (e1, r) :- Step(e, Fund(n.key, coins, n.grant));
    var (e2, _) :- Step(e1, End(n.end));
    Returned((e2, SigningKey(Frames.ReadKey(r.text), n.keyError)))
  }

  /** `SigningKey::from_slice` on the key that was read. */
  function SigningKey(key: Result<bytes, RunnerError>, refused: Option<RunnerError>): Result<bytes, RunnerError> {
    if key.Ok? && refused.Some? then Err(refused.value) else key
  }

  /** `(0..count).map(init_account).collect()`: stops at the first error. */
  function InitAccounts(e: Env, ns: seq<NewAccount>): Done<Result<seq<bytes>, RunnerError>>
    decreases |ns|
  {
    if ns == [] then Returned((e, Ok([])))
    else
      var (e1, first) :- InitAccount(e, ns[0]);
      if first.Err? then Returned((e1, Err(first.error)))
      else
        var (e2, rest) :- InitAccounts(e1, ns[1..]);
        Returned((e2, if rest.Ok? then Ok([first.value] + rest.value) else rest))
  }

  function SetParamSet(e: Env, w: ParamWrite): Done<Result<(), RunnerError>> {
    var (e1, _) :- Step(e, Begin(1, w.begin));
    var _ :- Frames.GoString(w.subspace);
    WriteAndEnd(e1, w)
  }

  function WriteAndEnd(e: Env, w: ParamWrite): Done<Result<(), RunnerError>> {
    var (e1, r) :- Step(e, SetParams(w.subspace, w.any, w.decoded, w.accepted));
    var (e2, _) :- Step(e1, End(w.end));
    var payload :- Frames.Received(r.reply);
    Returned((e2, Emptied(payload)))
  }

  /** A successful reply carries no bytes worth keeping. */
  function Emptied(reply: Result<bytes, RunnerError>): Result<(), RunnerError> {
    if reply.Ok? then Ok(()) else Err(reply.error)
  }

  /** The result is the encoding that the caller's parameter type decodes. */
  function GetParamSet(e: Env, subspace: string, typeUrl: string): Outcome<Result<bytes, RunnerError>> {
    var _ :- Frames.GoString(subspace);
    var _ :- Frames.GoString(typeUrl);
    var (_, r) :- Step(e, GetParams(subspace, typeUrl));
    Frames.Received(r.reply)
  }

  function RunQuery(e: Env, path: string, reply: Result<bytes, GoError>): Outcome<Result<bytes, RunnerError>> {
    var _ :- Frames.GoString(path);
    var (_, r) :- Step(e, Call.Query(reply));
    Frames.Received(r.reply)
  }
}
