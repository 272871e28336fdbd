/** Whole runs of the driver's public operations on one environment. */
module Runs {
  import opened Outcomes
  import opened Fee
  import opened Chain
  import opened Environment
  import opened Operations
  import Base64
  import Coins
  import Frames
  import Messages
  import Utf8

  datatype ApiCall =
    | Increase(seconds: u64, begin: Effect, end: Effect)
    | Init(account: NewAccount)
    | InitMany(accounts: seq<NewAccount>)
    | SetParam(write: ParamWrite)
    | GetParam(subspace: string, typeUrl: string)
    | SimulateOnly(msgs: seq<Any>, signer: Signer, simulated: SimulateVerdict)
    | ExecuteMsgs(batch: seq<Messages.Conversion>, signer: Signer, verdicts: Verdicts)
    | GetTime
    | GetHeight
    | Ask(path: string, reply: Result<bytes, GoError>)

  function Env1<T>(r: Done<T>): Outcome<Env> {
    if r.Panicked? then Panicked else Returned(r.value.0)
  }

  function Perform(e: Env, c: ApiCall): Outcome<Env> {
    match c
    case Increase(seconds, begin, end) => Env1(IncreaseTime(e, seconds, begin, end))
    case Init(n) => Env1(InitAccount(e, n))
    case InitMany(ns) => Env1(InitAccounts(e, ns))
    case SetParam(w) => Env1(SetParamSet(e, w))
    case GetParam(subspace, typeUrl) =>
      if GetParamSet(e, subspace, typeUrl).Panicked? then Panicked else Returned(e)
    case SimulateOnly(msgs, signer, verdict) => Env1(SimulateTx(e, msgs, signer, verdict))
    case ExecuteMsgs(batch, signer, v) => Env1(ExecuteBatch(e, batch, signer, v))
    case GetTime => Returned(e)
    case GetHeight => Returned(e)
    case Ask(path, reply) => if RunQuery(e, path, reply).Panicked? then Panicked else Returned(e)
  }

  function Run(e: Env, calls: seq<ApiCall>): Outcome<Env>
    decreases |calls|
  {
    if calls == [] then Returned(e)
    else
      var e' :- Perform(e, calls[0]);
      Run(e', calls[1..])
  }

  // ---------- how many blocks and how much time a call takes ----------

  /** `init_accounts` makes one attempt per account up to and including the first failure. */
  function Attempts(ns: seq<NewAccount>): nat {
    if ns == [] then 0 else if ns[0].keyError.Some? then 1 else 1 + Attempts(ns[1..])
  }

  function BlocksOf(c: ApiCall): nat {
    match c
    case Increase(_, _, _) => 1
    case Init(_) => 1
    case InitMany(ns) => Attempts(ns)
    case SetParam(_) => 1
    case ExecuteMsgs(batch, _, _) => if Messages.Collect(batch).Returned? && Messages.Collect(batch).value.Ok? then 1 else 0
    case _ => 0
  }

  function TimeOf(c: ApiCall): int {
    if c.Increase? then GoDuration(c.seconds) else BlocksOf(c) * SECOND
  }

  function Blocks(calls: seq<ApiCall>): nat {
    if calls == [] then 0 else BlocksOf(calls[0]) + Blocks(calls[1..])
  }

  function Time(calls: seq<ApiCall>): int {
    if calls == [] then 0 else TimeOf(calls[0]) + Time(calls[1..])
  }

  // ---------- one operation ----------

  /** `e'` is `e` after `blocks` further blocks that took `time` nanoseconds, closed again. */
  ghost predicate Advanced(e: Env, e': Env, blocks: int, time: int, genesis: State) {
    && Inv(e', genesis) && Closed(e')
    && e'.ctx == Ctx(e.ctx.height + blocks, e.ctx.time + time)
    && e'.types == e.types && e'.app.subspaces == e.app.subspaces
  }

  /** Everything between Begin and End leaves the block open and the context alone. */
  ghost predicate Inside(e: Env, e': Env, genesis: State) {
    && Inv(e', genesis) && Opened(e') && e'.ctx == e.ctx
    && e'.types == e.types && e'.app.subspaces == e.app.subspaces
  }

  lemma StepInside(e: Env, c: Call, genesis: State)
    requires Inv(e, genesis) && Opened(e) && !c.Begin? && !c.End? && Step(e, c).Returned?
    ensures Inside(e, Step(e, c).value.0, genesis)
  {
    hide Consecutive, PhaseOf, Apply;
    StepKeepsInv(e, c, genesis);
  }

  lemma StepBegin(e: Env, seconds: u64, effect: Effect, genesis: State)
    requires Inv(e, genesis) && Closed(e)
    ensures Step(e, Begin(seconds, effect)).Returned?
    ensures var e' := Step(e, Begin(seconds, effect)).value.0;
      Inv(e', genesis) && Opened(e') && e'.ctx == Ctx(e.ctx.height + 1, e.ctx.time + GoDuration(seconds)) &&
      e'.types == e.types && e'.app.subspaces == e.app.subspaces
  {
    hide Consecutive, PhaseOf, Apply;
    StepKeepsInv(e, Begin(seconds, effect), genesis);
  }

  lemma StepEnd(e: Env, effect: Effect, genesis: State)
    requires Inv(e, genesis) && Opened(e)
    ensures Step(e, End(effect)).Returned?
    ensures var e' := Step(e, End(effect)).value.0;
      Inv(e', genesis) && Closed(e') && e'.ctx == e.ctx && e'.types == e.types && e'.app.subspaces == e.app.subspaces
  {
    hide Consecutive, PhaseOf, Apply;
    StepKeepsInv(e, End(effect), genesis);
  }

  lemma IncreaseAdvances(e: Env, seconds: u64, begin: Effect, end: Effect, genesis: State)
    requires Inv(e, genesis) && Closed(e)
    ensures IncreaseTime(e, seconds, begin, end).Returned?
    ensures Advanced(e, IncreaseTime(e, seconds, begin, end).value.0, 1, GoDuration(seconds), genesis)
  {
    hide Step, Steps, Inv, Opened, Closed, GoDuration;
    StepBegin(e, seconds, begin, genesis);
    var e1 := Step(e, Begin(seconds, begin)).value.0;
    StepEnd(e1, end, genesis);
    StepsOne(e, Begin(seconds, begin));
    StepsThen(e, [Begin(seconds, begin)], e1, End(end));
    assert [Begin(seconds, begin)] + [End(end)] == [Begin(seconds, begin), End(end)];
  }

  /** Within a block, funding returns exactly when the coins are fundable and the keepers accept. */
  lemma FundReturns(e: Env, key: Key, coins: seq<Coins.Coin>, grant: Grant)
    requires Opened(e)
    ensures Step(e, Fund(key, coins, grant)).Returned? <==> grant.Granted? && Coins.Fundable(coins)
  {
    hide PhaseOf, Apply, Coins.Fundable;
  }

  /** `init_account` sorts the coins first, so it takes them in any order: it returns exactly when
      no denom occurs twice, no amount is zero and the keepers accept the funding. */
  lemma InitAdvances(e: Env, n: NewAccount, genesis: State)
    requires Inv(e, genesis) && Closed(e)
    ensures InitAccount(e, n).Returned? <==>
            && n.grant.Granted?
            && (forall i, j | 0 <= i < j < |n.coins| :: n.coins[i].denom != n.coins[j].denom)
            && (forall c | c in n.coins :: c.amount >= 1)
    ensures InitAccount(e, n).Returned? ==> Advanced(e, InitAccount(e, n).value.0, 1, SECOND, genesis)
  {
    hide Step, Inv, Opened, Closed, Coins.StableSort, Coins.Fundable;
    StepBegin(e, 1, n.begin, genesis);
    var e1, coins := Step(e, Begin(1, n.begin)).value.0, Coins.StableSort(n.coins);
    Coins.SortedIsFundable(n.coins);
    FundReturns(e1, n.key, coins, n.grant);
    if n.grant.Granted? && Coins.Fundable(coins) {
      StepInside(e1, Fund(n.key, coins, n.grant), genesis);
      StepEnd(Step(e1, Fund(n.key, coins, n.grant)).value.0, n.end, genesis);
    }
    OneSecond();
  }

  lemma OneSecond()
    ensures GoDuration(1) == SECOND
  {
  }

  /** Success means one account and one block per request; a key that fails to decode stops the
      series after its own block. */
  lemma {:induction false} InitManyAdvances(e: Env, ns: seq<NewAccount>, genesis: State)
    requires Inv(e, genesis) && Closed(e) && InitAccounts(e, ns).Returned?
    ensures Advanced(e, InitAccounts(e, ns).value.0, Attempts(ns), Attempts(ns) * SECOND, genesis)
    ensures match InitAccounts(e, ns).value.1
            case Ok(accounts) =>
              Attempts(ns) == |ns| == |accounts| && forall i | 0 <= i < |ns| :: accounts[i] == ns[i].key.bytes
            case Err(error) =>
              1 <= Attempts(ns) <= |ns| && ns[Attempts(ns) - 1].keyError == Some(error)
    decreases |ns|
  {
    hide Step, Inv, Opened, Closed, InitAccount;
    if ns != [] {
      InitAdvances(e, ns[0], genesis);
      InitNames(e, ns[0]);
      if ns[0].keyError.None? {
        InitManyAdvances(InitAccount(e, ns[0]).value.0, ns[1..], genesis);
      }
    }
  }

  lemma InitNames(e: Env, n: NewAccount)
    requires InitAccount(e, n).Returned?
    ensures InitAccount(e, n).value.1 == if n.keyError.Some? then Err(n.keyError.value) else Ok(n.key.bytes)
  {
    hide Step, Frames.ReadKey;
    var e1 := Step(e, Begin(1, n.begin)).value.0;
    FundAnswers(e1, n.key, Coins.StableSort(n.coins), n.grant);
    Frames.KeyCrosses(n.key.bytes);
  }

  lemma FundAnswers(e: Env, key: Key, coins: seq<Coins.Coin>, grant: Grant)
    requires Step(e, Fund(key, coins, grant)).Returned?
    ensures Step(e, Fund(key, coins, grant)).value.1 == Text(Base64.Encode(key.bytes))
  {
  }

  function WriteCall(w: ParamWrite): Call {
    SetParams(w.subspace, w.any, w.decoded, w.accepted)
  }

  function Written(e: Env, w: ParamWrite): Result<ParamSet, bytes> {
    SetParamsResult(e, w.subspace, w.any, w.decoded)
  }

  /** When `set_param_set` returns: the subspace name crosses to Go, and what comes back is either
      the keeper's consent or an error text that Rust can read. The text of an unregistered type
      holds its URL. */
  predicate SetParamReturns(e: Env, w: ParamWrite) {
    Utf8.NulFree(w.subspace) &&
    (w.subspace in e.app.subspaces ==>
       match w.any
       case Err(text) => Frames.Printable(text)
       case Ok(any) =>
         if any.typeUrl !in e.types then Utf8.NulFree(any.typeUrl)
         else
           match w.decoded
           case Err(text) => Frames.Printable(text)
           case Ok(_) => w.accepted)
  }

  lemma TextsHoldNames(name: string)
    ensures Frames.Printable(NoSubspace(name)) <==> Utf8.NulFree(name)
    ensures Frames.Printable(NoParamSet(name)) <==> Utf8.NulFree(name)
    ensures Frames.Printable(NotRegistered(name)) <==> Utf8.NulFree(name)
  {
    hide Utf8.FromString, Frames.Printable;
    Frames.TextIsPrintable("No subspace found for `" + name + "`");
    Frames.TextIsPrintable("No param set found for `" + name + "`");
    Frames.TextIsPrintable("type " + name + " is not registered");
  }

  /** The same condition on what the export answers. */
  lemma ReturnsByAnswer(e: Env, w: ParamWrite)
    requires Utf8.NulFree(w.subspace)
    ensures SetParamReturns(e, w) <==>
            match Written(e, w)
            case Ok(_) => w.accepted
            case Err(text) => Frames.Printable(text)
  {
    hide NoSubspace, NotRegistered, Frames.Printable, Utf8.NulFree;
    TextsHoldNames(w.subspace);
    if w.any.Ok? { TextsHoldNames(w.any.value.typeUrl); }
  }

  lemma WriteAnswers(e: Env, w: ParamWrite)
    requires e.app.open.Some?
    ensures match Step(e, WriteCall(w))
            case Panicked => Written(e, w).Ok? && !w.accepted
            case Returned(pair) =>
              match Written(e, w)
              case Ok(_) => w.accepted && pair.1 == Reply(Ok([]))
              case Err(text) => pair.0 == e && pair.1 == Reply(Err(ExecuteFailed(text)))
  {
    hide Apply, SetParamsResult;
  }

  lemma WrittenBy(e: Env, e1: Env, w: ParamWrite)
    requires e1.app.subspaces == e.app.subspaces && e1.types == e.types
    ensures Written(e1, w) == Written(e, w) && (SetParamReturns(e1, w) <==> SetParamReturns(e, w))
  {
    hide NoSubspace, NotRegistered, Frames.Printable, Utf8.NulFree;
  }

  /** The write and the end of its block; the reply is read after the end. */
  lemma WriteAndEndAdvances(e: Env, w: ParamWrite, genesis: State)
    requires Inv(e, genesis) && Opened(e) && Utf8.NulFree(w.subspace)
    ensures WriteAndEnd(e, w).Returned? <==> SetParamReturns(e, w)
    ensures WriteAndEnd(e, w).Returned? ==>
      var (e', r) := WriteAndEnd(e, w).value;
      && Inv(e', genesis) && Closed(e') && e'.ctx == e.ctx && e'.types == e.types && e'.app.subspaces == e.app.subspaces
      && r == if Written(e, w).Ok? then Ok(()) else Err(ExecuteError(Written(e, w).error))
  {
    hide Step, Inv, Closed, PhaseOf, Written, SetParamReturns, Frames.Received, Frames.Printable, Utf8.NulFree;
    WriteAnswers(e, w);
    ReturnsByAnswer(e, w);
    if Step(e, WriteCall(w)).Returned? {
      StepInside(e, WriteCall(w), genesis);
      StepEnd(Step(e, WriteCall(w)).value.0, w.end, genesis);
      Frames.ReceivedIs(Step(e, WriteCall(w)).value.1.reply);
    }
  }

  /** `set_param_set` returns, with the block closed, exactly under that condition. */
  lemma SetParamAdvances(e: Env, w: ParamWrite, genesis: State)
    requires Inv(e, genesis) && Closed(e)
    ensures SetParamSet(e, w).Returned? <==> SetParamReturns(e, w)
    ensures SetParamSet(e, w).Returned? ==> Advanced(e, SetParamSet(e, w).value.0, 1, SECOND, genesis)
  {
    hide Step, Inv, Opened, Closed, WriteAndEnd, Written, Frames.GoString, Utf8.FromString, Frames.Printable;
    StepBegin(e, 1, w.begin, genesis);
    var e1 := Step(e, Begin(1, w.begin)).value.0;
    Frames.GoStringIs(w.subspace);
    WrittenBy(e, e1, w);
    if Utf8.NulFree(w.subspace) { WriteAndEndAdvances(e1, w, genesis); }
    OneSecond();
  }

  /** The type URL "\0" makes `set_param_set` panic on every known subspace: the error text holds the
      NUL, and Rust cannot read it. */
  lemma NulTypeUrlPanics(e: Env, w: ParamWrite, value: bytes, genesis: State)
    requires Inv(e, genesis) && Closed(e) && w.subspace in e.app.subspaces && "\0" !in e.types
    requires w.any == Ok(Any("\0", value))
    ensures SetParamSet(e, w).Panicked?
  {
    hide Inv, Closed, SetParamSet;
    SetParamAdvances(e, w, genesis);
    assert "\0"[0] == '\0';
  }

  lemma SimulateKeepsClosed(e: Env, msgs: seq<Any>, signer: Signer, verdict: SimulateVerdict, genesis: State)
    requires Inv(e, genesis) && Closed(e) && SimulateTx(e, msgs, signer, verdict).Returned?
    ensures Advanced(e, SimulateTx(e, msgs, signer, verdict).value.0, 0, 0, genesis)
  {
    hide Consecutive, PhaseOf;
    var tx := CreateSignedTx(e, msgs, signer, SIMULATION_FEE).value;
    StepKeepsInv(e, Simulate(tx, verdict), genesis);
  }

  lemma FeeInside(e: Env, msgs: seq<Any>, signer: Signer, verdict: SimulateVerdict, genesis: State)
    requires Inv(e, genesis) && Opened(e) && FeeFor(e, msgs, signer, verdict).Returned?
    ensures Inside(e, FeeFor(e, msgs, signer, verdict).value.0, genesis)
  {
    hide Step, Inv, Opened, CreateSignedTx;
    if signer.feeSetting.Auto? {
      var tx := CreateSignedTx(e, msgs, signer, SIMULATION_FEE).value;
      StepInside(e, Simulate(tx, verdict), genesis);
    }
  }

  lemma ExecuteInside(e: Env, msgs: seq<Any>, signer: Signer, v: Verdicts, genesis: State)
    requires Inv(e, genesis) && Opened(e) && ExecuteInBlock(e, msgs, signer, v).Returned?
    ensures Inside(e, ExecuteInBlock(e, msgs, signer, v).value.0, genesis)
  {
    hide Step, Inv, Opened, CreateSignedTx, FeeFor;
    FeeInside(e, msgs, signer, v.simulated, genesis);
    var (e1, fee) := FeeFor(e, msgs, signer, v.simulated).value;
    if fee.Ok? {
      var tx := CreateSignedTx(e1, msgs, signer, fee.value).value;
      StepInside(e1, Execute(tx, v.delivered), genesis);
    }
  }

  /** The block is closed on return, on success and on failure alike; the only way not to return
      is a panic inside the block. */
  lemma RunBlockAdvances<T>(e: Env, begin: Effect, end: Effect, execution: Env -> Done<T>, genesis: State)
    requires Inv(e, genesis) && Closed(e)
    requires forall e1 | Inv(e1, genesis) && Opened(e1) && execution(e1).Returned? ::
      Inside(e1, execution(e1).value.0, genesis)
    ensures var inside := execution(Step(e, Begin(1, begin)).value.0);
      match RunBlock(e, begin, end, execution)
      case Panicked => inside.Panicked?
      case Returned((e', r)) => inside.Returned? && r == inside.value.1 && Advanced(e, e', 1, SECOND, genesis)
  {
    hide Step, Inv, Opened, Closed;
    StepBegin(e, 1, begin, genesis);
    var e1 := Step(e, Begin(1, begin)).value.0;
    if execution(e1).Returned? {
      assert Inside(e1, execution(e1).value.0, genesis);
      StepEnd(execution(e1).value.0, end, genesis);
    }
    OneSecond();
  }

  /** An execution from the environment its block opens. */
  lemma ExecutionFrom(e: Env, e1: Env, msgs: seq<Any>, signer: Signer, v: Verdicts)
    requires Step(e, Begin(1, v.begin)) == Returned((e1, Ret.Done))
    ensures ExecuteMultipleRaw(e, msgs, signer, v) ==
            match ExecuteInBlock(e1, msgs, signer, v)
            case Panicked => Panicked
            case Returned((e2, r)) =>
              (match Step(e2, End(v.end))
               case Panicked => Panicked
               case Returned((e3, _)) => Returned((e3, r)))
  {
    hide Step, ExecuteInBlock;
    RunBlockFrom(e, e1, v.begin, v.end, e1 => ExecuteInBlock(e1, msgs, signer, v));
  }

  lemma RunBlockFrom<T>(e: Env, e1: Env, begin: Effect, end: Effect, execution: Env -> Done<T>)
    requires Step(e, Begin(1, begin)) == Returned((e1, Ret.Done))
    ensures RunBlock(e, begin, end, execution) ==
            match execution(e1)
            case Panicked => Panicked
            case Returned((e2, r)) =>
              (match Step(e2, End(end))
               case Panicked => Panicked
               case Returned((e3, _)) => Returned((e3, r)))
  {
    hide Step;
  }

  lemma ExecuteAdvances(e: Env, msgs: seq<Any>, signer: Signer, v: Verdicts, genesis: State)
    requires Inv(e, genesis) && Closed(e)
    ensures var inside := ExecuteInBlock(Step(e, Begin(1, v.begin)).value.0, msgs, signer, v);
      match ExecuteMultipleRaw(e, msgs, signer, v)
      case Panicked => inside.Panicked?
      case Returned((e', r)) => inside.Returned? && r == inside.value.1 && Advanced(e, e', 1, SECOND, genesis)
  {
    hide Step, Inv, Opened, Closed, ExecuteInBlock;
    StepBegin(e, 1, v.begin, genesis);
    forall e1 | Inv(e1, genesis) && Opened(e1) && ExecuteInBlock(e1, msgs, signer, v).Returned?
      ensures Inside(e1, ExecuteInBlock(e1, msgs, signer, v).value.0, genesis)
    {
      ExecuteInside(e1, msgs, signer, v, genesis);
    }
    RunBlockAdvances(e, v.begin, v.end, e1 => ExecuteInBlock(e1, msgs, signer, v), genesis);
  }

  /** A batch that does not convert opens no block and changes nothing, and its error is that of the
      first message that fails; a batch that converts is executed and takes exactly one block if it
      returns. */
  lemma BatchAllOrNothing(e: Env, batch: seq<Messages.Conversion>, signer: Signer, v: Verdicts, genesis: State)
    requires Inv(e, genesis) && Closed(e)
    ensures forall k | 0 <= k < |batch| && !Messages.Good(batch[k]) && (forall i | 0 <= i < k :: Messages.Good(batch[i])) ::
      ExecuteBatch(e, batch, signer, v) == if batch[k].Panicked? then Panicked else Returned((e, Err(batch[k].value.error)))
    ensures (forall i | 0 <= i < |batch| :: Messages.Good(batch[i])) && ExecuteBatch(e, batch, signer, v).Returned? ==>
      Advanced(e, ExecuteBatch(e, batch, signer, v).value.0, 1, SECOND, genesis)
  {
    hide Inv, Closed, Advanced, ExecuteMultipleRaw, Messages.Collect;
    Messages.CollectExactly(batch);
    if forall i | 0 <= i < |batch| :: Messages.Good(batch[i]) {
      ExecuteAdvances(e, Messages.Collect(batch).value.value, signer, v, genesis);
    }
  }

  /** `execute_cosmos_msgs`: the first unsupported wasm message gives its error and leaves the
      environment as it was, the first message of an unfinished kind panics, and otherwise messages
      in which the chain reads what was asked for, in order, are executed in exactly one block. */
  lemma CosmosMsgsAllOrNothing(e: Env, msgs: seq<Messages.CosmosMsg>, encode: Messages.Encoder, decode: Messages.Decoder,
                               signer: Signer, v: Verdicts, genesis: State)
    requires Inv(e, genesis) && Closed(e) && Messages.Decodes(decode, encode)
    ensures forall k | 0 <= k < |msgs| && !Messages.Supported(msgs[k]) &&
                       (forall i | 0 <= i < k :: Messages.Supported(msgs[i])) ::
      ExecuteCosmosMsgs(e, msgs, encode, signer, v) ==
      if Messages.Unfinished(msgs[k]) then Panicked else Returned((e, Err(ExecuteError(Messages.UNSUPPORTED))))
    ensures (forall i | 0 <= i < |msgs| :: Messages.Supported(msgs[i])) ==>
      exists list: seq<Any> :: Executed(e, ExecuteCosmosMsgs(e, msgs, encode, signer, v), list, signer, v, genesis) &&
        |list| == |msgs| && forall i | 0 <= i < |msgs| :: Messages.Says(list[i], msgs[i], signer.address, decode)
  {
    hide Inv, Closed, Advanced, ExecuteMultipleRaw, Messages.Collect, Messages.Supported, Messages.Unfinished,
         Messages.CosmosBatch, Messages.Says, Messages.Decodes;
    Messages.CosmosBatchExactly(msgs, signer.address, encode, decode);
    if forall i | 0 <= i < |msgs| :: Messages.Supported(msgs[i]) {
      var list := Messages.Collect(Messages.CosmosBatch(msgs, signer.address, encode)).value.value;
      ExecuteAdvances(e, list, signer, v, genesis);
      assert Executed(e, ExecuteCosmosMsgs(e, msgs, encode, signer, v), list, signer, v, genesis);
    }
  }

  /** `execute_multiple`: likewise, where only an encoding can fail. */
  lemma MultipleAllOrNothing(e: Env, msgs: seq<Messages.TypedMsg>, signer: Signer, v: Verdicts, genesis: State)
    requires Inv(e, genesis) && Closed(e)
    ensures forall k | 0 <= k < |msgs| && msgs[k].encoded.Err? && (forall i | 0 <= i < k :: msgs[i].encoded.Ok?) ::
      ExecuteMultiple(e, msgs, signer, v) == Returned((e, Err(msgs[k].encoded.error)))
    ensures (forall i | 0 <= i < |msgs| :: msgs[i].encoded.Ok?) ==>
      exists list: seq<Any> :: Executed(e, ExecuteMultiple(e, msgs, signer, v), list, signer, v, genesis) &&
        |list| == |msgs| && forall i | 0 <= i < |msgs| :: list[i] == Any(msgs[i].typeUrl, msgs[i].encoded.value)
  {
    hide Inv, Closed, Advanced, ExecuteMultipleRaw, Messages.Collect, Messages.TypedBatch;
    Messages.TypedBatchExactly(msgs);
    if forall i | 0 <= i < |msgs| :: msgs[i].encoded.Ok? {
      var list := Messages.Collect(Messages.TypedBatch(msgs)).value.value;
      ExecuteAdvances(e, list, signer, v, genesis);
      assert Executed(e, ExecuteMultiple(e, msgs, signer, v), list, signer, v, genesis);
    }
  }

  /** `r` is the execution of `list`, which takes one block if it returns. */
  ghost predicate Executed(e: Env, r: Done<Result<bytes, RunnerError>>, list: seq<Any>, signer: Signer, v: Verdicts,
                           genesis: State)
  {
    r == ExecuteMultipleRaw(e, list, signer, v) && (r.Returned? ==> Advanced(e, r.value.0, 1, SECOND, genesis))
  }

  lemma PerformAdvances(e: Env, c: ApiCall, genesis: State)
    requires Inv(e, genesis) && Closed(e) && Perform(e, c).Returned?
    ensures Advanced(e, Perform(e, c).value, BlocksOf(c), TimeOf(c), genesis)
  {
    hide Inv, Closed, Advanced, Step, Steps, IncreaseTime, InitAccount, InitAccounts, SetParamSet, SimulateTx,
         ExecuteMultipleRaw, Messages.Collect;
    match c
    case Increase(seconds, begin, end) => IncreaseAdvances(e, seconds, begin, end, genesis);
    case Init(n) => InitAdvances(e, n, genesis);
    case InitMany(ns) => InitManyAdvances(e, ns, genesis);
    case SetParam(w) => SetParamAdvances(e, w, genesis);
    case SimulateOnly(msgs, signer, verdict) => SimulateKeepsClosed(e, msgs, signer, verdict, genesis);
    case ExecuteMsgs(batch, signer, v) =>
      var msgs := Messages.Collect(batch).value;
      if msgs.Ok? { ExecuteAdvances(e, msgs.value, signer, v, genesis); } else { StillThere(e, genesis); }
    case _ => StillThere(e, genesis);
  }

  lemma StillThere(e: Env, genesis: State)
    requires Inv(e, genesis) && Closed(e)
    ensures Advanced(e, e, 0, 0, genesis)
  {
    hide Inv, Closed;
  }

  // ---------- whole runs ----------

  lemma {:induction false} RunAdvances(e: Env, calls: seq<ApiCall>, genesis: State)
    requires Inv(e, genesis) && Closed(e) && Run(e, calls).Returned?
    ensures Advanced(e, Run(e, calls).value, Blocks(calls), Time(calls), genesis)
    decreases |calls|
  {
    hide Inv, Closed, Perform, BlocksOf, TimeOf;
    if calls != [] {
      PerformAdvances(e, calls[0], genesis);
      RunAdvances(Perform(e, calls[0]).value, calls[1..], genesis);
    }
  }

  /** Over every run of a new environment: the block is closed after each operation, the height is
      one plus the blocks opened, the clock is the start plus five seconds plus the increments, the
      application saw each height finalized twice and committed once, and every signer's delivered
      transactions carry consecutive sequences. */
  lemma {:induction false} RunOfNewEnv(genesis: State, subspaces: set<string>, now: int, begin: Effect, end: Effect,
                    calls: seq<ApiCall>, h: int, a: Address)
    requires var e0 := NewEnv(genesis, subspaces, now, begin, end); e0.Returned? && Run(e0.value, calls).Returned?
    ensures var e := Run(NewEnv(genesis, subspaces, now, begin, end).value, calls).value;
      && e.ctx.height == e.app.lastHeight == 1 + Blocks(calls)
      && Step(e, BlockHeight) == Returned((e, Num(1 + Blocks(calls))))
      && e.ctx.time == now + 5 * SECOND + Time(calls)
      && e.app.open.None?
      && Count(e.app.log, Committed(h)) == (if 1 <= h <= e.ctx.height then 1 else 0)
      && Count(e.app.log, Finalized(h)) == (if 1 <= h <= e.ctx.height then 2 else 0)
      && Consecutive(e.app, genesis, a)
  {
    NewEnvIs(genesis, subspaces, now, begin, end);
    var e0 := NewEnv(genesis, subspaces, now, begin, end).value;
    RunAdvances(e0, calls, genesis);
    var e := Run(e0, calls).value;
    BlocksOfLog(e.app.log, h);
  }

  // ---------- the clock ----------

  /** `increase_time(s)` moves the clock by s seconds exactly when s is at most 9223372036. */
  lemma IncreaseTimeExactly(e: Env, seconds: u64, begin: Effect, end: Effect, genesis: State)
    requires Inv(e, genesis) && Closed(e)
    ensures IncreaseTime(e, seconds, begin, end).Returned?
    ensures IncreaseTime(e, seconds, begin, end).value.0.ctx.time == e.ctx.time + seconds * SECOND <==>
            seconds <= 9223372036
  {
    IncreaseAdvances(e, seconds, begin, end, genesis);
    DurationExactly(seconds);
  }

  /** The seconds a call asks for. */
  function SecondsOf(c: ApiCall): nat {
    if c.Increase? then c.seconds else BlocksOf(c)
  }

  function Seconds(calls: seq<ApiCall>): nat {
    if calls == [] then 0 else SecondsOf(calls[0]) + Seconds(calls[1..])
  }

  lemma {:induction false} TimeIsSeconds(calls: seq<ApiCall>)
    requires forall i | 0 <= i < |calls| && calls[i].Increase? :: calls[i].seconds <= 9223372036
    ensures Time(calls) == Seconds(calls) * SECOND
  {
    if calls != [] {
      if calls[0].Increase? { DurationExactly(calls[0].seconds); }
      TimeIsSeconds(calls[1..]);
    }
  }

  /** Over every run the height reading grows by the blocks opened. */
  lemma {:induction false} HeightOverRun(e: Env, calls: seq<ApiCall>, e': Env, genesis: State)
    requires Inv(e, genesis) && Closed(e) && Run(e, calls) == Returned(e')
    ensures Step(e', BlockHeight) == Returned((e', Num(e.ctx.height + Blocks(calls))))
  {
    hide Inv, Closed, Run;
    RunAdvances(e, calls, genesis);
  }

  /** While no increment exceeds the bound and the clock stays within 0..2^63 nanoseconds, neither
      the nanosecond reading nor the truncated seconds lose anything over a whole run. */
  lemma {:induction false} ClockOverRun(e: Env, calls: seq<ApiCall>, e': Env, genesis: State)
    requires Inv(e, genesis) && Closed(e) && Run(e, calls) == Returned(e')
    requires forall i | 0 <= i < |calls| && calls[i].Increase? :: calls[i].seconds <= 9223372036
    requires 0 <= e.ctx.time && e.ctx.time + Seconds(calls) * SECOND < TWO_63
    ensures Step(e', BlockTime) == Returned((e', Num(e.ctx.time + Seconds(calls) * SECOND)))
    ensures BlockTimeSeconds(e') == BlockTimeSeconds(e) + Seconds(calls)
  {
    TimeOfRun(e, calls, genesis);
    ClockFrom(e, calls, e');
  }

  lemma {:induction false} ClockFrom(e: Env, calls: seq<ApiCall>, e': Env)
    requires e'.ctx.time == e.ctx.time + Time(calls)
    requires forall i | 0 <= i < |calls| && calls[i].Increase? :: calls[i].seconds <= 9223372036
    requires 0 <= e.ctx.time && e.ctx.time + Seconds(calls) * SECOND < TWO_63
    ensures Step(e', BlockTime) == Returned((e', Num(e.ctx.time + Seconds(calls) * SECOND)))
    ensures BlockTimeSeconds(e') == BlockTimeSeconds(e) + Seconds(calls)
  {
    TimeIsSeconds(calls);
    ClockReadings(e, e', Seconds(calls));
  }

  lemma {:induction false} TimeOfRun(e: Env, calls: seq<ApiCall>, genesis: State)
    requires Inv(e, genesis) && Closed(e) && Run(e, calls).Returned?
    ensures Run(e, calls).value.ctx.time == e.ctx.time + Time(calls)
  {
    RunAdvances(e, calls, genesis);
  }

  lemma ClockReadings(e: Env, e': Env, seconds: nat)
    requires 0 <= e.ctx.time && e'.ctx.time == e.ctx.time + seconds * SECOND < TWO_63
    ensures Step(e', BlockTime) == Returned((e', Num(e'.ctx.time)))
    ensures BlockTimeSeconds(e') == BlockTimeSeconds(e) + seconds
  {
    TruncatedSecondsAdvance(e.ctx.time, seconds);
    WrapFits(e.ctx.time);
    WrapFits(e'.ctx.time);
  }

  lemma WrapFits(x: int)
    requires 0 <= x < TWO_63
    ensures WrapI64(x) == x
  {
  }
}
