/** The Rust driver itself: `BaseApp` holds an environment id and calls the library. */
module Driver {
  import opened Outcomes
  import opened Binary64
  import opened Fee
  import opened Chain
  import opened Environment
  import opened Exports
  import Coins
  import Frames
  import Messages
  import opened Operations

  class BaseApp {
    const lib: Library
    const id: nat
    const defaultGasAdjustment: F64

    constructor (lib: Library, defaultGasAdjustment: F64, genesis: State, subspaces: set<string>,
                 now: int, begin: Effect, end: Effect)
      requires lib.Valid()
      modifies lib
      ensures this.lib == lib && this.defaultGasAdjustment == defaultGasAdjustment && Live()
      ensures id == old(lib.envCounter) + 1 && id !in old(lib.envRegister)
      ensures NewEnv(genesis, subspaces, now, begin, end) == Returned(lib.Abs(id))
      ensures forall k | k in old(lib.envRegister) :: k in lib.envRegister && lib.Abs(k) == old(lib.Abs(k))
    {
      var newId := lib.InitTestEnv(genesis, subspaces, now, begin, end);
      this.lib, this.id, this.defaultGasAdjustment := lib, newId, defaultGasAdjustment;
    }

    ghost predicate Live()
      reads lib
    {
      lib.Valid() && id in lib.envRegister
    }

    /** The call did to this app's environment what `spec` says and left all others alone. */
    twostate predicate Did<T>(spec: Done<T>, new r: Outcome<T>)
      requires id in old(lib.envRegister)
      reads lib, lib.Apps()
    {
      match spec
      case Panicked => r == Panicked
      case Returned((e, v)) => r == Returned(v) && lib.Moved(id, e)
    }

    method CreateSignedTx(msgs: seq<Any>, signer: Signer, fee: TxFee) returns (r: Outcome<Tx>)
      requires Live()
      ensures r == Operations.CreateSignedTx(lib.Abs(id), msgs, signer, fee)
    {
      var _ :- Frames.GoString(signer.address);
      var sequence :- lib.AccountSequence(id, signer.address);
      var number :- lib.AccountNumber(id, signer.address);
      return Returned(Tx(signer.address, sequence.n, number.n, fee, msgs));
    }

    method SimulateTx(msgs: seq<Any>, signer: Signer, verdict: SimulateVerdict)
      returns (r: Outcome<Result<u64, RunnerError>>)
      requires Live()
      modifies lib.AppOf(id)
      ensures Did(old(Operations.SimulateTx(lib.Abs(id), msgs, signer, verdict)), r)
    {
      var tx :- CreateSignedTx(msgs, signer, SIMULATION_FEE);
      var reply :- lib.Simulate(id, tx, verdict);
      var payload :- Frames.Received(reply.reply);
      return Returned(GasFrom(payload, verdict));
    }

    method FeeFor(msgs: seq<Any>, signer: Signer, verdict: SimulateVerdict)
      returns (r: Outcome<Result<TxFee, RunnerError>>)
      requires Live()
      modifies lib.AppOf(id)
      ensures Did(old(Operations.FeeFor(lib.Abs(id), msgs, signer, verdict)), r)
    {
      match signer.feeSetting
      case Auto(gasPrice, gasAdjustment) =>
        var gas :- SimulateTx(msgs, signer, verdict);
        if gas.Err? { return Returned(Err(gas.error)); }
        return Returned(Ok(AutoFee(gas.value, gasPrice, gasAdjustment)));
      case Custom(amount, gasLimit) =>
        var parsed :- Coins.CustomFeeAmount(amount);
        return Returned(Ok(TxFee(parsed, gasLimit)));
    }

    method ExecuteInBlock(msgs: seq<Any>, signer: Signer, v: Verdicts)
      returns (r: Outcome<Result<bytes, RunnerError>>)
      requires Live()
      modifies lib, lib.AppOf(id)
      ensures Did(old(Operations.ExecuteInBlock(lib.Abs(id), msgs, signer, v)), r)
    {
      hide Step, Operations.FeeFor, Operations.CreateSignedTx, Frames.Received;
      var fee :- FeeFor(msgs, signer, v.simulated);
      if fee.Err? { return Returned(Err(fee.error)); }
      var tx :- CreateSignedTx(msgs, signer, fee.value);
      ghost var e, c := lib.Abs(id), Execute(tx, v.delivered);
      if Step(e, c).Returned? { StepAnswers(e, c); }
      var reply :- lib.Execute(id, tx, v.delivered);
      var payload :- Frames.Received(reply.reply);
      return Returned(ResponseFrom(payload, v.delivered));
    }

    method ExecuteMultipleRaw(msgs: seq<Any>, signer: Signer, v: Verdicts)
      returns (r: Outcome<Result<bytes, RunnerError>>)
      requires Live()
      modifies lib, lib.AppOf(id)
      ensures Did(old(Operations.ExecuteMultipleRaw(lib.Abs(id), msgs, signer, v)), r)
    {
      var _ :- lib.BeginBlock(id, v.begin);
      var result :- ExecuteInBlock(msgs, signer, v);
      match result
      case Ok(_) =>
        var _ :- lib.EndBlock(id, v.end);
        return Returned(result);
      case Err(_) =>
        var _ :- lib.EndBlock(id, v.end);
        return Returned(result);
    }

    method ExecuteBatch(batch: seq<Messages.Conversion>, signer: Signer, v: Verdicts)
      returns (r: Outcome<Result<bytes, RunnerError>>)
      requires Live()
      modifies lib, lib.AppOf(id)
      ensures Did(old(Operations.ExecuteBatch(lib.Abs(id), batch, signer, v)), r)
    {
      var msgs :- Messages.Collect(batch);
      if msgs.Err? { return Returned(Err(msgs.error)); }
      r := ExecuteMultipleRaw(msgs.value, signer, v);
    }

    method ExecuteCosmosMsgs(msgs: seq<Messages.CosmosMsg>, encode: Messages.Encoder, signer: Signer, v: Verdicts)
      returns (r: Outcome<Result<bytes, RunnerError>>)
      requires Live()
      modifies lib, lib.AppOf(id)
      ensures Did(old(Operations.ExecuteCosmosMsgs(lib.Abs(id), msgs, encode, signer, v)), r)
    {
      r := ExecuteBatch(Messages.CosmosBatch(msgs, signer.address, encode), signer, v);
    }

    method ExecuteMultiple(msgs: seq<Messages.TypedMsg>, signer: Signer, v: Verdicts)
      returns (r: Outcome<Result<bytes, RunnerError>>)
      requires Live()
      modifies lib, lib.AppOf(id)
      ensures Did(old(Operations.ExecuteMultiple(lib.Abs(id), msgs, signer, v)), r)
    {
      r := ExecuteBatch(Messages.TypedBatch(msgs), signer, v);
    }

    method IncreaseTime(seconds: u64, begin: Effect, end: Effect) returns (r: Outcome<()>)
      requires Live()
      modifies lib, lib.AppOf(id)
      ensures Did(old(Operations.IncreaseTime(lib.Abs(id), seconds, begin, end)), r)
    {
      var _ :- lib.IncreaseTime(id, seconds, begin, end);
      return Returned(());
    }

    /** `coins.to_vec()` and the sort of the copy. */
    method SortedCoins(coins: seq<Coins.Coin>) returns (sorted: seq<Coins.Coin>)
      ensures sorted == Coins.StableSort(coins)
    {
      var copy := new Coins.Coin[|coins|](i requires 0 <= i < |coins| => coins[i]);
      assert copy[..] == coins;
      Coins.SortByDenom(copy);
      return copy[..];
    }

    method InitAccount(n: NewAccount) returns (r: Outcome<Result<bytes, RunnerError>>)
      requires Live()
      modifies lib, lib.AppOf(id)
      ensures Did(old(Operations.InitAccount(lib.Abs(id), n)), r)
    {
      var coins := SortedCoins(n.coins);
      var _ :- lib.BeginBlock(id, n.begin);
      r := FundAndEnd(n, coins);
    }

    method FundAndEnd(n: NewAccount, coins: seq<Coins.Coin>) returns (r: Outcome<Result<bytes, RunnerError>>)
      requires Live()
      modifies lib, lib.AppOf(id)
      ensures Did(old(Operations.FundAndEnd(lib.Abs(id), n, coins)), r)
    {
      hide Step, Frames.ReadKey;
      ghost var e, c := lib.Abs(id), Fund(n.key, coins, n.grant);
      if Step(e, c).Returned? { StepAnswers(e, c); }
      var text :- lib.InitAccount(id, n.key, coins, n.grant);
      var _ :- lib.EndBlock(id, n.end);
      return Returned(SigningKey(Frames.ReadKey(text.text), n.keyError));
    }

    /** One attempt per account; the first error ends the series. */
    method InitAccounts(ns: seq<NewAccount>) returns (r: Outcome<Result<seq<bytes>, RunnerError>>)
      requires Live()
      modifies lib, lib.AppOf(id)
      ensures Did(old(Operations.InitAccounts(lib.Abs(id), ns)), r)
    {
      ghost var spec := Operations.InitAccounts(lib.Abs(id), ns);
      var accounts, i := [], 0;
      assert ns[0..] == ns;
      PrefixedNone(spec);
      while i < |ns|
        invariant 0 <= i <= |ns|
        invariant id in lib.envRegister && lib.Moved(id, lib.Abs(id))
        invariant spec == Prefixed(accounts, Operations.InitAccounts(lib.Abs(id), ns[i..]))
      {
        var one :- Attempt(ns, i, accounts, spec);
        if one.Err? { return Returned(Err(one.error)); }
        accounts := accounts + [one.value];
        i := i + 1;
      }
      SeriesEnds(lib.Abs(id), ns[i..], accounts);
      return Returned(Ok(accounts));
    }

    /** One attempt of the series; `spec` is what the whole series amounts to. */
    method Attempt(ns: seq<NewAccount>, i: nat, ghost accounts: seq<bytes>,
                   ghost spec: Operations.Done<Result<seq<bytes>, RunnerError>>)
      returns (r: Outcome<Result<bytes, RunnerError>>)
      requires Live() && i < |ns|
      requires spec == Prefixed(accounts, Operations.InitAccounts(lib.Abs(id), ns[i..]))
      modifies lib, lib.AppOf(id)
      ensures r.Returned? ==> id in lib.envRegister && lib.Moved(id, lib.Abs(id))
      ensures match r
              case Panicked => spec.Panicked?
              case Returned(Err(error)) => spec == Returned((lib.Abs(id), Err(error)))
              case Returned(Ok(account)) =>
                spec == Prefixed(accounts + [account], Operations.InitAccounts(lib.Abs(id), ns[i + 1..]))
    {
      InitAccountsUnfolds(lib.Abs(id), ns, i);
      r := InitAccount(ns[i]);
      if r.Returned? && r.value.Ok? {
        PrefixedAppends(accounts, r.value.value, Operations.InitAccounts(lib.Abs(id), ns[i + 1..]));
      }
    }

    method SetParamSet(w: ParamWrite) returns (r: Outcome<Result<(), RunnerError>>)
      requires Live()
      modifies lib, lib.AppOf(id)
      ensures Did(old(Operations.SetParamSet(lib.Abs(id), w)), r)
    {
      var _ :- lib.BeginBlock(id, w.begin);
      var _ :- Frames.GoString(w.subspace);
      r := WriteAndEnd(w);
    }

    method WriteAndEnd(w: ParamWrite) returns (r: Outcome<Result<(), RunnerError>>)
      requires Live()
      modifies lib, lib.AppOf(id)
      ensures Did(old(Operations.WriteAndEnd(lib.Abs(id), w)), r)
    {
      hide Step, Frames.Received;
      ghost var e, c := lib.Abs(id), SetParams(w.subspace, w.any, w.decoded, w.accepted);
      if Step(e, c).Returned? { StepAnswers(e, c); }
      var reply :- lib.SetParamSet(id, w.subspace, w.any, w.decoded, w.accepted);
      var _ :- lib.EndBlock(id, w.end);
      var payload :- Frames.Received(reply.reply);
      return Returned(Emptied(payload));
    }

    method RunQuery(path: string, reply: Result<bytes, GoError>) returns (r: Outcome<Result<bytes, RunnerError>>)
      requires Live()
      ensures r == Operations.RunQuery(lib.Abs(id), path, reply)
    {
      var _ :- Frames.GoString(path);
      var answer :- lib.Query(id, reply);
      return Frames.Received(answer.reply);
    }

    method GetParamSet(subspace: string, typeUrl: string) returns (r: Outcome<Result<bytes, RunnerError>>)
      requires Live()
      ensures r == Operations.GetParamSet(lib.Abs(id), subspace, typeUrl)
    {
      var _ :- Frames.GoString(subspace);
      var _ :- Frames.GoString(typeUrl);
      var params :- lib.GetParamSet(id, subspace, typeUrl);
      return Frames.Received(params.reply);
    }
  }

  /** A series whose first accounts are already there. */
  function Prefixed(accounts: seq<bytes>, rest: Operations.Done<Result<seq<bytes>, RunnerError>>):
    Operations.Done<Result<seq<bytes>, RunnerError>>
  {
    match rest
    case Panicked => Panicked
    case Returned((e, Ok(more))) => Returned((e, Ok(accounts + more)))
    case Returned((e, Err(error))) => rest
  }

  lemma {:induction false} InitAccountsUnfolds(e: Env, ns: seq<NewAccount>, i: nat)
    requires i < |ns|
    ensures Operations.InitAccounts(e, ns[i..]) ==
            match Operations.InitAccount(e, ns[i])
            case Panicked => Panicked
            case Returned((e1, Err(error))) => Returned((e1, Err(error)))
            case Returned((e1, Ok(account))) => Prefixed([account], Operations.InitAccounts(e1, ns[i + 1..]))
  {
    assert ns[i..][1..] == ns[i + 1..];
  }

  lemma {:induction false} SeriesEnds(e: Env, rest: seq<NewAccount>, accounts: seq<bytes>)
    requires rest == []
    ensures Prefixed(accounts, Operations.InitAccounts(e, rest)) == Returned((e, Ok(accounts)))
  {
    assert accounts + [] == accounts;
  }

  lemma PrefixedNone(rest: Operations.Done<Result<seq<bytes>, RunnerError>>)
    ensures Prefixed([], rest) == rest
  {
    if rest.Returned? && rest.value.1.Ok? {
      assert [] + rest.value.1.value == rest.value.1.value;
    }
  }

  lemma PrefixedAppends(accounts: seq<bytes>, account: bytes, rest: Operations.Done<Result<seq<bytes>, RunnerError>>)
    ensures Prefixed(accounts, Prefixed([account], rest)) == Prefixed(accounts + [account], rest)
  {
    if rest.Returned? && rest.value.1.Ok? {
      assert accounts + ([account] + rest.value.1.value) == accounts + [account] + rest.value.1.value;
    }
  }
}
