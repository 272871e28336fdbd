/** Every public operation of the driver as the list of export calls it makes, reads included. */
module Traces {
  import opened Outcomes
  import opened Chain
  import opened Environment
  import opened Operations
  import opened Runs
  import Coins
  import Frames
  import Messages

  /** What `create_signed_tx` asks the library. */
  function SignerReads(a: Address): seq<Call> {
    [Sequence(a), Number(a)]
  }

  function SimulateTrace(e: Env, msgs: seq<Any>, signer: Signer, verdict: SimulateVerdict): seq<Call>
    requires CreateSignedTx(e, msgs, signer, SIMULATION_FEE).Returned?
  {
    SignerReads(signer.address) + [Simulate(CreateSignedTx(e, msgs, signer, SIMULATION_FEE).value, verdict)]
  }

  function FeeTrace(e: Env, msgs: seq<Any>, signer: Signer, verdict: SimulateVerdict): seq<Call>
    requires FeeFor(e, msgs, signer, verdict).Returned?
  {
    if signer.feeSetting.Auto? then SimulateTrace(e, msgs, signer, verdict) else []
  }

  function InBlockTrace(e: Env, msgs: seq<Any>, signer: Signer, v: Verdicts): seq<Call>
    requires ExecuteInBlock(e, msgs, signer, v).Returned?
  {
    var (e1, fee) := FeeFor(e, msgs, signer, v.simulated).value;
    FeeTrace(e, msgs, signer, v.simulated) +
    if fee.Err? then []
    else SignerReads(signer.address) + [Execute(CreateSignedTx(e1, msgs, signer, fee.value).value, v.delivered)]
  }

  function InitTrace(n: NewAccount): seq<Call> {
    [Begin(1, n.begin), Fund(n.key, Coins.StableSort(n.coins), n.grant), End(n.end)]
  }

  function InitManyTrace(ns: seq<NewAccount>): seq<Call> {
    if ns == [] then []
    else InitTrace(ns[0]) + if ns[0].keyError.Some? then [] else InitManyTrace(ns[1..])
  }

  function ExecuteTrace(e: Env, msgs: seq<Any>, signer: Signer, v: Verdicts): seq<Call>
    requires ExecuteMultipleRaw(e, msgs, signer, v).Returned?
  {
    var e1 := Step(e, Begin(1, v.begin)).value.0;
    [Begin(1, v.begin)] + InBlockTrace(e1, msgs, signer, v) + [End(v.end)]
  }

  /** The export calls of an operation that returns, in order. */
  function Trace(e: Env, c: ApiCall): seq<Call>
    requires Perform(e, c).Returned?
  {
    match c
    case Increase(seconds, begin, end) => [Begin(seconds, begin), End(end)]
    case Init(n) => InitTrace(n)
    case InitMany(ns) => InitManyTrace(ns)
    case SetParam(w) => [Begin(1, w.begin), WriteCall(w), End(w.end)]
    case GetParam(subspace, typeUrl) => [GetParams(subspace, typeUrl)]
    case SimulateOnly(msgs, signer, verdict) => SimulateTrace(e, msgs, signer, verdict)
    case ExecuteMsgs(batch, signer, v) =>
      var msgs := Messages.Collect(batch).value;
      if msgs.Err? then [] else ExecuteTrace(e, msgs.value, signer, v)
    case GetTime => [BlockTime]
    case GetHeight => [BlockHeight]
    case Ask(_, reply) => [Query(reply)]
  }

  function RunTrace(e: Env, calls: seq<ApiCall>): seq<Call>
    requires Run(e, calls).Returned?
    decreases |calls|
  {
    if calls == [] then [] else Trace(e, calls[0]) + RunTrace(Perform(e, calls[0]).value, calls[1..])
  }

  // ---------- the trace is what the operation does ----------

  lemma {:induction false} Join(e: Env, a: seq<Call>, e1: Env, b: seq<Call>, e2: Env)
    requires Steps(e, a) == Returned(e1) && Steps(e1, b) == Returned(e2)
    ensures Steps(e, a + b) == Returned(e2)
  {
    hide Steps;
    StepsAppend(e, a, b);
  }

  lemma {:induction false} One(e: Env, c: Call, e1: Env)
    requires Step(e, c).Returned? && Step(e, c).value.0 == e1
    ensures Steps(e, [c]) == Returned(e1)
  {
    hide Step;
    StepsOne(e, c);
  }

  lemma {:induction false} Three(e: Env, c1: Call, e1: Env, c2: Call, e2: Env, c3: Call, e3: Env)
    requires Step(e, c1).Returned? && Step(e, c1).value.0 == e1
    requires Step(e1, c2).Returned? && Step(e1, c2).value.0 == e2
    requires Step(e2, c3).Returned? && Step(e2, c3).value.0 == e3
    ensures Steps(e, [c1, c2, c3]) == Returned(e3)
  {
    hide Step, Steps;
    One(e, c1, e1);
    One(e1, c2, e2);
    One(e2, c3, e3);
    Join(e, [c1], e1, [c2], e2);
    Join(e, [c1] + [c2], e2, [c3], e3);
    assert [c1] + [c2] + [c3] == [c1, c2, c3];
  }

  lemma {:induction false} ReadsChangeNothing(e: Env, msgs: seq<Any>, signer: Signer, fee: TxFee)
    requires CreateSignedTx(e, msgs, signer, fee).Returned?
    ensures Steps(e, SignerReads(signer.address)) == Returned(e)
  {
    var a := signer.address;
    hide Steps, Apply;
    One(e, Sequence(a), e);
    One(e, Number(a), e);
    Join(e, [Sequence(a)], e, [Number(a)], e);
    assert [Sequence(a)] + [Number(a)] == SignerReads(a);
  }

  lemma {:induction false} SimulateTraceIs(e: Env, msgs: seq<Any>, signer: Signer, verdict: SimulateVerdict)
    requires SimulateTx(e, msgs, signer, verdict).Returned?
    ensures CreateSignedTx(e, msgs, signer, SIMULATION_FEE).Returned?
    ensures Steps(e, SimulateTrace(e, msgs, signer, verdict)) == Returned(SimulateTx(e, msgs, signer, verdict).value.0)
  {
    hide Step, Steps, CreateSignedTx, SignerReads;
    var tx := CreateSignedTx(e, msgs, signer, SIMULATION_FEE).value;
    var e1 := SimulateTx(e, msgs, signer, verdict).value.0;
    ReadsChangeNothing(e, msgs, signer, SIMULATION_FEE);
    One(e, Simulate(tx, verdict), e1);
    Join(e, SignerReads(signer.address), e, [Simulate(tx, verdict)], e1);
  }

  lemma {:induction false} FeeTraceIs(e: Env, msgs: seq<Any>, signer: Signer, verdict: SimulateVerdict)
    requires FeeFor(e, msgs, signer, verdict).Returned?
    ensures Steps(e, FeeTrace(e, msgs, signer, verdict)) == Returned(FeeFor(e, msgs, signer, verdict).value.0)
  {
    hide Step, SimulateTx, SimulateTrace;
    if signer.feeSetting.Auto? { SimulateTraceIs(e, msgs, signer, verdict); }
  }

  lemma {:induction false} InBlockTraceIs(e: Env, msgs: seq<Any>, signer: Signer, v: Verdicts)
    requires ExecuteInBlock(e, msgs, signer, v).Returned?
    ensures Steps(e, InBlockTrace(e, msgs, signer, v)) == Returned(ExecuteInBlock(e, msgs, signer, v).value.0)
  {
    hide Step, Steps, FeeFor, FeeTrace, CreateSignedTx, SignerReads;
    var (e1, fee) := FeeFor(e, msgs, signer, v.simulated).value;
    var first := FeeTrace(e, msgs, signer, v.simulated);
    FeeTraceIs(e, msgs, signer, v.simulated);
    if fee.Err? {
      assert first + [] == first;
    } else {
      var asked := SignerReads(signer.address);
      var execute := Execute(CreateSignedTx(e1, msgs, signer, fee.value).value, v.delivered);
      var e2 := ExecuteInBlock(e, msgs, signer, v).value.0;
      ReadsChangeNothing(e1, msgs, signer, fee.value);
      One(e1, execute, e2);
      Join(e1, asked, e1, [execute], e2);
      Join(e, first, e1, asked + [execute], e2);
    }
  }

  lemma {:induction false} ExecuteTraceIs(e: Env, msgs: seq<Any>, signer: Signer, v: Verdicts)
    requires ExecuteMultipleRaw(e, msgs, signer, v).Returned?
    ensures Steps(e, ExecuteTrace(e, msgs, signer, v)) == Returned(ExecuteMultipleRaw(e, msgs, signer, v).value.0)
  {
    hide Step, Steps, ExecuteInBlock, InBlockTrace;
    var begin, end := Begin(1, v.begin), End(v.end);
    var e1 := Step(e, begin).value.0;
    var e2 := ExecuteInBlock(e1, msgs, signer, v).value.0;
    var e3 := Step(e2, end).value.0;
    InBlockTraceIs(e1, msgs, signer, v);
    One(e, begin, e1);
    One(e2, end, e3);
    Join(e, [begin], e1, InBlockTrace(e1, msgs, signer, v), e2);
    Join(e, [begin] + InBlockTrace(e1, msgs, signer, v), e2, [end], e3);
  }

  lemma {:induction false} InitTraceIs(e: Env, n: NewAccount)
    requires InitAccount(e, n).Returned?
    ensures Steps(e, InitTrace(n)) == Returned(InitAccount(e, n).value.0)
  {
    hide Step, Steps;
    var e1 := Step(e, Begin(1, n.begin)).value.0;
    var fund := Fund(n.key, Coins.StableSort(n.coins), n.grant);
    var e2 := Step(e1, fund).value.0;
    Three(e, Begin(1, n.begin), e1, fund, e2, End(n.end), Step(e2, End(n.end)).value.0);
  }

  lemma {:induction false} InitManyTraceIs(e: Env, ns: seq<NewAccount>)
    requires InitAccounts(e, ns).Returned?
    ensures Steps(e, InitManyTrace(ns)) == Returned(InitAccounts(e, ns).value.0)
    decreases |ns|
  {
    hide Step, InitAccount, InitTrace;
    if ns != [] {
      var e1 := InitAccount(e, ns[0]).value.0;
      InitTraceIs(e, ns[0]);
      InitNames(e, ns[0]);
      if ns[0].keyError.Some? {
        assert InitTrace(ns[0]) + [] == InitTrace(ns[0]);
      } else {
        InitManyTraceIs(e1, ns[1..]);
        Join(e, InitTrace(ns[0]), e1, InitManyTrace(ns[1..]), InitAccounts(e1, ns[1..]).value.0);
      }
    }
  }

  lemma {:induction false} SetParamTraceIs(e: Env, w: ParamWrite)
    requires SetParamSet(e, w).Returned?
    ensures Steps(e, [Begin(1, w.begin), WriteCall(w), End(w.end)]) == Returned(SetParamSet(e, w).value.0)
  {
    hide Step, Steps;
    var e1 := Step(e, Begin(1, w.begin)).value.0;
    var e2 := Step(e1, WriteCall(w)).value.0;
    Three(e, Begin(1, w.begin), e1, WriteCall(w), e2, End(w.end), Step(e2, End(w.end)).value.0);
  }

  lemma GetParamReads(e: Env, subspace: string, typeUrl: string)
    requires GetParamSet(e, subspace, typeUrl).Returned?
    ensures var r := Step(e, GetParams(subspace, typeUrl)); r.Returned? && r.value.0 == e
  {
    hide Frames.GoString, Frames.Received, NoSubspace, NoParamSet;
  }

  lemma OtherReads(e: Env, c: Call)
    requires c.Query? || c.BlockTime? || c.BlockHeight?
    ensures Step(e, c).Returned? && Step(e, c).value.0 == e
  {
    hide Apply;
  }

  lemma {:induction false} ReadTraceIs(e: Env, c: ApiCall)
    requires Perform(e, c).Returned? && (c.GetParam? || c.GetTime? || c.GetHeight? || c.Ask?)
    ensures Steps(e, Trace(e, c)) == Returned(e) && Perform(e, c) == Returned(e)
  {
    hide Steps, Step, GetParamSet, RunQuery;
    var call := Trace(e, c)[0];
    if c.GetParam? {
      GetParamReads(e, c.subspace, c.typeUrl);
    } else {
      OtherReads(e, call);
    }
    One(e, call, e);
  }

  /** Every operation that returns is the run of its trace. */
  lemma {:induction false} TraceIs(e: Env, c: ApiCall)
    requires Perform(e, c).Returned?
    ensures Steps(e, Trace(e, c)) == Perform(e, c)
  {
    hide Step, InitAccount, InitAccounts, SetParamSet, SimulateTx, ExecuteMultipleRaw, ExecuteTrace, SimulateTrace,
         InitTrace, InitManyTrace, Messages.Collect;
    match c
    case Increase(_, _, _) =>
    case Init(n) => InitTraceIs(e, n);
    case InitMany(ns) => InitManyTraceIs(e, ns);
    case SetParam(w) => SetParamTraceIs(e, w);
    case SimulateOnly(msgs, signer, verdict) => SimulateTraceIs(e, msgs, signer, verdict);
    case ExecuteMsgs(batch, signer, v) =>
      var msgs := Messages.Collect(batch).value;
      if msgs.Ok? { ExecuteTraceIs(e, msgs.value, signer, v); }
    case _ => ReadTraceIs(e, c);
  }

  /** A whole run of operations is the run of the export calls they make. */
  lemma {:induction false} RunTraceIs(e: Env, calls: seq<ApiCall>)
    requires Run(e, calls).Returned?
    ensures Steps(e, RunTrace(e, calls)) == Run(e, calls)
    decreases |calls|
  {
    hide Perform, Trace;
    if calls != [] {
      var e1 := Perform(e, calls[0]).value;
      TraceIs(e, calls[0]);
      RunTraceIs(e1, calls[1..]);
      Join(e, Trace(e, calls[0]), e1, RunTrace(e1, calls[1..]), Run(e1, calls[1..]).value);
    }
  }
}
