/** Parameters set through `set_param_set` stay readable until something writes their subspace. */
module ParamRuns {
  import opened Outcomes
  import opened Chain
  import opened Environment
  import opened Operations
  import opened Runs
  import opened Executions
  import opened States
  import opened Traces
  import Fee
  import Frames
  import Messages
  import Utf8

  /** The export call does not write parameters of `s`. */
  predicate SparesCall(c: Call, s: string) {
    match c
    case Begin(_, effect) => s !in effect.params
    case End(effect) => s !in effect.params
    case Fund(_, _, grant) => grant.Refused? || s !in grant.effect.params
    case Execute(_, delivered) => delivered.Rejected? || s !in delivered.effect.params
    case SetParams(subspace, _, _, _) => subspace != s
    case _ => true
  }

  predicate SparesAccount(n: NewAccount, s: string) {
    s !in n.begin.params && (n.grant.Refused? || s !in n.grant.effect.params) && s !in n.end.params
  }

  predicate SparesDelivery(v: Verdicts, s: string) {
    v.delivered.Rejected? || s !in v.delivered.effect.params
  }

  /** The operation does not write parameters of `s`. */
  predicate Spares(c: ApiCall, s: string) {
    match c
    case Increase(_, begin, end) => s !in begin.params && s !in end.params
    case Init(n) => SparesAccount(n, s)
    case InitMany(ns) => forall i | 0 <= i < |ns| :: SparesAccount(ns[i], s)
    case SetParam(w) => w.subspace != s && s !in w.begin.params && s !in w.end.params
    case ExecuteMsgs(_, _, v) =>
      s !in v.begin.params && s !in v.end.params && SparesDelivery(v, s)
    case _ => true
  }

  predicate AllSpare(calls: seq<Call>, s: string) {
    forall i | 0 <= i < |calls| :: SparesCall(calls[i], s)
  }

  lemma StepSpares(e: Env, c: Call, s: string)
    requires Step(e, c).Returned? && SparesCall(c, s) && s in e.app.Current().params
    ensures var params := Step(e, c).value.0.app.Current().params;
      s in params && params[s] == e.app.Current().params[s]
  {
  }

  lemma {:induction false} StepsSpare(e: Env, calls: seq<Call>, s: string)
    requires Steps(e, calls).Returned? && AllSpare(calls, s) && s in e.app.Current().params
    ensures var params := Steps(e, calls).value.app.Current().params;
      s in params && params[s] == e.app.Current().params[s]
    decreases |calls|
  {
    hide Step, SparesCall;
    if calls != [] {
      StepSpares(e, calls[0], s);
      StepsSpare(Step(e, calls[0]).value.0, calls[1..], s);
    }
  }

  // ---------- the calls of an operation spare what the operation spares ----------

  lemma InitTraceSpares(n: NewAccount, s: string)
    requires SparesAccount(n, s)
    ensures AllSpare(InitTrace(n), s)
  {
  }

  lemma {:induction false} InitManyTraceSpares(ns: seq<NewAccount>, s: string)
    requires forall i | 0 <= i < |ns| :: SparesAccount(ns[i], s)
    ensures AllSpare(InitManyTrace(ns), s)
  {
    hide InitTrace, SparesCall;
    if ns != [] {
      InitTraceSpares(ns[0], s);
      InitManyTraceSpares(ns[1..], s);
    }
  }

  lemma InBlockTraceSpares(e: Env, msgs: seq<Any>, signer: Signer, v: Verdicts, s: string)
    requires ExecuteInBlock(e, msgs, signer, v).Returned? && SparesDelivery(v, s)
    ensures AllSpare(InBlockTrace(e, msgs, signer, v), s)
  {
    hide Step, FeeFor, CreateSignedTx;
  }

  lemma ExecuteTraceSpares(e: Env, msgs: seq<Any>, signer: Signer, v: Verdicts, s: string)
    requires ExecuteMultipleRaw(e, msgs, signer, v).Returned?
    requires s !in v.begin.params && s !in v.end.params && SparesDelivery(v, s)
    ensures AllSpare(ExecuteTrace(e, msgs, signer, v), s)
  {
    hide Step, ExecuteInBlock, InBlockTrace;
    InBlockTraceSpares(Step(e, Begin(1, v.begin)).value.0, msgs, signer, v, s);
  }

  lemma TraceSpares(e: Env, c: ApiCall, s: string)
    requires Perform(e, c).Returned? && Spares(c, s)
    ensures AllSpare(Trace(e, c), s)
  {
    hide Step, CreateSignedTx, InitAccount, InitAccounts, ExecuteMultipleRaw, InitTrace, InitManyTrace,
         ExecuteTrace, Messages.Collect;
    match c
    case Init(n) => InitTraceSpares(n, s);
    case InitMany(ns) => InitManyTraceSpares(ns, s);
    case ExecuteMsgs(batch, signer, v) =>
      var msgs := Messages.Collect(batch).value;
      if msgs.Ok? { ExecuteTraceSpares(e, msgs.value, signer, v, s); }
    case _ =>
  }

  lemma {:induction false} RunSpares(e: Env, calls: seq<ApiCall>, s: string)
    requires Run(e, calls).Returned? && s in e.app.Current().params
    requires forall i | 0 <= i < |calls| :: Spares(calls[i], s)
    ensures var params := Run(e, calls).value.app.Current().params;
      s in params && params[s] == e.app.Current().params[s]
    decreases |calls|
  {
    hide Perform, Trace, Spares, Steps, AllSpare;
    if calls != [] {
      TraceIs(e, calls[0]);
      TraceSpares(e, calls[0], s);
      StepsSpare(e, Trace(e, calls[0]), s);
      RunSpares(Perform(e, calls[0]).value, calls[1..], s);
    }
  }

  // ---------- set, run, get ----------

  /** Parameters written in a block whose end spares them. */
  lemma WrittenInBlock(s: State, front: seq<Effect>, write: Effect, end: Effect, fixed: map<Address, Account>,
                       s': State, p: string)
    requires Became(s, front + [write] + [end], fixed, s') && p in write.params && p !in end.params
    ensures p in s'.params && s'.params[p] == write.params[p]
  {
    hide StoreAfter, AccountsAfter, LastParams;
    OneMoreWrites(front, write, p);
    OneMoreWrites(front + [write], end, p);
    assert Entry(s'.params, p).Some?;
  }

  /** A value set successfully is what a later get of its type returns, after any run of operations
      that spare its subspace. */
  lemma {:induction false} SetThenGet(e: Env, w: ParamWrite, e1: Env, calls: seq<ApiCall>, e2: Env, genesis: State)
    requires Inv(e, genesis) && Closed(e)
    requires SetParamSet(e, w) == Returned((e1, Ok(()))) && w.subspace !in w.end.params
    requires Run(e1, calls) == Returned(e2)
    requires forall i | 0 <= i < |calls| :: Spares(calls[i], w.subspace)
    ensures w.any.Ok? && w.decoded.Ok?
    ensures GetParamSet(e2, w.subspace, w.any.value.typeUrl) == Returned(Ok(w.decoded.value))
  {
    hide SetParamSet, Inv, Closed, Run, Spares, GetParamSet, Became, Utf8.FromString;
    SetParamExactly(e, w);
    SetParamAdvances(e, w, genesis);
    TypesCross(e, genesis);
    var pset := ParamSet(w.any.value.typeUrl, w.decoded.value);
    var write := Effect(map[], map[w.subspace := pset], map[]);
    assert [w.begin] + [write] + [w.end] == [w.begin, write, w.end];
    WrittenInBlock(e.app.committed, [w.begin], write, w.end, map[], e1.app.committed, w.subspace);
    GetAfterRun(e1, calls, e2, w.subspace, pset, genesis);
  }

  /** The execution gets as far as the delivery. */
  predicate Delivers(e: Env, signer: Signer, v: Verdicts) {
    v.delivered.Accepted? && (signer.feeSetting.Auto? ==> SimulationSucceeds(e, signer.address, v.simulated))
  }

  /** An execution that delivers commits what the messages wrote, with the signer one sequence on. */
  lemma DeliveryCommits(e: Env, msgs: seq<Any>, signer: Signer, v: Verdicts) returns (fixed: map<Address, Account>)
    requires Closed(e) && Delivers(e, signer, v) && ExecuteMultipleRaw(e, msgs, signer, v).Returned?
    ensures SignerAccount(e, signer.address, v.begin).Some?
    ensures var account := SignerAccount(e, signer.address, v.begin).value;
      fixed == map[signer.address := Account(account.number, account.sequence + 1)]
    ensures var e' := ExecuteMultipleRaw(e, msgs, signer, v).value.0;
      e'.app.open.None? && Became(e.app.committed, [v.begin] + [v.delivered.effect] + [v.end], fixed, e'.app.committed)
  {
    hide ExecuteMultipleRaw, Closed, Became, SignerAccount, CourseOf, Utf8.NulFree;
    ExecutionExactly(e, msgs, signer, v);
    var account := SignerAccount(e, signer.address, v.begin).value;
    DeliveringCourse(e, account, msgs, signer, v);
    fixed := map[signer.address := Account(account.number, account.sequence + 1)];
  }

  lemma DeliveringCourse(e: Env, account: Account, msgs: seq<Any>, signer: Signer, v: Verdicts)
    requires Delivers(e, signer, v)
    ensures var c := CourseOf(account, SimulationSucceeds(e, signer.address, v.simulated), msgs, signer, v);
      c.Returned? && c.value.writes == [v.delivered.effect] &&
      c.value.fixed == map[signer.address := Account(account.number, account.sequence + 1)]
  {
    hide Fee.GasLimit, Fee.FeeAmount, Frames.Printable;
  }

  /** Parameters that delivered messages write are what a later get returns, after any run of
      operations that spare their subspace. */
  lemma {:induction false} ExecuteThenGet(e: Env, msgs: seq<Any>, signer: Signer, v: Verdicts, e1: Env,
                                          calls: seq<ApiCall>, e2: Env, s: string, genesis: State)
    requires Inv(e, genesis) && Closed(e) && s in e.app.subspaces && Utf8.NulFree(s)
    requires Delivers(e, signer, v) && s in v.delivered.effect.params && s !in v.end.params
    requires v.delivered.effect.params[s].typeUrl in e.types
    requires ExecuteMultipleRaw(e, msgs, signer, v).Returned? && e1 == ExecuteMultipleRaw(e, msgs, signer, v).value.0
    requires Run(e1, calls) == Returned(e2)
    requires forall i | 0 <= i < |calls| :: Spares(calls[i], s)
    ensures var pset := v.delivered.effect.params[s]; GetParamSet(e2, s, pset.typeUrl) == Returned(Ok(pset.fields))
  {
    hide ExecuteMultipleRaw, Inv, Closed, Run, Spares, GetParamSet, Became, Utf8.NulFree;
    var fixed := DeliveryCommits(e, msgs, signer, v);
    ExecuteAdvances(e, msgs, signer, v, genesis);
    TypesCross(e, genesis);
    WrittenInBlock(e.app.committed, [v.begin], v.delivered.effect, v.end, fixed, e1.app.committed, s);
    GetAfterRun(e1, calls, e2, s, v.delivered.effect.params[s], genesis);
  }

  lemma TypesCross(e: Env, genesis: State)
    requires Inv(e, genesis)
    ensures forall t | t in e.types :: Utf8.NulFree(t)
  {
    hide Closed, Opened, Consecutive;
  }

  lemma {:induction false} GetAfterRun(e1: Env, calls: seq<ApiCall>, e2: Env, s: string, pset: ParamSet, genesis: State)
    requires Inv(e1, genesis) && Closed(e1) && Run(e1, calls) == Returned(e2)
    requires s in e1.app.subspaces && pset.typeUrl in e1.types
    requires e1.app.open.None? && s in e1.app.committed.params && e1.app.committed.params[s] == pset
    requires forall i | 0 <= i < |calls| :: Spares(calls[i], s)
    requires Utf8.NulFree(s) && Utf8.NulFree(pset.typeUrl)
    ensures GetParamSet(e2, s, pset.typeUrl) == Returned(Ok(pset.fields))
  {
    hide Inv, Closed, Run, Spares, GetParamSet;
    RunStays(e1, calls, genesis);
    RunSpares(e1, calls, s);
    GetFrom(e2, s, pset);
  }

  lemma {:induction false} RunStays(e: Env, calls: seq<ApiCall>, genesis: State)
    requires Inv(e, genesis) && Closed(e) && Run(e, calls).Returned?
    ensures var e' := Run(e, calls).value;
      e'.types == e.types && e'.app.subspaces == e.app.subspaces
  {
    hide Inv, Closed, Run;
    RunAdvances(e, calls, genesis);
  }

  /** Every `get_param_set`: names with a NUL panic, then the error cases in their order, then the
      stored value, which panics on a value of another type. */
  lemma {:induction false} GetParamExactly(e: Env, subspace: string, typeUrl: string)
    ensures GetParamSet(e, subspace, typeUrl) ==
            var params := e.app.Current().params;
            if !Utf8.NulFree(subspace) || !Utf8.NulFree(typeUrl) then Panicked
            else if subspace !in e.app.subspaces then
              Returned(Err(ExecuteError(Utf8.FromString("No subspace found for `" + subspace + "`"))))
            else if typeUrl !in e.types then
              Returned(Err(ExecuteError(Utf8.FromString("No param set found for `" + typeUrl + "`"))))
            else if subspace in params && params[subspace].typeUrl == typeUrl then Returned(Ok(params[subspace].fields))
            else Panicked
  {
    hide Frames.Received, Frames.GoString, Frames.Printable, Utf8.NulFree, Utf8.FromString;
    Frames.GoStringIs(subspace);
    Frames.GoStringIs(typeUrl);
    TextsHoldNames(subspace);
    TextsHoldNames(typeUrl);
    if Step(e, GetParams(subspace, typeUrl)).Returned? {
      Frames.ReceivedIs(Step(e, GetParams(subspace, typeUrl)).value.1.reply);
    }
  }

  lemma GetFrom(e: Env, s: string, pset: ParamSet)
    requires s in e.app.subspaces && pset.typeUrl in e.types && Utf8.NulFree(s) && Utf8.NulFree(pset.typeUrl)
    requires s in e.app.Current().params && e.app.Current().params[s] == pset
    ensures GetParamSet(e, s, pset.typeUrl) == Returned(Ok(pset.fields))
  {
    hide GetParamSet, Utf8.NulFree;
    GetParamExactly(e, s, pset.typeUrl);
  }
}
