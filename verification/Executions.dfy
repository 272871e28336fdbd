/** What one execution does to the log, the sequences and the fee. */
module Executions {
  import opened Outcomes
  import opened Fee
  import opened Chain
  import opened Environment
  import opened Operations
  import opened Runs
  import opened States
  import Coins
  import Frames
  import Utf8

  /** The events of one block at height `h` around `body`. */
  function Block(h: int, body: seq<AppEvent>): seq<AppEvent> {
    [Finalized(h)] + body + [Finalized(h), Committed(h)]
  }

  /** The simulation the fee needs succeeds: the signer's account was committed before this block
      and the messages run. */
  predicate SimulationSucceeds(e: Env, a: Address, verdict: SimulateVerdict) {
    a in e.app.committed.accounts && verdict.gasUsed.Some?
  }

  /** The block between `e` and `e'` logged `body` and committed `effects`, with the accounts in `fixed`
      as given there. */
  ghost predicate OneBlock(e: Env, e': Env, body: seq<AppEvent>, effects: seq<Effect>, fixed: map<Address, Account>) {
    && e'.app.log == e.app.log + Block(e.ctx.height + 1, body) && e'.app.open.None?
    && Became(e.app.committed, effects, fixed, e'.app.committed)
  }

  /** The same from an environment whose block is already open over the committed state `base`. */
  ghost predicate RestOfBlock(e: Env, e': Env, body: seq<AppEvent>, base: State, effects: seq<Effect>,
                              fixed: map<Address, Account>)
  {
    && e'.app.log == e.app.log + body + [Finalized(e.ctx.height), Committed(e.ctx.height)] && e'.app.open.None?
    && Became(base, effects, fixed, e'.app.committed)
  }

  /** What an execution amounts to, from the signer's account and the verdicts: no return, or the
      events of its block, what the delivered messages write, the accounts it sets, and the result. */
  datatype Course = Course(body: seq<AppEvent>, writes: seq<Effect>, fixed: map<Address, Account>,
                           result: Result<bytes, RunnerError>)

  /** The transaction a signer with this account builds. */
  function Signing(a: Address, account: Account, msgs: seq<Any>, fee: TxFee): Tx {
    Tx(a, account.sequence, account.number, fee, msgs)
  }

  function Delivery(tx: Tx, before: seq<AppEvent>, verdict: DeliverVerdict): Outcome<Course> {
    if verdict.Rejected? then Panicked
    else
      Returned(Course(before + [Delivered(tx)], [verdict.effect],
                      map[tx.signer := Account(tx.accountNumber, tx.sequence + 1)], verdict.response.value))
  }

  /** A failed simulation whose error text Rust cannot read is a panic. */
  function CourseOf(account: Account, simulates: bool, msgs: seq<Any>, signer: Signer, v: Verdicts): Outcome<Course>
    requires simulates ==> v.simulated.gasUsed.Some?
  {
    var a := signer.address;
    match signer.feeSetting
    case Custom(amount, gasLimit) => Delivery(Signing(a, account, msgs, TxFee(amount, gasLimit)), [], v.delivered)
    case Auto(gasPrice, gasAdjustment) =>
      var trial := Signing(a, account, msgs, TxFee(MIN_GAS_PRICE, 0));
      if !simulates then
        if !Frames.Printable(v.simulated.reason) then Panicked
        else Returned(Course([Simulated(trial)], [], map[], Err(ExecuteError(v.simulated.reason))))
      else
        var gasLimit := GasLimit(v.simulated.gasUsed.value.value, gasAdjustment);
        Delivery(trial.(fee := TxFee(FeeAmount(gasLimit, gasPrice), gasLimit)), [Simulated(trial)], v.delivered)
  }

  /** The account state a signer's transactions are built from: that of the opened block. */
  function SignerAccount(e: Env, a: Address, begin: Effect): Option<Account> {
    if a in e.app.committed.accounts then Some(e.app.committed.accounts[a])
    else if a in begin.created then Some(Account(begin.created[a], 0))
    else None
  }

  /** The environment once the block of height `e.ctx.height + 1` is open. */
  function Begun(e: Env, begin: Effect): Env {
    Env(AppState(e.app.committed, Some(Apply(e.app.committed, begin)), e.app.lastHeight, e.app.subspaces,
                 e.app.log + [Finalized(e.ctx.height + 1)]),
        Ctx(e.ctx.height + 1, e.ctx.time + SECOND), e.types)
  }

  lemma BeginIs(e: Env, begin: Effect)
    requires Closed(e)
    ensures Step(e, Begin(1, begin)) == Returned((Begun(e, begin), Ret.Done))
  {
    hide Apply, PhaseOf;
  }

  /** The signer's account in the block just opened. */
  lemma AccountOnceBegun(e: Env, a: Address, begin: Effect)
    ensures var accounts, account := Apply(e.app.committed, begin).accounts, SignerAccount(e, a, begin);
      && (a in accounts <==> account.Some?)
      && (account.Some? ==> accounts[a] == account.value)
      && (a in e.app.committed.accounts ==> a in accounts && accounts[a] == e.app.committed.accounts[a])
  {
  }

  lemma UnknownSigner(e: Env, msgs: seq<Any>, signer: Signer, v: Verdicts)
    requires e.app.open.Some? && (signer.address !in e.app.open.value.accounts || !Utf8.NulFree(signer.address))
    ensures ExecuteInBlock(e, msgs, signer, v).Panicked?
  {
    hide GasLimit, FeeAmount, Apply, Frames.Received, Frames.GoString, Utf8.NulFree;
    Frames.GoStringIs(signer.address);
  }

  /** Every execution on a closed environment. The simulated and the delivered transaction are the
      same but for the fee; when the account was committed before, their sequence is the committed
      one that the simulation checks; a Custom fee arrives unchanged and an Auto fee is computed
      from the simulated gas. A delivery commits everything its messages wrote and the next sequence of
      the signer; a failed simulation commits what the block's hooks wrote alone and, when its error
      text cannot be read, never returns. The whole takes one block. */
  lemma ExecutionExactly(e: Env, msgs: seq<Any>, signer: Signer, v: Verdicts)
    requires Closed(e)
    ensures
      var account, r := SignerAccount(e, signer.address, v.begin), ExecuteMultipleRaw(e, msgs, signer, v);
      if account.None? || !Utf8.NulFree(signer.address) then r.Panicked?
      else
        match CourseOf(account.value, SimulationSucceeds(e, signer.address, v.simulated), msgs, signer, v)
        case Panicked => r.Panicked?
        case Returned(c) =>
          r.Returned? && r.value.1 == c.result &&
          OneBlock(e, r.value.0, c.body, [v.begin] + c.writes + [v.end], c.fixed)
  {
    hide Step, ExecuteInBlock, CourseOf, PhaseOf, Apply, SignerAccount, Utf8.NulFree, Became;
    var a := signer.address;
    var e1 := Begun(e, v.begin);
    BeginIs(e, v.begin);
    AccountOnceBegun(e, a, v.begin);
    if SignerAccount(e, a, v.begin).None? || !Utf8.NulFree(a) {
      UnknownSigner(e1, msgs, signer, v);
      ExecutionFrom(e, e1, msgs, signer, v);
    } else {
      AfterNothing(e.app.committed);
      Applied(e.app.committed, [], map[], e.app.committed, v.begin);
      assert [] + [v.begin] == [v.begin];
      InBlockExactly(e1, msgs, signer, v, e.app.committed);
      var c := CourseOf(SignerAccount(e, a, v.begin).value, SimulationSucceeds(e, a, v.simulated), msgs, signer, v);
      AroundBlock(e, e1, v.begin, v.end, e1 => ExecuteInBlock(e1, msgs, signer, v), c);
    }
  }

  /** The block around any execution whose course is known. */
  lemma AroundBlock(e: Env, e1: Env, begin: Effect, end: Effect, execution: Env -> Done<Result<bytes, RunnerError>>,
                    c: Outcome<Course>)
    requires Closed(e) && e1 == Begun(e, begin)
    requires var inside := execution(e1);
      if c.Panicked? then inside.Panicked?
      else
        inside.Returned? && inside.value.1 == c.value.result &&
        var r := Step(inside.value.0, End(end));
        r.Returned? &&
        RestOfBlock(e1, r.value.0, c.value.body, e.app.committed, [begin] + c.value.writes + [end], c.value.fixed)
    ensures var r := RunBlock(e, begin, end, execution);
      if c.Panicked? then r.Panicked?
      else
        r.Returned? && r.value.1 == c.value.result &&
        OneBlock(e, r.value.0, c.value.body, [begin] + c.value.writes + [end], c.value.fixed)
  {
    hide Step, PhaseOf, Apply, Became;
    BeginIs(e, begin);
    RunBlockFrom(e, e1, begin, end, execution);
    if c.Returned? {
      BlockAround(e.app.log, e.ctx.height + 1, c.value.body);
    }
  }

  lemma BlockAround(log: seq<AppEvent>, h: int, body: seq<AppEvent>)
    ensures log + [Finalized(h)] + body + [Finalized(h), Committed(h)] == log + Block(h, body)
  {
  }

  /** The execution inside an open block, and the End that follows it. */
  lemma InBlockExactly(e: Env, msgs: seq<Any>, signer: Signer, v: Verdicts, base: State)
    requires e.app.open.Some? && signer.address in e.app.open.value.accounts && e.ctx.height == e.app.lastHeight + 1
    requires Utf8.NulFree(signer.address) && Became(base, [v.begin], map[], e.app.open.value)
    requires signer.address in e.app.committed.accounts ==>
      e.app.committed.accounts[signer.address] == e.app.open.value.accounts[signer.address]
    ensures
      var a, inside := signer.address, ExecuteInBlock(e, msgs, signer, v);
      match CourseOf(e.app.open.value.accounts[a], SimulationSucceeds(e, a, v.simulated), msgs, signer, v)
      case Panicked => inside.Panicked?
      case Returned(c) =>
        inside.Returned? && inside.value.1 == c.result &&
        var r := Step(inside.value.0, End(v.end));
        r.Returned? && RestOfBlock(e, r.value.0, c.body, base, [v.begin] + c.writes + [v.end], c.fixed)
  {
    hide Step, CreateSignedTx, GasLimit, FeeAmount, Apply, Coins.CustomFeeAmount, Frames.Received, Frames.Printable, Became;
    match signer.feeSetting
    case Custom(amount, gasLimit) =>
      Coins.CustomFeeAmountUnchanged(amount);
      DeliveryExactly(e, msgs, signer, TxFee(amount, gasLimit), v, base);
    case Auto(gasPrice, gasAdjustment) =>
      FeeExactly(e, msgs, signer, v.simulated);
      if FeeFor(e, msgs, signer, v.simulated).Returned? {
        var (e2, fee) := FeeFor(e, msgs, signer, v.simulated).value;
        if fee.Ok? {
          DeliveryExactly(e2, msgs, signer, fee.value, v, base);
        } else {
          assert [v.begin] + [] == [v.begin];
          EndExactly(e2, v.end, base, [v.begin], map[]);
        }
      }
  }

  lemma FeeExactly(e: Env, msgs: seq<Any>, signer: Signer, verdict: SimulateVerdict)
    requires e.app.open.Some? && signer.address in e.app.open.value.accounts && signer.feeSetting.Auto?
    requires Utf8.NulFree(signer.address)
    requires signer.address in e.app.committed.accounts ==>
      e.app.committed.accounts[signer.address] == e.app.open.value.accounts[signer.address]
    ensures FeeFor(e, msgs, signer, verdict).Returned? <==>
            SimulationSucceeds(e, signer.address, verdict) || Frames.Printable(verdict.reason)
    ensures FeeFor(e, msgs, signer, verdict).Returned? ==>
      var (e', fee) := FeeFor(e, msgs, signer, verdict).value;
      && var trial := Signing(signer.address, e.app.open.value.accounts[signer.address], msgs, SIMULATION_FEE);
      && e' == e.(app := e.app.(log := e.app.log + [Simulated(trial)]))
      && fee == if SimulationSucceeds(e, signer.address, verdict)
                then Ok(AutoFee(verdict.gasUsed.value.value, signer.feeSetting.gasPrice, signer.feeSetting.gasAdjustment))
                else Err(ExecuteError(verdict.reason))
  {
    hide GasLimit, FeeAmount, Apply, Frames.Received, Frames.GoString, Frames.Printable, Utf8.NulFree;
    Frames.GoStringIs(signer.address);
    var tx := Signing(signer.address, e.app.open.value.accounts[signer.address], msgs, SIMULATION_FEE);
    Frames.ReceivedIs(Step(e, Simulate(tx, verdict)).value.1.reply);
  }

  /** Building, delivering and ending, from an open block whose fee is known. */
  lemma DeliveryExactly(e: Env, msgs: seq<Any>, signer: Signer, fee: TxFee, v: Verdicts, base: State)
    requires e.app.open.Some? && signer.address in e.app.open.value.accounts && e.ctx.height == e.app.lastHeight + 1
    requires Utf8.NulFree(signer.address) && Became(base, [v.begin], map[], e.app.open.value)
    ensures var a, account := signer.address, e.app.open.value.accounts[signer.address];
      && CreateSignedTx(e, msgs, signer, fee) == Returned(Signing(a, account, msgs, fee))
      && var r := Step(e, Execute(CreateSignedTx(e, msgs, signer, fee).value, v.delivered));
      if v.delivered.Rejected? then r.Panicked?
      else
        && r.Returned? && r.value.1 == Reply(Ok(v.delivered.response.bytes))
        && Frames.Received(r.value.1.reply) == Returned(Ok(v.delivered.response.bytes))
        && var r' := Step(r.value.0, End(v.end));
        r'.Returned? &&
        RestOfBlock(e, r'.value.0, [Delivered(Signing(a, account, msgs, fee))], base,
                    [v.begin] + [v.delivered.effect] + [v.end], map[a := Account(account.number, account.sequence + 1)])
  {
    hide Apply, Frames.Received, Frames.GoString, Utf8.NulFree, Became;
    Frames.GoStringIs(signer.address);
    if v.delivered.Accepted? {
      Frames.ReceivedIs(Ok(v.delivered.response.bytes));
      var tx := CreateSignedTx(e, msgs, signer, fee).value;
      DeliveredState(e.app, tx, v.delivered, base, [v.begin]);
      EndExactly(Step(e, Execute(tx, v.delivered)).value.0, v.end, base, [v.begin] + [v.delivered.effect],
                 map[tx.signer := Account(tx.accountNumber, tx.sequence + 1)]);
    }
  }

  /** A delivery leaves in the open block what its messages wrote and the signer's next sequence. */
  lemma DeliveredState(app: AppState, tx: Tx, verdict: DeliverVerdict, base: State, effects: seq<Effect>)
    requires app.SimDeliver(tx, verdict).Some? && Became(base, effects, map[], app.open.value)
    ensures app.SimDeliver(tx, verdict).value.open.Some?
    ensures Became(base, effects + [verdict.effect], map[tx.signer := Account(tx.accountNumber, tx.sequence + 1)],
                  app.SimDeliver(tx, verdict).value.open.value)
  {
    hide Apply, Became;
    var account := Account(tx.accountNumber, tx.sequence + 1);
    var checked := app.open.value.(accounts := app.open.value.accounts[tx.signer := account]);
    AccountSet(base, effects, app.open.value, tx.signer, account);
    Applied(base, effects, map[tx.signer := account], checked, verdict.effect);
  }

  lemma EndExactly(e: Env, end: Effect, base: State, effects: seq<Effect>, fixed: map<Address, Account>)
    requires e.app.open.Some? && e.ctx.height == e.app.lastHeight + 1 && Became(base, effects, fixed, e.app.open.value)
    ensures Step(e, End(end)).Returned?
    ensures RestOfBlock(e, Step(e, End(end)).value.0, [], base, effects + [end], fixed)
  {
    hide Apply, Became;
    Applied(base, effects, fixed, e.app.open.value, end);
  }

  // ---------- the operations that take no block ----------

  /** Every `simulate_tx`, inside a block or not: the transaction is built from the account the context
      shows and checked against the committed one, so it fails once the two disagree on the sequence.
      Nothing but the call itself is recorded. */
  lemma SimulationExactly(e: Env, msgs: seq<Any>, signer: Signer, verdict: SimulateVerdict)
    ensures
      var a, accounts, committed := signer.address, e.app.Current().accounts, e.app.committed.accounts;
      var r := SimulateTx(e, msgs, signer, verdict);
      if !Utf8.NulFree(a) || a !in accounts then r.Panicked?
      else
        var tx := Tx(a, accounts[a].sequence, accounts[a].number, TxFee(2500, 0), msgs);
        var e' := e.(app := e.app.(log := e.app.log + [Simulated(tx)]));
        if a in committed && committed[a].sequence == accounts[a].sequence && verdict.gasUsed.Some?
        then r == Returned((e', Ok(verdict.gasUsed.value.value)))
        else if Frames.Printable(verdict.reason) then r == Returned((e', Err(ExecuteError(verdict.reason))))
        else r.Panicked?
  {
    hide Frames.Received, Frames.GoString, Frames.Printable, Utf8.NulFree;
    Frames.GoStringIs(signer.address);
    if Utf8.NulFree(signer.address) && signer.address in e.app.Current().accounts {
      var tx := CreateSignedTx(e, msgs, signer, SIMULATION_FEE).value;
      Frames.ReceivedIs(Step(e, Simulate(tx, verdict)).value.1.reply);
    }
  }

  /** Every `query`: the payload the service answers with, or its error, which panics when Rust cannot
      read the text; a path with a NUL panics. */
  lemma QueryExactly(e: Env, path: string, reply: Result<bytes, GoError>)
    ensures RunQuery(e, path, reply) ==
            if !Utf8.NulFree(path) then Panicked
            else
              match reply
              case Ok(data) => Returned(Ok(data))
              case Err(QueryFailed(text)) => if Frames.Printable(text) then Returned(Err(QueryError(text))) else Panicked
              case Err(ExecuteFailed(text)) => if Frames.Printable(text) then Returned(Err(ExecuteError(text))) else Panicked
  {
    hide Frames.Received, Frames.GoString, Frames.Printable, Utf8.NulFree;
    Frames.GoStringIs(path);
    Frames.ReceivedIs(reply);
  }

  // ---------- the other operations that take a block ----------

  /** The end of a block that is open over `base` after `effects`. */
  lemma EndsBlock(e: Env, e1: Env, body: seq<AppEvent>, effects: seq<Effect>, end: Effect)
    requires e1.app.open.Some? && e1.ctx.height == e1.app.lastHeight + 1 == e.ctx.height + 1
    requires e1.app.log == e.app.log + [Finalized(e.ctx.height + 1)] + body
    requires Became(e.app.committed, effects, map[], e1.app.open.value)
    ensures Step(e1, End(end)).Returned? && OneBlock(e, Step(e1, End(end)).value.0, body, effects + [end], map[])
  {
    hide Step, Became;
    EndExactly(e1, end, e.app.committed, effects, map[]);
    assert e1.app.log + [] == e1.app.log;
    BlockAround(e.app.log, e.ctx.height + 1, body);
  }

  lemma FirstEffect(s: State, effect: Effect)
    ensures Became(s, [effect], map[], Apply(s, effect))
  {
    hide Became, Apply;
    AfterNothing(s);
    Applied(s, [], map[], s, effect);
    assert [] + [effect] == [effect];
  }

  lemma SecondEffect(s: State, first: Effect, second: Effect)
    ensures Became(s, [first, second], map[], Apply(Apply(s, first), second))
  {
    hide Became, Apply;
    FirstEffect(s, first);
    Applied(s, [first], map[], Apply(s, first), second);
    assert [first] + [second] == [first, second];
  }

  /** Every `init_account` that returns: its block funds the new account with the coins in sorted
      order and nothing else; what hooks and keepers wrote is committed and the account created, a new
      one at sequence 0; and the private key Go generated is the one Rust gets, unless Rust refuses
      it. */
  lemma InitExactly(e: Env, n: NewAccount)
    requires Closed(e) && InitAccount(e, n).Returned?
    ensures n.grant.Granted?
    ensures var (e', r) := InitAccount(e, n).value;
      var funding := n.grant.effect.(created := n.grant.effect.created[n.key.address := n.grant.number]);
      && OneBlock(e, e', [Funded(n.key.address, Coins.StableSort(n.coins))], [n.begin, funding, n.end], map[])
      && n.key.address in e'.app.committed.accounts
      && (n.key.address !in e.app.committed.accounts && n.key.address !in n.begin.created ==>
            e'.app.committed.accounts[n.key.address] == Account(n.grant.number, 0))
      && r == if n.keyError.Some? then Err(n.keyError.value) else Ok(n.key.bytes)
  {
    hide Step, PhaseOf, Apply, Became, Coins.StableSort, Coins.Fundable, Frames.ReadKey;
    var e1, coins := Begun(e, n.begin), Coins.StableSort(n.coins);
    BeginIs(e, n.begin);
    FundIs(e1, n.key, coins, n.grant);
    InitNames(e, n);
    var e2 := Step(e1, Fund(n.key, coins, n.grant)).value.0;
    var funding := n.grant.effect.(created := n.grant.effect.created[n.key.address := n.grant.number]);
    SecondEffect(e.app.committed, n.begin, funding);
    EndsBlock(e, e2, [Funded(n.key.address, coins)], [n.begin, funding], n.end);
    assert [n.begin, funding] + [n.end] == [n.begin, funding, n.end];
    CreatedSecond(e.app.committed, n.begin, funding, n.end, InitAccount(e, n).value.0.app.committed, n.key.address);
  }

  lemma FundIs(e: Env, key: Key, coins: seq<Coins.Coin>, grant: Grant)
    requires Step(e, Fund(key, coins, grant)).Returned?
    ensures e.app.open.Some? && grant.Granted?
    ensures var funding := grant.effect.(created := grant.effect.created[key.address := grant.number]);
      Step(e, Fund(key, coins, grant)).value.0 ==
      e.(app := e.app.(open := Some(Apply(e.app.open.value, funding)), log := e.app.log + [Funded(key.address, coins)]))
  {
    hide Apply, Coins.Fundable;
  }

  /** An account that the second of three effects creates. */
  lemma CreatedSecond(s: State, first: Effect, second: Effect, third: Effect, s': State, a: Address)
    requires Became(s, [first, second, third], map[], s') && a in second.created
    ensures a in s'.accounts
    ensures a !in s.accounts && a !in first.created ==> s'.accounts[a] == Account(second.created[a], 0)
  {
    hide ParamsAfter, StoreAfter, FirstCreated;
    OneMoreCreates([], first, a);
    OneMoreCreates([first], second, a);
    OneMoreCreates([first, second], third, a);
    assert [] + [first] == [first] && [first] + [second] == [first, second];
    assert [first, second] + [third] == [first, second, third];
    assert Entry(s'.accounts, a).Some?;
  }

  /** What a `set_param_set` that returns comes to, by the first thing that goes wrong: the error and
      a block of its hooks alone, or the write. */
  ghost predicate SetParamOutcome(e: Env, w: ParamWrite, e': Env, r: Result<(), RunnerError>) {
    if w.subspace !in e.app.subspaces then
      r == Err(ExecuteError(Utf8.FromString("No subspace found for `" + w.subspace + "`"))) &&
      OneBlock(e, e', [], [w.begin, w.end], map[])
    else if w.any.Err? then
      r == Err(ExecuteError(w.any.error)) && OneBlock(e, e', [], [w.begin, w.end], map[])
    else if w.any.value.typeUrl !in e.types then
      r == Err(ExecuteError(Utf8.FromString("type " + w.any.value.typeUrl + " is not registered"))) &&
      OneBlock(e, e', [], [w.begin, w.end], map[])
    else if w.decoded.Err? then
      r == Err(ExecuteError(w.decoded.error)) && OneBlock(e, e', [], [w.begin, w.end], map[])
    else
      var pset := ParamSet(w.any.value.typeUrl, w.decoded.value);
      r == Ok(()) && OneBlock(e, e', [], [w.begin, Effect(map[], map[w.subspace := pset], map[]), w.end], map[])
  }

  /** Every `set_param_set`: it returns exactly when the name crosses to Go and the answer is the
      keeper's consent or a readable error text. Then its block is committed, with the value written
      or with nothing written and the first error of the export returned. */
  lemma SetParamExactly(e: Env, w: ParamWrite)
    requires Closed(e)
    ensures SetParamSet(e, w).Returned? <==> SetParamReturns(e, w)
    ensures SetParamSet(e, w).Returned? ==> SetParamOutcome(e, w, SetParamSet(e, w).value.0, SetParamSet(e, w).value.1)
  {
    hide Step, PhaseOf, Apply, Became, OneBlock, Written, WriteAndEnd, SetParamReturns, Frames.GoString,
         Utf8.FromString, Utf8.NulFree;
    var e1 := Begun(e, w.begin);
    BeginIs(e, w.begin);
    Frames.GoStringIs(w.subspace);
    NameNeeded(e, w);
    WrittenBy(e, e1, w);
    if Utf8.NulFree(w.subspace) {
      FirstEffect(e.app.committed, w.begin);
      WriteAndEndExactly(e, e1, w);
      WrittenIs(e, w);
    }
  }

  lemma NameNeeded(e: Env, w: ParamWrite)
    ensures SetParamReturns(e, w) ==> Utf8.NulFree(w.subspace)
  {
    hide Utf8.NulFree, Frames.Printable;
  }

  lemma WrittenIs(e: Env, w: ParamWrite)
    ensures Written(e, w) ==
            if w.subspace !in e.app.subspaces then Err(Utf8.FromString("No subspace found for `" + w.subspace + "`"))
            else if w.any.Err? then Err(w.any.error)
            else if w.any.value.typeUrl !in e.types then
              Err(Utf8.FromString("type " + w.any.value.typeUrl + " is not registered"))
            else if w.decoded.Err? then Err(w.decoded.error)
            else Ok(ParamSet(w.any.value.typeUrl, w.decoded.value))
  {
    hide Utf8.FromString;
  }

  /** The rest of the block that `e1` opened over `e`. */
  lemma WriteAndEndExactly(e: Env, e1: Env, w: ParamWrite)
    requires e1.app.open.Some? && e1.ctx.height == e1.app.lastHeight + 1 == e.ctx.height + 1 && Utf8.NulFree(w.subspace)
    requires e1.app.log == e.app.log + [Finalized(e.ctx.height + 1)]
    requires Became(e.app.committed, [w.begin], map[], e1.app.open.value)
    ensures WriteAndEnd(e1, w).Returned? <==> SetParamReturns(e1, w)
    ensures WriteAndEnd(e1, w).Returned? ==>
      var (e', r) := WriteAndEnd(e1, w).value;
      match Written(e1, w)
      case Err(text) => r == Err(ExecuteError(text)) && OneBlock(e, e', [], [w.begin, w.end], map[])
      case Ok(pset) =>
        r == Ok(()) && OneBlock(e, e', [], [w.begin, Effect(map[], map[w.subspace := pset], map[]), w.end], map[])
  {
    hide Step, Apply, Became, OneBlock, Written, SetParamReturns, Frames.Received, Frames.Printable, Utf8.NulFree;
    SetParamsIs(e1, w);
    ReturnsByAnswer(e1, w);
    if Step(e1, WriteCall(w)).Returned? {
      var e2 := Step(e1, WriteCall(w)).value.0;
      Frames.ReceivedIs(Step(e1, WriteCall(w)).value.1.reply);
      assert e1.app.log + [] == e1.app.log;
      match Written(e1, w)
      case Err(_) =>
        EndsBlock(e, e2, [], [w.begin], w.end);
        assert [w.begin] + [w.end] == [w.begin, w.end];
      case Ok(pset) =>
        var write := Effect(map[], map[w.subspace := pset], map[]);
        Applied(e.app.committed, [w.begin], map[], e1.app.open.value, write);
        EndsBlock(e, e2, [], [w.begin] + [write], w.end);
        assert [w.begin] + [write] + [w.end] == [w.begin, write, w.end];
    }
  }

  lemma SetParamsIs(e: Env, w: ParamWrite)
    requires e.app.open.Some?
    ensures match Step(e, WriteCall(w))
            case Panicked => Written(e, w).Ok? && !w.accepted
            case Returned(pair) =>
              var (e', ret) := pair;
              match Written(e, w)
              case Err(text) => e' == e && ret == Reply(Err(ExecuteFailed(text)))
              case Ok(pset) =>
                var write := Effect(map[], map[w.subspace := pset], map[]);
                w.accepted && ret == Reply(Ok([])) && e' == e.(app := e.app.(open := Some(Apply(e.app.open.value, write))))
  {
    hide Apply, SetParamsResult;
  }

  /** Every `increase_time`: one empty block, of which the writes of its hooks are committed. */
  lemma IncreaseExactly(e: Env, seconds: u64, begin: Effect, end: Effect)
    requires Closed(e)
    ensures IncreaseTime(e, seconds, begin, end).Returned?
    ensures OneBlock(e, IncreaseTime(e, seconds, begin, end).value.0, [], [begin, end], map[])
  {
    hide Step, Steps, Apply, Became, OneBlock, PhaseOf, GoDuration;
    BeginsBlock(e, seconds, begin);
    var e1 := Step(e, Begin(seconds, begin)).value.0;
    FirstEffect(e.app.committed, begin);
    assert e.app.log + [Finalized(e.ctx.height + 1)] + [] == e.app.log + [Finalized(e.ctx.height + 1)];
    EndsBlock(e, e1, [], [begin], end);
    assert [begin] + [end] == [begin, end];
    StepsOne(e, Begin(seconds, begin));
    StepsThen(e, [Begin(seconds, begin)], e1, End(end));
    assert [Begin(seconds, begin)] + [End(end)] == [Begin(seconds, begin), End(end)];
  }

  lemma BeginsBlock(e: Env, seconds: u64, begin: Effect)
    requires Closed(e)
    ensures Step(e, Begin(seconds, begin)).Returned?
    ensures var e' := Step(e, Begin(seconds, begin)).value.0;
      && e'.ctx.height == e'.app.lastHeight + 1 == e.ctx.height + 1
      && e'.app.open == Some(Apply(e.app.committed, begin)) && e'.app.log == e.app.log + [Finalized(e.ctx.height + 1)]
  {
    hide Apply, PhaseOf, GoDuration;
  }

  /** A new environment has committed its genesis and what the hooks of its first block wrote. */
  lemma NewEnvExactly(genesis: State, subspaces: set<string>, now: int, begin: Effect, end: Effect)
    ensures var r := NewEnv(genesis, subspaces, now, begin, end);
      && r.Returned? && Became(genesis, [begin, end], map[], r.value.app.committed)
      && r.value.app.log == [Finalized(1), Finalized(1), Committed(1)]
  {
    hide Apply, Became, GoDuration;
    SecondEffect(genesis, begin, end);
  }

  /** For the signers `init_account` returns, the fee is integer arithmetic: the limit is the ceiling
      of 6/5 of the simulated gas and the amount 2500 times that, as long as the amount is exact. */
  lemma DefaultSignerFee(gasUsed: u64)
    requires SixFifths(gasUsed) * 2500 <= 0x20_0000_0000_0000
    ensures AutoFee(gasUsed, MIN_GAS_PRICE, DEFAULT_GAS_ADJUSTMENT) ==
            TxFee(SixFifths(gasUsed) * 2500, SixFifths(gasUsed))
  {
    DefaultGasLimitExactly(gasUsed);
    FeeAmountExact(SixFifths(gasUsed), MIN_GAS_PRICE);
  }
}
