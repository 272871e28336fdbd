/** One test environment as a value: what each exported function of main.go does to it, and what
    every non-panicking call keeps. */
module Environment {
  import opened Outcomes
  import opened Fee
  import opened Chain
  import Base64
  import Coins
  import Registry
  import Utf8

  /** The fields of the SDK context the glue code uses; time in nanoseconds since the epoch. */
  datatype Ctx = Ctx(height: int, time: int)

  /** `types` are the type URLs registered by SetupParamTypes. */
  datatype Env = Env(app: AppState, ctx: Ctx, types: set<string>)

  // ---------- Go and Rust integer arithmetic ----------

  const SECOND := 1_000_000_000
  const TWO_63 := 0x8000_0000_0000_0000

  function WrapI64(x: int): int {
    (x + TWO_63) % TWO_64 - TWO_63
  }

  /** `time.Duration(seconds) * time.Second`: a conversion and a product, both wrapping. */
  function GoDuration(seconds: u64): int {
    WrapI64(WrapI64(seconds) * SECOND)
  }

  /** Division of an i64 by a positive i64, truncating toward zero. */
  function TruncDiv(a: int, b: int): int
    requires b > 0
  {
    if a >= 0 then a / b else -(-a / b)
  }

  // ---------- blocks ----------

  /** BeginNewBlock: the context moves on, then FinalizeBlock runs at its height. */
  function BeginNewBlock(e: Env, seconds: u64, effect: Effect): Outcome<Env> {
    var ctx := Ctx(e.ctx.height + 1, e.ctx.time + GoDuration(seconds));
    match e.app.FinalizeBlock(ctx.height, effect)
    case None => Panicked
    case Some(app) => Returned(e.(app := app, ctx := ctx))
  }

  /** EndBlock: FinalizeBlock again at the same height, then Commit. */
  function EndBlock(e: Env, effect: Effect): Outcome<Env> {
    match e.app.FinalizeBlock(e.ctx.height, effect)
    case None => Panicked
    case Some(app) =>
      match app.Commit()
      case None => Panicked
      case Some(app') => Returned(e.(app := app'))
  }

  /** InitChain leaves the genesis state open at height 0. */
  function GenesisApp(genesis: State, subspaces: set<string>): AppState {
    AppState(State(map[], map[], map[]), Some(genesis), 0, subspaces, [])
  }

  /** InitTestEnv on a freshly initialised application. */
  function NewEnv(genesis: State, subspaces: set<string>, now: int, begin: Effect, end: Effect): Outcome<Env> {
    var app := GenesisApp(genesis, subspaces);
    var e :- BeginNewBlock(Env(app, Ctx(0, now), Registry.REGISTERED), 5, begin);
    EndBlock(e, end)
  }

  // ---------- exported functions ----------

  /** A call of an exported function on one environment, with the outcomes that the modelled code
      does not decide. IncreaseTime is Begin followed by End. */
  datatype Call =
    | Begin(seconds: u64, effect: Effect)
    | End(effect: Effect)
    | Fund(key: Key, coins: seq<Coins.Coin>, grant: Grant)
    | Sequence(address: Address)
    | Number(address: Address)
    | Simulate(tx: Tx, simulated: SimulateVerdict)
    | Execute(tx: Tx, delivered: DeliverVerdict)
    | SetParams(subspace: string, any: Result<Any, bytes>, decoded: Result<bytes, bytes>, accepted: bool)
    | GetParams(subspace: string, typeUrl: string)
    | Query(reply: Result<bytes, GoError>)
    | BlockTime
    | BlockHeight

  datatype Ret =
    | Done
    | Num(n: int)
    | Text(text: bytes)
    | Reply(reply: Result<bytes, GoError>)

  function OnApp(e: Env, app: Option<AppState>, ret: Ret): Outcome<(Env, Ret)> {
    if app.None? then Panicked else Returned((e.(app := app.value), ret))
  }

  function NoSubspace(name: string): bytes {
    Utf8.FromString("No subspace found for `" + name + "`")
  }

  function NoParamSet(typeUrl: string): bytes {
    Utf8.FromString("No param set found for `" + typeUrl + "`")
  }

  function NotRegistered(typeUrl: string): bytes {
    Utf8.FromString("type " + typeUrl + " is not registered")
  }

  /** The parameter set a call hands to the keeper, or the text of the first error on the way. `any`
      and `decoded` are what the two calls of proto.Unmarshal yield, or their error texts. */
  function SetParamsResult(e: Env, subspace: string, any: Result<Any, bytes>, decoded: Result<bytes, bytes>):
    Result<ParamSet, bytes>
  {
    if subspace !in e.app.subspaces then Err(NoSubspace(subspace))
    else if any.Err? then Err(any.error)
    else if any.value.typeUrl !in e.types then Err(NotRegistered(any.value.typeUrl))
    else if decoded.Err? then Err(decoded.error)
    else Ok(ParamSet(any.value.typeUrl, decoded.value))
  }

  /** The keeper's SetParamSet panics on a key or value its subspace does not accept (`accepted` is
      its verdict). Panicked also stands for writes through the context of a closed block, which the callers
      in app.rs never make. */
  function Step(e: Env, c: Call): Outcome<(Env, Ret)> {
    match c
    case Begin(seconds, effect) =>
      var e' :- BeginNewBlock(e, seconds, effect);
      Returned((e', Done))
    case End(effect) =>
      var e' :- EndBlock(e, effect);
      Returned((e', Done))
    case Fund(key, coins, grant) =>
      OnApp(e, e.app.Fund(key.address, coins, grant), Text(Base64.Encode(key.bytes)))
    case Sequence(a) =>
      if a !in e.app.Current().accounts then Panicked
      else Returned((e, Num(e.app.Current().accounts[a].sequence)))
    case Number(a) =>
      if a !in e.app.Current().accounts then Panicked
      else Returned((e, Num(e.app.Current().accounts[a].number)))
    case Simulate(tx, verdict) =>
      var (app, r) := e.app.Simulate(tx, verdict);
      Returned((e.(app := app), Reply(if r.Ok? then Ok(r.value) else Err(ExecuteFailed(r.error)))))
    case Execute(tx, verdict) =>
      OnApp(e, e.app.SimDeliver(tx, verdict),
            if verdict.Accepted? then Reply(Ok(verdict.response.bytes)) else Done)
    case SetParams(subspace, any, decoded, accepted) =>
      (match SetParamsResult(e, subspace, any, decoded)
       case Err(text) => Returned((e, Reply(Err(ExecuteFailed(text)))))
       case Ok(pset) =>
         if !accepted then Panicked
         else OnApp(e, e.app.Write(Effect(map[], map[subspace := pset], map[])), Reply(Ok([]))))
    case GetParams(subspace, typeUrl) =>
      if subspace !in e.app.subspaces then Returned((e, Reply(Err(ExecuteFailed(NoSubspace(subspace))))))
      else if typeUrl !in e.types then Returned((e, Reply(Err(ExecuteFailed(NoParamSet(typeUrl))))))
      else
        var params := e.app.Current().params;
        if subspace in params && params[subspace].typeUrl == typeUrl
        then Returned((e, Reply(Ok(params[subspace].fields))))
        else Panicked
    case Query(reply) => Returned((e, Reply(reply)))
    case BlockTime => Returned((e, Num(WrapI64(e.ctx.time))))
    case BlockHeight => Returned((e, Num(e.ctx.height)))
  }

  /** Every call has its kind of answer. */
  lemma StepAnswers(e: Env, c: Call)
    requires Step(e, c).Returned?
    ensures var ret := Step(e, c).value.1;
      match c
      case Begin(_, _) => ret == Done
      case End(_) => ret == Done
      case Fund(_, _, _) => ret.Text?
      case Simulate(_, _) => ret.Reply?
      case Execute(_, _) => ret.Reply?
      case SetParams(_, _, _, _) => ret.Reply?
      case Query(_) => ret.Reply?
      case GetParams(_, _) => ret.Reply?
      case _ => ret.Num?
  {
    hide Apply;
  }

  /** The non-panicking run of a list of calls. */
  function Steps(e: Env, calls: seq<Call>): Outcome<Env>
    decreases |calls|
  {
    if calls == [] then Returned(e)
    else
      var (e', _) :- Step(e, calls[0]);
      Steps(e', calls[1..])
  }

  lemma {:induction false} StepsAppend(e: Env, calls: seq<Call>, more: seq<Call>)
    requires Steps(e, calls).Returned?
    ensures Steps(e, calls + more) == Steps(Steps(e, calls).value, more)
    decreases |calls|
  {
    if calls == [] {
      assert calls + more == more;
    } else {
      assert (calls + more)[1..] == calls[1..] + more;
      StepsAppend(Step(e, calls[0]).value.0, calls[1..], more);
    }
  }

  lemma {:induction false} StepsOne(e: Env, c: Call)
    requires Step(e, c).Returned?
    ensures Steps(e, [c]) == Returned(Step(e, c).value.0)
  {
    assert [c][1..] == [];
  }

  lemma {:induction false} StepsThen(e: Env, calls: seq<Call>, e1: Env, c: Call)
    requires Steps(e, calls) == Returned(e1) && Step(e1, c).Returned?
    ensures Steps(e, calls + [c]) == Returned(Step(e1, c).value.0)
  {
    StepsAppend(e, calls, [c]);
    StepsOne(e1, c);
  }

  // ---------- the log as a language of blocks ----------

  datatype Phase = Idle(height: int) | Building(height: int) | Closing(height: int) | Broken

  function After(p: Phase, event: AppEvent): Phase {
    match (p, event)
    case (Idle(n), Finalized(h)) => if h == n + 1 then Building(h) else Broken
    case (Idle(n), Simulated(_)) => p
    case (Building(n), Finalized(h)) => if h == n then Closing(n) else Broken
    case (Building(n), Funded(_, _)) => p
    case (Building(n), Simulated(_)) => p
    case (Building(n), Delivered(_)) => p
    case (Closing(n), Committed(h)) => if h == n then Idle(n) else Broken
    case _ => Broken
  }

  function PhaseOf(log: seq<AppEvent>): Phase {
    if log == [] then Idle(0) else After(PhaseOf(log[..|log| - 1]), log[|log| - 1])
  }

  function Count(log: seq<AppEvent>, event: AppEvent): nat {
    if log == [] then 0 else Count(log[..|log| - 1], event) + if log[|log| - 1] == event then 1 else 0
  }

  /** What an unbroken log says: every height up to the last committed one was finalized exactly
      twice and committed exactly once, the open one finalized once, no other height at all. */
  lemma {:induction false} BlocksOfLog(log: seq<AppEvent>, h: int)
    requires PhaseOf(log) != Broken
    ensures PhaseOf(log).height >= if PhaseOf(log).Idle? then 0 else 1
    ensures Count(log, Committed(h)) == match PhaseOf(log)
            case Idle(n) => if 1 <= h <= n then 1 else 0
            case Building(n) => if 1 <= h < n then 1 else 0
            case Closing(n) => if 1 <= h < n then 1 else 0
            case Broken => 0
    ensures Count(log, Finalized(h)) == match PhaseOf(log)
            case Idle(n) => if 1 <= h <= n then 2 else 0
            case Building(n) => if 1 <= h < n then 2 else if 1 <= h == n then 1 else 0
            case Closing(n) => if 1 <= h <= n then 2 else 0
            case Broken => 0
  {
    if log != [] {
      BlocksOfLog(log[..|log| - 1], h);
    }
  }

  // ---------- sequences ----------

  /** The sequences of the delivered transactions of one signer, in order. */
  function DeliveredBy(log: seq<AppEvent>, a: Address): seq<nat> {
    if log == [] then []
    else
      var last := log[|log| - 1];
      DeliveredBy(log[..|log| - 1], a) + SequenceOf(last, a)
  }

  function SequenceOf(event: AppEvent, a: Address): seq<nat> {
    if event.Delivered? && event.tx.signer == a then [event.tx.sequence] else []
  }

  function FirstSequence(genesis: State, a: Address): nat {
    if a in genesis.accounts then genesis.accounts[a].sequence else 0
  }

  /** The delivered transactions of `a` carry consecutive sequences from the first one on, and the
      account holds the next. */
  ghost predicate Consecutive(app: AppState, genesis: State, a: Address) {
    var d, first := DeliveredBy(app.log, a), FirstSequence(genesis, a);
    && (forall i | 0 <= i < |d| :: d[i] == first + i)
    && (a in genesis.accounts ==> a in app.Current().accounts)
    && (if a in app.Current().accounts then app.Current().accounts[a].sequence == first + |d| else d == [])
  }

  // ---------- the invariant of every run ----------

  ghost predicate Closed(e: Env) {
    && e.app.open.None?
    && e.ctx.height == e.app.lastHeight
    && PhaseOf(e.app.log) == Idle(e.app.lastHeight)
  }

  ghost predicate Opened(e: Env) {
    && e.app.open.Some?
    && e.ctx.height == e.app.lastHeight + 1
    && PhaseOf(e.app.log) == Building(e.ctx.height)
  }

  ghost predicate Inv(e: Env, genesis: State) {
    && (Closed(e) || Opened(e)) && e.types == Registry.REGISTERED
    && forall a: Address :: Consecutive(e.app, genesis, a)
  }

  lemma {:induction false} LogGrows(log: seq<AppEvent>, event: AppEvent)
    ensures PhaseOf(log + [event]) == After(PhaseOf(log), event)
  {
    assert (log + [event])[..|log|] == log;
  }

  lemma {:induction false} DeliveredGrows(log: seq<AppEvent>, event: AppEvent, a: Address)
    ensures DeliveredBy(log + [event], a) == DeliveredBy(log, a) + SequenceOf(event, a)
  {
    assert (log + [event])[..|log|] == log;
  }

  /** Nothing `a` delivered and nothing about its account changed. */
  ghost predicate Untouched(app: AppState, app': AppState, a: Address) {
    && DeliveredBy(app'.log, a) == DeliveredBy(app.log, a)
    && (a in app.Current().accounts ==>
          a in app'.Current().accounts && app'.Current().accounts[a] == app.Current().accounts[a])
    && (a !in app.Current().accounts && a in app'.Current().accounts ==> app'.Current().accounts[a].sequence == 0)
  }

  lemma UntouchedConsecutive(app: AppState, app': AppState, genesis: State, a: Address)
    requires Consecutive(app, genesis, a) && Untouched(app, app', a)
    ensures Consecutive(app', genesis, a)
  {
  }

  lemma UntouchedKeeps(app: AppState, app': AppState, genesis: State)
    requires forall a: Address :: Consecutive(app, genesis, a)
    requires forall a: Address :: Untouched(app, app', a)
    ensures forall a: Address :: Consecutive(app', genesis, a)
  {
    hide Consecutive, Untouched;
    forall a: Address ensures Consecutive(app', genesis, a) {
      UntouchedConsecutive(app, app', genesis, a);
    }
  }

  lemma FinalizeUntouched(app: AppState, height: int, effect: Effect, a: Address)
    requires app.FinalizeBlock(height, effect).Some?
    ensures Untouched(app, app.FinalizeBlock(height, effect).value, a)
  {
    ApplyKeepsAccounts(app.Current(), effect, a);
    DeliveredGrows(app.log, Finalized(height), a);
  }

  lemma FinalizeKeeps(app: AppState, height: int, effect: Effect, genesis: State)
    requires app.FinalizeBlock(height, effect).Some?
    requires forall a: Address :: Consecutive(app, genesis, a)
    ensures forall a: Address :: Consecutive(app.FinalizeBlock(height, effect).value, genesis, a)
  {
    hide Consecutive, Untouched, Apply;
    var app' := app.FinalizeBlock(height, effect).value;
    forall a: Address ensures Untouched(app, app', a) { FinalizeUntouched(app, height, effect, a); }
    UntouchedKeeps(app, app', genesis);
  }

  lemma CommitUntouched(app: AppState, a: Address)
    requires app.Commit().Some?
    ensures Untouched(app, app.Commit().value, a)
  {
    DeliveredGrows(app.log, Committed(app.lastHeight + 1), a);
  }

  lemma CommitKeeps(app: AppState, genesis: State)
    requires app.Commit().Some?
    requires forall a: Address :: Consecutive(app, genesis, a)
    ensures forall a: Address :: Consecutive(app.Commit().value, genesis, a)
  {
    hide Consecutive, Untouched, Apply;
    var app' := app.Commit().value;
    forall a: Address ensures Untouched(app, app', a) { CommitUntouched(app, a); }
    UntouchedKeeps(app, app', genesis);
  }

  lemma WriteUntouched(app: AppState, effect: Effect, a: Address)
    requires app.Write(effect).Some?
    ensures Untouched(app, app.Write(effect).value, a)
  {
    ApplyKeepsAccounts(app.open.value, effect, a);
  }

  lemma WriteKeeps(app: AppState, effect: Effect, genesis: State)
    requires app.Write(effect).Some?
    requires forall a: Address :: Consecutive(app, genesis, a)
    ensures forall a: Address :: Consecutive(app.Write(effect).value, genesis, a)
  {
    hide Consecutive, Untouched, Apply;
    var app' := app.Write(effect).value;
    forall a: Address ensures Untouched(app, app', a) { WriteUntouched(app, effect, a); }
    UntouchedKeeps(app, app', genesis);
  }

  lemma FundUntouched(app: AppState, account: Address, coins: seq<Coins.Coin>, grant: Grant, a: Address)
    requires app.Fund(account, coins, grant).Some?
    ensures Untouched(app, app.Fund(account, coins, grant).value, a)
  {
    hide Apply;
    ApplyKeepsAccounts(app.open.value, FundEffect(account, grant.number, grant.effect), a);
    DeliveredGrows(app.log, Funded(account, coins), a);
  }

  lemma FundKeeps(app: AppState, account: Address, coins: seq<Coins.Coin>, grant: Grant, genesis: State)
    requires app.Fund(account, coins, grant).Some?
    requires forall a: Address :: Consecutive(app, genesis, a)
    ensures forall a: Address :: Consecutive(app.Fund(account, coins, grant).value, genesis, a)
  {
    hide Consecutive, Untouched, Apply;
    var app' := app.Fund(account, coins, grant).value;
    forall a: Address ensures Untouched(app, app', a) { FundUntouched(app, account, coins, grant, a); }
    UntouchedKeeps(app, app', genesis);
  }

  lemma SimulateUntouched(app: AppState, tx: Tx, verdict: SimulateVerdict, a: Address)
    ensures Untouched(app, app.Simulate(tx, verdict).0, a)
  {
    DeliveredGrows(app.log, Simulated(tx), a);
  }

  lemma SimulateKeeps(app: AppState, tx: Tx, verdict: SimulateVerdict, genesis: State)
    requires forall a: Address :: Consecutive(app, genesis, a)
    ensures forall a: Address :: Consecutive(app.Simulate(tx, verdict).0, genesis, a)
  {
    hide Consecutive, Untouched, Apply;
    var app' := app.Simulate(tx, verdict).0;
    forall a: Address ensures Untouched(app, app', a) { SimulateUntouched(app, tx, verdict, a); }
    UntouchedKeeps(app, app', genesis);
  }

  lemma OthersUntouched(app: AppState, tx: Tx, verdict: DeliverVerdict, a: Address)
    requires app.SimDeliver(tx, verdict).Some? && a != tx.signer
    ensures Untouched(app, app.SimDeliver(tx, verdict).value, a)
  {
    DeliveredGrows(app.log, Delivered(tx), a);
  }

  lemma SignerAdvances(app: AppState, tx: Tx, verdict: DeliverVerdict, genesis: State)
    requires app.SimDeliver(tx, verdict).Some? && Consecutive(app, genesis, tx.signer)
    ensures Consecutive(app.SimDeliver(tx, verdict).value, genesis, tx.signer)
  {
    var a := tx.signer;
    DeliveredGrows(app.log, Delivered(tx), a);
    var d := DeliveredBy(app.log, a);
    SequenceBumped(app, tx, verdict);
    var d', first := d + [tx.sequence], FirstSequence(genesis, a);
    assert tx.sequence == first + |d|;
    assert forall i | 0 <= i < |d'| :: d'[i] == first + i;
  }

  lemma SequenceBumped(app: AppState, tx: Tx, verdict: DeliverVerdict)
    requires app.SimDeliver(tx, verdict).Some?
    ensures var accounts := app.SimDeliver(tx, verdict).value.Current().accounts;
      tx.signer in accounts && accounts[tx.signer] == Account(tx.accountNumber, tx.sequence + 1)
  {
  }

  lemma DeliverKeeps(app: AppState, tx: Tx, verdict: DeliverVerdict, genesis: State)
    requires app.SimDeliver(tx, verdict).Some?
    requires forall a: Address :: Consecutive(app, genesis, a)
    ensures forall a: Address :: Consecutive(app.SimDeliver(tx, verdict).value, genesis, a)
  {
    hide Consecutive, Untouched, Apply;
    var app' := app.SimDeliver(tx, verdict).value;
    forall a: Address ensures Consecutive(app', genesis, a) {
      assert Consecutive(app, genesis, a);
      if a == tx.signer {
        SignerAdvances(app, tx, verdict, genesis);
      } else {
        OthersUntouched(app, tx, verdict, a);
        UntouchedConsecutive(app, app', genesis, a);
      }
    }
  }

  lemma EndCloses(e: Env, effect: Effect)
    requires (Closed(e) || Opened(e)) && EndBlock(e, effect).Returned?
    ensures Closed(EndBlock(e, effect).value)
  {
    LogGrows(e.app.log, Finalized(e.ctx.height));
    LogGrows(e.app.log + [Finalized(e.ctx.height)], Committed(e.ctx.height));
  }

  lemma BeginOpens(e: Env, seconds: u64, effect: Effect)
    requires (Closed(e) || Opened(e)) && BeginNewBlock(e, seconds, effect).Returned?
    ensures Opened(BeginNewBlock(e, seconds, effect).value)
  {
    LogGrows(e.app.log, Finalized(e.ctx.height + 1));
  }

  /** A further event inside the block, or a simulation outside it. */
  lemma EventKeepsPhase(e: Env, e': Env, event: AppEvent)
    requires (Opened(e) && (event.Funded? || event.Simulated? || event.Delivered?)) || (Closed(e) && event.Simulated?)
    requires e'.app.open.Some? == e.app.open.Some? && e'.app.lastHeight == e.app.lastHeight && e'.ctx == e.ctx
    requires e'.app.log == e.app.log + [event]
    ensures if Opened(e) then Opened(e') else Closed(e')
  {
    LogGrows(e.app.log, event);
  }

  lemma StepKeepsBlocks(e: Env, c: Call)
    requires (Closed(e) || Opened(e)) && Step(e, c).Returned?
    ensures var e' := Step(e, c).value.0; Closed(e') || Opened(e')
  {
    hide PhaseOf, Apply;
    match c
    case Begin(seconds, effect) => BeginOpens(e, seconds, effect);
    case End(effect) => EndCloses(e, effect);
    case Fund(key, coins, _) => EventKeepsPhase(e, Step(e, c).value.0, Funded(key.address, coins));
    case Simulate(tx, _) => EventKeepsPhase(e, Step(e, c).value.0, Simulated(tx));
    case Execute(tx, _) => EventKeepsPhase(e, Step(e, c).value.0, Delivered(tx));
    case _ =>
  }

  lemma StepKeepsSequences(e: Env, c: Call, genesis: State)
    requires (forall a: Address :: Consecutive(e.app, genesis, a)) && Step(e, c).Returned?
    ensures forall a: Address :: Consecutive(Step(e, c).value.0.app, genesis, a)
  {
    hide Consecutive, Apply;
    match c
    case Begin(seconds, effect) =>
      FinalizeKeeps(e.app, e.ctx.height + 1, effect, genesis);
    case End(effect) =>
      FinalizeKeeps(e.app, e.ctx.height, effect, genesis);
      CommitKeeps(e.app.FinalizeBlock(e.ctx.height, effect).value, genesis);
    case Fund(key, coins, grant) =>
      FundKeeps(e.app, key.address, coins, grant, genesis);
    case Simulate(tx, verdict) =>
      SimulateKeeps(e.app, tx, verdict, genesis);
    case Execute(tx, verdict) =>
      DeliverKeeps(e.app, tx, verdict, genesis);
    case SetParams(subspace, any, decoded, _) =>
      var pset := SetParamsResult(e, subspace, any, decoded);
      if pset.Ok? {
        WriteKeeps(e.app, Effect(map[], map[subspace := pset.value], map[]), genesis);
      }
    case _ =>
  }

  lemma StepKeepsTypes(e: Env, c: Call)
    requires Step(e, c).Returned?
    ensures Step(e, c).value.0.types == e.types
  {
    hide Apply;
  }

  /** Every export that returns keeps the invariant, in whatever order exports are called: blocks
      never nest, context height and committed height stay in step, sequences stay consecutive. */
  lemma StepKeepsInv(e: Env, c: Call, genesis: State)
    requires Inv(e, genesis) && Step(e, c).Returned?
    ensures Inv(Step(e, c).value.0, genesis)
  {
    hide Consecutive, PhaseOf, Apply, FirstSequence;
    StepKeepsBlocks(e, c);
    StepKeepsSequences(e, c, genesis);
    StepKeepsTypes(e, c);
  }

  lemma {:induction false} StepsKeepInv(e: Env, calls: seq<Call>, genesis: State)
    requires Inv(e, genesis) && Steps(e, calls).Returned?
    ensures Inv(Steps(e, calls).value, genesis)
    decreases |calls|
  {
    if calls != [] {
      StepKeepsInv(e, calls[0], genesis);
      StepsKeepInv(Step(e, calls[0]).value.0, calls[1..], genesis);
    }
  }

  /** Begin succeeds exactly on a closed environment and End exactly on an open one: the block
      heights the glue code computes are always the ones the application expects. */
  lemma BlocksAlternate(e: Env, seconds: u64, effect: Effect, genesis: State)
    requires Inv(e, genesis)
    ensures Step(e, Begin(seconds, effect)).Returned? <==> Closed(e)
    ensures Step(e, End(effect)).Returned? <==> Opened(e)
  {
  }

  /** A new environment is closed at height 1, five seconds after its start. */
  lemma NewEnvIs(genesis: State, subspaces: set<string>, now: int, begin: Effect, end: Effect)
    ensures var r := NewEnv(genesis, subspaces, now, begin, end);
      r.Returned? && Inv(r.value, genesis) && Closed(r.value) && r.value.ctx == Ctx(1, now + 5 * SECOND) &&
      r.value.types == Registry.REGISTERED && r.value.app.subspaces == subspaces
  {
    var app := GenesisApp(genesis, subspaces);
    var e0 := Env(app, Ctx(0, now), Registry.REGISTERED);
    FirstBlockOpens(e0, genesis, begin);
    var e1 := BeginNewBlock(e0, 5, begin).value;
    StepKeepsInv(e1, End(end), genesis);
    assert NewEnv(genesis, subspaces, now, begin, end) == EndBlock(e1, end);
  }

  lemma FirstBlockOpens(e: Env, genesis: State, begin: Effect)
    requires e.ctx.height == 0 && e.types == Registry.REGISTERED
    requires exists subspaces :: e.app == GenesisApp(genesis, subspaces)
    ensures var r := BeginNewBlock(e, 5, begin);
      r.Returned? && Inv(r.value, genesis) && Opened(r.value) && r.value.ctx == Ctx(1, e.ctx.time + 5 * SECOND)
  {
    LogGrows([], Finalized(1));
    assert [] + [Finalized(1)] == [Finalized(1)];
    forall a: Address ensures Consecutive(e.app, genesis, a) {}
    FinalizeKeeps(e.app, 1, begin, genesis);
  }

  // ---------- time ----------

  /** An increment is taken at face value exactly when its nanoseconds fit an int64. */
  lemma DurationExactly(seconds: u64)
    ensures GoDuration(seconds) == seconds * SECOND <==> seconds <= 9223372036
  {
  }

  /** One second more than the bound turns the clock back by almost 292 years. */
  lemma DurationWraps()
    ensures GoDuration(9223372037) == -9223372036709551616
  {
  }

  /** Every increment: the int64 that differs from the nanoseconds by a multiple of 2^64. */
  lemma DurationIs(seconds: u64) returns (k: int)
    ensures seconds * SECOND == GoDuration(seconds) + k * 0x1_0000_0000_0000_0000
    ensures -TWO_63 <= GoDuration(seconds) < TWO_63
  {
    hide WrapI64;
    var i := Wraps(seconds);
    var j := Wraps(WrapI64(seconds) * SECOND);
    k := i * SECOND + j;
  }

  lemma Wraps(x: int) returns (k: int)
    ensures x == WrapI64(x) + k * 0x1_0000_0000_0000_0000 && -TWO_63 <= WrapI64(x) < TWO_63
  {
    k := (x + TWO_63) / TWO_64;
  }

  /** What `get_block_time_seconds` returns. */
  function BlockTimeSeconds(e: Env): int {
    TruncDiv(WrapI64(e.ctx.time), SECOND)
  }

  /** Truncated seconds grow by exactly the whole seconds added, unless the clock crosses the
      epoch from a time with a fractional second. */
  lemma TruncatedSecondsAdvance(t: int, seconds: nat)
    ensures TruncDiv(t + seconds * SECOND, SECOND) == TruncDiv(t, SECOND) + seconds <==>
            t >= 0 || t % SECOND == 0 || t + seconds * SECOND <= 0
  {
  }

  /** The clock reading: the int64 that differs from the block time by a multiple of 2^64. The reading
      in seconds is its whole seconds, the fraction dropped toward zero. */
  lemma ClockReading(e: Env) returns (n: int)
    ensures Step(e, BlockTime) == Returned((e, Num(n)))
    ensures -0x8000_0000_0000_0000 <= n < 0x8000_0000_0000_0000 && (e.ctx.time - n) % 0x1_0000_0000_0000_0000 == 0
    ensures n >= 0 ==> 0 <= n - BlockTimeSeconds(e) * 1_000_000_000 < 1_000_000_000
    ensures n < 0 ==> -1_000_000_000 < n - BlockTimeSeconds(e) * 1_000_000_000 <= 0
  {
    n := WrapI64(e.ctx.time);
  }
}
