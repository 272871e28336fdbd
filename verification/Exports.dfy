/** The exported functions of main.go over the process-wide registry. Every export loads a copy of
    the environment, works on it and, where the source does, stores the copy back; the application
    object behind the copies is shared. `Environment.Step` says what one call does. */
module Exports {
  import opened Outcomes
  import opened Fee
  import opened Chain
  import opened Environment
  import Base64
  import Coins
  import Registry

  /** The registry entry: App is a pointer, the rest is copied. */
  datatype TestEnv = TestEnv(app: App, ctx: Ctx, types: set<string>, nodeHome: string)

  class Library {
    var envCounter: nat
    var envRegister: map<nat, TestEnv>

    constructor ()
      ensures Valid() && envCounter == 0 && envRegister == map[]
    {
      envCounter, envRegister := 0, map[];
    }

    /** The applications of all registered environments. */
    ghost function Apps(): set<App>
      reads this
    {
      set id | id in envRegister :: envRegister[id].app
    }

    /** Keys lie in 1..envCounter and no two environments share an application. */
    ghost predicate Valid()
      reads this
    {
      && (forall id | id in envRegister :: 1 <= id <= envCounter)
      && (forall id, id' | id in envRegister && id' in envRegister && id != id' ::
            envRegister[id].app != envRegister[id'].app)
    }

    /** No environment has its NodeHome set: InitTestEnv never assigns it. */
    ghost predicate HomesUnset()
      reads this
    {
      forall id | id in envRegister :: envRegister[id].nodeHome == ""
    }

    ghost function Abs(id: nat): Env
      requires id in envRegister
      reads this, envRegister[id].app
    {
      Env(envRegister[id].app.Abs(), envRegister[id].ctx, envRegister[id].types)
    }

    /** Environment `id` became `e`, every other one and the registry's domain stayed. */
    twostate predicate Moved(id: nat, e: Env)
      requires id in old(envRegister)
      reads this, Apps()
    {
      && Valid()
      && envCounter == old(envCounter) && envRegister.Keys == old(envRegister).Keys
      && envRegister[id].app == old(envRegister[id].app) && envRegister[id].nodeHome == old(envRegister[id].nodeHome)
      && Abs(id) == e
      && (forall k | k in old(envRegister) && k != id ::
            envRegister[k] == old(envRegister[k]) && Abs(k) == old(Abs(k)))
    }

    /** The export did what `Step` says of call `c`, or panicked as `Step` or `loadEnv` does. */
    twostate predicate Did(id: nat, c: Call, new r: Outcome<Ret>)
      reads this, Apps()
    {
      if id !in old(envRegister) then r == Panicked
      else
        match Step(old(Abs(id)), c)
        case Panicked => r == Panicked
        case Returned((e, ret)) => r == Returned(ret) && Moved(id, e)
    }

    /** Objects a call on `id` may change besides the registry. */
    ghost function AppOf(id: nat): set<App>
      reads this
    {
      if id in envRegister then {envRegister[id].app} else {}
    }

    /** loadEnv. */
    method LoadEnv(id: nat) returns (r: Outcome<TestEnv>)
      ensures r == if id in envRegister then Returned(envRegister[id]) else Panicked
    {
      if id !in envRegister { return Panicked; }
      return Returned(envRegister[id]);
    }

    /** BeginNewBlock on a loaded copy; the caller stores the returned one. */
    method BeginNewBlock(env: TestEnv, seconds: u64, effect: Effect) returns (r: Outcome<TestEnv>)
      modifies env.app
      ensures match Environment.BeginNewBlock(old(Env(env.app.Abs(), env.ctx, env.types)), seconds, effect)
              case Panicked => r == Panicked
              case Returned(e) => r == Returned(env.(ctx := e.ctx)) && env.app.Abs() == e.app && env.types == e.types
    {
      var newBlockTime := env.ctx.time + GoDuration(seconds);
      var ctx := Ctx(env.ctx.height + 1, newBlockTime);
      var ok := env.app.FinalizeBlock(ctx.height, effect);
      if !ok { return Panicked; }
      return Returned(env.(ctx := ctx));
    }

    /** The FinalizeBlock and Commit that end a block of a loaded environment. */
    method FinalizeAndCommit(env: TestEnv, effect: Effect) returns (r: Outcome<()>)
      modifies env.app
      ensures match Environment.EndBlock(old(Env(env.app.Abs(), env.ctx, env.types)), effect)
              case Panicked => r == Panicked
              case Returned(e) => r == Returned(()) && Env(env.app.Abs(), env.ctx, env.types) == e
    {
      var ok := env.app.FinalizeBlock(env.ctx.height, effect);
      if !ok { return Panicked; }
      ok := env.app.Commit();
      if !ok { return Panicked; }
      return Returned(());
    }

    /** A new registry after SetupParamTypes. */
    method NewTypes() returns (types: set<string>)
      ensures types == Registry.REGISTERED
    {
      var entries := new Registry.GoMap();
      var registry := Registry.ParamTypeRegistry(entries);
      Registry.SetupParamTypes(registry);
      return entries.entries.Keys;
    }

    /** The part of InitTestEnv before the registration: a new application taken through its first
        block. */
    method Build(genesis: State, subspaces: set<string>, now: int, begin: Effect, end: Effect) returns (env: TestEnv)
      ensures fresh(env.app) && env.nodeHome == ""
      ensures NewEnv(genesis, subspaces, now, begin, end) == Returned(Env(env.app.Abs(), env.ctx, env.types))
    {
      NewEnvIs(genesis, subspaces, now, begin, end);
      var app := new App(genesis, subspaces);
      var types := NewTypes();
      env := TestEnv(app, Ctx(0, now), types, "");
      var begun := BeginNewBlock(env, 5, begin);
      env := begun.value;
      var ended := FinalizeAndCommit(env, end);
    }

    method InitTestEnv(genesis: State, subspaces: set<string>, now: int, begin: Effect, end: Effect) returns (id: nat)
      requires Valid()
      modifies this
      ensures Valid() && envCounter == old(envCounter) + 1 == id
      ensures envRegister.Keys == old(envRegister).Keys + {id} && id !in old(envRegister)
      ensures forall k | k in old(envRegister) :: envRegister[k] == old(envRegister[k]) && Abs(k) == old(Abs(k))
      ensures fresh(envRegister[id].app) && (old(HomesUnset()) ==> HomesUnset())
      ensures NewEnv(genesis, subspaces, now, begin, end) == Returned(Abs(id))
    {
      var env := Build(genesis, subspaces, now, begin, end);
      envCounter := envCounter + 1;
      id := envCounter;
      envRegister := envRegister[id := env];
    }

    /** CleanUp returns before the deletion when NodeHome is empty, so while no home is set the
        entry of a dropped app stays registered. */
    method CleanUp(id: nat) returns (r: Outcome<()>)
      requires Valid()
      modifies this`envRegister
      ensures Valid()
      ensures r.Panicked? <==> id !in old(envRegister)
      ensures r.Returned? ==>
                envRegister == if old(envRegister)[id].nodeHome == "" then old(envRegister) else old(envRegister) - {id}
      ensures old(HomesUnset()) ==> envRegister == old(envRegister)
    {
      var env :- LoadEnv(id);
      if env.nodeHome == "" { return Returned(()); }
      envRegister := envRegister - {id};
      return Returned(());
    }

    method InitAccount(id: nat, key: Key, coins: seq<Coins.Coin>, grant: Grant) returns (r: Outcome<Ret>)
      requires Valid()
      modifies this, AppOf(id)
      ensures Did(id, Fund(key, coins, grant), r)
    {
      var env :- LoadEnv(id);
      var ok := env.app.Fund(key.address, coins, grant);
      if !ok { return Panicked; }
      envRegister := envRegister[id := env];
      return Returned(Text(Base64.Encode(key.bytes)));
    }

    /** The load, begin and store that BeginBlock and IncreaseTime share. */
    method OpenBlock(id: nat, seconds: u64, effect: Effect) returns (r: Outcome<Ret>)
      requires Valid()
      modifies this, AppOf(id)
      ensures Did(id, Begin(seconds, effect), r)
    {
      var env :- LoadEnv(id);
      env :- BeginNewBlock(env, seconds, effect);
      envRegister := envRegister[id := env];
      return Returned(Done);
    }

    method BeginBlock(id: nat, effect: Effect) returns (r: Outcome<Ret>)
      requires Valid()
      modifies this, AppOf(id)
      ensures Did(id, Begin(1, effect), r)
    {
      r := OpenBlock(id, 1, effect);
    }

    method EndBlock(id: nat, effect: Effect) returns (r: Outcome<Ret>)
      requires Valid()
      modifies this, AppOf(id)
      ensures Did(id, End(effect), r)
    {
      var env :- LoadEnv(id);
      var _ :- FinalizeAndCommit(env, effect);
      envRegister := envRegister[id := env];
      return Returned(Done);
    }

    /** Stores the begun block, then calls EndBlock, which loads it again. */
    method IncreaseTime(id: nat, seconds: u64, begin: Effect, end: Effect) returns (r: Outcome<Ret>)
      requires Valid()
      modifies this, AppOf(id)
      ensures id !in old(envRegister) ==> r == Panicked
      ensures id in old(envRegister) ==>
                match Steps(old(Abs(id)), [Begin(seconds, begin), End(end)])
                case Panicked => r == Panicked
                case Returned(e) => r == Returned(Done) && Moved(id, e)
    {
      if id in envRegister {
        StepsOfTwo(Abs(id), Begin(seconds, begin), End(end));
      }
      var _ :- OpenBlock(id, seconds, begin);
      r := EndBlock(id, end);
    }

    method Execute(id: nat, tx: Tx, delivered: DeliverVerdict) returns (r: Outcome<Ret>)
      requires Valid()
      modifies this, AppOf(id)
      ensures Did(id, Call.Execute(tx, delivered), r)
    {
      var env :- LoadEnv(id);
      var ok := env.app.SimDeliver(tx, delivered);
      if !ok { return Panicked; }
      envRegister := envRegister[id := env];
      return Returned(Reply(Ok(delivered.response.bytes)));
    }

    method Simulate(id: nat, tx: Tx, simulated: SimulateVerdict) returns (r: Outcome<Ret>)
      requires Valid()
      modifies AppOf(id)
      ensures Did(id, Call.Simulate(tx, simulated), r)
    {
      var env :- LoadEnv(id);
      var gas := env.app.Simulate(tx, simulated);
      return Returned(Reply(if gas.Ok? then Ok(gas.value) else Err(ExecuteFailed(gas.error))));
    }

    method SetParamSet(id: nat, subspace: string, any: Result<Any, bytes>, decoded: Result<bytes, bytes>,
                       accepted: bool)
      returns (r: Outcome<Ret>)
      requires Valid()
      modifies AppOf(id)
      ensures Did(id, SetParams(subspace, any, decoded, accepted), r)
    {
      var env :- LoadEnv(id);
      if subspace !in env.app.subspaces { return Returned(Reply(Err(ExecuteFailed(NoSubspace(subspace))))); }
      if any.Err? { return Returned(Reply(Err(ExecuteFailed(any.error)))); }
      if any.value.typeUrl !in env.types {
        return Returned(Reply(Err(ExecuteFailed(NotRegistered(any.value.typeUrl)))));
      }
      if decoded.Err? { return Returned(Reply(Err(ExecuteFailed(decoded.error)))); }
      if !accepted { return Panicked; }
      var pset := ParamSet(any.value.typeUrl, decoded.value);
      var ok := env.app.Write(Effect(map[], map[subspace := pset], map[]));
      if !ok { return Panicked; }
      return Returned(Reply(Ok([])));
    }

    method GetParamSet(id: nat, subspace: string, typeUrl: string) returns (r: Outcome<Ret>)
      requires Valid()
      ensures Did(id, GetParams(subspace, typeUrl), r)
    {
      var env :- LoadEnv(id);
      if subspace !in env.app.subspaces { return Returned(Reply(Err(ExecuteFailed(NoSubspace(subspace))))); }
      if typeUrl !in env.types { return Returned(Reply(Err(ExecuteFailed(NoParamSet(typeUrl))))); }
      var params := env.app.Abs().Current().params;
      if subspace !in params || params[subspace].typeUrl != typeUrl { return Panicked; }
      return Returned(Reply(Ok(params[subspace].fields)));
    }

    /** `reply` is what the query route answers, or the text that there is no route. */
    method Query(id: nat, reply: Result<bytes, GoError>) returns (r: Outcome<Ret>)
      requires Valid()
      ensures Did(id, Call.Query(reply), r)
    {
      var env :- LoadEnv(id);
      return Returned(Reply(reply));
    }

    method AccountSequence(id: nat, address: Address) returns (r: Outcome<Ret>)
      requires Valid()
      ensures Did(id, Sequence(address), r)
    {
      var env :- LoadEnv(id);
      var accounts := env.app.Abs().Current().accounts;
      if address !in accounts { return Panicked; }
      return Returned(Num(accounts[address].sequence));
    }

    method AccountNumber(id: nat, address: Address) returns (r: Outcome<Ret>)
      requires Valid()
      ensures Did(id, Number(address), r)
    {
      var env :- LoadEnv(id);
      var accounts := env.app.Abs().Current().accounts;
      if address !in accounts { return Panicked; }
      return Returned(Num(accounts[address].number));
    }

    method GetBlockTime(id: nat) returns (r: Outcome<Ret>)
      requires Valid()
      ensures Did(id, BlockTime, r)
    {
      var env :- LoadEnv(id);
      return Returned(Num(WrapI64(env.ctx.time)));
    }

    method GetBlockHeight(id: nat) returns (r: Outcome<Ret>)
      requires Valid()
      ensures Did(id, BlockHeight, r)
    {
      var env :- LoadEnv(id);
      return Returned(Num(env.ctx.height));
    }
  }

  lemma {:induction false} StepsOfTwo(e: Env, c: Call, d: Call)
    ensures Steps(e, [c, d]) ==
            match Step(e, c)
            case Panicked => Panicked
            case Returned((e1, _)) => (match Step(e1, d) case Panicked => Panicked case Returned((e2, _)) => Returned(e2))
  {
    assert [c, d][1..] == [d] && [d][1..] == [];
    if Step(e, c).Returned? {
      var e1 := Step(e, c).value.0;
      assert Steps(e1, [d]) == match Step(e1, d) case Panicked => Panicked case Returned((e2, _)) => Returned(e2);
    }
  }
}
