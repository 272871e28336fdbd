/** The chain application behind an environment, reduced to what the glue code relies on:
    committed state, the state of the block being built, and the last committed height.
    What keepers and messages do to the rest of the state is an `Effect` input. */
module Chain {
  import opened Outcomes
  import opened Fee
  import Coins

  type Address = string

  datatype Account = Account(number: nat, sequence: nat)
  datatype ParamSet = ParamSet(typeUrl: string, fields: bytes)
  datatype State = State(accounts: map<Address, Account>, params: map<string, ParamSet>, store: map<bytes, bytes>)

  /** A write by chain code: accounts that come into being, parameters overwritten, and keys of the
      store set or, for None, deleted. Existing accounts keep their number and sequence. */
  datatype Effect = Effect(created: map<Address, nat>, params: map<string, ParamSet>, store: map<bytes, Option<bytes>>)

  datatype Any = Any(typeUrl: string, value: bytes)
  datatype TxFee = TxFee(amount: nat, gasLimit: nat)
  datatype Tx = Tx(signer: Address, sequence: nat, accountNumber: nat, fee: TxFee, msgs: seq<Any>)

  /** What the bank and account keepers make of a funding they accept, or that they refuse it. */
  datatype Grant = Refused | Granted(number: nat, effect: Effect)

  /** What running the messages of a transaction yields once the signer checks have passed. */
  datatype SimulateVerdict = SimulateVerdict(gasUsed: Option<Encoded<u64>>, reason: bytes)

  /** `response` carries what Rust makes of the simulation response. */
  datatype DeliverVerdict = Rejected | Accepted(effect: Effect, response: Encoded<Result<bytes, RunnerError>>)

  /** A generated private key and the address derived from it. */
  datatype Key = Key(bytes: bytes, address: Address)

  datatype AppEvent =
    | Finalized(height: int)
    | Committed(height: int)
    | Funded(account: Address, coins: seq<Coins.Coin>)
    | Simulated(tx: Tx)
    | Delivered(tx: Tx)

  /** `log` records the calls the application served. */
  datatype AppState = AppState(
    committed: State, open: Option<State>, lastHeight: int, subspaces: set<string>, log: seq<AppEvent>)
  {
    /** What a context of this application reads: the open block, or the last commit. */
    function Current(): State {
      if open.Some? then open.value else committed
    }

    /** FinalizeBlock fails unless the height is the next one; it starts from the open state when
        there is one, so the second call of a block continues the first. */
    function FinalizeBlock(height: int, effect: Effect): Option<AppState> {
      if height != lastHeight + 1 then None
      else Some(this.(open := Some(Apply(Current(), effect)), log := log + [Finalized(height)]))
    }

    function Commit(): Option<AppState> {
      if open.None? then None
      else Some(this.(committed := open.value, open := None, lastHeight := lastHeight + 1,
                      log := log + [Committed(lastHeight + 1)]))
    }

    /** Simulate runs on the check state, which is the last committed one, and keeps nothing; its
        result is the encoded gas info or an error text. */
    function Simulate(tx: Tx, verdict: SimulateVerdict): (AppState, Result<bytes, bytes>) {
      (this.(log := log + [Simulated(tx)]),
       if tx.signer !in committed.accounts || committed.accounts[tx.signer].sequence != tx.sequence ||
          verdict.gasUsed.None?
       then Err(verdict.reason)
       else Ok(verdict.gasUsed.value.bytes))
    }

    /** SimDeliver runs on the open block; the signer checks bump the sequence. */
    function SimDeliver(tx: Tx, verdict: DeliverVerdict): Option<AppState> {
      if open.None? || verdict.Rejected? || !Signed(open.value, tx) then None
      else
        var bumped := open.value.accounts[tx.signer].(sequence := tx.sequence + 1);
        var checked := open.value.(accounts := open.value.accounts[tx.signer := bumped]);
        Some(this.(open := Some(Apply(checked, verdict.effect)), log := log + [Delivered(tx)]))
    }

    /** FundAccount through a context of the open block. It refuses coins that are not fundable and
        whatever else the keepers refuse; the receiving account comes into being. */
    function Fund(account: Address, coins: seq<Coins.Coin>, grant: Grant): Option<AppState> {
      if open.None? || grant.Refused? || !Coins.Fundable(coins) then None
      else Some(this.(open := Some(Apply(open.value, FundEffect(account, grant.number, grant.effect))),
                      log := log + [Funded(account, coins)]))
    }

    /** A keeper write through a context of the open block. */
    function Write(effect: Effect): Option<AppState> {
      if open.None? then None else Some(this.(open := Some(Apply(open.value, effect))))
    }
  }

  /** FundAccount mints and sends, and the receiving account comes into being. */
  function FundEffect(account: Address, number: nat, effect: Effect): Effect {
    effect.(created := effect.created[account := number])
  }

  function Apply(s: State, effect: Effect): State {
    State((map a | a in effect.created :: Account(effect.created[a], 0)) + s.accounts,
          s.params + effect.params,
          map k | k in s.store.Keys + effect.store.Keys && (k in effect.store ==> effect.store[k].Some?) ::
            if k in effect.store then effect.store[k].value else s.store[k])
  }

  predicate Signed(s: State, tx: Tx) {
    tx.signer in s.accounts && s.accounts[tx.signer] == Account(tx.accountNumber, tx.sequence)
  }

  lemma ApplyKeepsAccounts(s: State, effect: Effect, a: Address)
    ensures a in s.accounts ==> a in Apply(s, effect).accounts && Apply(s, effect).accounts[a] == s.accounts[a]
    ensures a !in s.accounts && a in Apply(s, effect).accounts ==> Apply(s, effect).accounts[a].sequence == 0
  {
  }

  /** The application object that all copies of an environment share. */
  class App {
    var committed: State
    var open: Option<State>
    var lastHeight: int
    const subspaces: set<string>
    var log: seq<AppEvent>

    function Abs(): AppState
      reads this
    {
      AppState(committed, open, lastHeight, subspaces, log)
    }

    /** InitChain leaves the genesis state open at height 0. */
    constructor (genesis: State, subspaces: set<string>)
      ensures Abs() == AppState(State(map[], map[], map[]), Some(genesis), 0, subspaces, [])
    {
      committed, open, lastHeight, log := State(map[], map[], map[]), Some(genesis), 0, [];
      this.subspaces := subspaces;
    }

    method FinalizeBlock(height: int, effect: Effect) returns (ok: bool)
      modifies this
      ensures match old(Abs()).FinalizeBlock(height, effect)
              case None => !ok && Abs() == old(Abs())
              case Some(a) => ok && Abs() == a
    {
      if height != lastHeight + 1 { return false; }
      open := Some(Apply(if open.Some? then open.value else committed, effect));
      log := log + [Finalized(height)];
      return true;
    }

    method Commit() returns (ok: bool)
      modifies this
      ensures match old(Abs()).Commit()
              case None => !ok && Abs() == old(Abs())
              case Some(a) => ok && Abs() == a
    {
      if open.None? { return false; }
      committed, open, lastHeight := open.value, None, lastHeight + 1;
      log := log + [Committed(lastHeight)];
      return true;
    }

    method Simulate(tx: Tx, verdict: SimulateVerdict) returns (r: Result<bytes, bytes>)
      modifies this`log
      ensures (Abs(), r) == old(Abs()).Simulate(tx, verdict)
    {
      r := Abs().Simulate(tx, verdict).1;
      log := log + [Simulated(tx)];
    }

    method SimDeliver(tx: Tx, verdict: DeliverVerdict) returns (ok: bool)
      modifies this
      ensures match old(Abs()).SimDeliver(tx, verdict)
              case None => !ok && Abs() == old(Abs())
              case Some(a) => ok && Abs() == a
    {
      if open.None? || verdict.Rejected? || !Signed(open.value, tx) { return false; }
      var account := open.value.accounts[tx.signer];
      var checked := open.value.(accounts := open.value.accounts[tx.signer := account.(sequence := tx.sequence + 1)]);
      open := Some(Apply(checked, verdict.effect));
      log := log + [Delivered(tx)];
      return true;
    }

    method Fund(account: Address, coins: seq<Coins.Coin>, grant: Grant) returns (ok: bool)
      modifies this
      ensures match old(Abs()).Fund(account, coins, grant)
              case None => !ok && Abs() == old(Abs())
              case Some(a) => ok && Abs() == a
    {
      if open.None? || grant.Refused? || !Coins.Fundable(coins) { return false; }
      open := Some(Apply(open.value, FundEffect(account, grant.number, grant.effect)));
      log := log + [Funded(account, coins)];
      return true;
    }

    method Write(effect: Effect) returns (ok: bool)
      modifies this
      ensures match old(Abs()).Write(effect)
              case None => !ok && Abs() == old(Abs())
              case Some(a) => ok && Abs() == a
    {
      if open.None? { return false; }
      open := Some(Apply(open.value, effect));
      return true;
    }
  }
}
