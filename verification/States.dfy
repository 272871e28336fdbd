/** What a series of chain writes leaves of a state, entry by entry. Nothing here refers to how the
    application applies a write. */
module States {
  import opened Outcomes
  import opened Chain

  /** The entry of a map, if it has one. */
  function Entry<K, V>(m: map<K, V>, k: K): Option<V> {
    if k in m then Some(m[k]) else None
  }

  /** What the last of the effects that write parameters of `p` writes. */
  function LastParams(effects: seq<Effect>, p: string): Option<ParamSet> {
    if effects == [] then None
    else
      var last := effects[|effects| - 1];
      if p in last.params then Some(last.params[p]) else LastParams(effects[..|effects| - 1], p)
  }

  /** What the last of the effects that write the store at `k` leaves there; Some(None) is a deletion. */
  function LastStored(effects: seq<Effect>, k: bytes): Option<Option<bytes>> {
    if effects == [] then None
    else
      var last := effects[|effects| - 1];
      if k in last.store then Some(last.store[k]) else LastStored(effects[..|effects| - 1], k)
  }

  /** The number of an account in the first effect that creates it. */
  function FirstCreated(effects: seq<Effect>, a: Address): Option<nat> {
    if effects == [] then None
    else
      var before := FirstCreated(effects[..|effects| - 1], a);
      var last := effects[|effects| - 1];
      if before.None? && a in last.created then Some(last.created[a]) else before
  }

  ghost predicate ParamsAfter(s: State, effects: seq<Effect>, s': State) {
    forall p: string ::
      Entry(s'.params, p) == if LastParams(effects, p).Some? then LastParams(effects, p) else Entry(s.params, p)
  }

  ghost predicate StoreAfter(s: State, effects: seq<Effect>, s': State) {
    forall k: bytes ::
      Entry(s'.store, k) == if LastStored(effects, k).Some? then LastStored(effects, k).value else Entry(s.store, k)
  }

  /** Accounts that exist stay as they are and new ones start at sequence 0, but for the accounts in
      `fixed`, which are as given there. */
  ghost predicate AccountsAfter(s: State, effects: seq<Effect>, fixed: map<Address, Account>, s': State) {
    forall a: Address :: Entry(s'.accounts, a) ==
      if a in fixed then Some(fixed[a])
      else if a in s.accounts then Some(s.accounts[a])
      else if FirstCreated(effects, a).Some? then Some(Account(FirstCreated(effects, a).value, 0))
      else None
  }

  /** `s'` is `s` after `effects`, and after the accounts in `fixed` were set. */
  ghost predicate Became(s: State, effects: seq<Effect>, fixed: map<Address, Account>, s': State) {
    ParamsAfter(s, effects, s') && StoreAfter(s, effects, s') && AccountsAfter(s, effects, fixed, s')
  }

  // ---------- the application does that ----------

  lemma AfterNothing(s: State)
    ensures Became(s, [], map[], s)
  {
  }

  lemma {:induction false} ParamsApplied(s: State, effects: seq<Effect>, s': State, effect: Effect)
    requires ParamsAfter(s, effects, s')
    ensures ParamsAfter(s, effects + [effect], Apply(s', effect))
  {
    assert (effects + [effect])[..|effects|] == effects;
    forall p: string
      ensures var last := LastParams(effects + [effect], p);
        Entry(Apply(s', effect).params, p) == if last.Some? then last else Entry(s.params, p)
    {
      assert Entry(s'.params, p) == if LastParams(effects, p).Some? then LastParams(effects, p) else Entry(s.params, p);
    }
  }

  lemma {:induction false} StoreApplied(s: State, effects: seq<Effect>, s': State, effect: Effect)
    requires StoreAfter(s, effects, s')
    ensures StoreAfter(s, effects + [effect], Apply(s', effect))
  {
    assert (effects + [effect])[..|effects|] == effects;
    forall k: bytes
      ensures var last := LastStored(effects + [effect], k);
        Entry(Apply(s', effect).store, k) == if last.Some? then last.value else Entry(s.store, k)
    {
      assert Entry(s'.store, k) ==
             if LastStored(effects, k).Some? then LastStored(effects, k).value else Entry(s.store, k);
    }
  }

  lemma {:induction false} AccountsApplied(s: State, effects: seq<Effect>, fixed: map<Address, Account>, s': State,
                                           effect: Effect)
    requires AccountsAfter(s, effects, fixed, s')
    ensures AccountsAfter(s, effects + [effect], fixed, Apply(s', effect))
  {
    assert (effects + [effect])[..|effects|] == effects;
    forall a: Address
      ensures Entry(Apply(s', effect).accounts, a) ==
              if a in fixed then Some(fixed[a])
              else if a in s.accounts then Some(s.accounts[a])
              else if FirstCreated(effects + [effect], a).Some?
              then Some(Account(FirstCreated(effects + [effect], a).value, 0))
              else None
    {
      assert Entry(s'.accounts, a) ==
             if a in fixed then Some(fixed[a])
             else if a in s.accounts then Some(s.accounts[a])
             else if FirstCreated(effects, a).Some? then Some(Account(FirstCreated(effects, a).value, 0))
             else None;
    }
  }

  /** Applying one more effect. */
  lemma Applied(s: State, effects: seq<Effect>, fixed: map<Address, Account>, s': State, effect: Effect)
    requires Became(s, effects, fixed, s')
    ensures Became(s, effects + [effect], fixed, Apply(s', effect))
  {
    hide ParamsAfter, StoreAfter, AccountsAfter, Apply;
    ParamsApplied(s, effects, s', effect);
    StoreApplied(s, effects, s', effect);
    AccountsApplied(s, effects, fixed, s', effect);
  }

  /** Setting one account. */
  lemma AccountSet(s: State, effects: seq<Effect>, s': State, a: Address, account: Account)
    requires Became(s, effects, map[], s')
    ensures Became(s, effects, map[a := account], s'.(accounts := s'.accounts[a := account]))
  {
  }

  lemma {:induction false} OneMoreCreates(effects: seq<Effect>, effect: Effect, a: Address)
    ensures FirstCreated([], a) == None
    ensures FirstCreated(effects + [effect], a) ==
            if FirstCreated(effects, a).None? && a in effect.created then Some(effect.created[a])
            else FirstCreated(effects, a)
  {
    assert (effects + [effect])[..|effects|] == effects;
  }

  lemma {:induction false} OneMoreWrites(effects: seq<Effect>, effect: Effect, p: string)
    ensures LastParams(effects + [effect], p) ==
            if p in effect.params then Some(effect.params[p]) else LastParams(effects, p)
  {
    assert (effects + [effect])[..|effects|] == effects;
  }
}
