/** What the concurrent model guarantees over whole runs. */
module Concurrency {
  import opened Outcomes
  import opened Chain
  import opened Environment
  import opened Interleaving
  import opened InterleavingProofs

  // ---------- the semantics of the exports ----------

  function BuiltEnv(x: Export): Env {
    if x.InitTestEnv? then
      NewEnvIs(x.genesis, x.subspaces, x.now, x.begin, x.end);
      NewEnv(x.genesis, x.subspaces, x.now, x.begin, x.end).value
    else Env(GenesisApp(State(map[], map[], map[]), {}), Ctx(0, 0), {})
  }

  function Exported(plan: Plan): Semantics {
    Semantics((e, c) => Step(e, c), x => BuiltEnv(x), plan)
  }

  lemma ExportedKeepsContext(plan: Plan)
    ensures KeepsContext(Exported(plan))
  {
  }

  // ---------- runs ----------

  predicate Possible(sem: Semantics, s: Global, cs: seq<Choice>)
    decreases |cs|
  {
    cs == [] || (Enabled(sem, s, cs[0]) && Possible(sem, Next(sem, s, cs[0]), cs[1..]))
  }

  function Reached(sem: Semantics, s: Global, cs: seq<Choice>): Global
    requires Possible(sem, s, cs)
    decreases |cs|
  {
    if cs == [] then s else Reached(sem, Next(sem, s, cs[0]), cs[1..])
  }

  /** No environments yet, no thread running. */
  predicate Initial(s: Global) {
    && s.counter == 0 && s.register == map[] && s.mutex == None && s.heap == []
    && s.owner == map[] && s.first == map[] && s.issued == map[] && s.history == map[]
    && forall t | 0 <= t < |s.threads| ::
         s.threads[t].code == [] && s.threads[t].mode == Mode(false, false, false, false) &&
         s.threads[t].mine == [] && s.threads[t].seen == []
  }

  /** `s` is reached by the interleaving `cs` of the threads of `s0`. */
  predicate Reaches(sem: Semantics, s0: Global, cs: seq<Choice>, s: Global) {
    Initial(s0) && Possible(sem, s0, cs) && s == Reached(sem, s0, cs)
  }

  lemma {:induction false} RunConsistent(sem: Semantics, s: Global, cs: seq<Choice>)
    requires KeepsContext(sem) && Consistent(sem, s) && Possible(sem, s, cs)
    ensures Consistent(sem, Reached(sem, s, cs))
    decreases |cs|
  {
    if cs != [] {
      NextKeeps(sem, s, cs[0]);
      RunConsistent(sem, Next(sem, s, cs[0]), cs[1..]);
    }
  }

  /** Thread `owner[id]` is between exports. */
  predicate AtRest(s: Global, id: nat) {
    id in s.owner && s.owner[id] < |s.threads| && s.threads[s.owner[id]].code == []
  }

  lemma {:induction false} RestIsReplay(sem: Semantics, s: Global, id: nat)
    requires Consistent(sem, s) && AtRest(s, id)
    ensures id in s.register && s.register[id].app < |s.heap|
    ensures id in s.first && s.first[id].InitTestEnv? && id in s.issued && id in s.history
    ensures Replay(sem, sem.built(s.first[id]), s.history[id]) == Some(Value(s, s.register[id]))
    ensures Served(s.history[id]) == s.issued[id]
  {
    assert IdOk(sem, s, id);
    Published(sem, s, s.owner[id], id);
    assert Served(s.history[id]) + [] == s.issued[id];
  }

  lemma {:induction false} ReplayIsSteps(plan: Plan, e: Env, history: seq<(Call, Ret)>)
    requires Replay(Exported(plan), e, history).Some?
    ensures Steps(e, Served(history)) == Returned(Replay(Exported(plan), e, history).value)
  {
    hide Step, BuiltEnv;
    if history == [] {
      assert Served(history) == [];
    } else {
      var front, last := history[..|history| - 1], history[|history| - 1];
      ReplayIsSteps(plan, e, front);
      var before := Replay(Exported(plan), e, front).value;
      StepsThen(e, Served(front), before, last.0);
      assert Served(history) == Served(front) + [last.0];
    }
  }

  /** Refinement: after any interleaving of threads that each use the environments they created,
      the registered value of an environment whose owner is between exports is what the owner's
      calls alone, in program order and one after the other, make of the environment its
      InitTestEnv built; every result the owner saw is the one of that sequential run; so no store
      ever lost an update. */
  lemma InterleavingRefinesSequential(plan: Plan, s0: Global, cs: seq<Choice>, s: Global, id: nat)
    requires Reaches(Exported(plan), s0, cs, s) && AtRest(s, id)
    ensures id in s.register && s.register[id].app < |s.heap|
    ensures id in s.first && s.first[id].InitTestEnv? && id in s.issued && id in s.history
    ensures Steps(BuiltEnv(s.first[id]), s.issued[id]) == Returned(Value(s, s.register[id]))
    ensures Replay(Exported(plan), BuiltEnv(s.first[id]), s.history[id]) == Some(Value(s, s.register[id]))
    ensures Served(s.history[id]) == s.issued[id]
  {
    ExportedKeepsContext(plan);
    InitialConsistent(Exported(plan), s0);
    RunConsistent(Exported(plan), s0, cs);
    RestIsReplay(Exported(plan), s, id);
    ReplayIsSteps(plan, BuiltEnv(s.first[id]), s.history[id]);
  }

  lemma InitialConsistent(sem: Semantics, s: Global)
    requires Initial(s)
    ensures Consistent(sem, s)
  {
  }

  /** In particular what sequential runs keep holds in every interleaving: heights, blocks and
      sequences of every environment. */
  lemma InterleavedEnvironmentsAreSound(plan: Plan, s0: Global, cs: seq<Choice>, s: Global, id: nat)
    requires Reaches(Exported(plan), s0, cs, s) && AtRest(s, id)
    ensures id in s.register && s.register[id].app < |s.heap| && id in s.first && s.first[id].InitTestEnv?
    ensures Environment.Inv(Value(s, s.register[id]), s.first[id].genesis)
  {
    InterleavingRefinesSequential(plan, s0, cs, s, id);
    var x := s.first[id];
    NewEnvIs(x.genesis, x.subspaces, x.now, x.begin, x.end);
    StepsKeepInv(BuiltEnv(x), s.issued[id], x.genesis);
  }

  // ---------- mutual exclusion, lookups, progress ----------

  lemma ReachedConsistent(sem: Semantics, s0: Global, cs: seq<Choice>, s: Global)
    requires KeepsContext(sem) && Reaches(sem, s0, cs, s)
    ensures Consistent(sem, s)
  {
    InitialConsistent(sem, s0);
    RunConsistent(sem, s0, cs);
  }

  /** The thread is between its Lock and its Unlock, or at a step the source runs between them. */
  predicate Inside(th: Thread) {
    th.code != [] && (th.mode.holding || Guarded(th.code[0]))
  }

  /** Two threads are never both inside the locked part of an export. */
  lemma MutualExclusion(sem: Semantics, s0: Global, cs: seq<Choice>, s: Global, t: nat, u: nat)
    requires KeepsContext(sem) && Reaches(sem, s0, cs, s) && t < |s.threads| && u < |s.threads|
    requires Inside(s.threads[t]) && Inside(s.threads[u])
    ensures t == u && s.mutex == Some(t)
  {
    hide Reaches, View, Ahead, IdOk, Distinct;
    ReachedConsistent(sem, s0, cs, s);
    assert ThreadOk(sem, s, t) && ThreadOk(sem, s, u);
  }

  /** Nothing but a foreign lock, or a panic of the chain code it calls, holds up thread `t`: it
      never waits for a mutex it holds, and its lookups find their environments. */
  predicate OnlyForeignLocks(sem: Semantics, s: Global, t: nat)
    requires t < |s.threads| && s.threads[t].code != []
  {
    && (s.threads[t].code[0] == Lock ==> s.mutex != Some(t))
    && (s.threads[t].code[0] in {Load, Store, Unlock, Build, Register} ==> Enabled(sem, s, Go(t)))
  }

  lemma OnlyForeignLocksFrom(sem: Semantics, s: Global, t: nat)
    requires Consistent(sem, s) && t < |s.threads| && s.threads[t].code != []
    ensures OnlyForeignLocks(sem, s, t)
  {
    hide View, Ahead, IdOk, Distinct;
    assert ThreadOk(sem, s, t);
  }

  lemma OnlyForeignLocksBlock(sem: Semantics, s0: Global, cs: seq<Choice>, s: Global, t: nat)
    requires KeepsContext(sem) && Reaches(sem, s0, cs, s) && t < |s.threads| && s.threads[t].code != []
    ensures OnlyForeignLocks(sem, s, t)
  {
    ReachedConsistent(sem, s0, cs, s);
    OnlyForeignLocksFrom(sem, s, t);
  }

  /** Thread `t` is running an export and its next step is held up by nothing but, possibly, a panic
      of the chain code it calls. */
  predicate Unblocked(sem: Semantics, s: Global, t: nat) {
    t < |s.threads| && s.threads[t].code != [] && (s.threads[t].code[0].Work? || Enabled(sem, s, Go(t)))
  }

  lemma SomeThreadUnblocked(sem: Semantics, s: Global, t: nat) returns (u: nat)
    requires Consistent(sem, s) && t < |s.threads| && s.threads[t].code != []
    ensures Unblocked(sem, s, u)
  {
    hide View, Ahead, IdOk, Distinct;
    u := t;
    if s.threads[t].code[0] == Lock && s.mutex.Some? {
      u := s.mutex.value;
      assert ThreadOk(sem, s, u);
    }
    OnlyForeignLocksFrom(sem, s, u);
  }

  /** Deadlock freedom: as long as any thread is inside an export, some thread is unblocked. */
  lemma SomeThreadMoves(sem: Semantics, s0: Global, cs: seq<Choice>, s: Global, t: nat) returns (u: nat)
    requires KeepsContext(sem) && Reaches(sem, s0, cs, s) && t < |s.threads| && s.threads[t].code != []
    ensures Unblocked(sem, s, u)
  {
    ReachedConsistent(sem, s0, cs, s);
    u := SomeThreadUnblocked(sem, s, t);
  }

  // ---------- where a thread is in InitTestEnv ----------

  /** The step of InitTestEnv with which `left` steps remain. */
  function InitStep(left: int): Micro {
    if left == 5 then Lock else if left == 4 then Build else if left == 3 then Register
    else if left == 2 then Store else Unlock
  }

  /** While a thread runs InitTestEnv, the steps it has left tell whether it holds the mutex and
      whether its environment has an identifier. */
  predicate InitPlace(th: Thread) {
    th.running.InitTestEnv? && th.code != [] ==>
      && |th.code| <= 5 && (forall i | 0 <= i < |th.code| :: th.code[i] == InitStep(|th.code| - i))
      && (th.mode.named <==> |th.code| <= 2) && (th.mode.holding <==> |th.code| <= 4)
  }

  predicate Placed(s: Global) {
    forall t | 0 <= t < |s.threads| :: InitPlace(s.threads[t])
  }

  lemma GoThreads(sem: Semantics, s: Global, t: nat)
    requires Enabled(sem, s, Go(t))
    ensures Next(sem, s, Go(t)).threads == s.threads[t := Onward(sem, s, t)]
  {
    hide Turn, Value, Onward;
    match s.threads[t].code[0]
    case Load =>
    case Store =>
    case Lock =>
    case Unlock =>
    case Work(_) =>
    case Build =>
    case Register =>
  }

  /** What a step does to the threads. */
  lemma GoMoves(sem: Semantics, s: Global, t: nat)
    requires Enabled(sem, s, Go(t))
    ensures var s' := Next(sem, s, Go(t));
      && |s'.threads| == |s.threads| && (forall u | 0 <= u < |s.threads| && u != t :: s'.threads[u] == s.threads[u])
      && var th, th' := s.threads[t], s'.threads[t];
      && th'.code == th.code[1..] && th'.running == th.running && th'.mode == Turn(th.mode, th.code[0])
      && (!th.code[0].Work? ==> th'.seen == th.seen) && (th.code[0] != Register ==> th'.mine == th.mine && th'.id == th.id)
  {
    hide Turn, Value, Next;
    GoThreads(sem, s, t);
  }

  lemma StartMoves(sem: Semantics, s: Global, t: nat)
    requires Enabled(sem, s, Start(t))
    ensures var s', x := Next(sem, s, Start(t)), Upcoming(sem, t, s.threads[t]);
      && |s'.threads| == |s.threads| && (forall u | 0 <= u < |s.threads| && u != t :: s'.threads[u] == s.threads[u])
      && var th, th' := s.threads[t], s'.threads[t];
      && th'.code == Program(x) && th'.running == x && th'.mode == StartMode(x) && th'.id == IdOf(x)
      && th'.seen == th.seen + [Started(sem.plan(t, th.seen).value)] && th'.mine == th.mine
  {
    hide Program, StartMode, CallsOf, Upcoming;
  }

  lemma NextPlaced(sem: Semantics, s: Global, c: Choice)
    requires Placed(s) && Enabled(sem, s, c)
    ensures Placed(Next(sem, s, c))
  {
    hide Next, Enabled, InitPlace, Program, StartMode, Turn, Upcoming;
    var t, s' := c.thread, Next(sem, s, c);
    EnabledThread(sem, s, c);
    match c
    case Start(_) =>
      StartMoves(sem, s, t);
      StartPlaced(s'.threads[t]);
    case Go(_) =>
      GoMoves(sem, s, t);
      TurnPlaced(s.threads[t], s'.threads[t]);
  }

  lemma EnabledThread(sem: Semantics, s: Global, c: Choice)
    requires Enabled(sem, s, c)
    ensures c.thread < |s.threads| && (c.Go? ==> s.threads[c.thread].code != []) &&
            (c.Start? ==> Ready(sem, c.thread, s.threads[c.thread]))
  {
  }

  lemma StartPlaced(th: Thread)
    requires th.code == Program(th.running) && th.mode == StartMode(th.running)
    ensures InitPlace(th)
  {
  }

  lemma TurnPlaced(th: Thread, th': Thread)
    requires InitPlace(th) && th.code != []
    requires th'.code == th.code[1..] && th'.running == th.running && th'.mode == Turn(th.mode, th.code[0])
    ensures InitPlace(th')
  {
  }

  // ---------- identifiers ----------

  /** The choice takes the mutex for an InitTestEnv. */
  predicate LocksForInit(s: Global, c: Choice) {
    && c.Go? && c.thread < |s.threads| && s.threads[c.thread].running.InitTestEnv?
    && s.threads[c.thread].code != [] && s.threads[c.thread].code[0] == Lock
  }

  function LockOf(s: Global, c: Choice): seq<nat> {
    if LocksForInit(s, c) then [c.thread] else []
  }

  /** The threads that took the mutex for an InitTestEnv, in the order in which they took it. */
  function InitLocks(sem: Semantics, s: Global, cs: seq<Choice>): seq<nat>
    requires Possible(sem, s, cs)
    decreases |cs|
  {
    if cs == [] then [] else LockOf(s, cs[0]) + InitLocks(sem, Next(sem, s, cs[0]), cs[1..])
  }

  /** The holder of the mutex is in InitTestEnv and has not been given an identifier yet. */
  predicate Pending(s: Global) {
    && s.mutex.Some? && s.mutex.value < |s.threads|
    && var th := s.threads[s.mutex.value];
    th.code != [] && th.running.InitTestEnv? && !th.mode.named
  }

  /** So far the environments got the numbers of their InitTestEnv's locks. */
  ghost predicate Numbered(s: Global, locks: seq<nat>) {
    && |locks| == s.counter + (if Pending(s) then 1 else 0)
    && (Pending(s) ==> locks[s.counter] == s.mutex.value)
    && (forall id :: id in s.owner <==> 1 <= id <= s.counter)
    && (forall id | id in s.owner :: s.owner[id] == locks[id - 1])
  }

  lemma NextNumbered(sem: Semantics, s: Global, c: Choice, locks: seq<nat>)
    requires Enabled(sem, s, c) && Consistent(sem, s) && Consistent(sem, Next(sem, s, c)) && Placed(s) && Numbered(s, locks)
    ensures Numbered(Next(sem, s, c), locks + LockOf(s, c))
  {
    hide Consistent, View, Ahead, IdOk, Distinct, WorkCalls, Program, Numbered, InitPlace, Facts;
    var t, s' := c.thread, Next(sem, s, c);
    ThreadFacts(sem, s, t);
    ThreadFacts(sem, s', t);
    NextPlaced(sem, s, c);
    if c.Go? && s.threads[t].code[0] !in {Lock, Unlock, Register} { OtherMoves(sem, s, t); }
    assert InitPlace(s.threads[t]) && InitPlace(s'.threads[t]);
    assert LockOf(s, c) == [] ==> locks + LockOf(s, c) == locks;
    var th := s.threads[t];
    if c.Start? {
      StartNumbered(sem, s, t, locks);
    } else if th.code[0] in {Lock, Unlock} {
      MutexNumbered(sem, s, t, locks);
    } else if th.code[0] == Register {
      RegisterNumbered(sem, s, t, locks);
    } else {
      OtherNumbered(sem, s, t, locks);
    }
  }

  /** What the invariants say of one thread, as far as identifiers are concerned. */
  predicate Facts(s: Global, t: nat) {
    && t < |s.threads| && InitPlace(s.threads[t])
    && (s.threads[t].code != [] && s.threads[t].mode.holding <==> s.mutex == Some(t))
    && (s.threads[t].code != [] && !s.threads[t].mode.named ==> s.threads[t].running.InitTestEnv?)
    && (s.threads[t].code != [] ==> Permitted(s.threads[t].mode, s.threads[t].code[0]))
  }

  lemma ThreadFacts(sem: Semantics, s: Global, t: nat)
    requires Consistent(sem, s) && t < |s.threads|
    ensures InitPlace(s.threads[t]) ==> Facts(s, t)
  {
    hide View, Ahead, IdOk, Distinct;
    assert ThreadOk(sem, s, t);
  }

  lemma StartNumbered(sem: Semantics, s: Global, t: nat, locks: seq<nat>)
    requires Enabled(sem, s, Start(t)) && Facts(s, t) && Numbered(s, locks)
    ensures Numbered(Next(sem, s, Start(t)), locks)
  {
    hide InitPlace, Program, CallsOf;
    assert s.mutex != Some(t);
  }

  lemma MutexNumbered(sem: Semantics, s: Global, t: nat, locks: seq<nat>)
    requires Enabled(sem, s, Go(t)) && Facts(s, t) && Numbered(s, locks) && s.threads[t].code[0] in {Lock, Unlock}
    ensures Numbered(Next(sem, s, Go(t)), locks + LockOf(s, Go(t)))
  {
    var th := s.threads[t];
    if th.running.InitTestEnv? {
      assert th.code[0] == Lock ==> |th.code| == 5;
      assert th.code[0] == Unlock ==> |th.code| == 1;
    }
  }

  lemma RegisterNumbered(sem: Semantics, s: Global, t: nat, locks: seq<nat>)
    requires Enabled(sem, s, Go(t)) && Facts(s, t) && Numbered(s, locks) && s.threads[t].code[0] == Register
    ensures Numbered(Next(sem, s, Go(t)), locks)
  {
    hide InitPlace;
    assert s.mutex == Some(t) && Pending(s);
  }

  /** Only the steps on the mutex and Register touch what identifiers depend on. */
  lemma OtherMoves(sem: Semantics, s: Global, t: nat)
    requires Enabled(sem, s, Go(t)) && s.threads[t].code[0] !in {Lock, Unlock, Register}
    ensures var s' := Next(sem, s, Go(t));
      s'.mutex == s.mutex && s'.counter == s.counter && s'.owner == s.owner && LockOf(s, Go(t)) == [] &&
      s'.threads[t].mode.named == s.threads[t].mode.named && s'.threads[t].mode.holding == s.threads[t].mode.holding
  {
    hide Value;
    match s.threads[t].code[0]
    case Load =>
    case Store =>
    case Work(_) =>
    case Build =>
  }

  lemma OtherNumbered(sem: Semantics, s: Global, t: nat, locks: seq<nat>)
    requires Enabled(sem, s, Go(t)) && Facts(s, t) && Facts(Next(sem, s, Go(t)), t) && Numbered(s, locks)
    requires s.threads[t].code[0] !in {Lock, Unlock, Register}
    ensures Numbered(Next(sem, s, Go(t)), locks)
  {
    hide Next, Enabled, InitPlace, Permitted, Turn;
    EnabledThread(sem, s, Go(t));
    GoMoves(sem, s, t);
    OtherMoves(sem, s, t);
    assert Pending(Next(sem, s, Go(t))) == Pending(s);
  }

  lemma {:induction false} RunNumbered(sem: Semantics, s: Global, cs: seq<Choice>, locks: seq<nat>)
    requires KeepsContext(sem) && Consistent(sem, s) && Placed(s) && Numbered(s, locks) && Possible(sem, s, cs)
    ensures Numbered(Reached(sem, s, cs), locks + InitLocks(sem, s, cs))
    decreases |cs|
  {
    hide Consistent, Placed, Numbered, Next, Enabled, LockOf;
    if cs == [] {
      assert locks + [] == locks;
    } else {
      var s', lock := Next(sem, s, cs[0]), LockOf(s, cs[0]);
      NextKeeps(sem, s, cs[0]);
      NextPlaced(sem, s, cs[0]);
      NextNumbered(sem, s, cs[0], locks);
      RunNumbered(sem, s', cs[1..], locks + lock);
      assert locks + lock + InitLocks(sem, s', cs[1..]) == locks + (lock + InitLocks(sem, s', cs[1..]));
    }
  }

  /** In every interleaving the identifiers handed out are 1, 2, 3, ... in the order in which their
      InitTestEnv calls took the mutex, and the registry holds no other key. */
  lemma {:induction false} IdentifiersFollowLocks(sem: Semantics, s0: Global, cs: seq<Choice>, s: Global)
    requires KeepsContext(sem) && Reaches(sem, s0, cs, s)
    ensures var locks := InitLocks(sem, s0, cs);
      && s.counter <= |locks| <= s.counter + 1
      && (forall id :: id in s.owner <==> 1 <= id <= s.counter)
      && (forall id | id in s.owner :: s.owner[id] == locks[id - 1])
      && (forall id | id in s.register :: 1 <= id <= s.counter)
  {
    hide Consistent;
    InitialConsistent(sem, s0);
    RunNumbered(sem, s0, cs, []);
    assert [] + InitLocks(sem, s0, cs) == InitLocks(sem, s0, cs);
    ReachedConsistent(sem, s0, cs, s);
    KeysOwned(sem, s);
  }

  lemma KeysOwned(sem: Semantics, s: Global)
    requires Consistent(sem, s)
    ensures s.register.Keys <= s.owner.Keys
  {
  }

  /** Whatever is created later in a run has a greater identifier than everything created before,
      and no identifier ever changes its owner. */
  lemma {:induction false} IdentifiersGrow(sem: Semantics, s0: Global, cs: seq<Choice>, s: Global,
                                           more: seq<Choice>, s': Global)
    requires KeepsContext(sem) && Reaches(sem, s0, cs, s)
    requires Possible(sem, s, more) && s' == Reached(sem, s, more)
    ensures forall id | id in s.owner :: id in s'.owner && s'.owner[id] == s.owner[id]
    ensures forall id, k | id in s'.owner && id !in s.owner && k in s.owner :: k < id
  {
    hide Consistent;
    ReachedConsistent(sem, s0, cs, s);
    OwnersStay(sem, s, more);
    IdentifiersFollowLocks(sem, s0, cs, s);
    RunConsistent(sem, s, more);
    IdsPositive(sem, s');
  }

  lemma IdsPositive(sem: Semantics, s: Global)
    requires Consistent(sem, s)
    ensures forall id | id in s.owner :: 1 <= id <= s.counter
  {
    forall id | id in s.owner ensures 1 <= id <= s.counter { assert IdOk(sem, s, id); }
  }

  lemma {:induction false} OwnersStay(sem: Semantics, s: Global, cs: seq<Choice>)
    requires KeepsContext(sem) && Consistent(sem, s) && Possible(sem, s, cs)
    ensures forall id | id in s.owner :: id in Reached(sem, s, cs).owner && Reached(sem, s, cs).owner[id] == s.owner[id]
    decreases |cs|
  {
    hide Consistent, Next, Enabled;
    if cs != [] {
      NextKeeps(sem, s, cs[0]);
      IdsPositive(sem, s);
      OwnersOfNext(sem, s, cs[0]);
      OwnersStay(sem, Next(sem, s, cs[0]), cs[1..]);
    }
  }

  lemma OwnersOfNext(sem: Semantics, s: Global, c: Choice)
    requires Enabled(sem, s, c) && s.counter + 1 !in s.owner
    ensures forall id | id in s.owner :: id in Next(sem, s, c).owner && Next(sem, s, c).owner[id] == s.owner[id]
  {
  }
}
