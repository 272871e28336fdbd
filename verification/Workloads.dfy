/** Threads that decide what to call next from the answers they have got: what a thread sees and what
    its environments become is what it would see and make of them alone, and every workload ends. */
module Workloads {
  import opened Outcomes
  import opened Environment
  import opened Interleaving
  import opened InterleavingProofs
  import opened Concurrency
  import Runs
  import Traces

  // ---------- a thread alone ----------

  /** A thread that runs alone: its environments in the order of their creation, and the calls of
      its current export that are still to come, on the environment `at`. */
  datatype Solo = Solo(envs: seq<Env>, left: seq<Call>, at: nat)

  /** One more event after `front`, which left the thread at `m`; None if it cannot happen. */
  function SoloNext(sem: Semantics, t: nat, front: seq<Seen>, m: Solo, event: Seen): Option<Solo> {
    match event
    case Started(x) =>
      if m.left != [] || sem.plan(t, front) != Some(x) then None
      else if x.InitTestEnv? then Some(Solo(m.envs + [sem.built(x)], [], 0))
      else if x.id < |m.envs| then Some(Solo(m.envs, CallsOf(x), x.id))
      else None
    case Answered(ret) =>
      if m.left == [] || m.at >= |m.envs| then None
      else
        match sem.step(m.envs[m.at], m.left[0])
        case Panicked => None
        case Returned((e, r)) => if r == ret then Some(Solo(m.envs[m.at := e], m.left[1..], m.at)) else None
  }

  /** Where thread `t` alone is after `seen`; None if alone it would not see that. */
  function Alone(sem: Semantics, t: nat, seen: seq<Seen>): Option<Solo> {
    if seen == [] then Some(Solo([], [], 0))
    else
      var front := seen[..|seen| - 1];
      var m :- Alone(sem, t, front);
      SoloNext(sem, t, front, m, seen[|seen| - 1])
  }

  lemma {:induction false} AloneMore(sem: Semantics, t: nat, seen: seq<Seen>, event: Seen)
    requires Alone(sem, t, seen).Some?
    ensures Alone(sem, t, seen + [event]) == SoloNext(sem, t, seen, Alone(sem, t, seen).value, event)
  {
    hide SoloNext;
    assert (seen + [event])[..|seen|] == seen;
  }

  lemma {:induction false} AlonePrefix(sem: Semantics, t: nat, seen: seq<Seen>, n: nat)
    requires Alone(sem, t, seen).Some? && n <= |seen|
    ensures Alone(sem, t, seen[..n]).Some?
  {
    hide SoloNext;
    if n == |seen| {
      assert seen[..n] == seen;
    } else {
      AlonePrefix(sem, t, seen[..|seen| - 1], n);
      assert seen[..|seen| - 1][..n] == seen[..n];
    }
  }

  /** Alone, a thread has no choice: of two things it can see, one continues the other. */
  lemma {:induction false} AloneIsUnique(sem: Semantics, t: nat, seen: seq<Seen>, seen': seq<Seen>)
    requires Alone(sem, t, seen).Some? && Alone(sem, t, seen').Some? && |seen| <= |seen'|
    ensures seen == seen'[..|seen|]
  {
    hide SoloNext;
    if seen != [] {
      var n := |seen| - 1;
      AlonePrefix(sem, t, seen', n);
      AlonePrefix(sem, t, seen', n + 1);
      AloneIsUnique(sem, t, seen[..n], seen'[..n]);
      assert seen'[..n][..n] == seen'[..n] && seen'[..n + 1][..n] == seen'[..n];
      OneEvent(sem, t, seen[..n], Alone(sem, t, seen[..n]).value, seen[n], seen'[n]);
      assert seen == seen[..n] + [seen[n]] && seen'[..n + 1] == seen'[..n] + [seen'[n]];
    }
  }

  lemma OneEvent(sem: Semantics, t: nat, front: seq<Seen>, m: Solo, event: Seen, event': Seen)
    requires SoloNext(sem, t, front, m, event).Some? && SoloNext(sem, t, front, m, event').Some?
    ensures event == event'
  {
  }

  /** How many exports were started, and how many of them were InitTestEnv. */
  function Starts(seen: seq<Seen>): nat {
    if seen == [] then 0 else Starts(seen[..|seen| - 1]) + if seen[|seen| - 1].Started? then 1 else 0
  }

  function Inits(seen: seq<Seen>): nat {
    if seen == [] then 0
    else
      var last := seen[|seen| - 1];
      Inits(seen[..|seen| - 1]) + if last.Started? && last.x.InitTestEnv? then 1 else 0
  }

  lemma {:induction false} StartsMore(seen: seq<Seen>, event: Seen)
    ensures Starts(seen + [event]) == Starts(seen) + if event.Started? then 1 else 0
  {
    assert (seen + [event])[..|seen|] == seen;
  }

  lemma {:induction false} AloneHas(sem: Semantics, t: nat, seen: seq<Seen>)
    requires Alone(sem, t, seen).Some?
    ensures |Alone(sem, t, seen).value.envs| == Inits(seen)
  {
    if seen != [] { AloneHas(sem, t, seen[..|seen| - 1]); }
  }

  // ---------- a thread among others ----------

  /** An InitTestEnv that has not got its identifier yet. */
  function Unregistered(th: Thread): nat {
    if th.code != [] && th.running.InitTestEnv? && !th.mode.named then 1 else 0
  }

  /** The k-th environment of thread `t` amounts to `e`. */
  predicate Owns(s: Global, t: nat, k: nat, e: Env)
    requires t < |s.threads| && k < |s.threads[t].mine|
  {
    var id := s.threads[t].mine[k];
    id in s.owner && s.owner[id] == t && View(s, id) == Some(e)
  }

  /** Thread `t` is where it would be alone after what it has seen. */
  ghost predicate StandsAt(sem: Semantics, s: Global, t: nat, m: Solo)
    requires t < |s.threads|
  {
    var th := s.threads[t];
    && Alone(sem, t, th.seen) == Some(m)
    && |m.envs| == |th.mine| + Unregistered(th)
    && (Unregistered(th) == 1 ==> m.envs[|th.mine|] == sem.built(th.running))
    && (forall k | 0 <= k < |th.mine| :: Owns(s, t, k, m.envs[k]))
    && (forall j, k | 0 <= j < k < |th.mine| :: th.mine[j] != th.mine[k])
    && m.left == WorkCalls(th.code)
    && (m.left != [] ==> th.mode.named && m.at < |th.mine| && th.id == th.mine[m.at])
  }

  ghost predicate Mirrors(sem: Semantics, s: Global, t: nat)
    requires t < |s.threads|
  {
    Alone(sem, t, s.threads[t].seen).Some? && StandsAt(sem, s, t, Alone(sem, t, s.threads[t].seen).value)
  }

  ghost predicate AllMirror(sem: Semantics, s: Global) {
    forall t | 0 <= t < |s.threads| :: Mirrors(sem, s, t)
  }

  // ---------- what a step leaves as it was ----------

  /** The records of environment `id` are as before. */
  predicate SameRecords(s: Global, s': Global, id: nat) {
    && id in s.owner && id in s'.owner && s'.owner[id] == s.owner[id]
    && (id in s.first ==> id in s'.first && s'.first[id] == s.first[id])
    && (id in s.history ==> id in s'.history && s'.history[id] == s.history[id])
  }

  /** An environment is what its records make of it. */
  lemma SameView(sem: Semantics, s: Global, s': Global, id: nat)
    requires Consistent(sem, s) && Consistent(sem, s') && SameRecords(s, s', id)
    ensures View(s', id) == View(s, id)
  {
    hide View, Ahead, Replay, ThreadOk, Distinct;
    assert IdOk(sem, s, id) && IdOk(sem, s', id);
  }

  lemma RecordsOfGo(sem: Semantics, s: Global, t: nat)
    requires Enabled(sem, s, Go(t)) && s.threads[t].code[0] != Register && !s.threads[t].code[0].Work?
    ensures var s' := Next(sem, s, Go(t)); s'.owner == s.owner && s'.first == s.first && s'.history == s.history
  {
    hide Onward, Value;
    match s.threads[t].code[0]
    case Load =>
    case Store =>
    case Lock =>
    case Unlock =>
    case Build =>
  }

  lemma RecordsOfWork(sem: Semantics, s: Global, t: nat)
    requires Enabled(sem, s, Go(t)) && s.threads[t].code[0].Work?
    ensures var s', id := Next(sem, s, Go(t)), s.threads[t].id;
      && s'.owner == s.owner && s'.first == s.first
      && (forall k | k in s.history && k != id :: k in s'.history && s'.history[k] == s.history[k])
    ensures var th, th' := s.threads[t], Next(sem, s, Go(t)).threads[t];
      th'.seen == th.seen + [Answered(sem.step(Value(s, th.local), th.code[0].call).value.1)]
  {
    hide Turn, Value;
  }

  lemma RecordsOfRegister(sem: Semantics, s: Global, t: nat)
    requires Enabled(sem, s, Go(t)) && s.threads[t].code[0] == Register
    ensures var s', id := Next(sem, s, Go(t)), s.counter + 1;
      && s'.owner == s.owner[id := t] && s'.first == s.first[id := s.threads[t].running] && s'.history == s.history[id := []]
      && s'.threads[t].mine == s.threads[t].mine + [id]
  {
  }

  lemma RecordsOfStart(sem: Semantics, s: Global, t: nat)
    requires Enabled(sem, s, Start(t))
    ensures var s' := Next(sem, s, Start(t));
      s'.owner == s.owner && s'.first == s.first && s'.history == s.history && Named(s, t, Upcoming(sem, t, s.threads[t]))
  {
    hide Program, StartMode, CallsOf, Upcoming;
  }

  /** A thread works on an environment of its own. */
  lemma WorksOnOwn(sem: Semantics, s: Global, t: nat)
    requires Consistent(sem, s) && Enabled(sem, s, Go(t)) && s.threads[t].code[0].Work?
    ensures var th := s.threads[t];
      && th.id in s.owner && s.owner[th.id] == t && th.local.app < |s.heap|
      && View(s, th.id) == Some(Value(s, th.local)) && sem.step(Value(s, th.local), th.code[0].call).Returned?
  {
    hide View, Ahead, IdOk, Distinct, Value;
    assert ThreadOk(sem, s, t);
    WorkBefore(sem, s, t);
  }

  lemma WorkedOn(sem: Semantics, s: Global, t: nat)
    requires KeepsContext(sem) && Consistent(sem, s) && Enabled(sem, s, Go(t)) && s.threads[t].code[0].Work?
    ensures var th := s.threads[t];
      th.local.app < |s.heap| && sem.step(Value(s, th.local), th.code[0].call).Returned? &&
      View(Next(sem, s, Go(t)), th.id) == Some(sem.step(Value(s, th.local), th.code[0].call).value.0)
  {
    hide View, Ahead, IdOk, Distinct, Value, Next;
    assert ThreadOk(sem, s, t);
    WorksOnOwn(sem, s, t);
    WorkAfter(sem, s, t);
  }

  /** Whatever step is made, environments it does not work on keep their records. */
  lemma RecordsStay(sem: Semantics, s: Global, c: Choice, id: nat)
    requires Consistent(sem, s) && Enabled(sem, s, c) && c.thread < |s.threads| && id in s.owner && s.counter + 1 !in s.owner
    requires c.Go? && s.threads[c.thread].code != [] && s.threads[c.thread].code[0].Work? ==> id != s.threads[c.thread].id
    ensures SameRecords(s, Next(sem, s, c), id)
  {
    hide Consistent, Enabled, Next, Upcoming, Value, View;
    var t := c.thread;
    EnabledThread(sem, s, c);
    if c.Start? {
      RecordsOfStart(sem, s, t);
    } else if s.threads[t].code[0] == Register {
      RecordsOfRegister(sem, s, t);
    } else if s.threads[t].code[0].Work? {
      RecordsOfWork(sem, s, t);
    } else {
      RecordsOfGo(sem, s, t);
    }
  }

  lemma ViewStays(sem: Semantics, s: Global, c: Choice, id: nat)
    requires Consistent(sem, s) && Enabled(sem, s, c) && Consistent(sem, Next(sem, s, c)) && c.thread < |s.threads|
    requires id in s.owner && s.counter + 1 !in s.owner
    requires c.Go? && s.threads[c.thread].code != [] && s.threads[c.thread].code[0].Work? ==> id != s.threads[c.thread].id
    ensures var s' := Next(sem, s, c);
      id in s'.owner && s'.owner[id] == s.owner[id] && View(s', id) == View(s, id)
  {
    hide Consistent, Enabled, Next, View;
    RecordsStay(sem, s, c, id);
    SameView(sem, s, Next(sem, s, c), id);
  }

  // ---------- every step keeps threads where they would be alone ----------

  lemma NextKeepsCount(sem: Semantics, s: Global, c: Choice)
    requires Enabled(sem, s, c)
    ensures var s' := Next(sem, s, c);
      && |s'.threads| == |s.threads|
      && forall u | 0 <= u < |s.threads| && u != c.thread :: s'.threads[u] == s.threads[u]
  {
    hide Next, Enabled;
    if c.Start? { StartMoves(sem, s, c.thread); } else { GoMoves(sem, s, c.thread); }
  }

  lemma OthersMirror(sem: Semantics, s: Global, c: Choice, u: nat)
    requires Consistent(sem, s) && Enabled(sem, s, c) && Consistent(sem, Next(sem, s, c)) && s.counter + 1 !in s.owner
    requires c.thread < |s.threads| && u < |s.threads| && u != c.thread && Mirrors(sem, s, u)
    ensures u < |Next(sem, s, c).threads| && Mirrors(sem, Next(sem, s, c), u)
  {
    hide Consistent, Enabled, Next, View, Alone, WorkCalls, Value;
    var t, s' := c.thread, Next(sem, s, c);
    var m := Alone(sem, u, s.threads[u].seen).value;
    EnabledThread(sem, s, c);
    NextKeepsCount(sem, s, c);
    if c.Go? && s.threads[t].code[0].Work? { WorksOnOwn(sem, s, t); }
    forall k | 0 <= k < |s'.threads[u].mine| ensures Owns(s', u, k, m.envs[k]) {
      assert Owns(s, u, k, m.envs[k]);
      ViewStays(sem, s, c, s.threads[u].mine[k]);
    }
  }

  /** The environments of the moving thread that the step does not work on. */
  lemma OwnStays(sem: Semantics, s: Global, c: Choice, k: nat, e: Env)
    requires Consistent(sem, s) && Enabled(sem, s, c) && Consistent(sem, Next(sem, s, c)) && s.counter + 1 !in s.owner
    requires c.thread < |s.threads| && k < |s.threads[c.thread].mine| && Owns(s, c.thread, k, e)
    requires c.Go? && s.threads[c.thread].code != [] && s.threads[c.thread].code[0].Work? ==>
      s.threads[c.thread].mine[k] != s.threads[c.thread].id
    requires c.thread < |Next(sem, s, c).threads|
    requires k < |Next(sem, s, c).threads[c.thread].mine|
    requires Next(sem, s, c).threads[c.thread].mine[k] == s.threads[c.thread].mine[k]
    ensures Owns(Next(sem, s, c), c.thread, k, e)
  {
    hide Consistent, Enabled, Next, View;
    ViewStays(sem, s, c, s.threads[c.thread].mine[k]);
  }

  lemma StartMirrors(sem: Semantics, s: Global, t: nat)
    requires Consistent(sem, s) && Enabled(sem, s, Start(t)) && Consistent(sem, Next(sem, s, Start(t)))
    requires s.counter + 1 !in s.owner && t < |s.threads| && Mirrors(sem, s, t)
    ensures t < |Next(sem, s, Start(t)).threads| && Mirrors(sem, Next(sem, s, Start(t)), t)
  {
    hide Consistent, Enabled, Next, View, Alone, Program, Value, Owns;
    var s', th := Next(sem, s, Start(t)), s.threads[t];
    var m := Alone(sem, t, th.seen).value;
    EnabledThread(sem, s, Start(t));
    var x := sem.plan(t, th.seen).value;
    StartMoves(sem, s, t);
    SameCalls(th, x);
    ProgramsCheck(Upcoming(sem, t, th));
    AloneMore(sem, t, th.seen, Started(x));
    var m' := Alone(sem, t, s'.threads[t].seen).value;
    forall k | 0 <= k < |s'.threads[t].mine| ensures Owns(s', t, k, m'.envs[k]) {
      OwnStays(sem, s, Start(t), k, m.envs[k]);
    }
  }

  lemma SameCalls(th: Thread, x: Export)
    requires Resolvable(th, x)
    ensures CallsOf(Resolved(th, x)) == CallsOf(x)
    ensures if x.InitTestEnv? then Resolved(th, x) == x
            else !Resolved(th, x).InitTestEnv? && IdOf(Resolved(th, x)) == th.mine[x.id]
  {
  }

  lemma QuietMirrors(sem: Semantics, s: Global, t: nat)
    requires Consistent(sem, s) && Enabled(sem, s, Go(t)) && Consistent(sem, Next(sem, s, Go(t)))
    requires s.counter + 1 !in s.owner && t < |s.threads| && InitPlace(s.threads[t]) && Mirrors(sem, s, t)
    requires s.threads[t].code != [] && s.threads[t].code[0] != Register && !s.threads[t].code[0].Work?
    ensures t < |Next(sem, s, Go(t)).threads| && Mirrors(sem, Next(sem, s, Go(t)), t)
  {
    hide Consistent, Enabled, Next, View, Alone, Value, Owns;
    var s', th := Next(sem, s, Go(t)), s.threads[t];
    var m := Alone(sem, t, th.seen).value;
    GoMoves(sem, s, t);
    assert Unregistered(s'.threads[t]) == Unregistered(th) by {
      assert th.code[0] != InitStep(3);
    }
    forall k | 0 <= k < |s'.threads[t].mine| ensures Owns(s', t, k, m.envs[k]) {
      OwnStays(sem, s, Go(t), k, m.envs[k]);
    }
  }

  lemma WorkMirrors(sem: Semantics, s: Global, t: nat)
    requires KeepsContext(sem) && Consistent(sem, s) && Enabled(sem, s, Go(t)) && Consistent(sem, Next(sem, s, Go(t)))
    requires s.counter + 1 !in s.owner && t < |s.threads| && InitPlace(s.threads[t]) && Mirrors(sem, s, t)
    requires s.threads[t].code != [] && s.threads[t].code[0].Work?
    ensures t < |Next(sem, s, Go(t)).threads| && Mirrors(sem, Next(sem, s, Go(t)), t)
  {
    hide Consistent, Enabled, Next, View, Alone, Value, Owns;
    var s', th := Next(sem, s, Go(t)), s.threads[t];
    var m, call := Alone(sem, t, th.seen).value, th.code[0].call;
    GoMoves(sem, s, t);
    WorksOnOwn(sem, s, t);
    WorkedOn(sem, s, t);
    RecordsOfWork(sem, s, t);
    OwnsWorked(sem, s, t, m);
    AloneMore(sem, t, th.seen, Answered(sem.step(Value(s, th.local), call).value.1));
    var m' := Alone(sem, t, s'.threads[t].seen).value;
    assert Unregistered(s'.threads[t]) == Unregistered(th) by {
      assert th.code[0] != InitStep(3);
    }
    forall k | 0 <= k < |s'.threads[t].mine| ensures Owns(s', t, k, m'.envs[k]) {
      if k == m.at {
        NowOwns(s', t, k, m'.envs[k]);
      } else {
        OwnStays(sem, s, Go(t), k, m.envs[k]);
      }
    }
  }

  lemma OwnsWorked(sem: Semantics, s: Global, t: nat, m: Solo)
    requires t < |s.threads| && StandsAt(sem, s, t, m) && m.left != []
    requires s.threads[t].local.app < |s.heap| && View(s, s.threads[t].id) == Some(Value(s, s.threads[t].local))
    ensures m.envs[m.at] == Value(s, s.threads[t].local)
  {
    hide View, Alone, Value, WorkCalls;
    assert Owns(s, t, m.at, m.envs[m.at]);
  }

  lemma NowOwns(s: Global, t: nat, k: nat, e: Env)
    requires t < |s.threads| && k < |s.threads[t].mine|
    requires var id := s.threads[t].mine[k]; id in s.owner && s.owner[id] == t && View(s, id) == Some(e)
    ensures Owns(s, t, k, e)
  {
    hide View;
  }

  lemma RegisterMirrors(sem: Semantics, s: Global, t: nat)
    requires Consistent(sem, s) && Enabled(sem, s, Go(t)) && Consistent(sem, Next(sem, s, Go(t)))
    requires s.counter + 1 !in s.owner && t < |s.threads| && Facts(s, t) && Mirrors(sem, s, t)
    requires s.threads[t].code != [] && s.threads[t].code[0] == Register
    ensures t < |Next(sem, s, Go(t)).threads| && Mirrors(sem, Next(sem, s, Go(t)), t)
  {
    hide Consistent, Enabled, Next, View, Alone, Value, Owns, InitPlace;
    var s', th := Next(sem, s, Go(t)), s.threads[t];
    var m, n := Alone(sem, t, th.seen).value, |th.mine|;
    GoMoves(sem, s, t);
    RecordsOfRegister(sem, s, t);
    RegisteredView(sem, s, t);
    forall k | 0 <= k < |s'.threads[t].mine| ensures Owns(s', t, k, m.envs[k]) {
      if k < n {
        OwnStays(sem, s, Go(t), k, m.envs[k]);
      } else {
        NowOwns(s', t, k, m.envs[k]);
      }
    }
    forall j, k | 0 <= j < k < |s'.threads[t].mine| ensures s'.threads[t].mine[j] != s'.threads[t].mine[k] {
      assert Owns(s, t, j, m.envs[j]);
      OwnedBefore(s, t, j, m.envs[j]);
    }
  }

  lemma OwnedBefore(s: Global, t: nat, k: nat, e: Env)
    requires t < |s.threads| && k < |s.threads[t].mine| && Owns(s, t, k, e)
    ensures s.threads[t].mine[k] in s.owner
  {
  }

  lemma RegisteredView(sem: Semantics, s: Global, t: nat)
    requires Consistent(sem, s) && Enabled(sem, s, Go(t)) && s.threads[t].code[0] == Register
    ensures View(Next(sem, s, Go(t)), s.counter + 1) == Some(sem.built(s.threads[t].running))
  {
    hide View, Ahead, IdOk, Distinct, Next;
    assert ThreadOk(sem, s, t);
    RegisterNewView(sem, s, t);
  }

  lemma NextMirrors(sem: Semantics, s: Global, c: Choice)
    requires KeepsContext(sem) && Consistent(sem, s) && Placed(s) && AllMirror(sem, s) && Enabled(sem, s, c)
    ensures AllMirror(sem, Next(sem, s, c))
  {
    hide Consistent, Enabled, Next, Mirrors, InitPlace, Facts;
    var t, s' := c.thread, Next(sem, s, c);
    NextKeeps(sem, s, c);
    EnabledThread(sem, s, c);
    IdsPositive(sem, s);
    NextKeepsCount(sem, s, c);
    assert Mirrors(sem, s, t) && InitPlace(s.threads[t]);
    forall u | 0 <= u < |s'.threads| ensures Mirrors(sem, s', u) {
      if u != t {
        assert Mirrors(sem, s, u);
        OthersMirror(sem, s, c, u);
      } else if c.Start? {
        StartMirrors(sem, s, t);
      } else if s.threads[t].code[0] == Register {
        ThreadFacts(sem, s, t);
        RegisterMirrors(sem, s, t);
      } else if s.threads[t].code[0].Work? {
        WorkMirrors(sem, s, t);
      } else {
        QuietMirrors(sem, s, t);
      }
    }
  }

  lemma {:induction false} RunMirrors(sem: Semantics, s: Global, cs: seq<Choice>)
    requires KeepsContext(sem) && Consistent(sem, s) && Placed(s) && AllMirror(sem, s) && Possible(sem, s, cs)
    ensures AllMirror(sem, Reached(sem, s, cs))
    decreases |cs|
  {
    hide Consistent, Placed, AllMirror, Next, Enabled;
    if cs != [] {
      NextKeeps(sem, s, cs[0]);
      NextPlaced(sem, s, cs[0]);
      NextMirrors(sem, s, cs[0]);
      RunMirrors(sem, Next(sem, s, cs[0]), cs[1..]);
    }
  }

  lemma {:induction false} ReachedMirrors(sem: Semantics, s0: Global, cs: seq<Choice>, s: Global)
    requires KeepsContext(sem) && Reaches(sem, s0, cs, s)
    ensures AllMirror(sem, s)
  {
    hide Consistent;
    InitialConsistent(sem, s0);
    forall t | 0 <= t < |s0.threads| ensures Mirrors(sem, s0, t) {}
    RunMirrors(sem, s0, cs);
  }

  // ---------- what a thread can rely on ----------

  /** The k-th environment of thread `t` as the registry has it. */
  function Registered(s: Global, t: nat, k: nat): Option<Env> {
    if t < |s.threads| && k < |s.threads[t].mine| && s.threads[t].mine[k] in s.register &&
       s.register[s.threads[t].mine[k]].app < |s.heap|
    then Some(Value(s, s.register[s.threads[t].mine[k]]))
    else None
  }

  /** Whatever the other threads do: between exports, a thread has got the answers it would get alone,
      calling what its plan says on the ground of these very answers, and its environments are what
      it would have made of them alone. */
  lemma {:induction false} AloneAmongOthers(plan: Plan, s0: Global, cs: seq<Choice>, s: Global, t: nat)
    requires Reaches(Exported(plan), s0, cs, s) && t < |s.threads| && s.threads[t].code == []
    ensures var alone := Alone(Exported(plan), t, s.threads[t].seen);
      && alone.Some? && alone.value.left == [] && |alone.value.envs| == |s.threads[t].mine|
      && forall k | 0 <= k < |s.threads[t].mine| :: Registered(s, t, k) == Some(alone.value.envs[k])
  {
    hide Reaches, Alone, Consistent, View, Value;
    var sem := Exported(plan);
    ExportedKeepsContext(plan);
    ReachedMirrors(sem, s0, cs, s);
    ReachedConsistent(sem, s0, cs, s);
    assert Mirrors(sem, s, t);
    var m := Alone(sem, t, s.threads[t].seen).value;
    forall k | 0 <= k < |s.threads[t].mine| ensures Registered(s, t, k) == Some(m.envs[k]) {
      assert Owns(s, t, k, m.envs[k]);
      RestingView(sem, s, s.threads[t].mine[k]);
    }
  }

  lemma RestingView(sem: Semantics, s: Global, id: nat)
    requires Consistent(sem, s) && AtRest(s, id)
    ensures id in s.register && s.register[id].app < |s.heap| && View(s, id) == Some(Value(s, s.register[id]))
  {
    hide Ahead, Replay;
    assert IdOk(sem, s, id);
    Published(sem, s, s.owner[id], id);
  }

  /** Two interleavings, with other threads doing other things even: a thread that has finished its
      plan in both has called the same exports, got the same answers and has the same environments. */
  lemma SameOutcome(plan: Plan, s0: Global, cs: seq<Choice>, s: Global,
                    plan': Plan, s0': Global, cs': seq<Choice>, s': Global, t: nat)
    requires Reaches(Exported(plan), s0, cs, s) && t < |s.threads| && s.threads[t].code == []
    requires Reaches(Exported(plan'), s0', cs', s') && t < |s'.threads| && s'.threads[t].code == []
    requires forall seen :: plan(t, seen) == plan'(t, seen)
    requires plan(t, s.threads[t].seen).None? && plan(t, s'.threads[t].seen).None?
    ensures s'.threads[t].seen == s.threads[t].seen && |s'.threads[t].mine| == |s.threads[t].mine|
    ensures forall k | 0 <= k < |s.threads[t].mine| ::
      Registered(s, t, k).Some? && Registered(s', t, k) == Registered(s, t, k)
  {
    hide Reaches, Alone, Registered;
    AloneAmongOthers(plan, s0, cs, s, t);
    AloneAmongOthers(plan', s0', cs', s', t);
    SamePlanAlone(plan, plan', t, s'.threads[t].seen);
    if |s.threads[t].seen| <= |s'.threads[t].seen| {
      Finished(Exported(plan), t, s.threads[t].seen, s'.threads[t].seen);
    } else {
      Finished(Exported(plan), t, s'.threads[t].seen, s.threads[t].seen);
    }
  }

  lemma {:induction false} SamePlanAlone(plan: Plan, plan': Plan, t: nat, seen: seq<Seen>)
    requires forall seen :: plan(t, seen) == plan'(t, seen)
    ensures Alone(Exported(plan), t, seen) == Alone(Exported(plan'), t, seen)
  {
    if seen != [] { SamePlanAlone(plan, plan', t, seen[..|seen| - 1]); }
  }

  /** Nothing follows what a finished thread has seen. */
  lemma {:induction false} Finished(sem: Semantics, t: nat, seen: seq<Seen>, seen': seq<Seen>)
    requires Alone(sem, t, seen).Some? && Alone(sem, t, seen').Some? && |seen| <= |seen'|
    requires Alone(sem, t, seen).value.left == [] && sem.plan(t, seen).None?
    ensures seen' == seen
  {
    hide Alone;
    AloneIsUnique(sem, t, seen, seen');
    if |seen| < |seen'| {
      var n := |seen|;
      AlonePrefix(sem, t, seen', n + 1);
      assert seen'[..n + 1] == seen + [seen'[n]];
      AloneMore(sem, t, seen, seen'[n]);
    }
  }

  /** An environment whose calls are those of the driver's operations `api` is, in any interleaving,
      where the operations alone would have taken it: at height one plus the blocks they open, with
      the clock at the start plus five seconds plus their increments. */
  lemma {:induction false} InterleavedRun(plan: Plan, s0: Global, cs: seq<Choice>, s: Global, id: nat, api: seq<Runs.ApiCall>)
    requires Reaches(Exported(plan), s0, cs, s) && AtRest(s, id) && id in s.first && id in s.issued
    requires Runs.Run(BuiltEnv(s.first[id]), api).Returned?
    requires s.issued[id] == Traces.RunTrace(BuiltEnv(s.first[id]), api)
    ensures s.first[id].InitTestEnv? && id in s.register && s.register[id].app < |s.heap|
    ensures var e := Value(s, s.register[id]);
      && Runs.Run(BuiltEnv(s.first[id]), api) == Returned(e)
      && e.ctx == Ctx(1 + Runs.Blocks(api), s.first[id].now + 5 * SECOND + Runs.Time(api))
  {
    hide Reaches, Steps, BuiltEnv, Runs.Run, Traces.RunTrace;
    InterleavingRefinesSequential(plan, s0, cs, s, id);
    Traces.RunTraceIs(BuiltEnv(s.first[id]), api);
    RunOfBuilt(s.first[id], api);
  }

  lemma {:induction false} RunOfBuilt(x: Export, api: seq<Runs.ApiCall>)
    requires x.InitTestEnv? && Runs.Run(BuiltEnv(x), api).Returned?
    ensures Runs.Run(BuiltEnv(x), api).value.ctx == Ctx(1 + Runs.Blocks(api), x.now + 5 * SECOND + Runs.Time(api))
  {
    hide Runs.Run, NewEnv, Inv, Closed;
    NewEnvIs(x.genesis, x.subspaces, x.now, x.begin, x.end);
    Runs.RunAdvances(BuiltEnv(x), api, x.genesis);
  }

  // ---------- termination ----------

  /** Thread `t` calls at most `limits[t]` exports, whatever answers it gets. */
  ghost predicate Limited(plan: Plan, limits: seq<nat>) {
    forall t, seen | 0 <= t < |limits| && Starts(seen) >= limits[t] :: plan(t, seen).None?
  }

  /** A plan only names environments it has created before. */
  ghost predicate Sound(plan: Plan, t: nat) {
    forall seen | plan(t, seen).Some? && !plan(t, seen).value.InitTestEnv? :: plan(t, seen).value.id < Inits(seen)
  }

  /** An upper bound on the steps a thread still makes: no program is longer than six. */
  function StepsLeft(th: Thread, limit: nat): nat {
    |th.code| + if Starts(th.seen) <= limit then 7 * (limit - Starts(th.seen)) else 0
  }

  function Measure(threads: seq<Thread>, limits: seq<nat>): nat
    requires |threads| == |limits|
  {
    if threads == [] then 0 else StepsLeft(threads[0], limits[0]) + Measure(threads[1..], limits[1..])
  }

  lemma {:induction false} MeasureOfUpdate(threads: seq<Thread>, limits: seq<nat>, t: nat, th: Thread)
    requires t < |threads| == |limits|
    ensures Measure(threads[t := th], limits) ==
            Measure(threads, limits) - StepsLeft(threads[t], limits[t]) + StepsLeft(th, limits[t])
  {
    hide StepsLeft;
    if t == 0 {
      assert threads[t := th][1..] == threads[1..];
    } else {
      assert threads[t := th][1..] == threads[1..][t - 1 := th];
      MeasureOfUpdate(threads[1..], limits[1..], t - 1, th);
    }
  }

  lemma WorkStartsNothing(sem: Semantics, s: Global, t: nat)
    requires Enabled(sem, s, Go(t)) && s.threads[t].code[0].Work?
    ensures t < |Next(sem, s, Go(t)).threads| && Starts(Next(sem, s, Go(t)).threads[t].seen) == Starts(s.threads[t].seen)
  {
    hide Next, Starts;
    GoMoves(sem, s, t);
    RecordsOfWork(sem, s, t);
    StartsMore(s.threads[t].seen, Answered(sem.step(Value(s, s.threads[t].local), s.threads[t].code[0].call).value.1));
  }

  lemma {:induction false} NextDecreases(sem: Semantics, s: Global, c: Choice, limits: seq<nat>)
    requires Enabled(sem, s, c) && |s.threads| == |limits| && Limited(sem.plan, limits)
    ensures var s' := Next(sem, s, c); |s'.threads| == |limits| && Measure(s'.threads, limits) < Measure(s.threads, limits)
  {
    hide Next, Enabled, Program, StartMode, Upcoming, Measure, Starts;
    var t, s' := c.thread, Next(sem, s, c);
    EnabledThread(sem, s, c);
    var th := s.threads[t];
    if c.Start? {
      StartMoves(sem, s, t);
      ProgramsCheck(Upcoming(sem, t, th));
      StartsMore(th.seen, Started(sem.plan(t, th.seen).value));
    } else {
      GoMoves(sem, s, t);
      if th.code[0].Work? { WorkStartsNothing(sem, s, t); }
    }
    NextKeepsCount(sem, s, c);
    assert s'.threads == s.threads[t := s'.threads[t]];
    MeasureOfUpdate(s.threads, limits, t, s'.threads[t]);
  }

  lemma {:induction false} RunsAreBounded(sem: Semantics, s: Global, cs: seq<Choice>, limits: seq<nat>)
    requires Possible(sem, s, cs) && |s.threads| == |limits| && Limited(sem.plan, limits)
    ensures |Reached(sem, s, cs).threads| == |limits|
    ensures |cs| + Measure(Reached(sem, s, cs).threads, limits) <= Measure(s.threads, limits)
    decreases |cs|
  {
    hide Next, Enabled, Limited, Measure;
    if cs != [] {
      NextDecreases(sem, s, cs[0], limits);
      RunsAreBounded(sem, Next(sem, s, cs[0]), cs[1..], limits);
    }
  }

  function Sum(limits: seq<nat>): nat {
    if limits == [] then 0 else limits[0] + Sum(limits[1..])
  }

  lemma {:induction false} MeasureOfIdle(threads: seq<Thread>, limits: seq<nat>)
    requires |threads| == |limits| && forall t | 0 <= t < |threads| :: threads[t].code == [] && threads[t].seen == []
    ensures Measure(threads, limits) == 7 * Sum(limits)
  {
    if threads != [] { MeasureOfIdle(threads[1..], limits[1..]); }
  }

  /** The next step of thread `t` does not panic in chain code. */
  predicate Quiet(sem: Semantics, s: Global, t: nat) {
    t < |s.threads| && s.threads[t].code != [] && s.threads[t].code[0].Work? ==> Enabled(sem, s, Go(t))
  }

  /** While a thread is not finished, some step can be made: a step of a running export, or the start
      of what its plan says. */
  lemma UnfinishedRunsGoOn(sem: Semantics, s: Global, t: nat) returns (c: Choice)
    requires Consistent(sem, s) && AllMirror(sem, s) && (forall u: nat :: Quiet(sem, s, u))
    requires t < |s.threads| && Sound(sem.plan, t)
    requires s.threads[t].code != [] || sem.plan(t, s.threads[t].seen).Some?
    ensures Enabled(sem, s, c)
  {
    hide Consistent, Enabled, Mirrors;
    if s.threads[t].code != [] {
      var u := SomeThreadUnblocked(sem, s, t);
      assert Quiet(sem, s, u);
      c := Go(u);
    } else {
      assert Mirrors(sem, s, t);
      StartIsPossible(sem, s, t);
      c := Start(t);
    }
  }

  lemma StartIsPossible(sem: Semantics, s: Global, t: nat)
    requires t < |s.threads| && s.threads[t].code == [] && sem.plan(t, s.threads[t].seen).Some?
    requires Sound(sem.plan, t) && Mirrors(sem, s, t)
    ensures Enabled(sem, s, Start(t))
  {
    hide Alone, View, Inits;
    var th := s.threads[t];
    var x := sem.plan(t, th.seen).value;
    AloneHas(sem, t, th.seen);
    assert Resolvable(th, x);
    SameCalls(th, x);
    if !x.InitTestEnv? { assert Owns(s, t, x.id, Alone(sem, t, th.seen).value.envs[x.id]); }
  }

  /** Every workload finishes: a run makes at most seven steps for each export the plans allow, and one
      that cannot be extended has finished every plan. */
  lemma {:induction false} WorkloadsFinish(sem: Semantics, s0: Global, cs: seq<Choice>, s: Global, limits: seq<nat>)
    requires KeepsContext(sem) && Reaches(sem, s0, cs, s)
    requires |s0.threads| == |limits| && Limited(sem.plan, limits) && forall t: nat :: Sound(sem.plan, t)
    ensures |cs| <= 7 * Sum(limits)
    ensures (forall u: nat :: Quiet(sem, s, u)) && (forall c: Choice :: !Enabled(sem, s, c)) ==>
      forall t | 0 <= t < |s.threads| :: s.threads[t].code == [] && sem.plan(t, s.threads[t].seen).None?
  {
    hide Consistent, Enabled, AllMirror, Limited, Sound;
    RunsAreBounded(sem, s0, cs, limits);
    MeasureOfIdle(s0.threads, limits);
    ReachedConsistent(sem, s0, cs, s);
    ReachedMirrors(sem, s0, cs, s);
    if (forall u: nat :: Quiet(sem, s, u)) && (forall c: Choice :: !Enabled(sem, s, c)) {
      forall t | 0 <= t < |s.threads| ensures s.threads[t].code == [] && sem.plan(t, s.threads[t].seen).None? {
        if s.threads[t].code != [] || sem.plan(t, s.threads[t].seen).Some? {
          var c := UnfinishedRunsGoOn(sem, s, t);
        }
      }
    }
  }
}
