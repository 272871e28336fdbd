/** Threads calling the exported functions of main.go concurrently, with map load, map store, lock
    and unlock as separate atomic steps. Every environment is used by the thread that created it. */
module Interleaving {
  import opened Outcomes
  import opened Fee
  import opened Chain
  import opened Environment

  /** A registry value: `app` is the pointer (an index into the heap), the rest is copied. */
  datatype Entry = Entry(app: nat, ctx: Ctx, types: set<string>)

  datatype Export =
    | InitTestEnv(genesis: State, subspaces: set<string>, now: int, begin: Effect, end: Effect)
    | CleanUp(id: nat)
    | IncreaseTime(id: nat, seconds: u64, begin: Effect, end: Effect)
    | Invoke(id: nat, call: Call)

  datatype Micro =
    | Load
    | Store
    | Lock
    | Unlock
    | Work(call: Call)
    | Build
    | Register

  /** The atomic steps of an exported function, in source order. */
  function Program(x: Export): seq<Micro> {
    match x
    case InitTestEnv(_, _, _, _, _) => [Lock, Build, Register, Store, Unlock]
    case CleanUp(_) => [Load]
    case IncreaseTime(_, seconds, begin, end) =>
      [Load, Work(Begin(seconds, begin)), Store, Load, Work(End(end)), Store]
    case Invoke(_, call) =>
      match call
      case Begin(_, _) => [Load, Work(call), Store]
      case End(_) => [Load, Work(call), Store]
      case Fund(_, _, _) => [Load, Work(call), Store]
      case Execute(_, _) => [Load, Lock, Work(call), Store, Unlock]
      case Simulate(_, _) => [Load, Lock, Work(call), Unlock]
      case SetParams(_, _, _, _) => [Load, Lock, Work(call), Unlock]
      case _ => [Load, Work(call)]
  }

  function CallsOf(x: Export): seq<Call> {
    match x
    case InitTestEnv(_, _, _, _, _) => []
    case CleanUp(_) => []
    case IncreaseTime(_, seconds, begin, end) => [Begin(seconds, begin), End(end)]
    case Invoke(_, call) => [call]
  }

  // ---------- a static discipline every program follows ----------

  /** What a thread knows while it runs a program: whether it holds a copy, whether that copy is
      ahead of the registry, whether it holds the mutex, whether its environment has an id. */
  datatype Mode = Mode(loaded: bool, dirty: bool, holding: bool, named: bool)

  function Turn(m: Mode, micro: Micro): Mode {
    match micro
    case Load => m.(loaded := true)
    case Store => m.(dirty := false)
    case Lock => m.(holding := true)
    case Unlock => m.(holding := false)
    case Work(call) => m.(dirty := m.dirty || call.Begin?)
    case Build => m.(loaded := true, dirty := true)
    case Register => m.(named := true)
  }

  /** The steps the source runs under the global mutex. */
  predicate Guarded(micro: Micro) {
    micro == Build || micro == Register ||
    (micro.Work? && (micro.call.Execute? || micro.call.Simulate? || micro.call.SetParams?))
  }

  predicate Permitted(m: Mode, micro: Micro) {
    match micro
    case Load => m.named && !m.dirty
    case Store => m.named && m.loaded
    case Lock => !m.holding && !m.dirty
    case Unlock => m.holding && !m.dirty
    case Work(call) => m.named && m.loaded && (Guarded(micro) ==> m.holding)
    case Build => !m.named && m.holding && !m.loaded
    case Register => !m.named && m.loaded && m.holding
  }

  /** Run from mode `m`, the code never locks a mutex it holds, never loads over an unsaved copy,
      and ends with its copy stored and the mutex released. */
  predicate Check(code: seq<Micro>, m: Mode) {
    if code == [] then !m.dirty && !m.holding
    else Permitted(m, code[0]) && Check(code[1..], Turn(m, code[0]))
  }

  function StartMode(x: Export): Mode {
    Mode(false, false, false, !x.InitTestEnv?)
  }

  /** The code does what it claims from mode `m`: it checks, and its work is `calls`. */
  predicate Clean(code: seq<Micro>, m: Mode, calls: seq<Call>) {
    Check(code, m) && WorkCalls(code) == calls
  }

  lemma Finished(m: Mode)
    requires !m.dirty && !m.holding
    ensures Clean([], m, [])
  {
  }

  lemma Before(micro: Micro, code: seq<Micro>, m: Mode, calls: seq<Call>, whole: seq<Micro>)
    requires whole == [micro] + code && Permitted(m, micro) && Clean(code, Turn(m, micro), calls)
    ensures Clean(whole, m, WorkOf(micro) + calls)
  {
    assert whole[1..] == code;
  }

  /** No export acquires the mutex while holding it, each leaves it free and nothing unsaved, and
      the work of its program is the calls it stands for. */
  lemma ProgramsCheck(x: Export)
    ensures Clean(Program(x), StartMode(x), CallsOf(x))
    ensures 1 <= |Program(x)| <= 6
  {
    hide Clean;
    Finished(Mode(true, false, false, true));
    match x
    case InitTestEnv(_, _, _, _, _) => InitProgram();
    case CleanUp(_) => Before(Load, [], StartMode(x), [], [Load]);
    case IncreaseTime(_, seconds, begin, end) =>
      assert [Begin(seconds, begin)] + [End(end)] == CallsOf(x) && [End(end)] + [] == [End(end)];
      StoreProgram(End(end), Mode(true, false, false, true), [], [], [Load, Work(End(end)), Store]);
      StoreProgram(Begin(seconds, begin), StartMode(x), [Load, Work(End(end)), Store], [End(end)], Program(x));
    case Invoke(_, call) =>
      assert [call] + [] == [call];
      if call.Begin? || call.End? || call.Fund? {
        StoreProgram(call, StartMode(x), [], [], Program(x));
      } else if call.Execute? {
        ExecuteProgram(call);
      } else if call.Simulate? || call.SetParams? {
        LockedProgram(call);
      } else {
        ReadProgram(call);
      }
  }

  lemma StoreProgram(call: Call, m: Mode, rest: seq<Micro>, calls: seq<Call>, whole: seq<Micro>)
    requires !Guarded(Work(call)) && m.named && !m.dirty && Clean(rest, Mode(true, false, m.holding, true), calls)
    requires whole == [Load, Work(call), Store] + rest
    ensures Clean(whole, m, [call] + calls)
  {
    var m1 := Turn(m, Load);
    Before(Store, rest, Turn(m1, Work(call)), calls, [Store] + rest);
    Before(Work(call), [Store] + rest, m1, calls, [Work(call)] + ([Store] + rest));
    Before(Load, [Work(call)] + ([Store] + rest), m, [call] + calls, whole);
  }

  lemma ReadProgram(call: Call)
    requires !call.Begin? && !Guarded(Work(call))
    ensures Clean([Load, Work(call)], Mode(false, false, false, true), [call])
  {
    Before(Work(call), [], Mode(true, false, false, true), [], [Work(call)]);
    Before(Load, [Work(call)], Mode(false, false, false, true), [call], [Load, Work(call)]);
  }

  lemma LockedProgram(call: Call)
    requires !call.Begin?
    ensures Clean([Load, Lock, Work(call), Unlock], Mode(false, false, false, true), [call])
  {
    Before(Unlock, [], Mode(true, false, true, true), [], [Unlock]);
    Before(Work(call), [Unlock], Mode(true, false, true, true), [], [Work(call), Unlock]);
    Before(Lock, [Work(call), Unlock], Mode(true, false, false, true), [call], [Lock, Work(call), Unlock]);
    Before(Load, [Lock, Work(call), Unlock], Mode(false, false, false, true), [call], [Load, Lock, Work(call), Unlock]);
  }

  lemma ExecuteProgram(call: Call)
    requires !call.Begin?
    ensures Clean([Load, Lock, Work(call), Store, Unlock], Mode(false, false, false, true), [call])
  {
    var m := Mode(true, false, true, true);
    Before(Unlock, [], m, [], [Unlock]);
    Before(Store, [Unlock], m, [], [Store, Unlock]);
    Before(Work(call), [Store, Unlock], m, [], [Work(call), Store, Unlock]);
    Before(Lock, [Work(call), Store, Unlock], Mode(true, false, false, true), [call], [Lock, Work(call), Store, Unlock]);
    Before(Load, [Lock, Work(call), Store, Unlock], Mode(false, false, false, true), [call],
           [Load, Lock, Work(call), Store, Unlock]);
  }

  lemma InitProgram()
    ensures Clean([Lock, Build, Register, Store, Unlock], Mode(false, false, false, false), [])
  {
    Before(Unlock, [], Mode(true, false, true, true), [], [Unlock]);
    Before(Store, [Unlock], Mode(true, true, true, true), [], [Store, Unlock]);
    Before(Register, [Store, Unlock], Mode(true, true, true, false), [], [Register, Store, Unlock]);
    Before(Build, [Register, Store, Unlock], Mode(false, false, true, false), [], [Build, Register, Store, Unlock]);
    Before(Lock, [Build, Register, Store, Unlock], Mode(false, false, false, false), [],
           [Lock, Build, Register, Store, Unlock]);
  }

  function WorkOf(micro: Micro): seq<Call> {
    if micro.Work? then [micro.call] else []
  }

  function WorkCalls(code: seq<Micro>): seq<Call> {
    if code == [] then [] else WorkOf(code[0]) + WorkCalls(code[1..])
  }

  // ---------- the global state ----------

  /** What a thread has seen happen: the exports it called and the answers it got. An InitTestEnv
      gives it an environment it can use but no number to look at. */
  datatype Seen = Started(x: Export) | Answered(ret: Ret)

  /** A thread between exports has no code. `running` is the export it called last and `mine` the
      environments it created, in order. */
  datatype Thread = Thread(
    code: seq<Micro>, mode: Mode, running: Export, id: nat, local: Entry, mine: seq<nat>, seen: seq<Seen>)

  /** What a thread calls next, given its number and what it has seen; None when it is done. A plan
      names an environment by its position among those the thread created. */
  type Plan = (nat, seq<Seen>) -> Option<Export>

  /** What single calls and InitTestEnv do and what threads are up to; the interleaving model needs
      nothing else of them. */
  datatype Semantics = Semantics(step: (Env, Call) -> Outcome<(Env, Ret)>, built: Export -> Env, plan: Plan)

  predicate Resolvable(th: Thread, x: Export) {
    x.InitTestEnv? || x.id < |th.mine|
  }

  function Resolved(th: Thread, x: Export): Export
    requires Resolvable(th, x)
  {
    match x
    case InitTestEnv(_, _, _, _, _) => x
    case CleanUp(k) => CleanUp(th.mine[k])
    case IncreaseTime(k, seconds, begin, end) => IncreaseTime(th.mine[k], seconds, begin, end)
    case Invoke(k, call) => Invoke(th.mine[k], call)
  }

  predicate Ready(sem: Semantics, t: nat, th: Thread) {
    th.code == [] && sem.plan(t, th.seen).Some? && Resolvable(th, sem.plan(t, th.seen).value)
  }

  /** The export the thread calls next. */
  function Upcoming(sem: Semantics, t: nat, th: Thread): Export
    requires Ready(sem, t, th)
  {
    Resolved(th, sem.plan(t, th.seen).value)
  }

  /** `owner`, `first`, `issued` and `history` record, per environment, who created it, by which
      export, the calls its owner made and those that took effect with their
      results. */
  datatype Global = Global(
    counter: nat, register: map<nat, Entry>, mutex: Option<nat>, heap: seq<AppState>, threads: seq<Thread>,
    owner: map<nat, nat>, first: map<nat, Export>, issued: map<nat, seq<Call>>, history: map<nat, seq<(Call, Ret)>>)

  function Value(s: Global, entry: Entry): Env
    requires entry.app < |s.heap|
  {
    Env(s.heap[entry.app], entry.ctx, entry.types)
  }

  datatype Choice = Start(thread: nat) | Go(thread: nat)

  /** The environment an export names, which must be one the thread created. */
  predicate Named(s: Global, t: nat, x: Export) {
    match x
    case InitTestEnv(_, _, _, _, _) => true
    case CleanUp(id) => id in s.owner && s.owner[id] == t
    case IncreaseTime(id, _, _, _) => id in s.owner && s.owner[id] == t
    case Invoke(id, _) => id in s.owner && s.owner[id] == t
  }

  function IdOf(x: Export): nat {
    match x
    case InitTestEnv(_, _, _, _, _) => 0
    case CleanUp(id) => id
    case IncreaseTime(id, _, _, _) => id
    case Invoke(id, _) => id
  }

  /** A choice can be made: the thread has something to run, the mutex is free if it wants it, and
      the step does not panic. */
  predicate Enabled(sem: Semantics, s: Global, c: Choice) {
    && c.thread < |s.threads|
    && var th := s.threads[c.thread];
    match c
    case Start(t) => Ready(sem, t, th) && Named(s, t, Upcoming(sem, t, th))
    case Go(t) =>
      && th.code != []
      && match th.code[0]
         case Lock => s.mutex.None?
         case Load => th.id in s.register
         case Build => th.running.InitTestEnv?
         case Work(call) => th.local.app < |s.heap| && sem.step(Value(s, th.local), call).Returned?
         case _ => true
  }

  function Put(s: Global, t: nat, th: Thread): seq<Thread>
    requires t < |s.threads|
  {
    s.threads[t := th]
  }

  /** Thread `t` after its next step. */
  function Onward(sem: Semantics, s: Global, t: nat): Thread
    requires Enabled(sem, s, Go(t))
  {
    var th := s.threads[t];
    var on := th.(code := th.code[1..], mode := Turn(th.mode, th.code[0]));
    match th.code[0]
    case Load => on.(local := s.register[th.id])
    case Work(call) =>
      var (e, ret) := sem.step(Value(s, th.local), call).value;
      on.(local := th.local.(ctx := e.ctx), seen := th.seen + [Answered(ret)])
    case Build => on.(local := Entry(|s.heap|, sem.built(th.running).ctx, sem.built(th.running).types))
    case Register => on.(id := s.counter + 1, mine := th.mine + [s.counter + 1])
    case _ => on
  }

  function Next(sem: Semantics, s: Global, c: Choice): Global
    requires Enabled(sem, s, c)
  {
    var t := c.thread;
    var th := s.threads[t];
    match c
    case Start(_) =>
      var x := Upcoming(sem, t, th);
      var th' := th.(code := Program(x), mode := StartMode(x), running := x, id := IdOf(x),
                     seen := th.seen + [Started(sem.plan(t, th.seen).value)]);
      s.(threads := Put(s, t, th'),
         issued := if IdOf(x) in s.issued && !x.InitTestEnv?
                   then s.issued[IdOf(x) := s.issued[IdOf(x)] + CallsOf(x)] else s.issued)
    case Go(_) =>
      var threads := Put(s, t, Onward(sem, s, t));
      match th.code[0]
      case Load => s.(threads := threads)
      case Store => s.(threads := threads, register := s.register[th.id := th.local])
      case Lock => s.(threads := threads, mutex := Some(t))
      case Unlock => s.(threads := threads, mutex := None)
      case Work(call) =>
        var (e, ret) := sem.step(Value(s, th.local), call).value;
        s.(threads := threads,
           heap := s.heap[th.local.app := e.app],
           history := if th.id in s.history then s.history[th.id := s.history[th.id] + [(call, ret)]] else s.history)
      case Build => s.(threads := threads, heap := s.heap + [sem.built(th.running).app])
      case Register =>
        var id := s.counter + 1;
        s.(threads := threads, counter := id, owner := s.owner[id := t],
           first := s.first[id := th.running], issued := s.issued[id := []], history := s.history[id := []])
  }

  // ---------- the invariant ----------

  predicate Busy(s: Global, t: nat, id: nat) {
    t < |s.threads| && s.threads[t].code != [] && s.threads[t].mode.named && s.threads[t].id == id
  }

  /** The newest heap cell, not yet reachable from the registry. */
  predicate Unpublished(s: Global, app: nat) {
    app + 1 == |s.heap| && forall k | k in s.register :: s.register[k].app < app
  }

  predicate ThreadOk(sem: Semantics, s: Global, t: nat)
    requires t < |s.threads|
  {
    var th := s.threads[t];
    && Check(th.code, th.mode)
    && (th.code != [] && th.mode.holding <==> s.mutex == Some(t))
    && (th.code != [] && !th.mode.named ==> th.running.InitTestEnv? && WorkCalls(th.code) == [])
    && (th.code != [] && th.mode.named ==>
          th.id in s.owner && s.owner[th.id] == t && (th.id in s.register || (th.mode.loaded && th.mode.dirty)))
    && (th.code != [] && th.mode.loaded ==>
          if th.mode.named && th.id in s.register then
            && th.local.app == s.register[th.id].app && th.local.types == s.register[th.id].types
            && (!th.mode.dirty ==> th.local == s.register[th.id])
          else
            && th.mode.holding && th.mode.dirty && Unpublished(s, th.local.app)
            && (!th.mode.named ==> Value(s, th.local) == sem.built(th.running)))
  }

  /** What the environment amounts to now: the owner's copy while it is ahead of the registry. */
  function View(s: Global, id: nat): Option<Env> {
    if id !in s.owner then None
    else
      var t := s.owner[id];
      if Busy(s, t, id) && s.threads[t].mode.dirty then
        if s.threads[t].local.app < |s.heap| then Some(Value(s, s.threads[t].local)) else None
      else if id in s.register && s.register[id].app < |s.heap| then Some(Value(s, s.register[id]))
      else None
  }

  /** The sequential run that a history claims: every call with the result it recorded. */
  function Replay(sem: Semantics, e: Env, history: seq<(Call, Ret)>): Option<Env> {
    if history == [] then Some(e)
    else
      var last := history[|history| - 1];
      var before :- Replay(sem, e, history[..|history| - 1]);
      match sem.step(before, last.0)
      case Panicked => None
      case Returned((after, ret)) => if ret == last.1 then Some(after) else None
  }

  function Served(history: seq<(Call, Ret)>): seq<Call> {
    seq(|history|, i requires 0 <= i < |history| => history[i].0)
  }

  /** The calls of the running export on `id` that have not taken effect yet. */
  function Ahead(s: Global, id: nat): seq<Call> {
    if id in s.owner && Busy(s, s.owner[id], id) then WorkCalls(s.threads[s.owner[id]].code) else []
  }

  predicate IdOk(sem: Semantics, s: Global, id: nat)
    requires id in s.owner
  {
    && 1 <= id <= s.counter && s.owner[id] < |s.threads|
    && id in s.first && id in s.issued && id in s.history
    && (id in s.register ==> s.register[id].app < |s.heap|)
    && View(s, id).Some?
    && s.first[id].InitTestEnv? && Replay(sem, sem.built(s.first[id]), s.history[id]) == View(s, id)
    && Served(s.history[id]) + Ahead(s, id) == s.issued[id]
  }

  predicate Distinct(s: Global) {
    && s.register.Keys <= s.owner.Keys
    && forall k, k' | k in s.register && k' in s.register && k != k' :: s.register[k].app != s.register[k'].app
  }

  predicate Consistent(sem: Semantics, s: Global) {
    && (forall t | 0 <= t < |s.threads| :: ThreadOk(sem, s, t))
    && (forall id | id in s.owner :: IdOk(sem, s, id))
    && Distinct(s)
    && (s.mutex.Some? ==> s.mutex.value < |s.threads|)
  }
}
