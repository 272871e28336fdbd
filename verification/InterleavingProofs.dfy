/** Every step of every interleaving keeps the invariant of the concurrent model. */
module InterleavingProofs {
  import opened Outcomes
  import opened Environment
  import opened Interleaving

  /** Only Begin changes the copied part of an environment. */
  ghost predicate KeepsContext(sem: Semantics) {
    forall e: Env, c: Call | sem.step(e, c).Returned? ::
      && sem.step(e, c).value.0.types == e.types
      && (!c.Begin? ==> sem.step(e, c).value.0.ctx == e.ctx)
  }

  // ---------- what a step does not touch ----------

  /** Thread `u` and all it relies on are as before; the registry may have gained or replaced
      entries of other threads as long as no entry reaches the newest heap cell. */
  predicate SameForThread(s: Global, s': Global, u: nat)
    requires u < |s.threads|
  {
    var th := s.threads[u];
    && u < |s'.threads| && s'.threads[u] == th
    && (s'.mutex == Some(u) <==> s.mutex == Some(u))
    && (th.code != [] && th.mode.named && th.id in s.owner ==>
          && th.id in s'.owner && s'.owner[th.id] == s.owner[th.id]
          && (th.id in s.register <==> th.id in s'.register)
          && (th.id in s.register ==> s'.register[th.id] == s.register[th.id]))
    && (th.code != [] && th.mode.holding && th.mode.loaded && Unpublished(s, th.local.app) ==>
          Unpublished(s', th.local.app) && s'.heap[th.local.app] == s.heap[th.local.app])
  }

  lemma ThreadFrame(sem: Semantics, s: Global, s': Global, u: nat)
    requires u < |s.threads| && ThreadOk(sem, s, u) && SameForThread(s, s', u)
    ensures ThreadOk(sem, s', u)
  {
  }

  /** The environment `id`, its records and what its owner still has to do are as before. */
  predicate SameForId(s: Global, s': Global, id: nat)
    requires id in s.owner
  {
    && id in s'.owner && s'.owner[id] == s.owner[id] && s.counter <= s'.counter && |s'.threads| == |s.threads|
    && (id in s.first ==> id in s'.first && s'.first[id] == s.first[id])
    && (id in s.issued ==> id in s'.issued && s'.issued[id] == s.issued[id])
    && (id in s.history ==> id in s'.history && s'.history[id] == s.history[id])
    && (id in s'.register ==> s'.register[id].app < |s'.heap|)
    && View(s', id) == View(s, id) && Ahead(s', id) == Ahead(s, id)
  }

  lemma IdFrame(sem: Semantics, s: Global, s': Global, id: nat)
    requires id in s.owner && IdOk(sem, s, id) && SameForId(s, s', id)
    ensures IdOk(sem, s', id)
  {
  }

  /** Nothing `id` is viewed through changed: its entry, the cells it reaches and, while its owner is
      at work on it, the owner's state. Only the heap cell `written` may differ. */
  predicate Unseen(s: Global, s': Global, id: nat, written: int)
    requires id in s.owner
  {
    var o := s.owner[id];
    && id in s'.owner && s'.owner[id] == o && o < |s.threads| == |s'.threads|
    && (id in s.register <==> id in s'.register) && (id in s.register ==> s'.register[id] == s.register[id])
    && |s.heap| <= |s'.heap| && (forall k | 0 <= k < |s.heap| && k != written :: s'.heap[k] == s.heap[k])
    && (id in s.register ==> s.register[id].app != written && s.register[id].app < |s.heap|)
    && (s'.threads[o] == s.threads[o] || (!Busy(s, o, id) && !Busy(s', o, id)))
    && (Busy(s, o, id) && s.threads[o].mode.dirty ==> s.threads[o].local.app != written && s.threads[o].local.app < |s.heap|)
  }

  lemma ViewFrame(s: Global, s': Global, id: nat, written: int)
    requires id in s.owner && Unseen(s, s', id, written)
    ensures View(s', id) == View(s, id) && Ahead(s', id) == Ahead(s, id)
  {
    var o := s.owner[id];
    assert Busy(s', o, id) == Busy(s, o, id);
  }

  /** Assembles the invariant from its parts. */
  lemma Assemble(sem: Semantics, s: Global, s': Global, t: nat)
    requires Consistent(sem, s) && t < |s.threads| && |s'.threads| == |s.threads| && ThreadOk(sem, s', t)
    requires forall u | 0 <= u < |s.threads| && u != t :: SameForThread(s, s', u)
    requires s'.owner == s.owner
    requires forall id | id in s.owner :: SameForId(s, s', id)
    requires Distinct(s') && (s'.mutex.Some? ==> s'.mutex.value < |s'.threads|)
    ensures Consistent(sem, s')
  {
    forall u | 0 <= u < |s'.threads| ensures ThreadOk(sem, s', u) {
      if u != t { ThreadFrame(sem, s, s', u); }
    }
    forall id | id in s'.owner ensures IdOk(sem, s', id) {
      IdFrame(sem, s, s', id);
    }
  }

  // ---------- load, lock, unlock ----------

  predicate At(sem: Semantics, s: Global, t: nat) {
    Consistent(sem, s) && Enabled(sem, s, Go(t)) && ThreadOk(sem, s, t)
  }

  lemma QuietView(sem: Semantics, s: Global, t: nat, id: nat)
    requires At(sem, s, t) && s.threads[t].code[0] in {Load, Lock, Unlock} && id in s.owner && IdOk(sem, s, id)
    ensures View(Next(sem, s, Go(t)), id) == View(s, id) && Ahead(Next(sem, s, Go(t)), id) == Ahead(s, id)
  {
    hide Replay, WorkCalls, Ahead, View;
    if Busy(s, t, id) && s.owner[id] == t {
      QuietOwnView(sem, s, t);
    } else {
      assert s.owner[id] == t ==> !Busy(Next(sem, s, Go(t)), t, id);
      Elsewhere(sem, s, id);
      ViewFrame(s, Next(sem, s, Go(t)), id, -1);
    }
  }

  lemma QuietOwnView(sem: Semantics, s: Global, t: nat)
    requires At(sem, s, t) && s.threads[t].code[0] in {Load, Lock, Unlock} && s.threads[t].mode.named
    ensures var s', id := Next(sem, s, Go(t)), s.threads[t].id;
      id in s.owner && View(s', id) == View(s, id) && Ahead(s', id) == Ahead(s, id)
  {
    hide Replay, WorkCalls;
    // none of the three is permitted while the copy is dirty, so the registry is what counts
    var s' := Next(sem, s, Go(t));
    AheadAfter(s, s', t, s.threads[t].id);
    assert !s.threads[t].mode.dirty && !s'.threads[t].mode.dirty;
  }

  /** One step on, the owner has one micro-step less ahead of it. */
  lemma AheadAfter(s: Global, s': Global, t: nat, id: nat)
    requires Busy(s, t, id) && id in s.owner && s.owner[id] == t && s'.owner == s.owner && t < |s'.threads|
    requires s'.threads[t].code == s.threads[t].code[1..]
    requires s'.threads[t].mode.named && s'.threads[t].id == id
    ensures Ahead(s, id) == WorkOf(s.threads[t].code[0]) + Ahead(s', id)
  {
  }

  /** The cells behind an environment exist. */
  lemma Elsewhere(sem: Semantics, s: Global, id: nat)
    requires Consistent(sem, s) && id in s.owner && IdOk(sem, s, id)
    ensures var o := s.owner[id];
      Busy(s, o, id) && s.threads[o].mode.dirty ==> s.threads[o].local.app < |s.heap|
  {
    assert ThreadOk(sem, s, s.owner[id]);
  }

  lemma QuietThread(sem: Semantics, s: Global, t: nat)
    requires At(sem, s, t) && s.threads[t].code[0] in {Load, Lock, Unlock}
    ensures ThreadOk(sem, Next(sem, s, Go(t)), t)
  {
  }

  lemma QuietOthers(sem: Semantics, s: Global, t: nat, u: nat)
    requires At(sem, s, t) && s.threads[t].code[0] in {Load, Lock, Unlock}
    requires u < |s.threads| && u != t && ThreadOk(sem, s, u)
    ensures SameForThread(s, Next(sem, s, Go(t)), u)
  {
    hide Replay, View, Ahead, WorkCalls, IdOk;
  }

  lemma QuietSameId(sem: Semantics, s: Global, t: nat, id: nat)
    requires At(sem, s, t) && s.threads[t].code[0] in {Load, Lock, Unlock} && id in s.owner && IdOk(sem, s, id)
    ensures SameForId(s, Next(sem, s, Go(t)), id)
  {
    hide Check, Replay, View, Ahead, WorkCalls, ThreadOk;
    QuietView(sem, s, t, id);
  }

  lemma QuietKeeps(sem: Semantics, s: Global, t: nat)
    requires At(sem, s, t) && s.threads[t].code[0] in {Load, Lock, Unlock}
    ensures Consistent(sem, Next(sem, s, Go(t)))
  {
    hide ThreadOk, IdOk, SameForThread, SameForId;
    var s' := Next(sem, s, Go(t));
    QuietThread(sem, s, t);
    forall u | 0 <= u < |s.threads| && u != t ensures SameForThread(s, s', u) { QuietOthers(sem, s, t, u); }
    forall id | id in s.owner ensures SameForId(s, s', id) { QuietSameId(sem, s, t, id); }
    Assemble(sem, s, s', t);
  }

  // ---------- store ----------

  lemma StoreOwnView(sem: Semantics, s: Global, t: nat)
    requires At(sem, s, t) && s.threads[t].code[0] == Store && IdOk(sem, s, s.threads[t].id)
    ensures var s', id := Next(sem, s, Go(t)), s.threads[t].id;
      && View(s', id) == View(s, id) && Ahead(s', id) == Ahead(s, id)
      && id in s'.register && s'.register[id].app < |s.heap|
  {
    var s', id, th := Next(sem, s, Go(t)), s.threads[t].id, s.threads[t];
    assert Busy(s, t, id);
    AheadAfter(s, s', t, id);
    assert View(s', id) == Some(Value(s, th.local));
  }

  lemma StoreView(sem: Semantics, s: Global, t: nat, id: nat)
    requires At(sem, s, t) && s.threads[t].code[0] == Store && id in s.owner && IdOk(sem, s, id)
    ensures View(Next(sem, s, Go(t)), id) == View(s, id) && Ahead(Next(sem, s, Go(t)), id) == Ahead(s, id)
    ensures id in Next(sem, s, Go(t)).register ==> Next(sem, s, Go(t)).register[id].app < |s.heap|
  {
    hide Check, Replay, WorkCalls, View, Ahead;
    if id == s.threads[t].id {
      StoreOwnView(sem, s, t);
    } else {
      assert !Busy(s, t, id) && !Busy(Next(sem, s, Go(t)), t, id);
      Elsewhere(sem, s, id);
      ViewFrame(s, Next(sem, s, Go(t)), id, -1);
    }
  }

  lemma StoreThread(sem: Semantics, s: Global, t: nat)
    requires At(sem, s, t) && s.threads[t].code[0] == Store
    ensures ThreadOk(sem, Next(sem, s, Go(t)), t)
  {
  }

  lemma StoreOthers(sem: Semantics, s: Global, t: nat, u: nat)
    requires At(sem, s, t) && s.threads[t].code[0] == Store && u < |s.threads| && u != t && ThreadOk(sem, s, u)
    ensures SameForThread(s, Next(sem, s, Go(t)), u)
  {
    hide Replay, WorkCalls, View, Ahead;
  }

  lemma StoreDistinct(sem: Semantics, s: Global, t: nat)
    requires At(sem, s, t) && s.threads[t].code[0] == Store
    ensures Distinct(Next(sem, s, Go(t)))
  {
    hide IdOk, Replay;
    var s', id := Next(sem, s, Go(t)), s.threads[t].id;
    forall k | k in s.register && k != id ensures s.register[k].app != s.threads[t].local.app {
      assert k in s.owner;
      if id !in s.register { assert Unpublished(s, s.threads[t].local.app); }
    }
  }

  lemma StoreSameId(sem: Semantics, s: Global, t: nat, id: nat)
    requires At(sem, s, t) && s.threads[t].code[0] == Store && id in s.owner && IdOk(sem, s, id)
    ensures SameForId(s, Next(sem, s, Go(t)), id)
  {
    hide Check, Replay, View, Ahead, WorkCalls, ThreadOk;
    StoreView(sem, s, t, id);
  }

  lemma StoreKeeps(sem: Semantics, s: Global, t: nat)
    requires At(sem, s, t) && s.threads[t].code[0] == Store
    ensures Consistent(sem, Next(sem, s, Go(t)))
  {
    hide ThreadOk, IdOk, SameForThread, SameForId;
    var s' := Next(sem, s, Go(t));
    StoreThread(sem, s, t);
    StoreDistinct(sem, s, t);
    forall u | 0 <= u < |s.threads| && u != t ensures SameForThread(s, s', u) { StoreOthers(sem, s, t, u); }
    forall id | id in s.owner ensures SameForId(s, s', id) { StoreSameId(sem, s, t, id); }
    Assemble(sem, s, s', t);
  }

  // ---------- build ----------

  lemma BuildThread(sem: Semantics, s: Global, t: nat)
    requires At(sem, s, t) && s.threads[t].code[0] == Build
    ensures ThreadOk(sem, Next(sem, s, Go(t)), t)
  {
    forall k | k in s.register ensures s.register[k].app < |s.heap| { assert IdOk(sem, s, k); }
  }

  lemma BuildView(sem: Semantics, s: Global, t: nat, id: nat)
    requires At(sem, s, t) && s.threads[t].code[0] == Build && id in s.owner && IdOk(sem, s, id)
    ensures View(Next(sem, s, Go(t)), id) == View(s, id) && Ahead(Next(sem, s, Go(t)), id) == Ahead(s, id)
  {
    Elsewhere(sem, s, id);
    ViewFrame(s, Next(sem, s, Go(t)), id, -1);
  }

  lemma BuildKeeps(sem: Semantics, s: Global, t: nat)
    requires At(sem, s, t) && s.threads[t].code[0] == Build
    ensures Consistent(sem, Next(sem, s, Go(t)))
  {
    var s' := Next(sem, s, Go(t));
    BuildThread(sem, s, t);
    forall u | 0 <= u < |s.threads| && u != t ensures SameForThread(s, s', u) { assert ThreadOk(sem, s, u); }
    forall id | id in s.owner ensures SameForId(s, s', id) { assert IdOk(sem, s, id); BuildView(sem, s, t, id); }
    Assemble(sem, s, s', t);
  }

  // ---------- register ----------

  lemma RegisterThread(sem: Semantics, s: Global, t: nat)
    requires At(sem, s, t) && s.threads[t].code[0] == Register
    ensures ThreadOk(sem, Next(sem, s, Go(t)), t)
    ensures s.counter + 1 !in s.owner && s.counter + 1 !in s.register
  {
    forall id | id in s.owner ensures id <= s.counter { assert IdOk(sem, s, id); }
  }

  lemma RegisterNewView(sem: Semantics, s: Global, t: nat)
    requires At(sem, s, t) && s.threads[t].code[0] == Register
    ensures s.threads[t].running.InitTestEnv?
    ensures View(Next(sem, s, Go(t)), s.counter + 1) == Some(sem.built(s.threads[t].running))
    ensures Ahead(Next(sem, s, Go(t)), s.counter + 1) == []
  {
    hide IdOk, Replay;
    RegisterThread(sem, s, t);
    assert Busy(Next(sem, s, Go(t)), t, s.counter + 1);
  }

  lemma RegisterNew(sem: Semantics, s: Global, t: nat)
    requires At(sem, s, t) && s.threads[t].code[0] == Register
    ensures IdOk(sem, Next(sem, s, Go(t)), s.counter + 1)
  {
    hide View, Ahead, Check, ThreadOk;
    RegisterThread(sem, s, t);
    RegisterNewView(sem, s, t);
  }

  lemma RegisterKeeps(sem: Semantics, s: Global, t: nat)
    requires At(sem, s, t) && s.threads[t].code[0] == Register
    ensures Consistent(sem, Next(sem, s, Go(t)))
  {
    hide ThreadOk, IdOk, SameForThread, SameForId;
    var s' := Next(sem, s, Go(t));
    RegisterThread(sem, s, t);
    RegisterNew(sem, s, t);
    forall u | 0 <= u < |s'.threads| ensures ThreadOk(sem, s', u) {
      if u != t {
        assert ThreadOk(sem, s, u);
        RegisterOthers(sem, s, t, u);
        ThreadFrame(sem, s, s', u);
      }
    }
    forall id | id in s'.owner ensures IdOk(sem, s', id) {
      if id != s.counter + 1 {
        assert IdOk(sem, s, id);
        RegisterOtherIds(sem, s, t, id);
        IdFrame(sem, s, s', id);
      }
    }
  }

  lemma RegisterOthers(sem: Semantics, s: Global, t: nat, u: nat)
    requires At(sem, s, t) && s.threads[t].code[0] == Register && u < |s.threads| && u != t && ThreadOk(sem, s, u)
    requires s.counter + 1 !in s.owner
    ensures SameForThread(s, Next(sem, s, Go(t)), u)
  {
  }

  lemma RegisterOtherIds(sem: Semantics, s: Global, t: nat, id: nat)
    requires At(sem, s, t) && s.threads[t].code[0] == Register && id in s.owner && id != s.counter + 1 && IdOk(sem, s, id)
    ensures SameForId(s, Next(sem, s, Go(t)), id)
  {
    hide Replay, WorkCalls, View, Ahead;
    Elsewhere(sem, s, id);
    ViewFrame(s, Next(sem, s, Go(t)), id, -1);
  }

  // ---------- work ----------

  lemma WorkThread(sem: Semantics, s: Global, t: nat)
    requires KeepsContext(sem)
    requires At(sem, s, t) && s.threads[t].code[0].Work?
    ensures ThreadOk(sem, Next(sem, s, Go(t)), t)
  {
    hide IdOk, Distinct, View, Ahead, Replay;
    var th, s' := s.threads[t], Next(sem, s, Go(t));
    var th', call := s'.threads[t], th.code[0].call;
    var e := sem.step(Value(s, th.local), call).value.0;
    assert e.types == th.local.types && (!call.Begin? ==> e.ctx == th.local.ctx);
    assert th'.code == th.code[1..] && th'.mode == Turn(th.mode, th.code[0]) && th'.id == th.id;
    assert th'.local == th.local.(ctx := e.ctx) && s'.register == s.register && s'.mutex == s.mutex;
    assert th.mode.named && th.mode.loaded;
    assert Check(th'.code, th'.mode);
    assert th.id in s'.owner && s'.owner[th.id] == t;
    if th.id in s.register {
      assert th'.local.app == s'.register[th.id].app && th'.local.types == s'.register[th.id].types;
      assert !th'.mode.dirty ==> th'.local == s'.register[th.id];
    } else {
      assert th'.mode.holding && th'.mode.dirty && Unpublished(s', th'.local.app);
    }
  }

  /** The working copy is what the environment amounts to. */
  lemma WorkBefore(sem: Semantics, s: Global, t: nat)
    requires At(sem, s, t) && s.threads[t].code[0].Work?
    ensures var th := s.threads[t];
      th.id in s.owner && s.owner[th.id] == t && th.local.app < |s.heap| && View(s, th.id) == Some(Value(s, th.local))
  {
  }

  lemma WorkAfter(sem: Semantics, s: Global, t: nat)
    requires KeepsContext(sem)
    requires At(sem, s, t) && s.threads[t].code[0].Work?
    ensures var th := s.threads[t];
      View(Next(sem, s, Go(t)), th.id) == Some(sem.step(Value(s, th.local), th.code[0].call).value.0)
  {
    var th, s' := s.threads[t], Next(sem, s, Go(t));
    WorkThread(sem, s, t);
    assert s'.heap[th.local.app] == sem.step(Value(s, th.local), th.code[0].call).value.0.app;
  }

  lemma DoneOneMore(history: seq<(Call, Ret)>, c: Call, ret: Ret)
    ensures Served(history + [(c, ret)]) == Served(history) + [c]
  {
  }

  lemma {:induction false} ReplayOneMore(sem: Semantics, e: Env, history: seq<(Call, Ret)>, c: Call)
    requires Replay(sem, e, history).Some? && sem.step(Replay(sem, e, history).value, c).Returned?
    ensures var (after, ret) := sem.step(Replay(sem, e, history).value, c).value;
      Replay(sem, e, history + [(c, ret)]) == Some(after)
  {
    var ret := sem.step(Replay(sem, e, history).value, c).value.1;
    assert (history + [(c, ret)])[..|history|] == history;
  }

  lemma WorkOwnId(sem: Semantics, s: Global, t: nat)
    requires KeepsContext(sem)
    requires At(sem, s, t) && s.threads[t].code[0].Work? && IdOk(sem, s, s.threads[t].id)
    ensures IdOk(sem, Next(sem, s, Go(t)), s.threads[t].id)
  {
    var th, s', id := s.threads[t], Next(sem, s, Go(t)), s.threads[t].id;
    var c := th.code[0].call;
    var ret := sem.step(Value(s, th.local), c).value.1;
    WorkBefore(sem, s, t);
    WorkAfter(sem, s, t);
    ReplayOneMore(sem, sem.built(s.first[id]), s.history[id], c);
    DoneOneMore(s.history[id], c, ret);
    WorkAhead(sem, s, t);
    WorkRecords(sem, s, s', id, c, ret);
  }

  lemma WorkAhead(sem: Semantics, s: Global, t: nat)
    requires At(sem, s, t) && s.threads[t].code[0].Work? && IdOk(sem, s, s.threads[t].id)
    ensures Ahead(s, s.threads[t].id) == [s.threads[t].code[0].call] + Ahead(Next(sem, s, Go(t)), s.threads[t].id)
  {
    var s' := Next(sem, s, Go(t));
    assert s'.threads[t].code == s.threads[t].code[1..] && s'.threads[t].id == s.threads[t].id;
    AheadAfter(s, s', t, s.threads[t].id);
  }

  lemma {:induction false} WorkRecords(sem: Semantics, s: Global, s': Global, id: nat, c: Call, ret: Ret)
    requires id in s.owner && IdOk(sem, s, id)
    requires s'.owner == s.owner && s'.first == s.first && s'.issued == s.issued && s'.register == s.register
    requires s'.counter == s.counter && |s'.threads| == |s.threads| && |s'.heap| == |s.heap|
    requires id in s'.history && s'.history[id] == s.history[id] + [(c, ret)]
    requires Served(s'.history[id]) == Served(s.history[id]) + [c] && Ahead(s, id) == [c] + Ahead(s', id)
    requires View(s', id).Some? && s.first[id].InitTestEnv?
    requires Replay(sem, sem.built(s'.first[id]), s'.history[id]) == View(s', id)
    ensures IdOk(sem, s', id)
  {
    assert Served(s.history[id]) + ([c] + Ahead(s', id)) == Served(s.history[id]) + [c] + Ahead(s', id);
  }

  lemma WorkOtherId(sem: Semantics, s: Global, t: nat, id: nat)
    requires KeepsContext(sem)
    requires At(sem, s, t) && s.threads[t].code[0].Work? && id in s.owner && id != s.threads[t].id && IdOk(sem, s, id)
    ensures SameForId(s, Next(sem, s, Go(t)), id)
  {
    hide Replay, WorkCalls, View, Ahead;
    var written := s.threads[t].local.app;
    var o := s.owner[id];
    assert ThreadOk(sem, s, o);
    WorkBefore(sem, s, t);
    assert IdOk(sem, s, s.threads[t].id);
    ViewFrame(s, Next(sem, s, Go(t)), id, written);
  }

  lemma WorkOthers(sem: Semantics, s: Global, t: nat, u: nat)
    requires At(sem, s, t) && s.threads[t].code[0].Work? && u < |s.threads| && u != t && ThreadOk(sem, s, u)
    ensures SameForThread(s, Next(sem, s, Go(t)), u)
  {
    hide Replay, WorkCalls;
    WorkBefore(sem, s, t);
  }

  lemma WorkKeeps(sem: Semantics, s: Global, t: nat)
    requires KeepsContext(sem)
    requires At(sem, s, t) && s.threads[t].code[0].Work?
    ensures Consistent(sem, Next(sem, s, Go(t)))
  {
    hide ThreadOk, IdOk, SameForThread, SameForId;
    var s' := Next(sem, s, Go(t));
    WorkThread(sem, s, t);
    forall u | 0 <= u < |s'.threads| ensures ThreadOk(sem, s', u) {
      if u != t {
        assert ThreadOk(sem, s, u);
        WorkOthers(sem, s, t, u);
        ThreadFrame(sem, s, s', u);
      }
    }
    forall id | id in s'.owner ensures IdOk(sem, s', id) {
      assert IdOk(sem, s, id);
      if id == s.threads[t].id {
        WorkOwnId(sem, s, t);
      } else {
        WorkOtherId(sem, s, t, id);
        IdFrame(sem, s, s', id);
      }
    }
  }

  // ---------- start ----------

  lemma StartThread(sem: Semantics, s: Global, t: nat, x: Export)
    requires Consistent(sem, s) && Enabled(sem, s, Start(t)) && x == Upcoming(sem, t, s.threads[t]) && ThreadOk(sem, s, t)
    ensures ThreadOk(sem, Next(sem, s, Start(t)), t)
  {
    ProgramsCheck(x);
    if !x.InitTestEnv? { Published(sem, s, t, IdOf(x)); }
  }

  /** An idle owner's environments are in the registry: no lookup of theirs can fail. */
  lemma Published(sem: Semantics, s: Global, t: nat, id: nat)
    requires Consistent(sem, s) && id in s.owner && s.owner[id] == t && t < |s.threads| && s.threads[t].code == []
    ensures id in s.register
  {
    assert IdOk(sem, s, id);
  }

  lemma StartOwnId(sem: Semantics, s: Global, t: nat, x: Export)
    requires Consistent(sem, s) && Enabled(sem, s, Start(t)) && x == Upcoming(sem, t, s.threads[t])
    requires !x.InitTestEnv? && IdOk(sem, s, IdOf(x))
    ensures IdOk(sem, Next(sem, s, Start(t)), IdOf(x))
  {
    hide View, Ahead, Replay, Program, CallsOf;
    Published(sem, s, t, IdOf(x));
    StartOwnAhead(sem, s, t, x);
    StartOwnView(sem, s, t, x);
    StartRecords(sem, s, Next(sem, s, Start(t)), IdOf(x), CallsOf(x));
  }

  lemma StartOwnAhead(sem: Semantics, s: Global, t: nat, x: Export)
    requires Enabled(sem, s, Start(t)) && x == Upcoming(sem, t, s.threads[t]) && !x.InitTestEnv?
    ensures Ahead(s, IdOf(x)) == [] && Ahead(Next(sem, s, Start(t)), IdOf(x)) == CallsOf(x)
  {
    hide Program, CallsOf, Check;
    ProgramsCheck(x);
    assert Busy(Next(sem, s, Start(t)), t, IdOf(x)) && !Busy(s, t, IdOf(x));
  }

  lemma StartRecords(sem: Semantics, s: Global, s': Global, id: nat, calls: seq<Call>)
    requires id in s.owner && IdOk(sem, s, id)
    requires s'.owner == s.owner && s'.first == s.first && s'.history == s.history && s'.register == s.register
    requires s'.counter == s.counter && |s'.threads| == |s.threads| && s'.heap == s.heap
    requires id in s.issued && s'.issued == s.issued[id := s.issued[id] + calls]
    requires View(s', id) == View(s, id) && Ahead(s, id) == [] && Ahead(s', id) == calls
    ensures IdOk(sem, s', id)
  {
    hide View, Ahead, Replay;
    assert Served(s.history[id]) + [] == Served(s.history[id]);
  }

  lemma StartOwnView(sem: Semantics, s: Global, t: nat, x: Export)
    requires Consistent(sem, s) && Enabled(sem, s, Start(t)) && x == Upcoming(sem, t, s.threads[t])
    requires !x.InitTestEnv? && IdOf(x) in s.register
    ensures View(Next(sem, s, Start(t)), IdOf(x)) == View(s, IdOf(x))
  {
  }

  lemma StartOtherId(sem: Semantics, s: Global, t: nat, x: Export, id: nat)
    requires Consistent(sem, s) && Enabled(sem, s, Start(t)) && x == Upcoming(sem, t, s.threads[t])
    requires id in s.owner && IdOk(sem, s, id)
    requires x.InitTestEnv? || id != IdOf(x)
    ensures SameForId(s, Next(sem, s, Start(t)), id)
  {
    hide Check, Replay, WorkCalls, Program, CallsOf, View, Ahead;
    Elsewhere(sem, s, id);
    ViewFrame(s, Next(sem, s, Start(t)), id, -1);
  }

  lemma StartOthers(sem: Semantics, s: Global, t: nat, u: nat)
    requires Enabled(sem, s, Start(t)) && u < |s.threads| && u != t
    ensures SameForThread(s, Next(sem, s, Start(t)), u)
  {
    hide Program, CallsOf;
  }

  lemma StartKeeps(sem: Semantics, s: Global, t: nat, x: Export)
    requires Consistent(sem, s) && Enabled(sem, s, Start(t)) && x == Upcoming(sem, t, s.threads[t])
    ensures Consistent(sem, Next(sem, s, Start(t)))
  {
    hide ThreadOk, IdOk, SameForThread, SameForId, Program, CallsOf;
    var s' := Next(sem, s, Start(t));
    assert ThreadOk(sem, s, t);
    StartThread(sem, s, t, x);
    forall u | 0 <= u < |s'.threads| ensures ThreadOk(sem, s', u) {
      if u != t {
        assert ThreadOk(sem, s, u);
        StartOthers(sem, s, t, u);
        ThreadFrame(sem, s, s', u);
      }
    }
    forall id | id in s'.owner ensures IdOk(sem, s', id) {
      assert IdOk(sem, s, id);
      if !x.InitTestEnv? && id == IdOf(x) {
        StartOwnId(sem, s, t, x);
      } else {
        StartOtherId(sem, s, t, x, id);
        IdFrame(sem, s, s', id);
      }
    }
  }

  /** Every enabled step keeps the invariant. */
  lemma NextKeeps(sem: Semantics, s: Global, c: Choice)
    requires KeepsContext(sem)
    requires Consistent(sem, s) && Enabled(sem, s, c)
    ensures Consistent(sem, Next(sem, s, c))
  {
    match c
    case Start(t) => StartKeeps(sem, s, t, Upcoming(sem, t, s.threads[t]));
    case Go(t) =>
      assert ThreadOk(sem, s, t);
      match s.threads[t].code[0]
      case Store => StoreKeeps(sem, s, t);
      case Work(_) => WorkKeeps(sem, s, t);
      case Build => BuildKeeps(sem, s, t);
      case Register => RegisterKeeps(sem, s, t);
      case _ => QuietKeeps(sem, s, t);
  }
}
