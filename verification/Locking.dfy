/** What the lease lock gives: at most one worker per task is inside with a live lease. */
module Locking {
  import opened TaskService
  import opened TaskMachine

  predicate Inside(k: Worker) {
    k.Active() || k.pc.Leaving?
  }

  /** A lock belongs to a worker of its task whose lease is alive. */
  ghost predicate Leased(s: State, id: string)
    requires id in s.locks
  {
    var w := s.locks[id];
    w < |s.workers| && s.workers[w].ID() == id && !s.workers[w].pc.Start? && !s.workers[w].expired
  }

  /** A worker inside with a live lease holds its task's lock. */
  ghost predicate Holds(s: State, w: nat)
    requires w < |s.workers|
  {
    var k := s.workers[w];
    && (Inside(k) && !k.expired ==> k.ID() in s.locks && s.locks[k.ID()] == w)
    && (k.pc.Start? ==> !k.expired)
  }

  ghost predicate Excluded(s: State) {
    && (forall id | id in s.locks :: Leased(s, id))
    && (forall w | 0 <= w < |s.workers| :: Holds(s, w))
  }

  /** The shape of every move: in by the lock, on through the stages, out by leaving. */
  predicate Flows(k: Worker, pc: Pc, lockFree: bool, m: Move) {
    var k' := k.(pc := pc);
    && (k.pc.Start? ==> pc.Start? || (pc.Gone? && (m.FailLate? ==> lockFree)) || (pc.Locked? && lockFree))
    && (!k.pc.Start? ==> pc == k.pc || (!pc.Start? && !pc.Locked?))
    && (Inside(k') ==> Inside(k) || k.pc.Start?)
    && (Inside(k) ==> Inside(k') || k.pc.Leaving?)
  }

  lemma NextPcFlows(handlers: set<string>, k: Worker, store: Store, lockFree: bool, m: Move)
    ensures Flows(k, NextPc(handlers, k, store, lockFree, m), lockFree, m)
  {
  }

  lemma MoveExcluded(s: State, s': State, w: nat, pc: Pc, m: Move)
    requires Excluded(s) && w < |s.workers|
    requires Flows(s.workers[w], pc, s.workers[w].ID() !in s.locks, m)
    requires s'.workers == s.workers[w := NextWorker(s.workers[w], pc)]
    requires s'.locks == NextLocks(s.locks, w, s.workers[w], pc, m)
    ensures Excluded(s')
  {
    assert Holds(s, w);
    forall id | id in s'.locks ensures Leased(s', id) {
      assert id in s.locks ==> Leased(s, id);
    }
    forall v | 0 <= v < |s'.workers| ensures Holds(s', v) {
      assert Holds(s, v);
    }
  }

  lemma StepExcluded(s: State, a: Action)
    requires Excluded(s)
    ensures Excluded(Step(s, a))
  {
    if a.Act? && a.w < |s.workers| {
      var k := s.workers[a.w];
      NextPcFlows(s.handlers, k, s.store, k.ID() !in s.locks, a.move);
      MoveExcluded(s, Step(s, a), a.w, NextPc(s.handlers, k, s.store, k.ID() !in s.locks, a.move), a.move);
    } else {
      var s' := Step(s, a);
      forall id | id in s'.locks ensures Leased(s', id) {
        assert Leased(s, id);
        assert a.ExpireLease? && a.id in s.locks ==> Leased(s, a.id);
      }
      forall v | 0 <= v < |s'.workers| ensures Holds(s', v) {
        assert v < |s.workers| ==> Holds(s, v);
      }
    }
  }

  /** In every run, with expiries or without. */
  lemma {:induction false} RunExcluded(handlers: set<string>, acts: seq<Action>)
    ensures Excluded(Run(handlers, acts))
  {
    if acts != [] {
      var n := |acts| - 1;
      RunExcluded(handlers, acts[..n]);
      StepExcluded(Run(handlers, acts[..n]), acts[n]);
    }
  }

  lemma {:induction false} RunHandlers(handlers: set<string>, acts: seq<Action>)
    ensures Run(handlers, acts).handlers == handlers
  {
    if acts != [] {
      hide NextPc, NextStore, NextLocks;
      RunHandlers(handlers, acts[..|acts| - 1]);
    }
  }

  /** Mutual exclusion: two workers of one task inside with live leases are one worker. */
  lemma OneHolder(handlers: set<string>, acts: seq<Action>, v: nat, w: nat)
    requires v < |Run(handlers, acts).workers| && w < |Run(handlers, acts).workers|
    requires Inside(Run(handlers, acts).workers[v]) && Inside(Run(handlers, acts).workers[w])
    requires !Run(handlers, acts).workers[v].expired && !Run(handlers, acts).workers[w].expired
    requires Run(handlers, acts).workers[v].ID() == Run(handlers, acts).workers[w].ID()
    ensures v == w
  {
    RunExcluded(handlers, acts);
    assert Holds(Run(handlers, acts), v) && Holds(Run(handlers, acts), w);
  }

  // Tasks whose leases never ran out under an active holder.

  /** Whoever is at work on the task has its lease, and so is alone. */
  ghost predicate Alive(s: State, id: string) {
    forall w | 0 <= w < |s.workers| && s.workers[w].ID() == id && s.workers[w].Active() :: !s.workers[w].expired
  }

  lemma AliveIsAlone(s: State, id: string, v: nat, w: nat)
    requires Excluded(s) && Alive(s, id) && v < |s.workers| && w < |s.workers|
    requires s.workers[v].ID() == s.workers[w].ID() == id && s.workers[v].Active() && s.workers[w].Active()
    ensures v == w && id in s.locks && s.locks[id] == w
  {
    assert Holds(s, v) && Holds(s, w);
  }

  lemma StepAlive(s: State, a: Action, id: string)
    requires s.expiredLeases[id] == 0 ==> Alive(s, id)
    requires Excluded(s)
    requires Step(s, a).expiredLeases[id] == 0
    ensures s.expiredLeases[id] == 0 && Alive(Step(s, a), id)
  {
    if a.Act? && a.w < |s.workers| {
      var k := s.workers[a.w];
      assert Holds(s, a.w);
      NextPcFlows(s.handlers, k, s.store, k.ID() !in s.locks, a.move);
      hide NextPc, NextStore, NextLocks;
    } else if a.ExpireLease? && a.id in s.locks {
      assert Leased(s, a.id);
    }
  }

  lemma {:induction false} RunAlive(handlers: set<string>, acts: seq<Action>, id: string)
    requires Run(handlers, acts).expiredLeases[id] == 0
    ensures Alive(Run(handlers, acts), id)
    ensures acts != [] ==> Run(handlers, acts[..|acts| - 1]).expiredLeases[id] == 0
  {
    if acts != [] {
      hide Step, Alive, Excluded;
      var n := |acts| - 1;
      if Run(handlers, acts[..n]).expiredLeases[id] == 0 {
        RunAlive(handlers, acts[..n], id);
      }
      RunExcluded(handlers, acts[..n]);
      StepAlive(Run(handlers, acts[..n]), acts[n], id);
    }
  }
}
