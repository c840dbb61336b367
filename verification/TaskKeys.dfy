/** One task ID per visit: lock, repository and status are addressed by the event's own ID. */
module TaskKeys {
  import opened TaskService
  import opened TaskMachine

  predicate HasTask(k: Worker) {
    k.pc.Loaded? || k.pc.Answered? || k.pc.Stored?
  }

  /** The task in hand is the event's own. */
  predicate OwnTask(k: Worker) {
    HasTask(k) ==> k.pc.task.id == k.ID() && k.pc.task.event == k.event
  }

  ghost predicate OneKey(s: State) {
    && Keyed(s.store)
    && forall w | 0 <= w < |s.workers| :: OwnTask(s.workers[w])
  }

  lemma MoveOneKey(handlers: set<string>, k: Worker, store: Store, lockFree: bool, m: Move)
    requires Keyed(store) && OwnTask(k)
    ensures var pc := NextPc(handlers, k, store, lockFree, m);
            OwnTask(NextWorker(k, pc)) && Keyed(NextStore(store, k, pc))
  {
  }

  lemma StepOneKey(s: State, a: Action)
    requires OneKey(s)
    ensures OneKey(Step(s, a))
  {
    if a.Act? && a.w < |s.workers| {
      var k := s.workers[a.w];
      MoveOneKey(s.handlers, k, s.store, k.ID() !in s.locks, a.move);
      hide NextPc, NextStore, NextLocks, Keyed, OwnTask, NextWorker;
    }
  }

  lemma {:induction false} RunOneKey(handlers: set<string>, acts: seq<Action>)
    ensures OneKey(Run(handlers, acts))
  {
    if acts != [] {
      hide Step, OneKey;
      RunOneKey(handlers, acts[..|acts| - 1]);
      StepOneKey(Run(handlers, acts[..|acts| - 1]), acts[|acts| - 1]);
    } else {
      assert OneKey(Init(handlers));
    }
  }

  /** A worker's move writes to its own task only. */
  lemma MoveWritesOwn(k: Worker, store: Store, pc: Pc)
    requires OwnTask(k)
    ensures NextWorker(k, pc).event == k.event
    ensures forall id | id != k.ID() :: At(NextStore(store, k, pc), id) == At(store, id)
  {
  }
}
