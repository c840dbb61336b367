/** Runs of the task machine built step by step: the visits that the examples share. */
module Scripts {
  import opened TaskEntity
  import opened TaskMachine
  import opened Runs

  const Answer: Response := RawResponse(Success, 1, None)

  /** The event has a handler, nobody holds its task and nothing is recorded for it. */
  ghost predicate Quiet(s: State, e: ProcessedEvent) {
    e.slug in s.handlers && e.ID() !in s.locks && e.ID() !in s.store.statuses
  }

  /** The last worker started moves; everybody else stays. */
  ghost predicate Last(s: State, others: seq<Worker>, e: ProcessedEvent, pc: Pc) {
    s.workers == others + [Worker(e, pc, false, false)]
  }

  /** One more action at the end of a run. */
  lemma Go(s: State, acts: seq<Action>, a: Action) returns (acts': seq<Action>)
    ensures acts' == acts + [a] && RunFrom(s, acts') == Step(RunFrom(s, acts), a)
  {
    hide Step;
    acts' := acts + [a];
    FoldOneMore(Step, s, acts, a);
  }

  lemma GoLast(s: State, acts: seq<Action>, others: seq<Worker>, e: ProcessedEvent, pc: Pc, m: Move)
    returns (acts': seq<Action>)
    requires Last(RunFrom(s, acts), others, e, pc)
    ensures RunFrom(s, acts') == ActStep(RunFrom(s, acts), |others|, m)
    ensures var now := RunFrom(s, acts);
            var pc' := NextPc(now.handlers, Worker(e, pc, false, false), now.store, e.ID() !in now.locks, m);
            Last(RunFrom(s, acts'), others, e, pc')
  {
    hide NextPc, NextStore, NextLocks, RunFrom;
    acts' := Go(s, acts, Act(|others|, m));
  }

  /** The task is fresh to `s`, and nothing but the worker and its lock has changed since. */
  ghost predicate Since(s: State, now: State, e: ProcessedEvent) {
    && now.handlers == s.handlers && now.locks == s.locks[e.ID() := |s.workers|]
    && now.writes == s.writes && now.unsaved == s.unsaved
    && now.expiredLeases == s.expiredLeases && now.expiredStatuses == s.expiredStatuses
  }

  lemma Enter(s: State, e: ProcessedEvent) returns (acts: seq<Action>)
    requires Quiet(s, e)
    ensures Last(RunFrom(s, acts), s.workers, e, Locked)
    ensures Since(s, RunFrom(s, acts), e) && RunFrom(s, acts).store == s.store
  {
    acts := Go(s, [], Spawn(e));
    acts := GoLast(s, acts, s.workers, e, Start, Proceed(Answer));
  }

  lemma Prepare(s: State, e: ProcessedEvent) returns (acts: seq<Action>)
    requires Quiet(s, e)
    ensures Last(RunFrom(s, acts), s.workers, e, Loaded(NotExecuted, MakeTask(e)))
    ensures Since(s, RunFrom(s, acts), e) && RunFrom(s, acts).store == s.store
  {
    hide RunFrom;
    acts := Enter(s, e);
    acts := GoLast(s, acts, s.workers, e, Locked, Proceed(Answer));
    acts := GoLast(s, acts, s.workers, e, Ready(NotExecuted), Proceed(Answer));
  }

  lemma RunSplits(handlers: set<string>, acts: seq<Action>, more: seq<Action>)
    ensures Run(handlers, acts + more) == RunFrom(Run(handlers, acts), more)
  {
    hide Step;
    FoldSplits(Step, Init(handlers), acts, more);
  }
}
