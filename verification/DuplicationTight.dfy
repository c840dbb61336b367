/** The bound on terminal deliveries cannot be improved: every count of faults and expiries reaches it. */
module DuplicationTight {
  import opened TaskEntity
  import opened Stores
  import opened TaskService
  import opened TaskMachine
  import opened Duplication
  import opened Scripts
  import opened Sums

  ghost predicate Tally(s: State, id: string, delivered: nat, unsaved: nat, leases: nat, statuses: nat) {
    && Terminals(s, id) == delivered
    && s.unsaved[id] == unsaved && s.expiredLeases[id] == leases && s.expiredStatuses[id] == statuses
  }

  /** One terminal delivery more, and so many more lost answers, leases and statuses. */
  ghost predicate TallyGrows(s: State, s': State, id: string, unsaved: nat, leases: nat, statuses: nat) {
    Tally(s', id, Terminals(s, id) + 1,
          s.unsaved[id] + unsaved, s.expiredLeases[id] + leases, s.expiredStatuses[id] + statuses)
  }

  /** A fresh visit up to its answer: one more terminal delivery. */
  lemma Deliver(s: State, e: ProcessedEvent) returns (acts: seq<Action>)
    requires Quiet(s, e)
    ensures Last(RunFrom(s, acts), s.workers, e, Answered(NotExecuted, MakeTask(e), Answer))
    ensures Since(s, RunFrom(s, acts), e) && RunFrom(s, acts).store.statuses == s.store.statuses
    ensures Terminals(RunFrom(s, acts), e.ID()) == Terminals(s, e.ID()) + 1
  {
    hide RunFrom;
    acts := Prepare(s, e);
    acts := GoLast(s, acts, s.workers, e, Loaded(NotExecuted, MakeTask(e)), Proceed(Answer));
    SumAppend(Deliveries(s.store, e.ID()), Delivery(MakeTask(e), Answer), TerminalWeight());
  }

  /** The visit panics after its answer and unlocks. */
  lemma LoseAnswer(s: State, e: ProcessedEvent) returns (acts: seq<Action>)
    requires Quiet(s, e)
    ensures var s' := RunFrom(s, acts);
            && Quiet(s', e)
            && TallyGrows(s, s', e.ID(), 1, 0, 0)
  {
    hide RunFrom;
    acts := Deliver(s, e);
    var pc := Answered(NotExecuted, MakeTask(e), Answer);
    acts := GoLast(s, acts, s.workers, e, pc, Panic);
    var call := CallOf(s.handlers, Worker(e, pc, false, false));
    acts := GoLast(s, acts, s.workers, e, Leaving(call, Panicked), Proceed(Answer));
  }

  /** The lease expires after the answer. */
  lemma LoseLease(s: State, e: ProcessedEvent) returns (acts: seq<Action>)
    requires Quiet(s, e)
    ensures var s' := RunFrom(s, acts);
            && Quiet(s', e)
            && TallyGrows(s, s', e.ID(), 0, 1, 0)
  {
    hide RunFrom;
    acts := Deliver(s, e);
    acts := Go(s, acts, ExpireLease(e.ID()));
  }

  /** The visit saves its status, which then expires. */
  lemma LoseStatus(s: State, e: ProcessedEvent) returns (acts: seq<Action>)
    requires Quiet(s, e)
    ensures var s' := RunFrom(s, acts);
            && Quiet(s', e)
            && TallyGrows(s, s', e.ID(), 0, 0, 1)
  {
    hide RunFrom;
    acts := Deliver(s, e);
    acts := GoLast(s, acts, s.workers, e, Answered(NotExecuted, MakeTask(e), Answer), Proceed(Answer));
    acts := GoLast(s, acts, s.workers, e, Stored(NotExecuted, MakeTask(e), Answer), Proceed(Answer));
    var call := Plain(s.handlers, e).(reply := Some(Answer));
    acts := GoLast(s, acts, s.workers, e, Leaving(call, Returned(Ok(()))), Proceed(Answer));
    acts := Go(s, acts, ExpireStatus(e.ID()));
  }

  lemma {:induction false} LoseAll(handlers: set<string>, e: ProcessedEvent, unsaved: nat, leases: nat, statuses: nat)
    returns (acts: seq<Action>)
    requires e.slug in handlers
    ensures Quiet(Run(handlers, acts), e)
    ensures Tally(Run(handlers, acts), e.ID(), unsaved + leases + statuses, unsaved, leases, statuses)
    decreases unsaved + leases + statuses
  {
    var more: seq<Action>;
    if unsaved > 0 {
      acts := LoseAll(handlers, e, unsaved - 1, leases, statuses);
      more := LoseAnswer(Run(handlers, acts), e);
    } else if leases > 0 {
      acts := LoseAll(handlers, e, unsaved, leases - 1, statuses);
      more := LoseLease(Run(handlers, acts), e);
    } else if statuses > 0 {
      acts := LoseAll(handlers, e, unsaved, leases, statuses - 1);
      more := LoseStatus(Run(handlers, acts), e);
    } else {
      acts, more := [], [];
      assert Tally(Init(handlers), e.ID(), 0, 0, 0, 0);
    }
    hide Step;
    RunSplits(handlers, acts, more);
    acts := acts + more;
  }

  /**
   Tightness: whatever the numbers of lost answers, expired leases and expired statuses, some run
   has exactly those and one terminal delivery more than their sum.
   */
  lemma BoundIsReached(handlers: set<string>, e: ProcessedEvent, unsaved: nat, leases: nat, statuses: nat)
    returns (acts: seq<Action>)
    requires e.slug in handlers
    ensures Tally(Run(handlers, acts), e.ID(), 1 + unsaved + leases + statuses, unsaved, leases, statuses)
  {
    hide Step, Terminals;
    acts := LoseAll(handlers, e, unsaved, leases, statuses);
    var more := Deliver(Run(handlers, acts), e);
    RunSplits(handlers, acts, more);
    acts := acts + more;
  }
}
