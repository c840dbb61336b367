/**
 The converse of serializability: whatever a whole call can do, with whatever fails around it, some
 run of the machine does; so every serial history is a run.
 */
module Completeness {
  import opened TaskEntity
  import opened Stores
  import opened TaskService
  import opened TaskMachine
  import opened Locking
  import opened TaskKeys
  import opened Scripts
  import opened SerialDeeds
  import opened StoreAgreement
  import opened Replay

  /** In `now`, the last worker is inside with its lock; everything else about locks is as in `s`. */
  ghost predicate During(s: State, now: State, e: ProcessedEvent, pc: Pc) {
    && Last(now, s.workers, e, pc) && now.handlers == s.handlers
    && now.locks == s.locks[e.ID() := |s.workers|]
  }

  /** The last worker has left with this result and given its lock back. */
  ghost predicate Done(s: State, now: State, e: ProcessedEvent, r: Result<()>) {
    && |now.workers| == |s.workers| + 1 && now.workers[..|s.workers|] == s.workers
    && now.workers[|s.workers|].event == e && Ended(now.workers[|s.workers|], r)
    && now.handlers == s.handlers && now.locks == s.locks
  }

  predicate Ended(k: Worker, r: Result<()>) {
    k.pc.Gone? && k.pc.outcome == Returned(r)
  }

  /** Nothing fails in this action. */
  predicate Clean(a: Action) {
    a.Spawn? || (a.Act? && a.move.Proceed?)
  }

  predicate AllClean(acts: seq<Action>) {
    forall a <- acts :: Clean(a)
  }

  lemma Advance(s: State, acts: seq<Action>, e: ProcessedEvent, pc: Pc, m: Move) returns (acts': seq<Action>)
    requires During(s, RunFrom(s, acts), e, pc)
    requires pc.Locked? || pc.Ready? || pc.Loaded? || pc.Answered? || pc.Stored?
    ensures var now, k := RunFrom(s, acts), Worker(e, pc, false, false);
            var pc' := NextPc(s.handlers, k, now.store, false, m);
            && During(s, RunFrom(s, acts'), e, pc')
            && RunFrom(s, acts').store == NextStore(now.store, k, pc')
    ensures AllClean(acts) && m.Proceed? ==> AllClean(acts')
  {
    hide RunFrom, NextStore;
    acts' := Go(s, acts, Act(|s.workers|, m));
    var now := RunFrom(s, acts);
    assert now.workers[|s.workers|] == Worker(e, pc, false, false);
  }

  lemma Leave(s: State, acts: seq<Action>, e: ProcessedEvent, c: Call, r: Result<()>) returns (acts': seq<Action>)
    requires e.ID() !in s.locks && During(s, RunFrom(s, acts), e, Leaving(c, Returned(r)))
    ensures Done(s, RunFrom(s, acts'), e, r) && RunFrom(s, acts').store == RunFrom(s, acts).store
    ensures AllClean(acts) ==> AllClean(acts')
  {
    hide RunFrom;
    acts' := Go(s, acts, Act(|s.workers|, Proceed(Answer)));
    assert RunFrom(s, acts).workers[|s.workers|] == Worker(e, Leaving(c, Returned(r)), false, false);
  }

  lemma Lock(s: State, e: ProcessedEvent) returns (acts: seq<Action>)
    requires e.ID() !in s.locks
    ensures During(s, RunFrom(s, acts), e, Locked) && RunFrom(s, acts).store == s.store && AllClean(acts)
  {
    acts := Go(s, [], Spawn(e));
    acts := Go(s, acts, Act(|s.workers|, Proceed(Answer)));
  }

  lemma LockFails(s: State, e: ProcessedEvent) returns (acts: seq<Action>)
    ensures Done(s, RunFrom(s, acts), e, Err(LockError)) && RunFrom(s, acts).store == s.store
  {
    acts := Go(s, [], Spawn(e));
    acts := Go(s, acts, Act(|s.workers|, Fail));
  }

  /** Repository and status, as far as they go. */
  lemma Store(s: State, acts: seq<Action>, status: Status, task: Task, c: Call) returns (acts': seq<Action>)
    requires c.event.ID() !in s.locks && task.id == c.event.ID() && c.reply.Some?
    requires During(s, RunFrom(s, acts), c.event, Answered(status, task, c.reply.value))
    ensures var (store, r) := Persist(RunFrom(s, acts).store, task.id, c.reply.value, c.upsert, c.save);
            Done(s, RunFrom(s, acts'), c.event, r) && RunFrom(s, acts').store == store
    ensures AllClean(acts) && c.upsert.Works? && c.save.Works? ==> AllClean(acts')
  {
    hide RunFrom, Done, AllClean;
    var reply, answered := c.reply.value, Answered(status, task, c.reply.value);
    var move := MoveOf(c.upsert);
    acts' := Advance(s, acts, c.event, answered, move);
    var call := Plain(s.handlers, c.event).(reply := Some(reply));
    if c.upsert.Works? {
      acts' := Advance(s, acts', c.event, Stored(status, task, reply), MoveOf(c.save));
      if c.save.Works? {
        acts' := Leave(s, acts', c.event, call, Ok(()));
      } else {
        acts' := Leave(s, acts', c.event, call.(save := c.save), Err(SaveError));
      }
    } else {
      acts' := Leave(s, acts', c.event, call.(upsert := c.upsert), Err(UpsertError));
    }
  }

  /** The move that makes a write go this way. */
  function MoveOf(fate: Fate): Move {
    match fate
    case Works => Proceed(Answer)
    case Fails => Fail
    case FailsLate => FailLate
  }

  predicate FaultFree(c: Call) {
    !c.lockFails && !c.readFails && !c.loadFails && c.supported && c.reply.Some? && c.upsert.Works? && c.save.Works?
  }

  lemma Deliver(s: State, acts: seq<Action>, status: Status, task: Task, c: Call) returns (acts': seq<Action>)
    requires c.event.ID() !in s.locks && task.id == c.event.ID() && c.supported == (c.event.slug in s.handlers)
    requires During(s, RunFrom(s, acts), c.event, Loaded(status, task))
    ensures var (store, r) := Finish(RunFrom(s, acts).store, task, c);
            Done(s, RunFrom(s, acts'), c.event, r) && RunFrom(s, acts').store == store
    ensures AllClean(acts) && FaultFree(c) ==> AllClean(acts')
  {
    hide RunFrom, Done, AllClean, Persist;
    var plain := Plain(s.handlers, c.event);
    if !c.supported {
      acts' := Advance(s, acts, c.event, Loaded(status, task), Proceed(Answer));
      acts' := Leave(s, acts', c.event, plain, Err(UnsupportedDestination(c.event.slug)));
    } else if c.reply.None? {
      acts' := Advance(s, acts, c.event, Loaded(status, task), HandlerFails);
      acts' := Leave(s, acts', c.event, plain, Err(HandlerError));
    } else {
      acts' := Advance(s, acts, c.event, Loaded(status, task), Proceed(c.reply.value));
      acts' := Store(s, acts', status, task, c);
    }
  }

  /** From the status read on. */
  lemma Work(s: State, acts: seq<Action>, c: Call) returns (acts': seq<Action>)
    requires c.event.ID() !in s.locks && c.supported == (c.event.slug in s.handlers) && Keyed(s.store)
    requires During(s, RunFrom(s, acts), c.event, Locked) && RunFrom(s, acts).store == s.store
    requires !c.lockFails && !c.readFails && Recorded(s.store, c.event.ID()).CanBeExecuted()
    ensures var (store, r) := Visit(s.store, c);
            Done(s, RunFrom(s, acts'), c.event, r) && RunFrom(s, acts').store == store
    ensures AllClean(acts) && FaultFree(c) ==> AllClean(acts')
  {
    hide RunFrom, Done, AllClean, Finish;
    var e, id := c.event, c.event.ID();
    var status, plain := Recorded(s.store, id), Plain(s.handlers, e);
    acts' := Advance(s, acts, e, Locked, Proceed(Answer));
    if status.IsBroadcast() && c.loadFails {
      acts' := Advance(s, acts', e, Ready(status), Fail);
      acts' := Leave(s, acts', e, plain.(loadFails := true), Err(TaskLoadError));
    } else {
      acts' := Advance(s, acts', e, Ready(status), Proceed(Answer));
      if status.IsBroadcast() && id !in s.store.repo {
        acts' := Leave(s, acts', e, plain, Err(TaskNotFound));
      } else {
        acts' := Deliver(s, acts', status, LoadedTask(s.store, e), c);
      }
    }
  }

  /** Every whole call can be made, from every state in which its task's lock is free. */
  lemma CallIsReachable(s: State, c: Call) returns (acts: seq<Action>)
    requires c.event.ID() !in s.locks && c.supported == (c.event.slug in s.handlers) && Keyed(s.store)
    ensures var (store, r) := Visit(s.store, c);
            Done(s, RunFrom(s, acts), c.event, r) && RunFrom(s, acts).store == store
    ensures FaultFree(c) ==> AllClean(acts)
  {
    hide RunFrom, Done, AllClean, Finish;
    var plain := Plain(s.handlers, c.event);
    if c.lockFails {
      acts := LockFails(s, c.event);
    } else {
      acts := Lock(s, c.event);
      if c.readFails {
        acts := Advance(s, acts, c.event, Locked, Fail);
        acts := Leave(s, acts, c.event, plain.(readFails := true), Err(StatusReadError));
      } else if !Recorded(s.store, c.event.ID()).CanBeExecuted() {
        acts := Advance(s, acts, c.event, Locked, Proceed(Answer));
        acts := Leave(s, acts, c.event, plain, Ok(()));
      } else {
        acts := Work(s, acts, c);
      }
    }
  }

  /** A status expires, or is not there to expire. */
  lemma ExpiryIsReachable(s: State, acts: seq<Action>, id: string) returns (acts': seq<Action>)
    requires id !in RunFrom(s, acts).locks
    ensures RunFrom(s, acts').store == Forgotten(RunFrom(s, acts).store, id)
    ensures RunFrom(s, acts').workers == RunFrom(s, acts).workers && RunFrom(s, acts').locks == RunFrom(s, acts).locks
    ensures RunFrom(s, acts').handlers == RunFrom(s, acts).handlers
  {
    hide RunFrom;
    acts' := Go(s, acts, ExpireStatus(id));
    var store := RunFrom(s, acts).store;
    assert id !in store.statuses ==> store.statuses - {id} == store.statuses;
  }

  /** What a deed leaves behind: its effect, and for a call one worker more with its result. */
  ghost predicate Did(s: State, now: State, d: Deed) {
    && now.store == Effect(s.store, d) && now.locks == s.locks && now.handlers == s.handlers
    && s.workers <= now.workers
    && (d.Whole? ==> exists w | 0 <= w < |now.workers| :: HasReturned(now.workers[w], d.call, Visit(s.store, d.call).1))
  }

  predicate HasReturned(k: Worker, c: Call, r: Result<()>) {
    k.event == c.event && Ended(k, r)
  }

  lemma DeedIsReachable(s: State, d: Deed) returns (acts: seq<Action>)
    requires s.locks == map[] && Keyed(s.store) && Possible(s.handlers, d)
    ensures Did(s, RunFrom(s, acts), d)
  {
    hide RunFrom, Visit;
    if d.Whole? {
      acts := CallIsReachable(s, d.call);
      assert HasReturned(RunFrom(s, acts).workers[|s.workers|], d.call, Visit(s.store, d.call).1);
      if d.lapsed {
        acts := ExpiryIsReachable(s, acts, d.ID());
      }
    } else {
      Nothing(s);
      acts := ExpiryIsReachable(s, [], d.ID());
    }
  }

  lemma Nothing(s: State)
    ensures RunFrom(s, []) == s
  {
  }

  /** Call `i` of the history was made, and returned what it returns at its place. */
  ghost predicate Made(s: State, deeds: seq<Deed>, i: nat)
    requires i < |deeds| && deeds[i].Whole?
  {
    var c := deeds[i].call;
    exists w | 0 <= w < |s.workers| :: HasReturned(s.workers[w], c, Visit(Serial(deeds[..i]), c).1)
  }

  /**
   Every serial history of possible calls and expiries, with whatever fails in the calls, is a run:
   it ends with the history's stores, all locks free, and a worker for every call that returned
   the call's result.
   */
  lemma {:induction false} EverySerialIsARun(handlers: set<string>, deeds: seq<Deed>) returns (acts: seq<Action>)
    requires forall d <- deeds :: Possible(handlers, d)
    ensures var s := Run(handlers, acts);
            && s.store == Serial(deeds) && s.locks == map[] && s.handlers == handlers
            && forall i | 0 <= i < |deeds| && deeds[i].Whole? :: Made(s, deeds, i)
    decreases |deeds|
  {
    if deeds == [] {
      acts := [];
    } else {
      var n := |deeds| - 1;
      assert forall d <- deeds[..n] :: d in deeds;
      assert deeds[n] in deeds;
      var first := EverySerialIsARun(handlers, deeds[..n]);
      var s := Run(handlers, first);
      SerialKeyed(deeds[..n]);
      hide RunFrom, Effect, Visit;
      var more := DeedIsReachable(s, deeds[n]);
      RunSplits(handlers, first, more);
      acts := first + more;
      forall i | 0 <= i < |deeds| && deeds[i].Whole? ensures Made(Run(handlers, acts), deeds, i) {
        if i < n {
          StillMade(s, Run(handlers, acts), deeds, n, i);
        }
      }
    }
  }

  lemma StillMade(s: State, s': State, deeds: seq<Deed>, n: nat, i: nat)
    requires i < n <= |deeds| && deeds[i].Whole? && s.workers <= s'.workers && Made(s, deeds[..n], i)
    ensures Made(s', deeds, i)
  {
    hide Serial, Visit, HasReturned;
    assert deeds[..n][..i] == deeds[..i];
    var c := deeds[i].call;
    var w :| 0 <= w < |s.workers| && HasReturned(s.workers[w], c, Visit(Serial(deeds[..i]), c).1);
    assert s'.workers[w] == s.workers[w];
  }

  /**
   A visit in which nothing fails, after any run that left its lock free. If nothing or "not
   executed" or "retriable failed" is recorded, it delivers once, to the stored task with the new
   event when it retries and to a new task otherwise, and both stores end with the handler's answer.
   Otherwise it changes nothing. The lock is free again.
   */
  lemma FaultFreeVisit(handlers: set<string>, acts: seq<Action>, e: ProcessedEvent, answer: Response)
    returns (more: seq<Action>)
    requires e.slug in handlers && e.ID() !in Run(handlers, acts).locks
    ensures AllClean(more)
    ensures var s, s', id := Run(handlers, acts), Run(handlers, acts + more), e.ID();
            var retry := id in s.store.statuses && s.store.statuses[id] == RetriableFailed;
            var fresh_ := id !in s.store.statuses || s.store.statuses[id] == NotExecuted;
            && s'.locks == s.locks
            && (retry ==> id in s.store.repo)
            && (retry || fresh_ ==>
                  var task := if retry then s.store.repo[id].(event := e) else Task(id, NotExecuted, 0, None, e);
                  && Deliveries(s'.store, id) == Deliveries(s.store, id) + [Delivery(task, answer)]
                  && id in s'.store.statuses && s'.store.statuses[id] == answer.status
                  && id in s'.store.repo
                  && s'.store.repo[id] == Task(id, answer.status, answer.attempts, answer.failedReason, NoEvent))
            && (!retry && !fresh_ ==> At(s'.store, id) == At(s.store, id))
  {
    var s := Run(handlers, acts);
    RunHandlers(handlers, acts);
    RunOneKey(handlers, acts);
    RunFound(handlers, acts);
    RunRecording(handlers, acts, e.ID());
    hide Run, RunFrom;
    var c := Plain(handlers, e).(reply := Some(answer));
    more := CallIsReachable(s, c);
    RunSplits(handlers, acts, more);
    VisitIsHandled(s.store, c);
    hide Visit;
  }
}
