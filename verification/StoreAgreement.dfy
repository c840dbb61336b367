/** How repository and status store stay in step, although they are written one after the other. */
module StoreAgreement {
  import opened TaskEntity
  import opened Stores
  import opened TaskService
  import opened TaskMachine
  import opened Locking
  import opened TaskKeys
  import opened Runs
  import opened Scripts

  // A recorded task is always in the repository, in every run.

  /** What a worker knows about the repository; "task not found" is not among its outcomes. */
  predicate Knows(k: Worker, store: Store) {
    && (k.Executing() && k.pc.status.IsBroadcast() ==> k.ID() in store.repo)
    && (k.pc.Stored? ==> k.ID() in store.repo)
    && (k.pc.Leaving? || k.pc.Gone? ==> k.pc.outcome != Returned(Err(TaskNotFound)))
  }

  ghost predicate Found(s: State) {
    && (forall id | id in s.store.statuses :: id in s.store.repo && Reported(s.store.statuses[id]))
    && (forall w | 0 <= w < |s.workers| :: Knows(s.workers[w], s.store))
  }

  lemma MoveFound(handlers: set<string>, k: Worker, store: Store, lockFree: bool, m: Move)
    requires Knows(k, store) && OwnTask(k)
    requires forall id | id in store.statuses :: id in store.repo && Reported(store.statuses[id])
    ensures var pc := NextPc(handlers, k, store, lockFree, m);
            var store' := NextStore(store, k, pc);
            && Knows(NextWorker(k, pc), store')
            && store.repo.Keys <= store'.repo.Keys
            && forall id | id in store'.statuses :: id in store'.repo && Reported(store'.statuses[id])
  {
  }

  lemma StepFound(s: State, a: Action)
    requires Found(s) && OneKey(s)
    ensures Found(Step(s, a))
  {
    if a.Act? && a.w < |s.workers| {
      var k := s.workers[a.w];
      MoveFound(s.handlers, k, s.store, k.ID() !in s.locks, a.move);
      hide NextPc, NextStore, NextLocks, NextWorker;
      var s' := Step(s, a);
      forall v | 0 <= v < |s'.workers| ensures Knows(s'.workers[v], s'.store) {
        assert Knows(s.workers[v], s.store);
      }
    }
  }

  lemma {:induction false} RunFound(handlers: set<string>, acts: seq<Action>)
    ensures Found(Run(handlers, acts))
  {
    if acts == [] {
      assert Found(Init(handlers));
    } else {
      hide Step, Found, OneKey;
      RunFound(handlers, acts[..|acts| - 1]);
      RunOneKey(handlers, acts[..|acts| - 1]);
      StepFound(Run(handlers, acts[..|acts| - 1]), acts[|acts| - 1]);
    }
  }

  /**
   In every run, with any failures and expiries: a task with a recorded status is in the
   repository, so no visit ever ends with "task not found"; and the status is one a handler reported.
   */
  lemma BroadcastLookupNeverMisses(handlers: set<string>, acts: seq<Action>)
    ensures var s := Run(handlers, acts);
            && (forall id | id in s.store.statuses :: id in s.store.repo && Reported(s.store.statuses[id]))
            && (forall k <- s.workers | k.pc.Leaving? || k.pc.Gone? :: k.pc.outcome != Returned(Err(TaskNotFound)))
  {
    RunFound(handlers, acts);
    hide Run;
  }

  // The repository holds the last answer written, in every run.

  /** A worker with an answer got it by a delivery that is on record. */
  predicate OnRecord(k: Worker, store: Store) {
    k.pc.Answered? ==> Delivery(k.pc.task, k.pc.response) in Deliveries(store, k.ID())
  }

  /** The stored task is the last answer written, and every write's delivery is on record. */
  ghost predicate LastWritten(s: State, id: string) {
    var writes := Writes(s, id);
    && (id in s.store.repo <==> writes != [])
    && (writes != [] ==>
          var answer := writes[|writes| - 1].delivery.response;
          s.store.repo[id] == Task(id, answer.status, answer.attempts, answer.failedReason, NoEvent))
    && (forall w <- writes :: w.delivery in Deliveries(s.store, id))
  }

  ghost predicate Recording(s: State, id: string) {
    && LastWritten(s, id)
    && (forall w | 0 <= w < |s.workers| && s.workers[w].ID() == id :: OnRecord(s.workers[w], s.store))
  }

  lemma MoveRecords(handlers: set<string>, k: Worker, store: Store, lockFree: bool, m: Move)
    requires OwnTask(k) && OnRecord(k, store)
    ensures var pc := NextPc(handlers, k, store, lockFree, m);
            var store' := NextStore(store, k, pc);
            && OnRecord(NextWorker(k, pc), store')
            && (forall d <- Deliveries(store, k.ID()) :: d in Deliveries(store', k.ID()))
            && (Upserts(k, pc) ==> store' == UpsertAnswer(store, k.ID(), k.pc.response))
            && (!Upserts(k, pc) ==> store'.repo == store.repo)
  {
  }

  lemma WriteRecorded(s: State, s': State, id: string, w: Write)
    requires LastWritten(s, id) && w.delivery in Deliveries(s.store, id)
    requires Writes(s', id) == Writes(s, id) + [w] && s'.store == UpsertAnswer(s.store, id, w.delivery.response)
    ensures LastWritten(s', id)
  {
    assert Deliveries(s'.store, id) == Deliveries(s.store, id);
  }

  lemma ActRecording(s: State, w: nat, m: Move, id: string)
    requires Recording(s, id) && OneKey(s) && w < |s.workers|
    ensures Recording(ActStep(s, w, m), id)
  {
    var k, s' := s.workers[w], ActStep(s, w, m);
    var pc := NextPc(s.handlers, k, s.store, k.ID() !in s.locks, m);
    MoveWritesOwn(k, s.store, pc);
    if k.ID() == id {
      MoveRecords(s.handlers, k, s.store, k.ID() !in s.locks, m);
      hide NextPc, NextStore, NextLocks, NextWorker, OneKey, UpsertAnswer;
      if Upserts(k, pc) {
        WriteRecorded(s, s', id, WriteOf(k.pc));
      } else {
        assert Writes(s', id) == Writes(s, id);
      }
    } else {
      assert At(s'.store, id) == At(s.store, id) && Writes(s', id) == Writes(s, id);
      hide NextPc, NextStore, NextLocks, NextWorker, OneKey;
      assert Get(s'.store.repo, id) == Get(s.store.repo, id);
      assert Get(s'.store.deliveries, id) == Get(s.store.deliveries, id);
    }
  }

  lemma {:induction false} RunRecording(handlers: set<string>, acts: seq<Action>, id: string)
    ensures Recording(Run(handlers, acts), id)
  {
    if acts == [] {
      assert Recording(Init(handlers), id);
    } else {
      hide Recording, OneKey, ActStep;
      var n := |acts| - 1;
      RunRecording(handlers, acts[..n], id);
      RunOneKey(handlers, acts[..n]);
      StepRecording(Run(handlers, acts[..n]), acts[n], id);
    }
  }

  lemma StepRecording(s: State, a: Action, id: string)
    requires Recording(s, id) && OneKey(s)
    ensures Recording(Step(s, a), id)
  {
    if a.Act? && a.w < |s.workers| {
      ActRecording(s, a.w, a.move, id);
      hide ActStep, Recording;
    }
  }

  /**
   In every run, with any failures and expiries: a task is in the repository exactly when an answer
   was written for it, and then with status, attempts and failure reason of the last answer written,
   which a handler gave in a delivery on record.
   */
  lemma RepoHoldsLastAnswer(handlers: set<string>, acts: seq<Action>, id: string)
    ensures var s := Run(handlers, acts);
            var writes := Writes(s, id);
            && (id in s.store.repo <==> writes != [])
            && (writes != [] ==>
                  var last := writes[|writes| - 1].delivery;
                  && last in Deliveries(s.store, id)
                  && s.store.repo[id].status == last.response.status
                  && s.store.repo[id].attempts == last.response.attempts
                  && s.store.repo[id].failedReason == last.response.failedReason)
  {
    RunRecording(handlers, acts, id);
    hide Run;
    var writes := Writes(Run(handlers, acts), id);
    assert writes != [] ==> writes[|writes| - 1] in writes;
  }

  // A task whose lease never ran out under an active holder: its terminal status is final and agrees.

  /** Who executes has a task that is not finished; who has stored has made the repository so. */
  predicate Current(k: Worker, store: Store) {
    && (k.Executing() ==> !Recorded(store, k.ID()).Terminal())
    && (k.pc.Stored? ==> k.ID() in store.repo && store.repo[k.ID()].status == k.pc.response.status)
  }

  predicate Matches(store: Store, id: string) {
    Recorded(store, id).Terminal() ==> id in store.repo && store.repo[id].status == Recorded(store, id)
  }

  ghost predicate Agreed(s: State, id: string) {
    && Matches(s.store, id)
    && (forall w | 0 <= w < |s.workers| && s.workers[w].ID() == id :: Current(s.workers[w], s.store))
  }

  lemma MoveMatches(handlers: set<string>, k: Worker, store: Store, lockFree: bool, m: Move)
    requires Current(k, store) && OwnTask(k) && Matches(store, k.ID())
    ensures var pc := NextPc(handlers, k, store, lockFree, m);
            var store' := NextStore(store, k, pc);
            && Current(NextWorker(k, pc), store')
            && Matches(store', k.ID())
            && (k.Executing() || store' == store)
  {
  }

  lemma MatchesLocal(store: Store, store': Store, id: string)
    requires At(store, id) == At(store', id)
    ensures Matches(store, id) ==> Matches(store', id)
    ensures forall k: Worker | k.ID() == id && Current(k, store) :: Current(k, store')
  {
    assert Get(store.repo, id) == Get(store'.repo, id) && Get(store.statuses, id) == Get(store'.statuses, id);
  }

  lemma CurrentIfIdle(k: Worker, store: Store)
    requires !k.Executing()
    ensures Current(k, store)
  {
  }

  lemma ActAgreed(s: State, w: nat, m: Move, id: string)
    requires Agreed(s, id) && OneKey(s) && Excluded(s) && Alive(s, id) && w < |s.workers|
    ensures Agreed(ActStep(s, w, m), id)
  {
    var k, s' := s.workers[w], ActStep(s, w, m);
    MoveWritesOwn(k, s.store, NextPc(s.handlers, k, s.store, k.ID() !in s.locks, m));
    if k.ID() == id {
      MoveMatches(s.handlers, k, s.store, k.ID() !in s.locks, m);
    } else {
      MatchesLocal(s.store, s'.store, id);
    }
    hide NextPc, NextStore, NextLocks, NextWorker, Matches, Current, OneKey;
    forall v | 0 <= v < |s'.workers| && s'.workers[v].ID() == id ensures Current(s'.workers[v], s'.store) {
      if v != w && k.ID() == id && k.Executing() {
        if s.workers[v].Executing() {
          AliveIsAlone(s, id, v, w);
        } else {
          CurrentIfIdle(s.workers[v], s'.store);
        }
      }
    }
  }

  lemma StepAgreed(s: State, a: Action, id: string)
    requires Agreed(s, id) && OneKey(s) && Excluded(s) && Alive(s, id)
    ensures Agreed(Step(s, a), id)
  {
    if a.Act? && a.w < |s.workers| {
      ActAgreed(s, a.w, a.move, id);
      hide ActStep, Agreed;
    }
  }

  lemma {:induction false} RunAgreed(handlers: set<string>, acts: seq<Action>, id: string)
    requires Run(handlers, acts).expiredLeases[id] == 0
    ensures Agreed(Run(handlers, acts), id)
  {
    if acts == [] {
      assert Agreed(Init(handlers), id);
    } else {
      hide Step, Agreed, OneKey, Excluded, Alive;
      var n := |acts| - 1;
      RunAlive(handlers, acts, id);
      RunAlive(handlers, acts[..n], id);
      RunAgreed(handlers, acts[..n], id);
      RunOneKey(handlers, acts[..n]);
      RunExcluded(handlers, acts[..n]);
      StepAgreed(Run(handlers, acts[..n]), acts[n], id);
    }
  }

  /**
   In every reachable state, for a task whose lease never ran out under an active holder: a recorded
   terminal status is the repository's status; and where the repository differs from what is
   recorded, because a save failed or the status expired, the task can still be executed.
   */
  lemma TerminalStatusAgrees(handlers: set<string>, acts: seq<Action>, id: string)
    requires Run(handlers, acts).expiredLeases[id] == 0
    ensures var store := Run(handlers, acts).store;
            && (Recorded(store, id).Terminal() ==> id in store.repo && store.repo[id].status == Recorded(store, id))
            && (id in store.repo && store.repo[id].status != Recorded(store, id) ==>
                  Recorded(store, id).CanBeExecuted())
  {
    RunAgreed(handlers, acts, id);
    RunFound(handlers, acts);
    hide Run;
  }

  /** A failed save does leave the repository ahead: it has the success, and the task is still not executed. */
  lemma FailedSaveLeavesRepoAhead(handlers: set<string>, e: ProcessedEvent) returns (acts: seq<Action>)
    requires e.slug in handlers
    ensures var s := Run(handlers, acts);
            && e.ID() in s.store.repo && s.store.repo[e.ID()].status == Success
            && Recorded(s.store, e.ID()) == NotExecuted
            && s.unsaved == multiset{e.ID()} && s.expiredLeases == multiset{} && s.expiredStatuses == multiset{}
  {
    var start := Init(handlers);
    hide RunFrom;
    acts := Prepare(start, e);
    acts := GoLast(start, acts, [], e, Loaded(NotExecuted, MakeTask(e)), Proceed(Answer));
    acts := GoLast(start, acts, [], e, Answered(NotExecuted, MakeTask(e), Answer), Proceed(Answer));
    acts := GoLast(start, acts, [], e, Stored(NotExecuted, MakeTask(e), Answer), Fail);
  }

  lemma StepFinal(s: State, a: Action, id: string)
    requires Agreed(s, id) && OneKey(s) && Recorded(s.store, id).Terminal() && a != ExpireStatus(id)
    ensures At(Step(s, a).store, id) == At(s.store, id)
  {
    if a.Act? && a.w < |s.workers| {
      var k := s.workers[a.w];
      MoveWritesOwn(k, s.store, NextPc(s.handlers, k, s.store, k.ID() !in s.locks, a.move));
      if k.ID() == id {
        MoveMatches(s.handlers, k, s.store, k.ID() !in s.locks, a.move);
      }
      hide NextPc, NextStore, NextLocks;
    }
  }

  lemma OneStepFinal(handlers: set<string>, acts: seq<Action>, a: Action, id: string)
    requires Run(handlers, acts).expiredLeases[id] == 0 && Recorded(Run(handlers, acts).store, id).Terminal()
    requires a != ExpireStatus(id)
    ensures At(Run(handlers, acts + [a]).store, id) == At(Run(handlers, acts).store, id)
  {
    hide Step, Agreed, OneKey, At;
    RunAgreed(handlers, acts, id);
    RunOneKey(handlers, acts);
    FoldOneMore(Step, Init(handlers), acts, a);
    StepFinal(Run(handlers, acts), a, id);
  }

  /**
   Finality: once a terminal status is recorded, no continuation changes the task's repository
   entry, its status or its deliveries, unless this status expires or a lease of this task runs
   out under an active holder.
   */
  lemma {:induction false} TerminalStatusIsFinal(
    handlers: set<string>, acts: seq<Action>, more: seq<Action>, id: string)
    requires Run(handlers, acts + more).expiredLeases[id] == 0 && ExpireStatus(id) !in more
    requires Recorded(Run(handlers, acts).store, id).Terminal()
    ensures At(Run(handlers, acts + more).store, id) == At(Run(handlers, acts).store, id)
    decreases |more|
  {
    hide Run;
    if more == [] {
      assert acts + more == acts;
    } else {
      var n := |more| - 1;
      var sofar := acts + more[..n];
      assert acts + more == sofar + [more[n]] && (acts + more)[..|acts + more| - 1] == sofar;
      assert more[n] in more;
      RunAlive(handlers, acts + more, id);
      TerminalStatusIsFinal(handlers, acts, more[..n], id);
      assert Get(Run(handlers, sofar).store.statuses, id) == Get(Run(handlers, acts).store.statuses, id);
      OneStepFinal(handlers, sofar, more[n], id);
    }
  }
}
