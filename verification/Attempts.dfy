/** What the stored attempt counter, a uint8, counts. */
module Attempts {
  import opened TaskEntity
  import opened Stores
  import opened TaskService
  import opened TaskMachine
  import opened Locking
  import opened TaskKeys
  import opened Scripts

  /** Writes since the last one by a visit that had read "not executed", counting that one. */
  function SinceFresh(writes: seq<Write>): nat {
    if writes == [] then 0
    else if writes[|writes| - 1].read == NotExecuted then 1
    else SinceFresh(writes[..|writes| - 1]) + 1
  }

  predicate Increments(d: Delivery) {
    d.response.attempts == (d.task.attempts + 1) % 256
  }

  /** Every handler of this task so far added one to the attempts it was given. */
  ghost predicate AllIncrement(store: Store, id: string) {
    forall d <- Deliveries(store, id) :: Increments(d)
  }

  predicate Counted(s: State, id: string) {
    id in s.store.repo ==> s.store.repo[id].attempts == SinceFresh(Writes(s, id)) % 256
  }

  /** A loaded task carries the stored attempts, or none when it starts afresh. */
  predicate Carries(k: Worker, store: Store) {
    && (k.pc.Ready? ==> k.pc.status.CanBeExecuted())
    && (k.pc.Loaded? || k.pc.Answered? ==>
          && k.pc.status.CanBeExecuted()
          && (k.pc.status.NotExecuted? ==> k.pc.task.attempts == 0)
          && (k.pc.status.RetriableFailed? ==>
                k.ID() in store.repo && k.pc.task.attempts == store.repo[k.ID()].attempts))
    && (k.pc.Answered? ==> Increments(Delivery(k.pc.task, k.pc.response)))
  }

  ghost predicate Accounted(s: State, id: string) {
    && Counted(s, id)
    && (forall w | 0 <= w < |s.workers| && s.workers[w].ID() == id :: Carries(s.workers[w], s.store))
  }

  /** Deliveries are only ever added. */
  lemma MoveLogs(k: Worker, store: Store, pc: Pc, id: string)
    requires AllIncrement(NextStore(store, k, pc), id)
    ensures AllIncrement(store, id)
    ensures k.ID() == id && k.pc.Loaded? && pc.Answered? ==> Increments(Delivery(pc.task, pc.response))
  {
    var log, log' := Deliveries(store, id), Deliveries(NextStore(store, k, pc), id);
    assert log <= log';
    assert forall d <- log :: d in log';
    if k.ID() == id && k.pc.Loaded? && pc.Answered? {
      assert log'[|log|] == Delivery(pc.task, pc.response) && log'[|log|] in log';
    }
  }

  lemma StepLogs(s: State, a: Action, id: string)
    requires AllIncrement(Step(s, a).store, id)
    ensures AllIncrement(s.store, id)
  {
    if a.Act? && a.w < |s.workers| {
      var k := s.workers[a.w];
      MoveLogs(k, s.store, NextPc(s.handlers, k, s.store, k.ID() !in s.locks, a.move), id);
      hide NextPc, NextStore, AllIncrement;
    }
  }

  lemma MoveCarries(handlers: set<string>, k: Worker, store: Store, lockFree: bool, m: Move)
    requires Carries(k, store)
    requires AllIncrement(NextStore(store, k, NextPc(handlers, k, store, lockFree, m)), k.ID())
    ensures var pc := NextPc(handlers, k, store, lockFree, m);
            && Carries(NextWorker(k, pc), NextStore(store, k, pc))
            && (k.Executing() || NextStore(store, k, pc) == store)
  {
    MoveLogs(k, store, NextPc(handlers, k, store, lockFree, m), k.ID());
    hide AllIncrement;
  }

  lemma OneMoreWrite(writes: seq<Write>, last: Write)
    ensures SinceFresh(writes + [last]) == if last.read == NotExecuted then 1 else SinceFresh(writes) + 1
  {
    assert (writes + [last])[..|writes|] == writes;
  }

  lemma OneMoreModulo(n: nat)
    ensures (n % 256 + 1) % 256 == (n + 1) % 256
  {
  }

  lemma WriteAppends(s: State, w: nat, m: Move)
    requires OneKey(s) && w < |s.workers| && s.workers[w].pc.Answered? && (m.Proceed? || m.FailLate?)
    ensures var k, s' := s.workers[w], ActStep(s, w, m);
            && Writes(s', k.ID()) == Writes(s, k.ID()) + [WriteOf(k.pc)]
            && k.ID() in s'.store.repo && s'.store.repo[k.ID()].attempts == k.pc.response.attempts
  {
    assert OwnTask(s.workers[w]);
    hide OneKey, NextLocks, NextWorker;
  }

  /** The write itself: one more, or the first again. */
  lemma WriteCounts(s: State, w: nat, m: Move)
    requires OneKey(s) && w < |s.workers| && Counted(s, s.workers[w].ID()) && Carries(s.workers[w], s.store)
    requires s.workers[w].pc.Answered? && (m.Proceed? || m.FailLate?)
    ensures Counted(ActStep(s, w, m), s.workers[w].ID())
  {
    var k := s.workers[w];
    WriteAppends(s, w, m);
    OneMoreWrite(Writes(s, k.ID()), WriteOf(k.pc));
    OneMoreModulo(SinceFresh(Writes(s, k.ID())));
    hide SinceFresh, OneKey, ActStep, Writes;
  }

  /** Other moves, and moves for other tasks, write nothing. */
  lemma NothingWritten(s: State, w: nat, m: Move, id: string)
    requires OneKey(s) && w < |s.workers|
    requires !(s.workers[w].pc.Answered? && (m.Proceed? || m.FailLate?)) || id != s.workers[w].ID()
    ensures var s' := ActStep(s, w, m);
            Get(s'.store.repo, id) == Get(s.store.repo, id) && Writes(s', id) == Writes(s, id)
  {
    assert OwnTask(s.workers[w]);
    hide OneKey, NextLocks, NextWorker;
  }

  lemma WriteCounted(s: State, w: nat, m: Move, id: string)
    requires Counted(s, id) && OneKey(s) && w < |s.workers|
    requires s.workers[w].ID() == id ==> Carries(s.workers[w], s.store)
    ensures Counted(ActStep(s, w, m), id)
  {
    if s.workers[w].pc.Answered? && (m.Proceed? || m.FailLate?) && id == s.workers[w].ID() {
      WriteCounts(s, w, m);
    } else {
      NothingWritten(s, w, m, id);
    }
    hide ActStep, OneKey, Carries, SinceFresh, Writes;
  }

  lemma ActAccounted(s: State, w: nat, m: Move, id: string)
    requires Accounted(s, id) && OneKey(s) && Excluded(s) && Alive(s, id) && w < |s.workers|
    requires AllIncrement(ActStep(s, w, m).store, id)
    ensures Accounted(ActStep(s, w, m), id)
  {
    var k, s' := s.workers[w], ActStep(s, w, m);
    WriteCounted(s, w, m, id);
    if k.ID() == id {
      MoveCarries(s.handlers, k, s.store, k.ID() !in s.locks, m);
    }
    assert s'.workers == s.workers[w := NextWorker(k, s'.workers[w].pc)];
    forall v | 0 <= v < |s'.workers| && s'.workers[v].ID() == id ensures Carries(s'.workers[v], s'.store) {
      if v != w {
        OtherCarries(s, w, m, v, id);
      }
    }
  }

  lemma OtherCarries(s: State, w: nat, m: Move, v: nat, id: string)
    requires OneKey(s) && Excluded(s) && Alive(s, id) && w < |s.workers| && v < |s.workers| && v != w
    requires s.workers[v].ID() == id && Carries(s.workers[v], s.store)
    ensures Carries(s.workers[v], ActStep(s, w, m).store)
  {
    var k := s.workers[w];
    var pc := NextPc(s.handlers, k, s.store, k.ID() !in s.locks, m);
    assert Holds(s, v) && Holds(s, w);
    assert OwnTask(k) && ActStep(s, w, m).store == NextStore(s.store, k, pc);
    hide NextPc, NextLocks;
  }

  lemma StepAccounted(s: State, a: Action, id: string)
    requires Accounted(s, id) && OneKey(s) && Excluded(s) && Alive(s, id)
    requires AllIncrement(Step(s, a).store, id)
    ensures Accounted(Step(s, a), id)
  {
    if a.Act? && a.w < |s.workers| {
      ActAccounted(s, a.w, a.move, id);
    }
    hide ActStep, SinceFresh;
  }

  lemma {:induction false} RunAccounted(handlers: set<string>, acts: seq<Action>, id: string)
    requires Run(handlers, acts).expiredLeases[id] == 0 && AllIncrement(Run(handlers, acts).store, id)
    ensures Accounted(Run(handlers, acts), id)
  {
    if acts == [] {
      assert Accounted(Init(handlers), id);
    } else {
      hide Step, AllIncrement, Accounted, OneKey, Excluded, Alive;
      var n := |acts| - 1;
      StepLogs(Run(handlers, acts[..n]), acts[n], id);
      RunAlive(handlers, acts, id);
      RunAlive(handlers, acts[..n], id);
      RunAccounted(handlers, acts[..n], id);
      RunOneKey(handlers, acts[..n]);
      RunExcluded(handlers, acts[..n]);
      StepAccounted(Run(handlers, acts[..n]), acts[n], id);
    }
  }

  /**
   Attempt accounting, for a task whose lease never ran out under an active holder and whose
   handlers added one: the stored attempts are, modulo 256, the repository writes since the last
   one that started afresh.
   */
  lemma AttemptsCountWrites(handlers: set<string>, acts: seq<Action>, id: string)
    requires Run(handlers, acts).expiredLeases[id] == 0 && AllIncrement(Run(handlers, acts).store, id)
    requires id in Run(handlers, acts).store.repo
    ensures Run(handlers, acts).store.repo[id].attempts == SinceFresh(Writes(Run(handlers, acts), id)) % 256
  {
    RunAccounted(handlers, acts, id);
    hide Run;
  }

  lemma FirstWrite(s: State, e: ProcessedEvent) returns (acts: seq<Action>)
    requires Quiet(s, e) && s.writes == map[]
    ensures var s' := RunFrom(s, acts);
            && Quiet(s', e) && |s'.workers| == |s.workers| + 1
            && Writes(s', e.ID()) == [Write(NotExecuted, Delivery(MakeTask(e), Answer))]
            && e.ID() in s'.store.repo && s'.store.repo[e.ID()].attempts == 1
  {
    hide RunFrom;
    var pc := Stored(NotExecuted, MakeTask(e), Answer);
    acts := Prepare(s, e);
    acts := GoLast(s, acts, s.workers, e, Loaded(NotExecuted, MakeTask(e)), Proceed(Answer));
    acts := GoLast(s, acts, s.workers, e, Answered(NotExecuted, MakeTask(e), Answer), Proceed(Answer));
    acts := GoLast(s, acts, s.workers, e, pc, Fail);
    var call := CallOf(s.handlers, Worker(e, pc, false, false));
    acts := GoLast(s, acts, s.workers, e, Leaving(call, Returned(Err(SaveError))), Proceed(Answer));
  }

  /**
   A fresh visit that fails before its write does not restart the count: the second visit has read
   "not executed" and its handler fails; the stored attempts stay those of the visit before.
   */
  lemma FailedFreshVisitKeepsCount(handlers: set<string>, e: ProcessedEvent) returns (acts: seq<Action>)
    requires e.slug in handlers
    ensures var s := Run(handlers, acts);
            var s' := Run(handlers, acts + [Act(1, HandlerFails)]);
            && |s.workers| == |s'.workers| == 2 && s.workers[1].pc == Loaded(NotExecuted, MakeTask(e))
            && s'.workers[1].pc.Leaving? && s'.workers[1].pc.outcome == Returned(Err(HandlerError))
            && Writes(s', e.ID()) == [Write(NotExecuted, Delivery(MakeTask(e), Answer))]
            && e.ID() in s'.store.repo && s'.store.repo[e.ID()].attempts == 1
  {
    hide RunFrom;
    var first := FirstWrite(Init(handlers), e);
    var s := Run(handlers, first);
    var more := Prepare(s, e);
    RunSplits(handlers, first, more);
    acts := first + more;
    var last := GoLast(Init(handlers), acts, s.workers, e, Loaded(NotExecuted, MakeTask(e)), HandlerFails);
    var same := Go(Init(handlers), acts, Act(1, HandlerFails));
  }

  // The shipped handler.

  ghost predicate ByWebhook(store: Store, id: string) {
    forall d <- Deliveries(store, id) :: d.response == WebhookHandle(d.task)
  }

  /** A worker whose task only the webhook handler has seen works on a fresh task. */
  predicate Fresh(k: Worker) {
    && (k.Executing() ==> k.pc.status == NotExecuted)
    && (HasTask(k) ==> k.pc.task.attempts == 0)
    && (k.pc.Answered? || k.pc.Stored? ==> k.pc.response == RawResponse(Success, 1, None))
  }

  /** Every visit started from a fresh task, and what is stored is its answer. */
  ghost predicate Untried(store: Store, id: string) {
    && (forall d <- Deliveries(store, id) :: d.task.attempts == 0)
    && (id in store.statuses ==> store.statuses[id] == Success)
    && (id in store.repo ==>
          var task := store.repo[id];
          task.status == Success && task.attempts == 1 && task.failedReason == None)
  }

  ghost predicate WebhookOnly(s: State, id: string) {
    && Untried(s.store, id)
    && (forall w | 0 <= w < |s.workers| && s.workers[w].ID() == id :: Fresh(s.workers[w]))
  }

  lemma MoveByWebhook(k: Worker, store: Store, pc: Pc, id: string)
    requires ByWebhook(NextStore(store, k, pc), id)
    ensures ByWebhook(store, id)
    ensures k.ID() == id && k.pc.Loaded? && pc.Answered? ==> pc.response == WebhookHandle(pc.task)
  {
    var log, log' := Deliveries(store, id), Deliveries(NextStore(store, k, pc), id);
    assert log <= log';
    assert forall d <- log :: d in log';
    if k.ID() == id && k.pc.Loaded? && pc.Answered? {
      assert log'[|log|] == Delivery(pc.task, pc.response) && log'[|log|] in log';
    }
  }

  lemma MoveFresh(handlers: set<string>, k: Worker, store: Store, lockFree: bool, m: Move)
    requires OwnTask(k) && Fresh(k) && Untried(store, k.ID())
    requires ByWebhook(NextStore(store, k, NextPc(handlers, k, store, lockFree, m)), k.ID())
    ensures var pc := NextPc(handlers, k, store, lockFree, m);
            Fresh(NextWorker(k, pc)) && Untried(NextStore(store, k, pc), k.ID())
  {
    MoveByWebhook(k, store, NextPc(handlers, k, store, lockFree, m), k.ID());
    hide ByWebhook;
  }

  lemma StepWebhook(s: State, a: Action, id: string)
    requires OneKey(s)
    requires ByWebhook(Step(s, a).store, id)
    ensures ByWebhook(s.store, id)
    ensures WebhookOnly(s, id) ==> WebhookOnly(Step(s, a), id)
  {
    if a.Act? && a.w < |s.workers| {
      var k := s.workers[a.w];
      var pc := NextPc(s.handlers, k, s.store, k.ID() !in s.locks, a.move);
      MoveByWebhook(k, s.store, pc, id);
      MoveWritesOwn(k, s.store, pc);
      if k.ID() != id {
        assert At(Step(s, a).store, id) == At(s.store, id);
        SlotUntried(s.store, Step(s, a).store, id);
      } else if Fresh(k) && Untried(s.store, id) {
        MoveFresh(s.handlers, k, s.store, k.ID() !in s.locks, a.move);
      }
      hide NextPc, NextStore, NextLocks, NextWorker, ByWebhook, Fresh, Untried;
    }
  }

  lemma SlotUntried(store: Store, store': Store, id: string)
    requires At(store, id) == At(store', id)
    ensures Untried(store, id) ==> Untried(store', id)
  {
    assert Get(store.repo, id) == Get(store'.repo, id) && Get(store.statuses, id) == Get(store'.statuses, id);
    assert Get(store.deliveries, id) == Get(store'.deliveries, id);
  }

  lemma {:induction false} RunWebhook(handlers: set<string>, acts: seq<Action>, id: string)
    requires ByWebhook(Run(handlers, acts).store, id)
    ensures WebhookOnly(Run(handlers, acts), id)
  {
    if acts == [] {
      assert WebhookOnly(Init(handlers), id);
    } else {
      hide Step, ByWebhook, WebhookOnly, OneKey;
      var n := |acts| - 1;
      RunOneKey(handlers, acts[..n]);
      StepWebhook(Run(handlers, acts[..n]), acts[n], id);
      RunWebhook(handlers, acts[..n], id);
    }
  }

  /**
   The shipped handler never counts beyond one: in every run, whatever fails or expires, a task
   answered by the webhook handler only is recorded as a success or not at all, and is stored with
   exactly one attempt however often it was delivered.
   */
  lemma WebhookAttemptsStayOne(handlers: set<string>, acts: seq<Action>, id: string)
    requires ByWebhook(Run(handlers, acts).store, id)
    ensures var store := Run(handlers, acts).store;
            && (id in store.statuses ==> store.statuses[id] == Success)
            && (id in store.repo ==>
                  var task := store.repo[id];
                  task.status == Success && task.attempts == 1 && task.failedReason == None)
            && (forall d <- Deliveries(store, id) :: d.task.attempts == 0 && d.response.attempts == 1)
  {
    RunWebhook(handlers, acts, id);
    hide Run;
  }
}
