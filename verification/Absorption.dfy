/** End to end: what redelivered copies can do, and where every delivery came from. */
module Absorption {
  import opened TaskEntity
  import opened TaskService
  import opened TaskMachine
  import opened TaskKeys
  import opened Duplication
  import opened StoreAgreement
  import opened Pipeline
  import opened Runs

  // The machine inside the pipeline runs as the machine alone does.

  /** The machine's own actions during a pipeline run. */
  function Projected(tables: Tables, acts: seq<PipeAction>): seq<Action>
    decreases |acts|
  {
    if acts == [] then []
    else
      var n := |acts| - 1;
      var a := MachineAction(PipeRun(tables, acts[..n]), acts[n]);
      Projected(tables, acts[..n]) + if a.Some? then [a.value] else []
  }

  lemma {:induction false} MachineRunsAlone(tables: Tables, acts: seq<PipeAction>)
    ensures PipeRun(tables, acts).machine == Run(tables.handlers, Projected(tables, acts))
    decreases |acts|
  {
    if acts != [] {
      hide Step, CoordinatorNext, ConsumerNext, ChannelNext;
      var n := |acts| - 1;
      MachineRunsAlone(tables, acts[..n]);
      var a := MachineAction(PipeRun(tables, acts[..n]), acts[n]);
      if a.Some? {
        FoldOneMore(Step, Init(tables.handlers), Projected(tables, acts[..n]), a.value);
      } else {
        assert Projected(tables, acts[..n]) + [] == Projected(tables, acts[..n]);
      }
    }
  }

  /** A longer pipeline run projects to a longer machine run, by actions the pipeline asked for. */
  lemma {:induction false} ProjectedGrows(tables: Tables, acts: seq<PipeAction>, more: seq<PipeAction>)
    returns (rest: seq<Action>)
    ensures Projected(tables, acts + more) == Projected(tables, acts) + rest
    ensures forall a <- rest | !a.Spawn? :: Machine(a) in more
    decreases |more|
  {
    hide PipeRun;
    if more == [] {
      assert acts + more == acts;
      rest := [];
    } else {
      var n := |more| - 1;
      assert (acts + more)[..|acts + more| - 1] == acts + more[..n];
      rest := ProjectedGrows(tables, acts, more[..n]);
      var a := MachineAction(PipeRun(tables, acts + more[..n]), more[n]);
      if a.Some? {
        rest := rest + [a.value];
      }
      assert forall b <- more[..n] :: b in more;
      assert more[n] in more;
    }
  }

  // What can make a task be delivered to the end once more.

  /**
   The step costs the task its answer, its lease or its record: a terminal answer is not saved, a
   lease runs out under an active holder, or a terminal status expires.
   */
  predicate Harms(s: State, a: Action, id: string) {
    match a
    case Spawn(_) => false
    case Act(w, m) =>
      && w < |s.workers| && s.workers[w].ID() == id && s.workers[w].Owes()
      && (m.Fail? || m.Panic? || (m.FailLate? && s.workers[w].pc.Answered?))
    case ExpireLease(i) => i == id && id in s.locks && s.locks[id] < |s.workers| && s.workers[s.locks[id]].Active()
    case ExpireStatus(i) => i == id && Recorded(s.store, id).Terminal()
  }

  /** The counts behind the bound on terminal deliveries. */
  function Losses(s: State, id: string): nat {
    s.unsaved[id] + s.expiredLeases[id] + s.expiredStatuses[id]
  }

  lemma StepLosses(s: State, a: Action, id: string)
    ensures Losses(Step(s, a), id) == Losses(s, id) + if Harms(s, a, id) then 1 else 0
  {
    hide NextStore, NextLocks, NextWorker;
  }

  /** The action of the pipeline harms the task. */
  predicate PipeHarms(p: Pipe, a: PipeAction, id: string) {
    MachineAction(p, a).Some? && Harms(p.machine, MachineAction(p, a).value, id)
  }

  function Harming(id: string): (Pipe, PipeAction) -> bool {
    (p: Pipe, a: PipeAction) => PipeHarms(p, a, id)
  }

  /** The number of harmful steps of a pipeline run. */
  function HarmfulSteps(tables: Tables, acts: seq<PipeAction>, id: string): nat {
    CountSteps(Stepper(tables.publishers), Empty(tables), acts, Harming(id))
  }

  lemma PipeLosses(publishers: set<string>, p: Pipe, a: PipeAction, id: string)
    ensures Losses(PipeStep(publishers, p, a).machine, id) ==
            Losses(p.machine, id) + if PipeHarms(p, a, id) then 1 else 0
  {
    if MachineAction(p, a).Some? {
      StepLosses(p.machine, MachineAction(p, a).value, id);
    }
    hide Step, Losses, Harms, CoordinatorNext, ConsumerNext, ChannelNext;
  }

  /** What the bound counts are exactly the harmful steps. */
  lemma LossesAreHarmfulSteps(tables: Tables, acts: seq<PipeAction>, id: string)
    ensures Losses(PipeRun(tables, acts).machine, id) == HarmfulSteps(tables, acts, id)
  {
    var step, counts := Stepper(tables.publishers), Harming(id);
    forall p, a ensures Losses(step(p, a).machine, id) == Losses(p.machine, id) + if counts(p, a) then 1 else 0 {
      PipeLosses(tables.publishers, p, a, id);
    }
    assert Losses(Empty(tables).machine, id) == 0;
    hide Stepper, Harming, Losses;
    MeasureCounts(step, Empty(tables), acts, (p: Pipe) => Losses(p.machine, id), counts);
  }

  /**
   Every pipeline run, whatever fails, panics or expires and however many copies of however many
   messages go through: a task is delivered to the end at most once more than it was harmed.
   */
  lemma CopiesAreBounded(tables: Tables, acts: seq<PipeAction>, id: string)
    ensures var s := PipeRun(tables, acts).machine;
            && Terminals(s, id) <= 1 + s.unsaved[id] + s.expiredLeases[id] + s.expiredStatuses[id]
            && Terminals(s, id) <= 1 + HarmfulSteps(tables, acts, id)
  {
    hide PipeRun, Run, Terminals;
    MachineRunsAlone(tables, acts);
    TerminalDeliveriesBounded(tables.handlers, Projected(tables, acts), id);
    LossesAreHarmfulSteps(tables, acts, id);
  }

  /**
   Absorption: however many copies go through, and with any lock, unlock, read, load and handler
   errors and any panics before an answer, a task that is never harmed is delivered to the end at
   most once.
   */
  lemma CopiesAreAbsorbed(tables: Tables, acts: seq<PipeAction>, id: string)
    requires forall n | 0 <= n < |acts| :: !PipeHarms(PipeRun(tables, acts[..n]), acts[n], id)
    ensures Terminals(PipeRun(tables, acts).machine, id) <= 1
  {
    hide Terminals, PipeHarms, PipeStep;
    forall n | 0 <= n < |acts|
      ensures !Harming(id)(Fold(Stepper(tables.publishers), Empty(tables), acts[..n]), acts[n])
    {
      assert !PipeHarms(PipeRun(tables, acts[..n]), acts[n], id);
    }
    NoneCount(Stepper(tables.publishers), Empty(tables), acts, Harming(id));
    CopiesAreBounded(tables, acts, id);
  }

  /**
   And once its terminal status is recorded, later copies change neither store nor are they
   delivered, whatever else the pipeline does and wherever it fails, unless this status expires or
   a lease of this task runs out under an active holder.
   */
  lemma LaterCopiesChangeNothing(tables: Tables, acts: seq<PipeAction>, more: seq<PipeAction>, id: string)
    requires PipeRun(tables, acts + more).machine.expiredLeases[id] == 0 && Machine(ExpireStatus(id)) !in more
    requires Recorded(PipeRun(tables, acts).machine.store, id).Terminal()
    ensures At(PipeRun(tables, acts + more).machine.store, id) == At(PipeRun(tables, acts).machine.store, id)
  {
    hide PipeRun, Run, Recorded, At;
    MachineRunsAlone(tables, acts);
    MachineRunsAlone(tables, acts + more);
    var rest := ProjectedGrows(tables, acts, more);
    TerminalStatusIsFinal(tables.handlers, Projected(tables, acts), rest, id);
  }

  // Where deliveries come from.

  /** Some worker carries the event `e`. */
  ghost predicate Carried(s: State, e: ProcessedEvent) {
    exists v | 0 <= v < |s.workers| :: s.workers[v].event == e
  }

  /** Every delivery was made by a worker that carries its event, under that event's ID. */
  ghost predicate Traced(s: State) {
    forall id, i | id in s.store.deliveries && 0 <= i < |s.store.deliveries[id]| ::
      Carried(s, s.store.deliveries[id][i].task.event) && s.store.deliveries[id][i].task.event.ID() == id
  }

  lemma StepKeepsEvents(s: State, a: Action, e: ProcessedEvent)
    requires Carried(s, e)
    ensures Carried(Step(s, a), e)
  {
    hide NextPc, NextStore, NextLocks;
    var v :| 0 <= v < |s.workers| && s.workers[v].event == e;
    assert Step(s, a).workers[v].event == e;
  }

  lemma MoveTraces(k: Worker, store: Store, pc: Pc, id: string, i: nat)
    requires id in NextStore(store, k, pc).deliveries && i < |NextStore(store, k, pc).deliveries[id]|
    ensures var d := NextStore(store, k, pc).deliveries[id][i];
            || (id in store.deliveries && i < |store.deliveries[id]| && d == store.deliveries[id][i])
            || (id == k.ID() && pc.Answered? && d.task == pc.task)
  {
  }

  lemma StepTraces(s: State, a: Action, id: string, i: nat)
    requires Traced(s) && OneKey(s)
    requires id in Step(s, a).store.deliveries && i < |Step(s, a).store.deliveries[id]|
    ensures Carried(Step(s, a), Step(s, a).store.deliveries[id][i].task.event)
    ensures Step(s, a).store.deliveries[id][i].task.event.ID() == id
  {
    hide NextPc, NextLocks;
    if a.Act? && a.w < |s.workers| {
      var k := s.workers[a.w];
      var pc := NextPc(s.handlers, k, s.store, k.ID() !in s.locks, a.move);
      assert OwnTask(k);
      MoveTraces(k, s.store, pc, id, i);
      MoveOneKey(s.handlers, k, s.store, k.ID() !in s.locks, a.move);
      assert Step(s, a).workers[a.w] == NextWorker(k, pc);
      hide NextStore;
    }
    if id in s.store.deliveries && i < |s.store.deliveries[id]| {
      StepKeepsEvents(s, a, s.store.deliveries[id][i].task.event);
    }
  }

  lemma StepTraced(s: State, a: Action)
    requires Traced(s) && OneKey(s)
    ensures Traced(Step(s, a))
  {
    var s' := Step(s, a);
    hide Step, Carried;
    forall id, i | id in s'.store.deliveries && 0 <= i < |s'.store.deliveries[id]|
      ensures Carried(s', s'.store.deliveries[id][i].task.event) && s'.store.deliveries[id][i].task.event.ID() == id
    {
      StepTraces(s, a, id, i);
    }
  }

  lemma {:induction false} RunTraced(handlers: set<string>, acts: seq<Action>)
    ensures Traced(Run(handlers, acts))
  {
    if acts == [] {
      assert Traced(Init(handlers));
    } else {
      hide Step, Traced, OneKey;
      RunTraced(handlers, acts[..|acts| - 1]);
      RunOneKey(handlers, acts[..|acts| - 1]);
      StepTraced(Run(handlers, acts[..|acts| - 1]), acts[|acts| - 1]);
    }
  }

  /**
   Provenance: in every pipeline run, whatever fails, every delivery ever made is of an event the
   coordinator received and published to the publisher of the event's own destination type, and
   is recorded under that event's task ID.
   */
  lemma DeliveriesWereReceived(tables: Tables, acts: seq<PipeAction>, id: string, i: nat)
    requires id in PipeRun(tables, acts).machine.store.deliveries
    requires i < |PipeRun(tables, acts).machine.store.deliveries[id]|
    ensures var p := PipeRun(tables, acts);
            var e := p.machine.store.deliveries[id][i].task.event;
            && e in p.coordinator.received && e in EventsOf(p.coordinator.published)
            && e.DestinationType() in tables.publishers && e.ID() == id
  {
    hide PipeRun, Run, EventsOf, WorkerEvents;
    var p := PipeRun(tables, acts);
    MachineRunsAlone(tables, acts);
    RunTraced(tables.handlers, Projected(tables, acts));
    var e := p.machine.store.deliveries[id][i].task.event;
    assert Carried(p.machine, e);
    var v :| 0 <= v < |p.machine.workers| && p.machine.workers[v].event == e;
    WorkerHasEvent(p.machine.workers, v);
    EventsConserved(tables, acts, e);
  }
}
