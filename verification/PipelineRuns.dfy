/** What happened in a run of the pipeline, stage by stage, and that every run of the workers comes about in it. */
module PipelineRuns {
  import opened TaskMachine
  import opened Pipeline
  import opened Runs

  /** Where copies of an event are counted. */
  datatype Stage =
    | WasReceived | WasPublished | HadNoPublisher | WasRefused | WasHandedOut | WasForwarded | WasAcked | WasTaken

  function Amount(p: Pipe, stage: Stage, e: Event): int {
    match stage
    case WasReceived => p.coordinator.received[e]
    case WasPublished => EventsOf(p.coordinator.published)[e]
    case HadNoPublisher => p.coordinator.noPublisher[e]
    case WasRefused => p.coordinator.publishErrors[e]
    case WasHandedOut => p.consumer.handed[e]
    case WasForwarded => p.consumer.forwarded[e]
    case WasAcked => p.consumer.acked[e]
    case WasTaken => WorkerEvents(p.machine.workers)[e]
  }

  /** The action, with the answer it carries, takes a copy of the event to the stage. */
  predicate Reaches(publishers: set<string>, stage: Stage, e: Event, p: Pipe, a: PipeAction) {
    var routed := a.Route? && a.event == e && e in p.coordinator.routing;
    match stage
    case WasReceived => a == Receive(e)
    case WasPublished => routed && e.slug in publishers && a.succeeds
    case HadNoPublisher => routed && e.slug !in publishers
    case WasRefused => routed && e.slug in publishers && !a.succeeds
    case WasHandedOut => a.HandOut? && a.i < |p.coordinator.published| && p.coordinator.published[a.i].event == e
    case WasForwarded => a == Forward(e) && e in p.consumer.forwarding
    case WasAcked => a == Ack(e) && e in p.consumer.acking
    case WasTaken => a == Take(e) && e in p.events
  }

  function Reaching(publishers: set<string>, stage: Stage, e: Event): (Pipe, PipeAction) -> bool {
    (p: Pipe, a: PipeAction) => Reaches(publishers, stage, e, p, a)
  }

  lemma CoordinatorReaches(publishers: set<string>, stage: Stage, e: Event, p: Pipe, a: PipeAction)
    requires stage.WasReceived? || stage.WasPublished? || stage.HadNoPublisher? || stage.WasRefused?
    ensures Amount(PipeStep(publishers, p, a), stage, e) ==
            Amount(p, stage, e) + if Reaches(publishers, stage, e, p, a) then 1 else 0
  {
    PublishAppends(publishers, p.coordinator, a, e);
    hide EventsOf, ConsumerNext, ChannelNext, MachineStep;
  }

  lemma ConsumerReaches(publishers: set<string>, stage: Stage, e: Event, p: Pipe, a: PipeAction)
    requires stage.WasHandedOut? || stage.WasForwarded? || stage.WasAcked? || stage.WasTaken?
    ensures Amount(PipeStep(publishers, p, a), stage, e) ==
            Amount(p, stage, e) + if Reaches(publishers, stage, e, p, a) then 1 else 0
  {
    TakeCounts(p, a, e);
    hide WorkerEvents, CoordinatorNext, ChannelNext, MachineStep;
  }

  /**
   In every run and for every event, each stage's count is the number of steps that took a copy
   there: published and refused are the publisher's answers, not found is the table's.
   */
  lemma StagesAreSteps(tables: Tables, acts: seq<PipeAction>, stage: Stage, e: Event)
    ensures Amount(PipeRun(tables, acts), stage, e) ==
            CountSteps(Stepper(tables.publishers), Empty(tables), acts, Reaching(tables.publishers, stage, e))
  {
    var step, counts := Stepper(tables.publishers), Reaching(tables.publishers, stage, e);
    forall p, a ensures Amount(step(p, a), stage, e) == Amount(p, stage, e) + if counts(p, a) then 1 else 0 {
      if stage.WasHandedOut? || stage.WasForwarded? || stage.WasAcked? || stage.WasTaken? {
        ConsumerReaches(tables.publishers, stage, e, p, a);
      } else {
        CoordinatorReaches(tables.publishers, stage, e, p, a);
      }
    }
    assert Amount(Empty(tables), stage, e) == 0;
    hide Stepper, Reaching, Amount;
    MeasureCounts(step, Empty(tables), acts, (p: Pipe) => Amount(p, stage, e), counts);
  }

  // Every run of the workers comes about.

  /** Nothing is under way before the workers. */
  predicate Drained(p: Pipe) {
    && p.coordinator.routing == multiset{} && p.consumer.decoding == multiset{}
    && p.consumer.forwarding == multiset{} && p.consumer.acking == multiset{} && p.events == multiset{}
  }

  lemma OneMore(tables: Tables, acts: seq<PipeAction>, a: PipeAction) returns (acts': seq<PipeAction>)
    ensures acts' == acts + [a] && PipeRun(tables, acts') == PipeStep(tables.publishers, PipeRun(tables, acts), a)
  {
    hide PipeStep;
    acts' := acts + [a];
    FoldOneMore(Stepper(tables.publishers), Empty(tables), acts, a);
  }

  /** An event is received, routed and published. */
  lemma Publish(tables: Tables, acts: seq<PipeAction>, e: Event) returns (acts': seq<PipeAction>)
    requires Drained(PipeRun(tables, acts)) && e.slug in tables.publishers
    ensures var p, p' := PipeRun(tables, acts), PipeRun(tables, acts');
            Drained(p') && JustPublished(p', e) && p'.machine == p.machine
  {
    hide PipeRun;
    acts' := OneMore(tables, acts, Receive(e));
    assert PipeRun(tables, acts').coordinator.routing == multiset{e};
    acts' := OneMore(tables, acts', Route(e, true));
    assert PipeRun(tables, acts').coordinator.routing == multiset{};
  }

  /** The last event published. */
  predicate JustPublished(p: Pipe, e: Event) {
    |p.coordinator.published| > 0 && p.coordinator.published[|p.coordinator.published| - 1].event == e
  }

  /** Drained, but for a copy on its way to be forwarded. */
  predicate AboutToForward(p: Pipe, e: Event) {
    && Drained(p.(consumer := p.consumer.(forwarding := multiset{}))) && p.consumer.forwarding == multiset{e}
  }

  /** Drained, but for a copy in the channel, on its way to be acknowledged. */
  predicate JustForwarded(p: Pipe, e: Event) {
    && Drained(p.(consumer := p.consumer.(acking := multiset{}), events := multiset{}))
    && p.consumer.acking == multiset{e} && p.events == multiset{e}
  }

  /** A copy is handed out and decoded, ... */
  lemma HandAndDecode(tables: Tables, acts: seq<PipeAction>, e: Event) returns (acts': seq<PipeAction>)
    requires Drained(PipeRun(tables, acts)) && JustPublished(PipeRun(tables, acts), e)
    ensures AboutToForward(PipeRun(tables, acts'), e)
    ensures PipeRun(tables, acts').machine == PipeRun(tables, acts).machine
  {
    hide PipeRun;
    acts' := OneMore(tables, acts, HandOut(|PipeRun(tables, acts).coordinator.published| - 1));
    assert PipeRun(tables, acts').consumer.decoding == multiset{Encoded(e)};
    acts' := OneMore(tables, acts', Decode(Encoded(e)));
    assert PipeRun(tables, acts').consumer.decoding == multiset{};
    assert PipeRun(tables, acts').consumer.forwarding == multiset{e};
  }

  /** ... and forwarded. */
  lemma Consume(tables: Tables, acts: seq<PipeAction>, e: Event) returns (acts': seq<PipeAction>)
    requires Drained(PipeRun(tables, acts)) && JustPublished(PipeRun(tables, acts), e)
    ensures JustForwarded(PipeRun(tables, acts'), e)
    ensures PipeRun(tables, acts').machine == PipeRun(tables, acts).machine
  {
    hide PipeRun;
    acts' := HandAndDecode(tables, acts, e);
    acts' := OneMore(tables, acts', Forward(e));
    assert PipeRun(tables, acts').consumer.forwarding == multiset{};
  }

  /** It is acknowledged, and a worker starts with it. */
  lemma StartWorker(tables: Tables, acts: seq<PipeAction>, e: Event) returns (acts': seq<PipeAction>)
    requires JustForwarded(PipeRun(tables, acts), e)
    ensures Drained(PipeRun(tables, acts'))
    ensures PipeRun(tables, acts').machine == Step(PipeRun(tables, acts).machine, Spawn(e))
  {
    hide PipeRun, Step;
    acts' := OneMore(tables, acts, Ack(e));
    assert PipeRun(tables, acts').consumer.acking == multiset{};
    acts' := OneMore(tables, acts', Take(e));
    assert PipeRun(tables, acts').events == multiset{};
  }

  lemma ActionComesAbout(tables: Tables, acts: seq<PipeAction>, a: Action) returns (acts': seq<PipeAction>)
    requires Drained(PipeRun(tables, acts)) && (a.Spawn? ==> a.event.slug in tables.publishers)
    ensures Drained(PipeRun(tables, acts'))
    ensures PipeRun(tables, acts').machine == Step(PipeRun(tables, acts).machine, a)
  {
    hide PipeRun, Step;
    if a.Spawn? {
      hide PipeStep, Drained;
      acts' := Publish(tables, acts, a.event);
      acts' := Consume(tables, acts', a.event);
      acts' := StartWorker(tables, acts', a.event);
    } else {
      acts' := OneMore(tables, acts, Machine(a));
    }
  }

  /**
   Completeness: every run of the workers whose events have a publisher comes about in the pipeline,
   every event received, published, handed out, forwarded and acknowledged on the way.
   */
  lemma {:induction false} EveryWorkerRunComesAbout(tables: Tables, acts: seq<Action>) returns (pipe: seq<PipeAction>)
    requires forall a <- acts | a.Spawn? :: a.event.slug in tables.publishers
    ensures PipeRun(tables, pipe).machine == Run(tables.handlers, acts) && Drained(PipeRun(tables, pipe))
    decreases |acts|
  {
    if acts == [] {
      pipe := [];
    } else {
      var n := |acts| - 1;
      var a := acts[n];
      assert a in acts && forall b <- acts[..n] :: b in acts;
      pipe := EveryWorkerRunComesAbout(tables, acts[..n]);
      hide PipeRun, Step, Drained;
      pipe := ActionComesAbout(tables, pipe, a);
    }
  }
}
