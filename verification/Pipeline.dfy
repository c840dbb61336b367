/**
 From the coordinator to the stores: an event is routed to the publisher of its destination type,
 the broker hands out any number of copies, the task consumer decodes, forwards and acknowledges
 each copy, and a worker takes every forwarded event through HandleTask.
 */
module Pipeline {
  import opened TaskEntity
  import opened TaskMachine
  import opened Runs

  type Event = ProcessedEvent

  /** A message body; `Garbage` is one the consumer cannot decode. */
  datatype Body = Encoded(event: Event) | Garbage

  datatype Published = Published(slug: string, event: Event)

  /** Histories: `received`, `published`, `noPublisher`, `publishErrors`. At work: `routing`. */
  datatype Coordinator = Coordinator(
    received: multiset<Event>,
    routing: multiset<Event>,
    published: seq<Published>,
    noPublisher: multiset<Event>,
    publishErrors: multiset<Event>)

  /** Histories: `handed`, `forwarded`, `acked`. At work: `decoding`, `forwarding`, `acking`. */
  datatype Consumer = Consumer(
    handed: multiset<Event>,
    decoding: multiset<Body>,
    forwarding: multiset<Event>,
    forwarded: multiset<Event>,
    acking: multiset<Event>,
    acked: multiset<Event>)

  /** `events` is the channel between the consumer and the workers. */
  datatype Pipe = Pipe(coordinator: Coordinator, consumer: Consumer, events: multiset<Event>, machine: State)

  /** The destination types the coordinator has publishers for, and those the workers have handlers for. */
  datatype Tables = Tables(publishers: set<string>, handlers: set<string>)

  function Empty(tables: Tables): Pipe {
    Pipe(Coordinator(multiset{}, multiset{}, [], multiset{}, multiset{}),
         Consumer(multiset{}, multiset{}, multiset{}, multiset{}, multiset{}, multiset{}),
         multiset{},
         Init(tables.handlers))
  }

  /** `HandOut` gives out another copy of a published message; `Noise` is a message from elsewhere. */
  datatype PipeAction =
    | Receive(event: Event)
    | Route(event: Event, succeeds: bool)
    | HandOut(i: nat)
    | Noise
    | Decode(body: Body)
    | Forward(event: Event)
    | Ack(event: Event)
    | Take(event: Event)
    | Machine(action: Action)

  function More<T>(m: multiset<T>, x: T): multiset<T> {
    m[x := m[x] + 1]
  }

  function Less<T>(m: multiset<T>, x: T): multiset<T>
    requires x in m
  {
    m[x := m[x] - 1]
  }

  function CoordinatorNext(publishers: set<string>, c: Coordinator, a: PipeAction): Coordinator {
    match a
    case Receive(e) => c.(received := More(c.received, e), routing := More(c.routing, e))
    case Route(e, succeeds) =>
      if e !in c.routing then c
      else
        var rest := c.(routing := Less(c.routing, e));
        if e.DestinationType() !in publishers then rest.(noPublisher := More(c.noPublisher, e))
        else if succeeds then rest.(published := c.published + [Published(e.DestinationType(), e)])
        else rest.(publishErrors := More(c.publishErrors, e))
    case _ => c
  }

  function ConsumerNext(published: seq<Published>, k: Consumer, a: PipeAction): Consumer {
    match a
    case HandOut(i) =>
      if i < |published| then
        k.(handed := More(k.handed, published[i].event), decoding := More(k.decoding, Encoded(published[i].event)))
      else k
    case Noise => k.(decoding := More(k.decoding, Garbage))
    case Decode(body) =>
      if body !in k.decoding then k
      else
        var rest := k.(decoding := Less(k.decoding, body));
        if body.Garbage? then rest else rest.(forwarding := More(k.forwarding, body.event))
    case Forward(e) =>
      if e in k.forwarding then
        k.(forwarding := Less(k.forwarding, e), forwarded := More(k.forwarded, e), acking := More(k.acking, e))
      else k
    case Ack(e) => if e in k.acking then k.(acking := Less(k.acking, e), acked := More(k.acked, e)) else k
    case _ => k
  }

  function ChannelNext(p: Pipe, a: PipeAction): multiset<Event> {
    if a.Forward? && a.event in p.consumer.forwarding then More(p.events, a.event)
    else if a.Take? && a.event in p.events then Less(p.events, a.event)
    else p.events
  }

  /** The machine's action that a pipeline action amounts to, if any. */
  function MachineAction(p: Pipe, a: PipeAction): Option<Action> {
    if a.Take? && a.event in p.events then Some(Spawn(a.event))
    else if a.Machine? && !a.action.Spawn? then Some(a.action)
    else None
  }

  function MachineStep(p: Pipe, a: PipeAction): State {
    if MachineAction(p, a).Some? then Step(p.machine, MachineAction(p, a).value) else p.machine
  }

  function PipeStep(publishers: set<string>, p: Pipe, a: PipeAction): Pipe {
    Pipe(CoordinatorNext(publishers, p.coordinator, a),
         ConsumerNext(p.coordinator.published, p.consumer, a),
         ChannelNext(p, a),
         MachineStep(p, a))
  }

  function Stepper(publishers: set<string>): (Pipe, PipeAction) -> Pipe {
    (p: Pipe, a: PipeAction) => PipeStep(publishers, p, a)
  }

  /** The pipeline with the given tables after the actions `acts`. */
  function PipeRun(tables: Tables, acts: seq<PipeAction>): Pipe {
    Fold(Stepper(tables.publishers), Empty(tables), acts)
  }

  function EventsOf(published: seq<Published>): multiset<Event> {
    if published == [] then multiset{}
    else More(EventsOf(published[..|published| - 1]), published[|published| - 1].event)
  }

  function WorkerEvents(workers: seq<Worker>): multiset<Event> {
    if workers == [] then multiset{} else More(WorkerEvents(workers[..|workers| - 1]), workers[|workers| - 1].event)
  }

  /** How often `e` was received: being routed, published, without publisher, or refused by it. */
  predicate CoordinatorAccounts(c: Coordinator, e: Event) {
    c.received[e] == c.routing[e] + EventsOf(c.published)[e] + c.noPublisher[e] + c.publishErrors[e]
  }

  /** How often a copy of `e` was handed out: being decoded, being forwarded, forwarded. */
  predicate ConsumerAccounts(k: Consumer, e: Event) {
    && k.handed[e] == k.decoding[Encoded(e)] + k.forwarding[e] + k.forwarded[e]
    && k.forwarded[e] == k.acking[e] + k.acked[e]
  }

  /** How often `e` was forwarded: in the channel or with a worker of its own. */
  predicate WorkersAccount(p: Pipe, e: Event) {
    p.consumer.forwarded[e] == p.events[e] + WorkerEvents(p.machine.workers)[e]
  }

  /** Events go to the publisher of their own destination type, and only what it got is handed out. */
  predicate Routed(publishers: set<string>, p: Pipe, e: Event) {
    && (p.coordinator.noPublisher[e] > 0 ==> e.DestinationType() !in publishers)
    && (EventsOf(p.coordinator.published)[e] > 0 ==> e.DestinationType() in publishers)
    && (p.consumer.handed[e] > 0 ==> EventsOf(p.coordinator.published)[e] > 0)
  }

  predicate OwnPublisher(published: seq<Published>) {
    forall x <- published :: x.slug == x.event.DestinationType()
  }

  /** For one event: nothing is lost or made up between the stages. */
  predicate Conserved(publishers: set<string>, p: Pipe, e: Event) {
    && CoordinatorAccounts(p.coordinator, e)
    && ConsumerAccounts(p.consumer, e)
    && WorkersAccount(p, e)
    && Routed(publishers, p, e)
    && OwnPublisher(p.coordinator.published)
  }

  lemma {:induction false} SameEvents(ws: seq<Worker>, ws': seq<Worker>)
    requires |ws| == |ws'| && forall i | 0 <= i < |ws| :: ws[i].event == ws'[i].event
    ensures WorkerEvents(ws) == WorkerEvents(ws')
  {
    if ws != [] {
      SameEvents(ws[..|ws| - 1], ws'[..|ws| - 1]);
    }
  }

  lemma {:induction false} WorkerHasEvent(ws: seq<Worker>, i: nat)
    requires i < |ws|
    ensures ws[i].event in WorkerEvents(ws)
  {
    if i < |ws| - 1 {
      WorkerHasEvent(ws[..|ws| - 1], i);
    }
  }

  lemma {:induction false} HandedIsPublished(published: seq<Published>, i: nat)
    requires i < |published|
    ensures published[i].event in EventsOf(published)
  {
    if i < |published| - 1 {
      HandedIsPublished(published[..|published| - 1], i);
    }
  }

  lemma MachineEvents(s: State, a: Action)
    ensures WorkerEvents(Step(s, a).workers) ==
            if a.Spawn? then More(WorkerEvents(s.workers), a.event) else WorkerEvents(s.workers)
  {
    hide NextPc, NextStore, NextLocks;
    var s' := Step(s, a);
    if a.Spawn? {
      assert s'.workers[..|s.workers|] == s.workers;
    } else {
      SameEvents(s.workers, s'.workers);
    }
  }

  lemma PublishAppends(publishers: set<string>, c: Coordinator, a: PipeAction, e: Event)
    ensures var c' := CoordinatorNext(publishers, c, a);
            EventsOf(c'.published)[e] ==
            EventsOf(c.published)[e] + if c'.published != c.published && a.event == e then 1 else 0
  {
    var c' := CoordinatorNext(publishers, c, a);
    assert c'.published != c.published ==> c'.published[..|c.published|] == c.published;
  }

  lemma CoordinatorStep(publishers: set<string>, c: Coordinator, a: PipeAction, e: Event)
    requires CoordinatorAccounts(c, e)
    ensures CoordinatorAccounts(CoordinatorNext(publishers, c, a), e)
  {
    PublishAppends(publishers, c, a, e);
    hide EventsOf;
  }

  lemma ConsumerStep(published: seq<Published>, k: Consumer, a: PipeAction, e: Event)
    requires ConsumerAccounts(k, e)
    ensures ConsumerAccounts(ConsumerNext(published, k, a), e)
  {
  }

  /** Forwarding puts the event into the channel. */
  lemma ForwardCounts(p: Pipe, a: PipeAction, e: Event)
    ensures var forwards := a.Forward? && a.event == e && e in p.consumer.forwarding;
            var takes := a.Take? && a.event == e && e in p.events;
            && ConsumerNext(p.coordinator.published, p.consumer, a).forwarded[e]
               == p.consumer.forwarded[e] + (if forwards then 1 else 0)
            && ChannelNext(p, a)[e] == p.events[e] + (if forwards then 1 else if takes then -1 else 0)
  {
  }

  /** Taking it from there starts a worker with it. */
  lemma TakeCounts(p: Pipe, a: PipeAction, e: Event)
    ensures var takes := a.Take? && a.event == e && e in p.events;
            WorkerEvents(MachineStep(p, a).workers)[e] == WorkerEvents(p.machine.workers)[e] + (if takes then 1 else 0)
  {
    if MachineAction(p, a).Some? {
      MachineEvents(p.machine, MachineAction(p, a).value);
    }
    hide Step, WorkerEvents;
  }

  lemma WorkersStep(publishers: set<string>, p: Pipe, a: PipeAction, e: Event)
    requires WorkersAccount(p, e)
    ensures WorkersAccount(PipeStep(publishers, p, a), e)
  {
    ForwardCounts(p, a, e);
    TakeCounts(p, a, e);
    hide CoordinatorNext, ConsumerNext, ChannelNext, MachineStep, WorkerEvents;
  }

  lemma HandOutCounts(p: Pipe, a: PipeAction, e: Event)
    ensures ConsumerNext(p.coordinator.published, p.consumer, a).handed[e] > 0 ==>
              p.consumer.handed[e] > 0 || EventsOf(p.coordinator.published)[e] > 0
  {
    if a.HandOut? && a.i < |p.coordinator.published| {
      HandedIsPublished(p.coordinator.published, a.i);
    }
    hide EventsOf;
  }

  lemma PublishGoesHome(publishers: set<string>, c: Coordinator, a: PipeAction, e: Event)
    ensures var c' := CoordinatorNext(publishers, c, a);
            && (c'.noPublisher[e] > 0 ==> c.noPublisher[e] > 0 || e.DestinationType() !in publishers)
            && (c'.published != c.published && a.event == e ==> e.DestinationType() in publishers)
  {
  }

  lemma RoutedStep(publishers: set<string>, p: Pipe, a: PipeAction, e: Event)
    requires Routed(publishers, p, e)
    ensures Routed(publishers, PipeStep(publishers, p, a), e)
  {
    PublishAppends(publishers, p.coordinator, a, e);
    HandOutCounts(p, a, e);
    PublishGoesHome(publishers, p.coordinator, a, e);
    hide EventsOf, ChannelNext, MachineStep, CoordinatorNext, ConsumerNext;
  }

  lemma OwnPublisherStep(publishers: set<string>, c: Coordinator, a: PipeAction)
    requires OwnPublisher(c.published)
    ensures OwnPublisher(CoordinatorNext(publishers, c, a).published)
  {
  }

  lemma StepConserved(publishers: set<string>, p: Pipe, a: PipeAction, e: Event)
    requires Conserved(publishers, p, e)
    ensures Conserved(publishers, PipeStep(publishers, p, a), e)
  {
    CoordinatorStep(publishers, p.coordinator, a, e);
    ConsumerStep(p.coordinator.published, p.consumer, a, e);
    WorkersStep(publishers, p, a, e);
    RoutedStep(publishers, p, a, e);
    OwnPublisherStep(publishers, p.coordinator, a);
    hide CoordinatorNext, ConsumerNext, MachineStep, ChannelNext;
    hide CoordinatorAccounts, ConsumerAccounts, WorkersAccount, Routed, OwnPublisher;
  }

  /**
   Conservation along the whole pipeline, in every run and for every event: the copies received
   are being routed, published to the publisher of their own destination type, without publisher
   or refused by it; those handed out were published and are being decoded, being forwarded or
   forwarded; those acknowledged were forwarded; and those forwarded are in the channel or each
   with a worker.
   */
  lemma {:induction false} EventsConserved(tables: Tables, acts: seq<PipeAction>, e: Event)
    ensures Conserved(tables.publishers, PipeRun(tables, acts), e)
  {
    if acts == [] {
      assert Conserved(tables.publishers, Empty(tables), e);
    } else {
      hide PipeStep, Conserved;
      EventsConserved(tables, acts[..|acts| - 1], e);
      StepConserved(tables.publishers, PipeRun(tables, acts[..|acts| - 1]), acts[|acts| - 1], e);
    }
  }
}
