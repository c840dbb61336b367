/**
 The step machine refines the service: what concurrent workers leave behind is what the sequential
 method HandleTask, called on an empty service once per worker, leaves behind.
 */
module Replay {
  import opened TaskEntity
  import opened Stores
  import opened TaskService
  import opened TaskMachine
  import opened Locking
  import opened SerialDeeds
  import opened SerialOrder
  import opened Serializability

  /** A call that the service with these handlers can be asked to make. */
  predicate Possible(handlers: set<string>, d: Deed) {
    d.Whole? ==> d.call.supported == (d.call.event.slug in handlers)
  }

  method EmptyService(handlers: set<string>, prefix: string, expiration: nat) returns (service: Service)
    ensures service.Valid() && service.Contents() == EmptyStore && service.locker.held == map[]
    ensures service.mapper.slugs == handlers && service.idempotency.expiration == expiration
    ensures fresh(service.repo) && fresh(service.idempotency) && fresh(service.locker) && fresh(service.mapper)
    ensures service.repo.records == {}
  {
    var repo := new InMemoryTaskRepo();
    var idempotency := new RedisIdempotency(prefix, expiration);
    var locker := new Locker();
    var mapper := new DeliveryMapper(handlers);
    service := new Service(repo, idempotency, locker, mapper);
  }

  /** One deed on the service: a call of HandleTask, an expiry in Redis, or both. */
  method Perform(service: Service, d: Deed) returns (result: Option<Result<()>>)
    requires service.Valid() && service.locker.held == map[] && service.idempotency.expiration > 0
    requires Possible(service.mapper.slugs, d)
    modifies service.mapper, service.repo, service.repo.records, service.idempotency, service.locker
    ensures service.Valid() && service.locker.held == map[]
    ensures fresh(service.repo.records - old(service.repo.records))
    ensures service.Contents() == Effect(old(service.Contents()), d)
    ensures result == if d.Whole? then Some(Visit(old(service.Contents()), d.call).1) else None
  {
    hide Visit;
    match d
    case Whole(c, lapsed) =>
      var r := service.HandleTask(c.event, c, false, false);
      if lapsed {
        service.idempotency.Expire(c.event.ID());
      }
      result := Some(r);
    case Expiry(id) =>
      service.idempotency.Expire(id);
      result := None;
  }

  /** A whole serial history on an empty service. */
  method PerformAll(handlers: set<string>, deeds: seq<Deed>, prefix: string, expiration: nat)
    returns (service: Service, results: seq<Option<Result<()>>>)
    requires expiration > 0 && forall d <- deeds :: Possible(handlers, d)
    ensures service.Valid() && service.mapper.slugs == handlers && service.locker.held == map[]
    ensures service.Contents() == Serial(deeds)
    ensures |results| == |deeds|
    ensures forall i | 0 <= i < |deeds| && deeds[i].Whole? ::
              results[i] == Some(Visit(Serial(deeds[..i]), deeds[i].call).1)
  {
    hide Visit, Effect;
    service := EmptyService(handlers, prefix, expiration);
    results := [];
    for i := 0 to |deeds|
      invariant service.Valid() && service.mapper.slugs == handlers && service.locker.held == map[]
      invariant service.idempotency.expiration == expiration
      invariant fresh(service.repo) && fresh(service.idempotency) && fresh(service.locker) && fresh(service.mapper)
      invariant fresh(service.repo.records)
      invariant service.Contents() == Serial(deeds[..i])
      invariant |results| == i
      invariant forall j | 0 <= j < i && deeds[j].Whole? ::
                  results[j] == Some(Visit(Serial(deeds[..j]), deeds[j].call).1)
    {
      assert deeds[i] in deeds && deeds[..i + 1][..i] == deeds[..i];
      var result := Perform(service, deeds[i]);
      results := results + [result];
    }
    assert deeds[..|deeds|] == deeds;
  }

  lemma DeedsArePossible(s: State)
    requires Ordered(s)
    ensures forall d <- Deeds(s) :: Possible(s.handlers, d)
  {
    forall i | 0 <= i < |s.order| ensures Possible(s.handlers, DeedAt(s, i)) {
      assert s.order[i].Of? ==> Tidy(s.handlers, s.workers[s.order[i].w]);
    }
  }

  /**
   Refinement: for every run in which no lease ran out under an active holder, calling HandleTask
   on an empty service for the workers in their order, with statuses expiring in between, ends
   with the machine's repository, statuses and deliveries, gives every lock back, and gives every
   worker the result it returned.
   */
  method ReplayRun(handlers: set<string>, acts: seq<Action>, prefix: string, expiration: nat)
    returns (service: Service, results: seq<Option<Result<()>>>)
    requires expiration > 0 && Run(handlers, acts).expiredLeases == multiset{}
    ensures service.Valid() && service.mapper.slugs == handlers && service.locker.held == map[]
    ensures service.Contents() == Run(handlers, acts).store
    ensures |results| == |Run(handlers, acts).order|
    ensures var s := Run(handlers, acts);
            forall i | 0 <= i < |s.order| && s.order[i].Of? ::
              && s.order[i].w < |s.workers|
              && var outcome := OutcomeOf(s.workers[s.order[i].w]);
                 outcome.Some? && outcome.value.Returned? ==> results[i] == Some(outcome.value.result)
  {
    var s := Run(handlers, acts);
    EveryRunIsSerial(handlers, acts);
    RunHandlers(handlers, acts);
    DeedsArePossible(s);
    hide Run, Visit, Serial, Tidy;
    service, results := PerformAll(handlers, Deeds(s), prefix, expiration);
    forall i | 0 <= i < |s.order| && s.order[i].Of?
      ensures var outcome := OutcomeOf(s.workers[s.order[i].w]);
              outcome.Some? && outcome.value.Returned? ==> results[i] == Some(outcome.value.result)
    {
      assert ReturnsInTurn(s, i) && Deeds(s)[i] == DeedAt(s, i);
    }
  }
}
