/**
 HandleTask, twice: as a function from stores to stores (the meaning of one undisturbed call) and
 as a method over the heap stores that is proved to compute it.
 */
module TaskService {
  import opened TaskEntity
  import opened Stores

  /** A handler was given `task` and answered `response`. */
  datatype Delivery = Delivery(task: Task, response: Response)

  /** `deliveries` is the history of handler answers, per task ID. */
  datatype Store = Store(
    repo: map<string, Task>,
    statuses: map<string, Status>,
    deliveries: map<string, seq<Delivery>>)

  const EmptyStore := Store(map[], map[], map[])

  function Recorded(s: Store, id: string): Status {
    StatusOf(s.statuses, id)
  }

  function Deliveries(s: Store, id: string): seq<Delivery> {
    if id in s.deliveries then s.deliveries[id] else []
  }

  /** Everything the stores know about one task. */
  datatype Slot = Slot(task: Option<Task>, status: Option<Status>, deliveries: Option<seq<Delivery>>)

  function Get<V>(m: map<string, V>, id: string): Option<V> {
    if id in m then Some(m[id]) else None
  }

  function At(s: Store, id: string): Slot {
    Slot(Get(s.repo, id), Get(s.statuses, id), Get(s.deliveries, id))
  }

  function LogDelivery(s: Store, id: string, d: Delivery): Store {
    s.(deliveries := s.deliveries[id := Deliveries(s, id) + [d]])
  }

  function UpsertAnswer(s: Store, id: string, r: RawResponse): Store {
    s.(repo := Upserted(s.repo, id, UpsertRequest(r.status, r.attempts, r.failedReason)))
  }

  function SaveStatus(s: Store, id: string, status: Status): Store {
    s.(statuses := s.statuses[id := status])
  }

  /** One call: its event and how everything around it behaves. `reply` None is a handler error. */
  datatype Call = Call(
    event: ProcessedEvent,
    lockFails: bool,
    readFails: bool,
    loadFails: bool,
    supported: bool,
    reply: Option<Response>,
    upsert: Fate,
    save: Fate)

  /** The task a visit hands to the delivery handler. */
  function LoadedTask(s: Store, e: ProcessedEvent): Task
    requires Recorded(s, e.ID()).IsBroadcast() ==> e.ID() in s.repo
  {
    if Recorded(s, e.ID()).IsBroadcast() then s.repo[e.ID()].(event := e) else MakeTask(e)
  }

  /** Storing an answer: repository first, status second, and no second without the first. */
  function Persist(s: Store, id: string, r: RawResponse, upsert: Fate, save: Fate): (Store, Result<()>) {
    var upserted := UpsertAnswer(s, id, r);
    match upsert
    case Fails => (s, Err(UpsertError))
    case FailsLate => (upserted, Err(UpsertError))
    case Works =>
      (match save
       case Fails => (upserted, Err(SaveError))
       case FailsLate => (SaveStatus(upserted, id, r.status), Err(SaveError))
       case Works => (SaveStatus(upserted, id, r.status), Ok(())))
  }

  /** The stages after the task is loaded: delivery, repository, status. */
  function Finish(s: Store, task: Task, c: Call): (Store, Result<()>) {
    if !c.supported then (s, Err(UnsupportedDestination(c.event.slug)))
    else if c.reply.None? then (s, Err(HandlerError))
    else
      var logged := LogDelivery(s, c.event.ID(), Delivery(task, c.reply.value));
      Persist(logged, task.id, c.reply.value, c.upsert, c.save)
  }

  /** The meaning of one whole HandleTask call that nobody disturbs. */
  function Visit(s: Store, c: Call): (Store, Result<()>) {
    var id := c.event.ID();
    var status := Recorded(s, id);
    if c.lockFails then (s, Err(LockError))
    else if c.readFails then (s, Err(StatusReadError))
    else if !status.CanBeExecuted() then (s, Ok(()))
    else if status.IsBroadcast() && c.loadFails then (s, Err(TaskLoadError))
    else if status.IsBroadcast() && id !in s.repo then (s, Err(TaskNotFound))
    else Finish(s, LoadedTask(s, c.event), c)
  }

  /**
   What a call makes of the stores, told without following its stages. `fresh` and `retry` are the
   statuses under which the task is executed: none or "not executed", and "retriable failed"; a
   retry delivers the stored task with the new event, a fresh visit a new task. Whatever is recorded
   otherwise, nothing happens.
   */
  ghost predicate Handled(before: Store, c: Call, now: Store, r: Result<()>) {
    var id := c.event.ID();
    var fresh_ := id !in before.statuses || before.statuses[id] == NotExecuted;
    var retry := id in before.statuses && before.statuses[id] == RetriableFailed;
    var loads := retry && !c.loadFails && id in before.repo;
    var delivers := !c.lockFails && !c.readFails && (fresh_ || loads) && c.supported && c.reply.Some?;
    && now.deliveries == (
         if !delivers then before.deliveries
         else
           var task := if retry then before.repo[id].(event := c.event) else Task(id, NotExecuted, 0, None, c.event);
           var earlier := if id in before.deliveries then before.deliveries[id] else [];
           before.deliveries[id := earlier + [Delivery(task, c.reply.value)]])
    && now.repo == (
         if !delivers || c.upsert.Fails? then before.repo
         else
           var event := if id in before.repo then before.repo[id].event else NoEvent;
           var answer := c.reply.value;
           before.repo[id := Task(id, answer.status, answer.attempts, answer.failedReason, event)])
    && now.statuses == (
         if !delivers || !c.upsert.Works? || c.save.Fails? then before.statuses
         else before.statuses[id := c.reply.value.status])
    && r == (
         if c.lockFails then Err(LockError)
         else if c.readFails then Err(StatusReadError)
         else if !fresh_ && !retry then Ok(())
         else if retry && c.loadFails then Err(TaskLoadError)
         else if retry && id !in before.repo then Err(TaskNotFound)
         else if !c.supported then Err(UnsupportedDestination(c.event.slug))
         else if c.reply.None? then Err(HandlerError)
         else if !c.upsert.Works? then Err(UpsertError)
         else if !c.save.Works? then Err(SaveError)
         else Ok(()))
  }

  lemma PersistTold(s: Store, id: string, r: RawResponse, upsert: Fate, save: Fate)
    requires Keyed(s)
    ensures var (now, result) := Persist(s, id, r, upsert, save);
            && now.deliveries == s.deliveries
            && now.statuses == (if upsert.Works? && !save.Fails? then s.statuses[id := r.status] else s.statuses)
            && now.repo == (
                 if upsert.Fails? then s.repo
                 else
                   var event := if id in s.repo then s.repo[id].event else NoEvent;
                   s.repo[id := Task(id, r.status, r.attempts, r.failedReason, event)])
            && result == (if !upsert.Works? then Err(UpsertError) else if !save.Works? then Err(SaveError) else Ok(()))
  {
  }

  /** The two descriptions of a call agree. */
  lemma VisitIsHandled(s: Store, c: Call)
    requires Keyed(s)
    ensures Handled(s, c, Visit(s, c).0, Visit(s, c).1)
  {
    var id := c.event.ID();
    if c.reply.Some? && (Recorded(s, id).IsBroadcast() ==> id in s.repo) {
      var task := LoadedTask(s, c.event);
      var logged := LogDelivery(s, id, Delivery(task, c.reply.value));
      PersistTold(logged, task.id, c.reply.value, c.upsert, c.save);
    }
    hide Persist;
  }

  lemma LockedOut(s: Store, c: Call)
    requires c.lockFails
    ensures Visit(s, c) == (s, Err(LockError))
  {
  }

  /** Every stored task carries the ID it is stored under. */
  predicate Keyed(s: Store) {
    forall id | id in s.repo :: s.repo[id].id == id
  }

  lemma PersistKeepsKeyed(s: Store, id: string, r: RawResponse, upsert: Fate, save: Fate)
    requires Keyed(s)
    ensures Keyed(Persist(s, id, r, upsert, save).0)
  {
  }

  lemma VisitKeepsKeyed(s: Store, c: Call)
    requires Keyed(s)
    ensures Keyed(Visit(s, c).0)
  {
    var id := c.event.ID();
    if c.reply.Some? && (Recorded(s, id).IsBroadcast() ==> id in s.repo) {
      var task := LoadedTask(s, c.event);
      var logged := LogDelivery(s, id, Delivery(task, c.reply.value));
      PersistKeepsKeyed(logged, task.id, c.reply.value, c.upsert, c.save);
    }
    hide Persist;
  }

  /** Lock, status and repository are all addressed by the event's one task ID. */
  function LockKey(e: ProcessedEvent): string {
    "task:" + e.ID()
  }

  /** Two events compete for a lock exactly when they belong to the same task. */
  lemma LockKeysTellTasksApart(e1: ProcessedEvent, e2: ProcessedEvent)
    ensures LockKey(e1) == LockKey(e2) <==> e1.ID() == e2.ID()
  {
    SamePrefix("task:", e1.ID(), e2.ID());
  }

  lemma SamePrefix(prefix: string, a: string, b: string)
    ensures prefix + a == prefix + b ==> a == b
  {
    assert (prefix + a)[|prefix|..] == a && (prefix + b)[|prefix|..] == b;
  }

  /** The lease lock: `held` maps a key to the lease that holds it, `leases` counts the leases given out. */
  class Locker {
    var held: map<string, nat>
    var leases: nat

    ghost predicate Valid()
      reads this
    {
      forall key | key in held :: held[key] < leases
    }

    constructor ()
      ensures Valid() && held == map[] && leases == 0
    {
      held, leases := map[], 0;
    }

    /**
     A key that somebody holds runs into the context's timeout, which is an error. A lock that fails
     late leaves a lease nobody knows of, which only its expiry takes away.
     */
    method Lock(key: string, fate: Fate) returns (r: Result<nat>)
      requires Valid()
      modifies this
      ensures Valid() && leases >= old(leases) && (r.Ok? ==> leases == old(leases) + 1)
      ensures r == if fate.Works? && key !in old(held) then Ok(old(leases)) else Err(LockError)
      ensures held == if fate.Fails? || key in old(held) then old(held) else old(held)[key := old(leases)]
      ensures forall other | other in old(held) :: old(held)[other] != old(leases)
    {
      if fate.Fails? || key in held {
        return Err(LockError);
      }
      r := if fate.Works? then Ok(leases) else Err(LockError);
      held, leases := held[key := leases], leases + 1;
    }

    /** The lease on a key runs out: the key is free, although its holder does not know. */
    method Expire(key: string)
      requires Valid()
      modifies this
      ensures Valid() && leases == old(leases) && held == old(held) - {key}
    {
      held := held - {key};
    }

    /** Gives back the caller's own lease; a key that has passed to another lease stays with it. */
    method Unlock(key: string, lease: nat, fails: bool)
      requires Valid()
      modifies this
      ensures Valid() && leases == old(leases)
      ensures held == if !fails && key in old(held) && old(held)[key] == lease then old(held) - {key} else old(held)
    {
      if !fails && key in held && held[key] == lease {
        held := held - {key};
      }
    }
  }

  /**
   An expired holder cannot take the lock from its successor: after its lease ran out and another
   lease got the key, its unlock leaves the key with that lease.
   */
  method OvertakenUnlock(locker: Locker, key: string) returns (stale: nat, live: nat)
    requires locker.Valid() && key !in locker.held
    modifies locker
    ensures locker.Valid() && stale != live && locker.held == old(locker.held)[key := live]
  {
    var first := locker.Lock(key, Works);
    locker.Expire(key);
    var second := locker.Lock(key, Works);
    stale, live := first.value, second.value;
    locker.Unlock(key, stale, false);
  }

  /** The registered delivery handlers; what they answer is an input, what they were given is kept. */
  class DeliveryMapper {
    const slugs: set<string>
    var deliveries: map<string, seq<Delivery>>

    constructor (slugs: set<string>)
      ensures this.slugs == slugs && deliveries == map[]
    {
      this.slugs := slugs;
      deliveries := map[];
    }

    method Handle(id: string, task: Task, reply: Option<Response>) returns (r: Result<Response>)
      modifies this
      ensures r == if reply.None? then Err(HandlerError) else Ok(reply.value)
      ensures reply.None? ==> deliveries == old(deliveries)
      ensures reply.Some? ==>
                var earlier := if id in old(deliveries) then old(deliveries)[id] else [];
                deliveries == old(deliveries)[id := earlier + [Delivery(task, reply.value)]]
    {
      if reply.None? {
        return Err(HandlerError);
      }
      var earlier := if id in deliveries then deliveries[id] else [];
      deliveries := deliveries[id := earlier + [Delivery(task, reply.value)]];
      return Ok(reply.value);
    }
  }

  class Service {
    const repo: InMemoryTaskRepo
    const idempotency: RedisIdempotency
    const locker: Locker
    const mapper: DeliveryMapper

    ghost predicate Valid()
      reads repo, repo.records, locker
    {
      repo.Valid() && locker.Valid()
    }

    ghost function Contents(): Store
      reads repo, idempotency, mapper
    {
      Store(repo.contents, idempotency.Statuses(), mapper.deliveries)
    }

    constructor (repo: InMemoryTaskRepo, idempotency: RedisIdempotency, locker: Locker, mapper: DeliveryMapper)
      requires repo.Valid() && locker.Valid()
      ensures Valid()
      ensures this.repo == repo && this.idempotency == idempotency && this.locker == locker && this.mapper == mapper
    {
      this.repo, this.idempotency, this.locker, this.mapper := repo, idempotency, locker, mapper;
    }

    method UpsertTaskAndSaveIdempotency(t: Task, upsert: Fate, save: Fate) returns (r: Result<()>)
      requires Valid()
      modifies repo, repo.records, idempotency
      ensures Valid() && fresh(repo.records - old(repo.records))
      ensures (Contents(), r) ==
              Persist(old(Contents()), t.id, RawResponse(t.status, t.attempts, t.failedReason), upsert, save)
      ensures repo.contents ==
              if upsert.Fails? then old(repo.contents)
              else
                var event := if t.id in old(repo.contents) then old(repo.contents)[t.id].event else NoEvent;
                old(repo.contents)[t.id := Task(t.id, t.status, t.attempts, t.failedReason, event)]
      ensures idempotency.Statuses() ==
              if upsert.Works? && !save.Fails? then old(idempotency.Statuses())[t.id := t.status]
              else old(idempotency.Statuses())
      ensures r == if !upsert.Works? then Err(UpsertError) else if !save.Works? then Err(SaveError) else Ok(())
    {
      r := repo.UpsertTask(t.id, UpsertRequest(t.status, t.attempts, t.failedReason), upsert);
      if r.Err? {
        return;
      }
      r := idempotency.SaveTaskStatus(t.id, t.status, save);
    }

    /** The stages from the handler lookup on. */
    method DeliverAndStore(loaded: Task, c: Call) returns (r: Result<()>)
      requires Valid()
      requires loaded.event == c.event && c.supported == (c.event.slug in mapper.slugs)
      modifies mapper, repo, repo.records, idempotency
      ensures Valid() && fresh(repo.records - old(repo.records))
      ensures (Contents(), r) == Finish(old(Contents()), loaded, c)
    {
      if loaded.event.slug !in mapper.slugs {
        return Err(UnsupportedDestination(loaded.event.slug));
      }
      var handled := mapper.Handle(c.event.ID(), loaded, c.reply);
      if handled.Err? {
        return Err(handled.error);
      }
      var response := handled.value;
      var task := loaded.(
        status := response.status, attempts := response.attempts, failedReason := response.failedReason);
      r := UpsertTaskAndSaveIdempotency(task, c.upsert, c.save);
    }

    /** Everything HandleTask does while it holds the lock. */
    method HandleLocked(e: ProcessedEvent, c: Call) returns (r: Result<()>)
      requires Valid()
      requires c.event == e && !c.lockFails && c.supported == (e.slug in mapper.slugs)
      modifies mapper, repo, repo.records, idempotency
      ensures Valid() && fresh(repo.records - old(repo.records))
      ensures (Contents(), r) == Visit(old(Contents()), c)
    {
      var id := e.ID();
      var read := idempotency.GetTaskStatusByID(id, c.readFails);
      if read.Err? {
        return Err(read.error);
      }
      var status := read.value;
      if !status.CanBeExecuted() {
        return Ok(());
      }
      var task := MakeTask(e);
      if status.IsBroadcast() {
        var loaded := repo.GetTaskByID(id, c.loadFails);
        if loaded.Err? {
          return Err(loaded.error);
        }
        task := loaded.value.(event := e);
      }
      assert task == LoadedTask(Contents(), e);
      r := DeliverAndStore(task, c);
    }

    /**
     The stores and the result are those of `Visit`, and the lock is given back on every path unless
     the unlock itself fails or a failing lock call took effect.
     */
    method HandleTask(e: ProcessedEvent, c: Call, lockLate: bool, unlockFails: bool) returns (r: Result<()>)
      requires Valid()
      requires c.event == e && c.supported == (e.slug in mapper.slugs)
      modifies mapper, repo, repo.records, idempotency, locker
      ensures Valid() && fresh(repo.records - old(repo.records))
      ensures var lockedOut := c.lockFails || LockKey(e) in old(locker.held);
              (Contents(), r) == Visit(old(Contents()), c.(lockFails := lockedOut))
      ensures var lockedOut := c.lockFails || "task:" + e.ID() in old(locker.held);
              Handled(old(Contents()), c.(lockFails := lockedOut), Contents(), r)
      ensures var key := "task:" + e.ID();
              var kept := key !in old(locker.held) && if c.lockFails then lockLate else unlockFails;
              locker.held == if kept then old(locker.held)[key := old(locker.leases)] else old(locker.held)
      ensures forall other: ProcessedEvent | other.ID() != e.ID() ::
                Get(locker.held, LockKey(other)) == Get(old(locker.held), LockKey(other))
    {
      hide Visit, Handled, Decoded, TaskID;
      var key := LockKey(e);
      assert key == "task:" + e.ID();
      forall other: ProcessedEvent | other.ID() != e.ID() ensures LockKey(other) != key {
        LockKeysTellTasksApart(e, other);
      }
      hide LockKey;
      ghost var before, call := Contents(), c.(lockFails := c.lockFails || key in locker.held);
      VisitIsHandled(before, call);
      LockedOut(before, c.(lockFails := true));
      var locked := locker.Lock(key, if !c.lockFails then Works else if lockLate then FailsLate else Fails);
      if locked.Err? {
        assert Contents() == before && call == c.(lockFails := true);
        return Err(locked.error);
      }
      assert Contents() == before && call == c;
      r := HandleLocked(e, c);
      locker.Unlock(key, locked.value, unlockFails);
    }
  }
}
