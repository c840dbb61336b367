/**
 The stores behind the task service. The repository keeps one heap record per task and updates it
 in place; the status store exists twice, as a plain map and as a prefixed string store (Redis).
 Errors of the backing services are inputs of the calls.
 */
module Stores {
  import opened TaskEntity

  datatype Error =
    | LockError | StatusReadError | TaskLoadError | TaskNotFound
    | UnsupportedDestination(slug: string) | HandlerError | UpsertError | SaveError

  datatype Result<+T> = Ok(value: T) | Err(error: Error)

  /** How a write to a backing service goes; `FailsLate` takes effect and returns an error all the same. */
  datatype Fate = Works | Fails | FailsLate

  datatype UpsertRequest = UpsertRequest(status: Status, attempts: Byte, failedReason: Option<string>)

  /** The repository's contents after an upsert: only three fields of one task change. */
  function Upserted(tasks: map<string, Task>, id: string, request: UpsertRequest): map<string, Task> {
    var task := if id in tasks then tasks[id] else Task(id, Invalid, 0, None, NoEvent);
    tasks[id := task.(status := request.status, attempts := request.attempts, failedReason := request.failedReason)]
  }

  lemma UpsertedTold(tasks: map<string, Task>, id: string, request: UpsertRequest)
    ensures var now := Upserted(tasks, id, request);
            && id in now && now - {id} == tasks - {id}
            && now[id].id == (if id in tasks then tasks[id].id else id)
            && now[id].event == (if id in tasks then tasks[id].event else NoEvent)
            && now[id].status == request.status
            && now[id].attempts == request.attempts
            && now[id].failedReason == request.failedReason
  {
  }

  /** A task without a recorded status counts as not executed. */
  function StatusOf(statuses: map<string, Status>, id: string): Status {
    if id in statuses then statuses[id] else NotExecuted
  }

  /** One task on the heap; `key`, the ID it is stored under, tells records apart. */
  class TaskRecord {
    ghost const key: string
    var task: Task

    constructor (task: Task)
      ensures this.task == task && key == task.id
    {
      this.task, this.key := task, task.id;
    }
  }

  class InMemoryTaskRepo {
    var tasks: map<string, TaskRecord>
    ghost var contents: map<string, Task>
    ghost var records: set<TaskRecord>

    ghost predicate Valid()
      reads this, records
    {
      && tasks.Keys == contents.Keys
      && (forall id | id in contents :: contents[id].id == id)
      && forall id | id in tasks :: tasks[id] in records && tasks[id].task == contents[id] && tasks[id].key == id
    }

    constructor ()
      ensures Valid() && contents == map[] && records == {}
    {
      tasks, contents, records := map[], map[], {};
    }

    /** Returns a copy, so a later upsert does not reach what the caller holds. */
    method GetTaskByID(id: string, fails: bool) returns (r: Result<Task>)
      requires Valid()
      ensures fails ==> r == Err(TaskLoadError)
      ensures !fails ==> r == if id in contents then Ok(contents[id]) else Err(TaskNotFound)
    {
      if fails {
        return Err(TaskLoadError);
      }
      if id !in tasks {
        return Err(TaskNotFound);
      }
      return Ok(tasks[id].task);
    }

    method UpsertTask(id: string, request: UpsertRequest, fate: Fate) returns (r: Result<()>)
      requires Valid()
      modifies this, records
      ensures Valid() && fresh(records - old(records))
      ensures r == if fate.Works? then Ok(()) else Err(UpsertError)
      ensures fate.Fails? ==> contents == old(contents)
      ensures !fate.Fails? ==>
                && id in contents && contents - {id} == old(contents) - {id}
                && contents[id].event == (if id in old(contents) then old(contents)[id].event else NoEvent)
                && contents[id].status == request.status
                && contents[id].attempts == request.attempts
                && contents[id].failedReason == request.failedReason
      ensures contents == if fate.Fails? then old(contents) else Upserted(old(contents), id, request)
    {
      if fate.Fails? {
        return Err(UpsertError);
      }
      if id !in tasks {
        var created := new TaskRecord(Task(id, Invalid, 0, None, NoEvent));
        tasks, records := tasks[id := created], records + {created};
      }
      var record := tasks[id];
      record.task := record.task.(status := request.status);
      record.task := record.task.(attempts := request.attempts);
      record.task := record.task.(failedReason := request.failedReason);
      UpsertedTold(contents, id, request);
      contents := Upserted(contents, id, request);
      return if fate.Works? then Ok(()) else Err(UpsertError);
    }
  }

  class InMemoryIdempotency {
    var tasks: map<string, Status>

    constructor ()
      ensures tasks == map[]
    {
      tasks := map[];
    }

    method SaveTaskStatus(id: string, status: Status)
      modifies this
      ensures tasks == old(tasks)[id := status]
    {
      tasks := tasks[id := status];
    }

    method GetTaskStatusByID(id: string) returns (status: Status)
      ensures status == StatusOf(tasks, id)
    {
      if id in tasks {
        return tasks[id];
      }
      return NotExecuted;
    }
  }

  /** The statuses a string store holds under a key prefix. */
  function Decoded(kv: map<string, string>, prefix: string): map<string, Status> {
    var ids := set key | key in kv && prefix <= key :: key[|prefix|..];
    map id | id in ids && prefix + id in kv :: FromNumericString(kv[prefix + id])
  }

  lemma DecodedAt(kv: map<string, string>, prefix: string, id: string)
    ensures id in Decoded(kv, prefix) <==> prefix + id in kv
    ensures prefix + id in kv ==> Decoded(kv, prefix)[id] == FromNumericString(kv[prefix + id])
  {
    assert (prefix + id)[|prefix|..] == id;
  }

  /** Writing under the prefix is writing the decoded map, at that task and nowhere else. */
  lemma DecodedAfterSet(kv: map<string, string>, prefix: string, id: string, status: Status)
    ensures Decoded(kv[prefix + id := status.ToNumericString()], prefix) == Decoded(kv, prefix)[id := status]
  {
    var kv' := kv[prefix + id := status.ToNumericString()];
    forall other
      ensures other in Decoded(kv', prefix) <==> other == id || other in Decoded(kv, prefix)
      ensures other in Decoded(kv', prefix) ==>
                Decoded(kv', prefix)[other] == if other == id then status else Decoded(kv, prefix)[other]
    {
      DecodedAt(kv, prefix, other);
      DecodedAt(kv', prefix, other);
      assert prefix + other == prefix + id ==> other == (prefix + id)[|prefix|..] == id;
    }
  }

  lemma DecodedAfterDrop(kv: map<string, string>, prefix: string, id: string)
    ensures Decoded(kv - {prefix + id}, prefix) == Decoded(kv, prefix) - {id}
  {
    var kv' := kv - {prefix + id};
    forall other
      ensures other in Decoded(kv', prefix) <==> other != id && other in Decoded(kv, prefix)
      ensures other in Decoded(kv', prefix) ==> Decoded(kv', prefix)[other] == Decoded(kv, prefix)[other]
    {
      DecodedAt(kv, prefix, other);
      DecodedAt(kv', prefix, other);
      assert prefix + other == prefix + id ==> other == (prefix + id)[|prefix|..] == id;
    }
  }

  /** `ttl` is the lifetime each key was last written with; keys of lifetime 0 never expire. */
  class RedisIdempotency {
    const prefix: string
    const expiration: nat
    var kv: map<string, string>
    var ttl: map<string, nat>

    ghost function Statuses(): map<string, Status>
      reads this
    {
      Decoded(kv, prefix)
    }

    constructor (prefix: string, expiration: nat)
      ensures this.prefix == prefix && this.expiration == expiration && kv == map[] && ttl == map[]
      ensures Statuses() == map[]
    {
      this.prefix, this.expiration := prefix, expiration;
      kv, ttl := map[], map[];
    }

    method SaveTaskStatus(id: string, status: Status, fate: Fate) returns (r: Result<()>)
      modifies this
      ensures r == if fate.Works? then Ok(()) else Err(SaveError)
      ensures Statuses() == if fate.Fails? then old(Statuses()) else old(Statuses())[id := status]
      ensures ttl == if fate.Fails? then old(ttl) else old(ttl)[prefix + id := expiration]
      ensures forall key | !(prefix <= key) :: key in kv <==> key in old(kv)
      ensures forall key | !(prefix <= key) && key in kv :: kv[key] == old(kv)[key]
    {
      if fate.Fails? {
        return Err(SaveError);
      }
      DecodedAfterSet(kv, prefix, id, status);
      kv := kv[prefix + id := status.ToNumericString()];
      ttl := ttl[prefix + id := expiration];
      return if fate.Works? then Ok(()) else Err(SaveError);
    }

    method GetTaskStatusByID(id: string, fails: bool) returns (r: Result<Status>)
      ensures r == if fails then Err(StatusReadError) else Ok(StatusOf(Statuses(), id))
    {
      DecodedAt(kv, prefix, id);
      if fails {
        return Err(StatusReadError);
      }
      if prefix + id !in kv {
        return Ok(NotExecuted);
      }
      return Ok(FromNumericString(kv[prefix + id]));
    }

    /** The lifetime of a task's key is over: Redis forgets this status and no other. */
    method Expire(id: string)
      requires expiration > 0
      modifies this
      ensures Statuses() == old(Statuses()) - {id}
      ensures kv == old(kv) - {prefix + id} && ttl == old(ttl) - {prefix + id}
    {
      DecodedAfterDrop(kv, prefix, id);
      kv, ttl := kv - {prefix + id}, ttl - {prefix + id};
    }
  }

  // The two status stores, driven by the same calls.

  datatype StatusCall = SaveCall(id: string, status: Status) | ReadCall(id: string)

  /** What a run of calls reads from the plain map. */
  function MapAnswers(tasks: map<string, Status>, calls: seq<StatusCall>): seq<Status>
    decreases |calls|
  {
    if calls == [] then []
    else match calls[0]
      case SaveCall(id, status) => MapAnswers(tasks[id := status], calls[1..])
      case ReadCall(id) => [StatusOf(tasks, id)] + MapAnswers(tasks, calls[1..])
  }

  /** What the same run reads from the string store. */
  function RedisAnswers(kv: map<string, string>, prefix: string, calls: seq<StatusCall>): seq<Status>
    decreases |calls|
  {
    if calls == [] then []
    else match calls[0]
      case SaveCall(id, status) => RedisAnswers(kv[prefix + id := status.ToNumericString()], prefix, calls[1..])
      case ReadCall(id) =>
        var answer := if prefix + id in kv then FromNumericString(kv[prefix + id]) else NotExecuted;
        [answer] + RedisAnswers(kv, prefix, calls[1..])
  }

  /** Redis refines the map: every run of saves and reads gets the same answers from both. */
  lemma {:induction false} RedisRefinesMap(kv: map<string, string>, prefix: string, calls: seq<StatusCall>)
    ensures RedisAnswers(kv, prefix, calls) == MapAnswers(Decoded(kv, prefix), calls)
    decreases |calls|
  {
    if calls != [] {
      match calls[0]
      case SaveCall(id, status) =>
        DecodedAfterSet(kv, prefix, id, status);
        RedisRefinesMap(kv[prefix + id := status.ToNumericString()], prefix, calls[1..]);
      case ReadCall(id) =>
        DecodedAt(kv, prefix, id);
        RedisRefinesMap(kv, prefix, calls[1..]);
    }
  }

  lemma OneMoreAnswer(tasks: map<string, Status>, calls: seq<StatusCall>, i: nat)
    requires i < |calls|
    ensures MapAnswers(tasks, calls[i..]) ==
            if calls[i].SaveCall? then MapAnswers(tasks[calls[i].id := calls[i].status], calls[i + 1..])
            else [StatusOf(tasks, calls[i].id)] + MapAnswers(tasks, calls[i + 1..])
  {
    assert calls[i..][1..] == calls[i + 1..];
  }

  /**
   The two adapters side by side: driven with the same calls from the same statuses, they answer
   alike, call for call, and hold the same statuses afterwards.
   */
  method DriveBoth(redis: RedisIdempotency, plain: InMemoryIdempotency, calls: seq<StatusCall>)
    returns (fromRedis: seq<Status>, fromMap: seq<Status>)
    requires redis.Statuses() == plain.tasks
    modifies redis, plain
    ensures fromRedis == fromMap == MapAnswers(old(plain.tasks), calls)
    ensures redis.Statuses() == plain.tasks
  {
    fromRedis, fromMap := [], [];
    for i := 0 to |calls|
      invariant redis.Statuses() == plain.tasks && fromRedis == fromMap
      invariant fromMap + MapAnswers(plain.tasks, calls[i..]) == MapAnswers(old(plain.tasks), calls)
    {
      OneMoreAnswer(plain.tasks, calls, i);
      match calls[i]
      case SaveCall(id, status) =>
        var _ := redis.SaveTaskStatus(id, status, Works);
        plain.SaveTaskStatus(id, status);
      case ReadCall(id) =>
        var answer := redis.GetTaskStatusByID(id, false);
        var status := plain.GetTaskStatusByID(id);
        fromRedis, fromMap := fromRedis + [answer.value], fromMap + [status];
    }
  }
}
