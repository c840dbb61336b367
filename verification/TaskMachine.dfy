/**
 Any number of workers inside HandleTask at once. A worker is a program counter with its locals; an
 action names who moves and how the environment answers. `Step` leaves the state alone when the
 action is not possible, so every sequence of actions is a run.
 */
module TaskMachine {
  import opened TaskEntity
  import opened Stores
  import opened TaskService
  import opened Runs

  datatype Outcome = Returned(result: Result<()>) | Panicked

  /**
   Where a worker is. `status` is what it read, `task` what it loaded, `response` what the handler
   answered. `Leaving` has still to unlock. `call` is the undisturbed call the visit amounts to.
   */
  datatype Pc =
    | Start
    | Locked
    | Ready(status: Status)
    | Loaded(status: Status, task: Task)
    | Answered(status: Status, task: Task, response: Response)
    | Stored(status: Status, task: Task, response: Response)
    | Leaving(call: Call, outcome: Outcome)
    | Gone(call: Call, outcome: Outcome)

  /**
   `expired`: the lease ran out while the worker was inside. `lapsed`: the task's recorded status
   expired while the worker executed, and the worker has not recorded a new one.
   */
  datatype Worker = Worker(event: ProcessedEvent, pc: Pc, expired: bool, lapsed: bool) {
    function ID(): string {
      event.ID()
    }

    /** Holds or believes to hold the lock, and has stores still to read or write. */
    predicate Active() {
      pc.Locked? || pc.Ready? || pc.Loaded? || pc.Answered? || pc.Stored?
    }

    /** Was told to execute and has not finished. */
    predicate Executing() {
      Active() && !pc.Locked?
    }

    /** Has its lock error, or is past its read of the status: its place among the visits is fixed. */
    predicate Placed() {
      !pc.Start? && !pc.Locked?
    }

    /** Has a terminal answer that is not in the status store yet. */
    predicate Owes() {
      (pc.Answered? || pc.Stored?) && pc.response.status.Terminal()
    }
  }

  /** An entry of the order of events: a worker found its place, or a status expired that nobody was working on. */
  datatype Turn = Of(w: nat) | Lapse(id: string)

  /** A repository write: the status its visit had read, and the delivery whose answer it stored. */
  datatype Write = Write(read: Status, delivery: Delivery)

  /**
   `handlers` are the destination types with a delivery handler; `locks` maps a task ID to the
   worker holding its lease. The remaining fields are history: `order` is the order in which
   workers found their places and statuses expired, `writes` lists the repository writes per task,
   and the multisets count, per task ID, visits that ended with an unsaved
   terminal answer, leases that expired under an active holder and expired terminal statuses.
   */
  datatype State = State(
    handlers: set<string>,
    store: Store,
    workers: seq<Worker>,
    locks: map<string, nat>,
    order: seq<Turn>,
    writes: map<string, seq<Write>>,
    unsaved: multiset<string>,
    expiredLeases: multiset<string>,
    expiredStatuses: multiset<string>)

  function Init(handlers: set<string>): State {
    State(handlers, EmptyStore, [], map[], [], map[], multiset{}, multiset{}, multiset{})
  }

  /**
   What one worker's next stage does. Proceed: it succeeds (`reply` is used by the delivery stage
   only, which finds no handler for an unsupported destination). Fail: lock, status read, load,
   upsert, save or unlock, whichever is next, returns an error. FailLate: lock, upsert, save or
   unlock returns an error although it took effect.
   */
  datatype Move = Proceed(reply: Response) | Fail | FailLate | HandlerFails | Panic

  datatype Action =
    | Spawn(event: ProcessedEvent)
    | Act(w: nat, move: Move)
    | ExpireLease(id: string)
    | ExpireStatus(id: string)

  /** A call in which everything works except that the handler gives no answer. */
  function Plain(handlers: set<string>, e: ProcessedEvent): Call {
    Call(e, false, false, false, e.slug in handlers, None, Works, Works)
  }

  /** The undisturbed call whose effect is exactly what the worker has done so far. */
  function CallOf(handlers: set<string>, k: Worker): Call {
    var plain := Plain(handlers, k.event);
    match k.pc
    case Start => plain
    case Locked => plain.(readFails := true)
    case Ready(_) => plain
    case Loaded(_, _) => plain
    case Answered(_, _, r) => plain.(reply := Some(r), upsert := Fails)
    case Stored(_, _, r) => plain.(reply := Some(r), save := Fails)
    case Leaving(c, _) => c
    case Gone(c, _) => c
  }

  function WriteOf(pc: Pc): Write
    requires pc.Answered?
  {
    Write(pc.status, Delivery(pc.task, pc.response))
  }

  function Writes(s: State, id: string): seq<Write> {
    if id in s.writes then s.writes[id] else []
  }

  /** Control flow of HandleTask: where a worker is after a successful stage. */
  function AfterSuccess(handlers: set<string>, k: Worker, store: Store, lockFree: bool, reply: Response): Pc {
    var id := k.ID();
    var plain := Plain(handlers, k.event);
    match k.pc
    case Start => if lockFree then Locked else Start
    case Locked =>
      if Recorded(store, id).CanBeExecuted() then Ready(Recorded(store, id))
      else Leaving(plain, Returned(Ok(())))
    case Ready(status) =>
      if !status.IsBroadcast() then Loaded(status, MakeTask(k.event))
      else if id in store.repo then Loaded(status, store.repo[id].(event := k.event))
      else Leaving(plain, Returned(Err(TaskNotFound)))
    case Loaded(status, task) =>
      if k.event.slug in handlers then Answered(status, task, reply)
      else Leaving(plain, Returned(Err(UnsupportedDestination(k.event.slug))))
    case Answered(status, task, r) => Stored(status, task, r)
    case Stored(_, _, r) => Leaving(plain.(reply := Some(r)), Returned(Ok(())))
    case Leaving(c, o) => Gone(c, o)
    case Gone(_, _) => k.pc
  }

  function AfterFailure(handlers: set<string>, k: Worker): Pc {
    var plain := Plain(handlers, k.event);
    match k.pc
    case Start => Gone(plain.(lockFails := true), Returned(Err(LockError)))
    case Locked => Leaving(plain.(readFails := true), Returned(Err(StatusReadError)))
    case Ready(status) =>
      if status.IsBroadcast() then Leaving(plain.(loadFails := true), Returned(Err(TaskLoadError))) else k.pc
    case Loaded(_, _) => k.pc
    case Answered(_, _, _) => Leaving(CallOf(handlers, k), Returned(Err(UpsertError)))
    case Stored(_, _, _) => Leaving(CallOf(handlers, k), Returned(Err(SaveError)))
    case Leaving(c, o) => Gone(c, o)
    case Gone(_, _) => k.pc
  }

  /** An error after the effect: of the lock, the upsert or the save; reads have no effect to be late with. */
  function AfterLateFailure(handlers: set<string>, k: Worker, lockFree: bool): Pc {
    var plain := Plain(handlers, k.event);
    match k.pc
    case Start => if lockFree then Gone(plain.(lockFails := true), Returned(Err(LockError))) else Start
    case Answered(_, _, r) => Leaving(plain.(reply := Some(r), upsert := FailsLate), Returned(Err(UpsertError)))
    case Stored(_, _, r) => Leaving(plain.(reply := Some(r), save := FailsLate), Returned(Err(SaveError)))
    case Leaving(c, o) => Gone(c, o)
    case _ => k.pc
  }

  function NextPc(handlers: set<string>, k: Worker, store: Store, lockFree: bool, m: Move): Pc {
    match m
    case Proceed(reply) => AfterSuccess(handlers, k, store, lockFree, reply)
    case Fail => AfterFailure(handlers, k)
    case FailLate => AfterLateFailure(handlers, k, lockFree)
    case HandlerFails =>
      if k.pc.Loaded? && k.event.slug in handlers then Leaving(Plain(handlers, k.event), Returned(Err(HandlerError)))
      else k.pc
    case Panic => if k.Active() then Leaving(CallOf(handlers, k), Panicked) else k.pc
  }

  /** The move to `pc` writes the repository. */
  predicate Upserts(k: Worker, pc: Pc) {
    k.pc.Answered? && (pc.Stored? || (pc.Leaving? && pc.call.upsert.FailsLate?))
  }

  /** The move to `pc` saves the status. */
  predicate Saves(k: Worker, pc: Pc) {
    k.pc.Stored? && pc.Leaving? && !pc.call.save.Fails?
  }

  /** The worker after its move to `pc`; a save makes up for an expired status. */
  function NextWorker(k: Worker, pc: Pc): Worker {
    k.(pc := pc, lapsed := k.lapsed && !Saves(k, pc))
  }

  /** What the move does to the stores. */
  function NextStore(store: Store, k: Worker, pc: Pc): Store {
    if k.pc.Loaded? && pc.Answered? then LogDelivery(store, k.ID(), Delivery(pc.task, pc.response))
    else if Upserts(k, pc) then UpsertAnswer(store, k.pc.task.id, k.pc.response)
    else if Saves(k, pc) then SaveStatus(store, k.pc.task.id, k.pc.response.status)
    else store
  }

  function NextLocks(locks: map<string, nat>, w: nat, k: Worker, pc: Pc, m: Move): map<string, nat> {
    if k.pc.Start? && (pc.Locked? || (pc.Gone? && m.FailLate?)) then locks[k.ID() := w]
    else if k.pc.Leaving? && pc.Gone? && !m.Fail? && k.ID() in locks && locks[k.ID()] == w then locks - {k.ID()}
    else locks
  }

  function ActStep(s: State, w: nat, m: Move): State
    requires w < |s.workers|
  {
    var k := s.workers[w];
    var id := k.ID();
    var pc := NextPc(s.handlers, k, s.store, id !in s.locks, m);
    var k' := NextWorker(k, pc);
    State(
      s.handlers,
      NextStore(s.store, k, pc),
      s.workers[w := k'],
      NextLocks(s.locks, w, k, pc, m),
      if !k.Placed() && k'.Placed() then s.order + [Of(w)] else s.order,
      if Upserts(k, pc) then s.writes[id := Writes(s, id) + [WriteOf(k.pc)]] else s.writes,
      if k.Owes() && pc.Leaving? && !Saves(k, pc) then s.unsaved + multiset{id} else s.unsaved,
      s.expiredLeases,
      s.expiredStatuses)
  }

  /** The lease runs out: the lock is free although its holder does not know. */
  function Expire(s: State, id: string): State
    requires id in s.locks && s.locks[id] < |s.workers|
  {
    var w := s.locks[id];
    var k := s.workers[w];
    s.(locks := s.locks - {id},
       workers := s.workers[w := k.(expired := true)],
       expiredLeases := if k.Active() then s.expiredLeases + multiset{id} else s.expiredLeases)
  }

  function Forgotten(store: Store, id: string): Store {
    store.(statuses := store.statuses - {id})
  }

  /** The holder of the task's lock executes it. */
  predicate BeingExecuted(s: State, id: string) {
    id in s.locks && s.locks[id] < |s.workers| && s.workers[s.locks[id]].Executing()
  }

  function ForgetStatus(s: State, id: string): State
    requires id in s.store.statuses
  {
    var busy := BeingExecuted(s, id);
    s.(store := Forgotten(s.store, id),
       workers := if busy then s.workers[s.locks[id] := s.workers[s.locks[id]].(lapsed := true)] else s.workers,
       order := if busy then s.order else s.order + [Lapse(id)],
       expiredStatuses :=
         if s.store.statuses[id].Terminal() then s.expiredStatuses + multiset{id} else s.expiredStatuses)
  }

  function Step(s: State, a: Action): State {
    match a
    case Spawn(e) => s.(workers := s.workers + [Worker(e, Start, false, false)])
    case Act(w, m) => if w < |s.workers| then ActStep(s, w, m) else s
    case ExpireLease(id) => if id in s.locks && s.locks[id] < |s.workers| then Expire(s, id) else s
    case ExpireStatus(id) => if id in s.store.statuses then ForgetStatus(s, id) else s
  }

  /** The state after the actions `acts`, from `s` and from the start. */
  function RunFrom(s: State, acts: seq<Action>): State {
    Fold(Step, s, acts)
  }

  function Run(handlers: set<string>, acts: seq<Action>): State {
    RunFrom(Init(handlers), acts)
  }
}
