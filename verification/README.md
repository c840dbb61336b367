# Ormus: idempotent delivery and its channels, in Dafny

The destination side of Ormus takes processed events from a queue and delivers each to a third
party through `HandleTask`: lock the task, read its status, load or make the task, deliver it,
write the repository, write the status, unlock. One goroutine per event does this, every step can
fail, the lock is a lease that can expire, and below it lie channels that redeliver messages and
restart themselves. This project models that code and proves what it keeps in every run.

## How it is modelled

- **Sequential code over stores** is written as classes and methods: the in-memory repository with
  one heap record per task, the map status store, the Redis status store, the lock, the handler
  table and the task service (`Stores.dfy`, `TaskService.dfy`). `Service.HandleTask` is proved to
  compute the function `TaskService.Visit`, the meaning of one undisturbed call, and to meet
  `TaskService.Handled`, which tells the same outcome without following the stages; `Replay.dfy`
  calls it for every worker of a concurrent run.
- **Concurrent code** is a step machine: a goroutine is a program counter with its locals, an
  action says who moves and how the environment answers, and `Step` is a total function that
  leaves the state alone when the action is not possible. Every sequence of actions is therefore a
  run, and the theorems quantify over all of them. The four machines are `TaskMachine.dfy` (workers
  inside `HandleTask`), `SimpleChannel.dfy`, `RabbitInput.dfy` and `RabbitConnection.dfy`;
  `Pipeline.dfy` puts coordinator, broker and task consumer in front of the first. The task machine
  knows which destination types have a delivery handler. In the channel
  machines the WaitGroup counter changes exactly where the code calls `Add` and `Done`.
- **Pure code** is functions: statuses and IDs (`TaskEntity.dfy`), environment names
  (`EnvName.dfy`), error chains (`RichErrors.dfy`).
- `Runs.dfy` and `Sums.dfy` hold what all machines share: folding a step over actions, and sums of
  a weight over the goroutines.

Assumptions, all visible in the definitions: one shared repository that is not restarted; each
store operation is atomic; handlers answer with one of the three statuses of
destination/taskservice/handle_task.go:112; a worker whose lease expired cannot release the lock of
another; every step of a worker may fail or panic, and a panic still runs the deferred unlock. A lock,
upsert or save that fails may have taken effect or not; both are modelled. A handler that returns an
error has given no answer, whatever it sent before.
Outcomes of stores, broker, handlers and clocks are inputs: parameters of the methods, actions of
the machines. `payload` of an event stands for all fields that are only carried along.

## Main results

- Every interleaving, with any failures and with statuses that expire, is a serial order of whole
  calls and expiries, for every task whose lease never ran out under an active holder
  (`EveryTaskIsSerial`, `EveryRunIsSerial`); one such lease is enough to break that
  (`ExpiredLeaseIsNotSerial`). Calling the sequential `HandleTask` in that order on an empty service
  reproduces the stores and every worker's result (`ReplayRun`). Conversely every serial history,
  with whatever fails in it, is a run (`EverySerialIsARun`), and every run of the workers comes about
  in the pipeline (`EveryWorkerRunComesAbout`).
- Terminal deliveries of a task are bounded by one plus its lost answers, expired leases and
  expired statuses (`TerminalDeliveriesBounded`), and no smaller bound holds (`BoundIsReached`).
- A recorded terminal status agrees with the repository and is final; where the two differ the task
  is still executable; a recorded task is always found; the repository holds the last answer written
  (`TerminalStatusAgrees`, `TerminalStatusIsFinal`, `BroadcastLookupNeverMisses`,
  `RepoHoldsLastAnswer`).
- A visit in which nothing fails delivers once and records the answer exactly when nothing, "not
  executed" or "retriable failed" was recorded, and otherwise changes nothing (`FaultFreeVisit`).
- End to end, redelivered copies are absorbed and nothing is delivered that was not received
  (`CopiesAreBounded`, `CopiesAreAbsorbed`, `LaterCopiesChangeNothing`, `DeliveriesWereReceived`,
  `EventsConserved`).
- The channels lose and duplicate nothing they should not, and their WaitGroup covers the work
  (`EveryMessageIsInOnePlace`, `WaitGroupCoversMessages`, `PublishRetries`,
  `InstancesAreSupervised`, `OneKeeper`).
- What the histories count is what the environment answered, step by step: broker answers, openings
  and closes, dials, creations, publishers (`CallsAreAnswers`, `RestartsAreBreaks`,
  `ConnectionsAreDials`, `CreatesAreSuccesses`, `StagesAreSteps`).

Where the code does less than one would expect, the model follows the code and says so with a
concrete run and an exact condition: an `Ack` on the simple channel returns if and only if its
attempt has not left its select, and blocks its caller for ever otherwise (`AckReturnsExactlyWhen`,
`ManagerCanBlock`); the first start of a RabbitMQ instance is not covered by the WaitGroup
(`FirstStartIsNotCovered`), which is at zero exactly when nothing but such first starts is left
(`WaitGroupZeroExactlyWhen`), and the simple channel's offers have the same gap
(`OfferIsNotCovered`); a connection can be replaced if and only if no watcher saw `done` and it was
not lost before its watcher asked for notifications (`ReplacedExactlyWhen`, with the run
`EarlyLossHappens`), and exactly such an early loss can crash the process without any further loss
(`CrashesExactlyWhen`); task IDs can collide when message IDs contain dashes
(`IDsInjectiveExactlyWhen`); environment names decode only for separable segments
(`VariableNameRoundTrip`); a rich error without message and without wrapped error panics
(`MessageDefinedExactlyWhen`). The comment at destination/taskservice/handle_task.go:114 says that
handlers count attempts in case of success; the webhook handler counts every call, and the model
follows the handler. The stored attempts count repository writes since the last write of a visit
that had read "not executed"; a visit that read it and failed before its write does not restart the
count (`FailedFreshVisitKeepsCount`). With the shipped handler the counter never gets beyond one
(`WebhookAttemptsStayOne`).

## Model

| member | source | states |
|---|---|---|
| `TaskEntity.NumericStringsRoundTrip` | destination/entity/taskentity/task.go:37-39 | the numeric string of a status is its position among the constants and reads back to it; any other string reads as invalid |
| `TaskEntity.ReportedIsExecutableOrTerminal` | destination/entity/taskentity/task.go:45-47 | a status a handler can report lets the task be executed again if and only if it is not terminal |
| `TaskEntity.IDsInjectiveExactlyWhen` | event/processed_event.go:35-37 | task IDs of two message IDs can never be confused, for any integrations, if and only if neither message ID starts with the other followed by a dash |
| `TaskEntity.DashFreeIDsInjective` | event/processed_event.go:35-37 | dash-free message IDs never share a task ID |
| `TaskEntity.DashFreeIntegrationsInjective` | event/processed_event.go:35-37 | dash-free integration IDs never share a task ID, whatever the message IDs |
| `Stores.InMemoryTaskRepo.GetTaskByID` | destination/taskservice/adapter/repository/inmemorytaskrepo/repo.go:18-34 | returns a copy of the stored task, or "task not found" exactly when there is none |
| `Stores.InMemoryTaskRepo.UpsertTask` | destination/taskservice/adapter/repository/inmemorytaskrepo/repo.go:40-66 | in the heap, the stored task has the request's status, attempts and failure reason and keeps its event, no other task changes; a missing task is created with its ID and the zero event; an error may come before or after the effect |
| `Stores.InMemoryIdempotency.SaveTaskStatus` | destination/taskservice/adapter/idempotency/inmemorytaskidempotency/adapter.go:9-16 | the map is updated at the task only |
| `Stores.InMemoryIdempotency.GetTaskStatusByID` | destination/taskservice/adapter/idempotency/inmemorytaskidempotency/adapter.go:18-25 | an absent task counts as not executed |
| `Stores.RedisIdempotency.SaveTaskStatus` | destination/taskservice/adapter/idempotency/redistaskidempotency/adapter.go:14-29 | seen through prefix and numeric encoding, exactly one status changes, its key gets the configured lifetime, and keys outside the prefix keep their values; an error may come before or after the effect |
| `Stores.RedisIdempotency.GetTaskStatusByID` | destination/taskservice/adapter/idempotency/redistaskidempotency/adapter.go:31-55 | reads the decoded status, not executed when absent, an error when Redis fails |
| `Stores.RedisIdempotency.Expire` | destination/taskservice/adapter/idempotency/redistaskidempotency/adapter.go:22 | when a key's lifetime is over, this task's status is forgotten and no other |
| `Stores.DecodedAfterSet` | destination/entity/taskentity/task.go:37-39 | writing the encoded status under the prefixed key is updating the decoded map at that task and nowhere else |
| `Stores.RedisRefinesMap` | destination/taskservice/adapter/idempotency/redistaskidempotency/adapter.go:14-55 | for every sequence of saves and reads, from every starting content, the string store and the plain map give the same answers |
| `Stores.DriveBoth` | destination/taskservice/adapter/idempotency/inmemorytaskidempotency/adapter.go:9-25 | the two adapters, driven with the same calls from the same statuses, answer alike call for call and hold the same statuses afterwards |
| `TaskService.Locker.Lock` | adapter/etcd/adapter.go:63-97 | a held key or a failing service gives an error; a free key is then held by a lease nobody else has, also when the error came after the effect |
| `TaskService.Locker.Unlock` | adapter/etcd/adapter.go:91-96 | releases the caller's own lease unless the unlock fails; a key that has passed to another lease stays with it |
| `TaskService.LockKeysTellTasksApart` | destination/taskservice/service.go:44-54 | two events compete for a lock if and only if they have the same task ID |
| `TaskService.VisitIsHandled` | destination/taskservice/handle_task.go:18-136 | the outcome of a call, told without its stages: executed when nothing, "not executed" or "retriable failed" is recorded, a retry delivering the stored task with the new event; deliveries, repository, status and result for every combination of failures |
| `TaskService.OvertakenUnlock` | adapter/etcd/adapter.go:63-97 | a holder whose lease ran out and whose key passed to another lease leaves the key there when it unlocks |
| `TaskService.DeliveryMapper.Handle` | destination/taskservice/handle_task.go:102-110 | an answer is logged with the task it was given for, a handler error is not |
| `TaskService.Service.UpsertTaskAndSaveIdempotency` | destination/taskservice/service.go:98-124 | repository first, status second, no second without success of the first; each failure, before or after its effect, leaves exactly what was done |
| `TaskService.Service.DeliverAndStore` | destination/taskservice/handle_task.go:86-135 | stores and result of the stages from the handler lookup on, every failure included |
| `TaskService.Service.HandleLocked` | destination/taskservice/handle_task.go:43-135 | stores and result inside the lock are those of the undisturbed call |
| `TaskService.Service.HandleTask` | destination/taskservice/handle_task.go:18-136 | stores and result are those of `Visit` and as told by `Handled`; only a lock error or a held "task:" key of the same ID locks it out; keys of other IDs stay as they are; and on every path the lock is given back unless the unlock itself fails or a failing lock call took effect |
| `Locking.RunExcluded` | adapter/etcd/adapter.go:63-97 | in every run, with expiries too: a lock belongs to a worker of its task with a live lease, and a worker inside with a live lease holds its lock |
| `Locking.OneHolder` | destination/taskservice/handle_task.go:29-41 | two workers of one task inside with live leases are the same worker |
| `SerialDeeds.VisitHere` | destination/taskservice/handle_task.go:18-136 | a call's result and its effect on its task depend on that task's repository entry, status and deliveries only |
| `SerialDeeds.ReplaceHere` | destination/taskservice/handle_task.go:18-136 | changing how one deed of a serial order went, when nobody touches its task afterwards, leaves that task as the new deed does |
| `SerialDeeds.ReplaceElsewhere` | destination/taskservice/handle_task.go:18-136 | changing how one deed of a serial order went changes no other task |
| `SerialOrder.RunOrdered` | destination/worker/worker.go:36-65 | in every run each worker that has its lock error or has read its status is in the order exactly once, with a call for its own event and for the handlers there are |
| `Serializability.EveryTaskIsSerial` | destination/taskservice/handle_task.go:18-136 | in every run, with any failures, panics and status expiries, a task whose lease never ran out under an active holder has exactly the repository entry, status and deliveries that whole calls and expiries leave, made one after the other in the order of status reads and lock errors; what its workers returned are their calls' results at their places |
| `Serializability.EveryRunIsSerial` | destination/taskservice/handle_task.go:18-136 | when no lease ran out under an active holder, all stores and all results of the run are those of the serial order of whole calls and status expiries |
| `Serializability.OrderOnlyGrows` | destination/worker/worker.go:36-65 | the serial order is stable: later steps only append to it |
| `Serializability.OrderRespectsTime` | destination/worker/worker.go:36-65 | the serial order respects time: a worker that has found its place stands before every worker that has not, in particular before every worker started later |
| `Replay.PerformAll` | destination/taskservice/handle_task.go:18-136 | a serial history of calls and expiries, performed on an empty service by calling `HandleTask` and expiring keys, leaves the stores and gives the results that the history stands for, with no lock left held |
| `Replay.ReplayRun` | destination/worker/worker.go:36-65 | the machine refines the method: calling `HandleTask` on an empty service for the workers of a run, in their order, ends with the machine's stores and gives every worker the result it returned |
| `Completeness.CallIsReachable` | destination/taskservice/handle_task.go:18-136 | from every state in which its task's lock is free, every whole call, with whatever fails in it, is a run of one worker that returns the call's result and gives the lock back |
| `Completeness.EverySerialIsARun` | destination/worker/worker.go:36-65 | every serial history of calls and expiries is a run that ends with the history's stores, all locks free and a worker for every call with the call's result |
| `Completeness.FaultFreeVisit` | destination/taskservice/handle_task.go:54-135 | after every run that left its lock free, a visit in which nothing fails delivers exactly once and leaves the answer in both stores if nothing, "not executed" or "retriable failed" is recorded, to the stored task with the new event in the last case; otherwise it changes nothing |
| `LeaseExpiry.SerialMatches` | destination/taskservice/service.go:98-124 | after any serial order of calls and expiries a terminal status equals the repository's |
| `LeaseExpiry.ExpiredLeaseIsNotSerial` | adapter/etcd/adapter.go:63-97 | a run with one expired lease and no failure ends with a recorded success and a stored retriable failure, which no serial order of calls and expiries produces |
| `TaskKeys.RunOneKey` | destination/taskservice/service.go:44-54 | in every run a worker loads, delivers and stores under its own event's task ID, and every stored task carries the ID it is stored under |
| `Duplication.RunBalanced` | destination/taskservice/handle_task.go:29-128 | in every reachable state the terminal deliveries plus the workers without lease that may still do harm are paid for by the covered delivery, lost answers and expiries |
| `Duplication.TerminalDeliveriesBounded` | destination/taskservice/handle_task.go:29-128 | in every run, whatever fails or expires: terminal deliveries of a task are at most 1 + visits that ended with an unsaved terminal answer + leases that expired under an active holder + expired terminal statuses |
| `DuplicationTight.BoundIsReached` | destination/taskservice/handle_task.go:29-128 | for every event with a handler and all numbers of lost answers, expired leases and expired statuses some run has exactly those and one terminal delivery more than their sum |
| `StoreAgreement.BroadcastLookupNeverMisses` | destination/taskservice/handle_task.go:68-79 | in every run, even with expiries: a task with a recorded status is in the repository, the status is one a handler reported, and no visit ends with "task not found" |
| `StoreAgreement.RepoHoldsLastAnswer` | destination/taskservice/adapter/repository/inmemorytaskrepo/repo.go:40-66 | in every run, a task is in the repository if and only if an answer was written for it, with status, attempts and failure reason of the last one, which is the answer of a delivery on record |
| `StoreAgreement.TerminalStatusAgrees` | destination/taskservice/service.go:98-124 | for a task whose lease never ran out under an active holder: a recorded terminal status is the repository's status, and where the repository differs from what is recorded the task can still be executed |
| `StoreAgreement.FailedSaveLeavesRepoAhead` | destination/taskservice/service.go:110-116 | a run with one failed save and no expiry ends with a success in the repository and a task still not executed |
| `StoreAgreement.TerminalStatusIsFinal` | destination/taskservice/handle_task.go:54-60 | once a terminal status is recorded, no continuation changes the task's entry, status or deliveries, unless this status expires or a lease of this task runs out under an active holder |
| `Attempts.WebhookAttemptsStayOne` | destination/taskdelivery/adapters/webhookdeliveryhandler/handler.go:10-21 | in every run, whatever fails or expires, a task answered by the webhook handler only is recorded as success or not at all, every delivery of it started from zero attempts, and it is stored with exactly one |
| `Attempts.FailedFreshVisitKeepsCount` | destination/taskservice/handle_task.go:69-84 | a visit that read "not executed" and whose handler fails leaves the stored attempts of the visit before |
| `Attempts.AttemptsCountWrites` | destination/taskdelivery/adapters/webhookdeliveryhandler/handler.go:14-18 | for a task whose lease never ran out under an active holder and whose handlers add one, the stored attempts are, modulo 256, the repository writes since the last one that started afresh, counting it |
| `Pipeline.EventsConserved` | destination/taskcoordinator/adapter/dtcoordinator/adapter.go:39-83 | for every event in every run: received = being routed + published to its own type's publisher + without publisher + refused; handed out = being decoded + being forwarded + forwarded; forwarded = acking + acknowledged = in the channel + with a worker; only published events are handed out |
| `PipelineRuns.StagesAreSteps` | destination/taskcoordinator/adapter/dtcoordinator/adapter.go:39-83 | in every run, the copies of an event received, published, without publisher, refused, handed out, forwarded, acknowledged and taken are the steps that took one there, with the publisher's own answers |
| `PipelineRuns.EveryWorkerRunComesAbout` | destination/taskmanager/adapter/rabbitmqchanneltaskmanager/task_consumer.go:31-83 | every run of the workers whose events have a publisher comes about in the pipeline, with every event received, published, handed out, forwarded and acknowledged |
| `Absorption.MachineRunsAlone` | destination/worker/worker.go:27-74 | the workers inside the pipeline run exactly as the worker machine does on its own actions |
| `Absorption.LossesAreHarmfulSteps` | destination/taskservice/handle_task.go:127-133 | the counts behind the bound are exactly the steps of the run that fail or panic with a terminal answer unsaved, end a lease under an active holder, or expire a terminal status |
| `Absorption.CopiesAreBounded` | destination/taskmanager/adapter/rabbitmqchanneltaskmanager/task_consumer.go:31-83 | in every pipeline run, for any number of redelivered copies and whatever fails, panics or expires, a task is delivered to the end at most once more than it was harmed by such a step |
| `Absorption.CopiesAreAbsorbed` | destination/taskmanager/adapter/rabbitmqchanneltaskmanager/task_consumer.go:31-83 | for any number of redelivered copies, with any lock, unlock, read, load and handler errors, a task that no such step harms is delivered to the end at most once |
| `Absorption.LaterCopiesChangeNothing` | destination/taskservice/handle_task.go:54-60 | after a terminal status is recorded, further copies, with any failures, change neither store and are not delivered, unless this status expires or a lease of this task runs out under an active holder |
| `Absorption.DeliveriesWereReceived` | destination/taskmanager/adapter/rabbitmqchanneltaskmanager/task_consumer.go:38-79 | every delivery ever made is of an event the coordinator received and published to the publisher of its own type, and is recorded under that event's ID |
| `SimpleChannel.StartConsume` | pkg/channel/adapter/simple/channel.go:52-69 | the launch loop leaves one counted consumer per instance, none for a negative number |
| `SimpleChannel.RunKeeps` | pkg/channel/adapter/simple/channel.go:52-100 | in every run the WaitGroup equals the goroutines' weights, and messages taken are held or acknowledged, each exactly once |
| `SimpleChannelProperties.EveryMessageIsInOnePlace` | pkg/channel/adapter/simple/channel.go:52-100 | a message taken is either acknowledged by exactly one returned Ack and with nobody, or not acknowledged and with exactly one goroutine |
| `SimpleChannelProperties.WaitGroupCoversMessages` | pkg/channel/adapter/simple/channel.go:71-85 | the WaitGroup is never negative and never below the number of unacknowledged messages, across timeouts and after done |
| `SimpleChannelProperties.ConsumersStay` | pkg/channel/adapter/simple/channel.go:52-69 | the configured number of consumers is there in every run and none stops before done |
| `SimpleChannelProperties.WaitGroupZeroExactlyWhen` | pkg/channel/adapter/simple/channel.go:52-100 | the WaitGroup is at zero if and only if every goroutine of the channel has returned or is about to offer a copy it is not yet counted for; then every message taken is acknowledged |
| `SimpleChannelRuns.OfferIsNotCovered` | pkg/channel/adapter/simple/channel.go:71-89 | one timeout suffices for the WaitGroup to reach zero, everything acknowledged and stopped, with the first attempt's copy still to be offered and counted |
| `SimpleChannelProperties.NoAttemptAfterAck` | pkg/channel/adapter/simple/channel.go:77-83 | after a message's Ack has returned, no run starts another attempt for it |
| `ManagerWorker.CreatesAreSuccesses` | manager/workers/worker.go:38-43 | in every run, the creations of a message are the steps in which a manager worker holding a copy was told of a success |
| `ManagerWorker.AckImpliesCreated` | manager/workers/worker.go:33-55 | with manager workers reading, under any redelivery, the acknowledgements of a message are at most the successful creations that workers were told of in the run |
| `ManagerWorker.FailedCreateChangesNothing` | manager/workers/worker.go:38-43 | after a failed creation the worker reads on, and nothing is acknowledged, counted or launched |
| `ManagerWorker.NoSuccessNoAck` | manager/workers/worker.go:33-55 | a message with no acknowledgement and no creation under way is not acknowledged in any continuation in which no worker is told of a success |
| `SimpleChannelProperties.AckReturnsExactlyWhen` | pkg/channel/adapter/simple/channel.go:73-97 | in every run, some continuation releases a reader inside Ack, acknowledging its message, if and only if its attempt has not left its select; otherwise no continuation moves it |
| `SimpleChannelRuns.ManagerCanBlock` | manager/workers/worker.go:37-49 | one message and one timeout suffice for the manager's worker, its project created, to wait in Ack for ever |
| `RabbitInput.StartInstances` | pkg/channel/adapter/rabbitmq/channel.go:228-235 | the launch loop leaves one counted goroutine per input instance, none without input mode |
| `RabbitInput.InstancesAreSupervised` | pkg/channel/adapter/rabbitmq/channel.go:344-395 | until done exactly the configured number of goroutines are instances, starting, running or scheduled, through any open errors and closes; afterwards only those that saw done are gone |
| `RabbitInput.WaitGroupCoversInstances` | pkg/channel/adapter/rabbitmq/channel.go:425-432 | the WaitGroup covers every instance except those in their first wait for a connection |
| `RabbitInput.WaitGroupZeroExactlyWhen` | pkg/channel/adapter/rabbitmq/channel.go:228-235 | the WaitGroup is at zero if and only if every goroutine has returned or is in its first wait for a connection; then the live instances are exactly those first waits and every message is published or dropped |
| `RabbitInput.FirstStartIsNotCovered` | pkg/channel/adapter/rabbitmq/channel.go:231-234 | with one instance the WaitGroup reaches zero while the instance still waits for its first start |
| `RabbitInput.WaitGroupCoversMessages` | pkg/channel/adapter/rabbitmq/channel.go:397-423 | the WaitGroup is never negative and never below the number of messages not yet published or dropped |
| `RabbitInput.PublishRetries` | pkg/channel/adapter/rabbitmq/channel.go:397-423 | a message is published once, dropped, or with a goroutine, never two of these; dropped if and only if the maximal number of calls all failed and nobody has it any more; never more calls than that, and who has it after the last call has just seen it fail; for every retry policy including negative ones |
| `RabbitInput.BackoffIsExact` | pkg/channel/adapter/rabbitmq/channel.go:403-421 | call number t comes after t failed calls and exactly t(t+1) seconds of pauses |
| `RabbitPublish.CallsAreAnswers` | pkg/channel/adapter/rabbitmq/channel.go:407-421 | in every run, the successes of a message are the calls the broker accepted and its other calls those the broker refused |
| `RabbitPublish.DroppedIsRefused` | pkg/channel/adapter/rabbitmq/channel.go:397-423 | a dropped message was refused as often as the policy allows and never accepted; a message is published if and only if the broker accepted it once, and it never does twice |
| `RabbitPublish.RefusedIsRetried` | pkg/channel/adapter/rabbitmq/channel.go:416-421 | a refused call before the last leaves the message with its goroutine, and some continuation makes the next call after 2(t + 1) more seconds |
| `RabbitPublish.PublishHappens` | pkg/channel/adapter/rabbitmq/channel.go:397-423 | for every policy and every call it allows, some run publishes the message with that call |
| `RabbitPublish.DropHappens` | pkg/channel/adapter/rabbitmq/channel.go:397-402 | for every policy of at least 0, some run drops the message after exactly one more refused call than the policy's number |
| `RabbitPublish.NegativePolicyDrops` | pkg/channel/adapter/rabbitmq/channel.go:397-402 | for every negative policy, some run drops the message without a call |
| `RabbitPublish.RestartsAreBreaks` | pkg/channel/adapter/rabbitmq/channel.go:344-395 | in every run, there is one restart, pending or made, for every failed opening and every closed channel, and one exit for every running instance that took the signal |
| `RabbitPublish.BreakIsRepaired` | pkg/channel/adapter/rabbitmq/channel.go:425-432 | after a failed opening or a close, some continuation has the instance open a channel again in a new goroutine |
| `RabbitPublish.ShutdownHappens` | pkg/channel/adapter/rabbitmq/channel.go:378-395 | some run ends with the instance gone and the WaitGroup at zero |
| `RabbitConnection.OneKeeper` | pkg/channel/adapter/rabbitmq/adapter.go:57-122 | until a watcher saw done exactly one goroutine is in charge: it watches the current connection, is about to, or alone may dial |
| `RabbitConnection.NobodyAfterDone` | pkg/channel/adapter/rabbitmq/adapter.go:99-102 | after a watcher saw done nobody watches or dials |
| `RabbitConnection.EveryConnectionWatchedOnce` | pkg/channel/adapter/rabbitmq/adapter.go:91-122 | watchers register for connections 1, 2, 3, ... in this order, none twice, and at most the current one still lacks its watcher |
| `RabbitConnection.WaitGroupCoversWatcher` | pkg/channel/adapter/rabbitmq/adapter.go:91-122 | once the constructor has counted the first watcher the WaitGroup stays positive until a watcher sees done |
| `RabbitConnection.ReplacedExactlyWhen` | pkg/channel/adapter/rabbitmq/adapter.go:72-122 | in every run, some continuation brings the next connection if and only if no watcher saw done and the current connection was not lost before its watcher asked for notifications |
| `RabbitConnection.ConnectionsAreDials` | pkg/channel/adapter/rabbitmq/adapter.go:57-89 | in every run, the connections are the dials that succeeded and the exits the watchers that saw done |
| `RabbitConnection.StopsExactlyWhen` | pkg/channel/adapter/rabbitmq/adapter.go:99-102 | in every run, some continuation has a watcher see done if and only if one has or the process has not crashed |
| `RabbitConnection.EarlyLossHappens` | pkg/channel/adapter/rabbitmq/adapter.go:72-98 | a run of four steps in which the first connection is lost before the first watcher asks |
| `RabbitConnection.CrashesExactlyWhen` | pkg/channel/adapter/rabbitmq/adapter.go:91-106 | in every run, some continuation without a further loss crashes if and only if the current connection was lost before its watcher asked |
| `RabbitConnection.CrashMeansEarlyLoss` | pkg/channel/adapter/rabbitmq/adapter.go:91-106 | after a crash the keeper watches the current connection and that connection was lost before it asked |
| `EnvName.JoinedDecodesExactlyWhen` | config/loader.go:34-38 | replacing separators in the joined segments gives the segments joined by dots if and only if they are separable |
| `EnvName.PlainNameStays` | config/loader.go:34-38 | a lower-case name without prefix and separator is its own key |
| `EnvName.SeparableMeans` | config/README.md:27 | separable is: no separator inside a segment and no segment but the last ending in an underscore |
| `EnvName.VariableNameRoundTrip` | config/loader.go:34-38 | the variable named after a list of segments decodes to the dotted key if and only if the segments are lower-case and separable |
| `RichErrors.KindIsFirstInChain` | pkg/richerror/richerror.go:58-71 | the kind of a chain is its first non-zero kind from the outside in, and 0 when there is none |
| `RichErrors.MessageDefinedExactlyWhen` | pkg/richerror/richerror.go:73-86 | the message lookup does not panic if and only if some rich error of the chain has a message or the innermost one wraps an error; without any message it returns that error's text |
| `RichErrors.MessageIsFirstInChain` | pkg/richerror/richerror.go:73-86 | the outermost message of the chain is the one returned |

## Left out

- Liveness: nothing re-enqueues a task that failed retriably, so only safety is claimed.
- TaskService.Locker.Lock: does not measure the lease's time to live or the wait for the context's deadline, because any length of either is allowed: a wait for a held key ends in an error here, in the task machine it may last, and a lease may expire at any moment.
- Real races on the maps: the source reads its maps without the mutex; the model's store operations are atomic.
- Restarts: the shipped repository is in memory and does not survive one; a restart is outside the model.
- Statuses outside the five constants: `String` and `ToNumericString` would panic on them.
- Time stamps of tasks: the repository never sets them.
- The simple channel's bounded output buffer: it only blocks senders; the unbounded one has more interleavings. Its `maxRetryPolicy` is never read.
- The output side of the RabbitMQ channel: the same supervision as the input side, plus a consume-error branch that calls a method of a nil error.
- The task consumer's ack-error branch: it calls a method of a nil error, a crash outside the model.
- A graceful close of the connection: nothing in the source closes it; the watcher would be told nil, as after a loss before it asked.
- Survival of a message across a closed broker channel: publish retries reuse the same channel, so it is not claimed.
- Letters outside ASCII in environment names, and loading of the configuration itself.
- Joined errors (several wrapped at once) and error metadata.
- JSON: decoding is an abstract partial function; AMQP, Redis, etcd and Scylla clients are queues, maps and a lease lock with failures.
- Tracing, metrics, logging, HTTP, CLI, protobuf, validators and configuration structs: no effect on the modelled state.
