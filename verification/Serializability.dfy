/**
 Every interleaving of HandleTask calls, with any failures and with statuses that expire, leaves
 the stores exactly as whole calls and expiries made one after the other: the calls in the order
 in which the workers read their status or got their lock error, an expiry where it happened or,
 when it hit a task at work, right behind the visit it hit. This is proved task by task, for every
 task whose lease never ran out under an active holder.
 */
module Serializability {
  import opened TaskEntity
  import opened Stores
  import opened TaskService
  import opened TaskMachine
  import opened Locking
  import opened TaskKeys
  import opened Runs
  import opened SerialDeeds
  import opened SerialOrder

  // Each stage, seen from its own task.

  /** The worker's view: `before` is what it found, `now` what its own steps and expiries made of it. */
  ghost predicate InView(handlers: set<string>, k: Worker, before: Store, now: Store) {
    && Tidy(handlers, k) && Keyed(before) && Keyed(now)
    && Faithful(k, before)
    && At(now, k.ID()) == At(Effect(before, DeedOf(handlers, k)), k.ID())
  }

  ghost predicate StaysInView(handlers: set<string>, k: Worker, before: Store, now: Store, pc: Pc) {
    var k' := NextWorker(k, pc);
    var now' := NextStore(now, k, pc);
    && Faithful(k', before)
    && At(now', k.ID()) == At(Effect(before, DeedOf(handlers, k')), k.ID())
    && forall id | id != k.ID() :: At(now', id) == At(now, id)
  }

  lemma NoAnswerNoEffect(s: Store, c: Call)
    requires c.reply.None?
    ensures Visit(s, c).0 == s
  {
  }

  /** A visit that got its answer went through every stage before. */
  lemma EffectOfAnswer(e: ProcessedEvent, before: Store, status: Status, task: Task, c: Call)
    requires Prepared(e, before, status, task) && Keyed(before)
    requires c.event == e && c.supported && c.reply.Some? && !c.lockFails && !c.readFails && !c.loadFails
    ensures Visit(before, c) == Finish(before, task, c) && task.id == e.ID()
  {
  }

  /** Moves that write nothing and leave the call's effect as it is. */
  lemma SilentInView(handlers: set<string>, k: Worker, before: Store, now: Store, pc: Pc)
    requires InView(handlers, k, before, now)
    requires NextStore(now, k, pc) == now && !Saves(k, pc)
    requires Faithful(k.(pc := pc), before)
    requires var c, c' := CallOf(handlers, k), CallOf(handlers, k.(pc := pc));
             c' == c || (c'.reply.None? && c.reply.None? && c'.event == c.event)
    ensures StaysInView(handlers, k, before, now, pc)
  {
    var c, c' := CallOf(handlers, k), CallOf(handlers, k.(pc := pc));
    if c.reply.None? {
      NoAnswerNoEffect(before, c);
      NoAnswerNoEffect(before, c');
    }
    hide Visit, At, CallOf;
    assert NextWorker(k, pc) == k.(pc := pc);
    hide NextWorker, Faithful;
  }

  lemma FailureIsFaithful(handlers: set<string>, k: Worker, before: Store, now: Store, m: Move)
    requires k.Executing() && Tidy(handlers, k) && Keyed(before) && Faithful(k, before)
    requires m.Fail? || m.HandlerFails? || m.Panic?
    ensures Faithful(k.(pc := NextPc(handlers, k, now, false, m)), before)
  {
    if k.pc.Answered? || k.pc.Stored? {
      EffectOfAnswer(k.event, before, k.pc.status, k.pc.task, CallOf(handlers, k));
    }
  }

  lemma FailureInView(handlers: set<string>, k: Worker, before: Store, now: Store, m: Move)
    requires k.Executing() && InView(handlers, k, before, now)
    requires m.Fail? || m.HandlerFails? || m.Panic?
    ensures StaysInView(handlers, k, before, now, NextPc(handlers, k, now, false, m))
  {
    var pc := NextPc(handlers, k, now, false, m);
    FailureIsFaithful(handlers, k, before, now, m);
    hide StaysInView, Faithful, Effect;
    SilentInView(handlers, k, before, now, pc);
  }

  /** The load finds the repository as the visit's place in the order has it. */
  lemma LoadInView(handlers: set<string>, k: Worker, before: Store, now: Store, reply: Response)
    requires k.pc.Ready? && InView(handlers, k, before, now)
    ensures StaysInView(handlers, k, before, now, NextPc(handlers, k, now, false, Proceed(reply)))
  {
    NoAnswerNoEffect(before, CallOf(handlers, k));
    assert Get(now.repo, k.ID()) == At(now, k.ID()).task;
    assert Get(now.repo, k.ID()) == Get(before.repo, k.ID());
    hide StaysInView;
    SilentInView(handlers, k, before, now, NextPc(handlers, k, now, false, Proceed(reply)));
  }

  lemma NothingLate(handlers: set<string>, k: Worker, before: Store, now: Store)
    requires (k.pc.Ready? || k.pc.Loaded?) && InView(handlers, k, before, now)
    ensures StaysInView(handlers, k, before, now, NextPc(handlers, k, now, false, FailLate))
  {
    hide StaysInView;
    SilentInView(handlers, k, before, now, k.pc);
  }

  lemma UnsupportedInView(handlers: set<string>, k: Worker, before: Store, now: Store, reply: Response)
    requires k.pc.Loaded? && k.event.slug !in handlers && InView(handlers, k, before, now)
    ensures StaysInView(handlers, k, before, now, NextPc(handlers, k, now, false, Proceed(reply)))
  {
    hide StaysInView;
    SilentInView(handlers, k, before, now, NextPc(handlers, k, now, false, Proceed(reply)));
  }

  lemma DeliveryInView(handlers: set<string>, k: Worker, before: Store, now: Store, reply: Response)
    requires k.pc.Loaded? && k.event.slug in handlers && InView(handlers, k, before, now)
    ensures StaysInView(handlers, k, before, now, NextPc(handlers, k, now, false, Proceed(reply)))
  {
    var pc, id := NextPc(handlers, k, now, false, Proceed(reply)), k.ID();
    EffectOfAnswer(k.event, before, k.pc.status, k.pc.task, CallOf(handlers, NextWorker(k, pc)));
    NoAnswerNoEffect(before, CallOf(handlers, k));
    hide Visit;
    assert Get(now.deliveries, id) == At(now, id).deliveries;
  }

  lemma UpsertInView(handlers: set<string>, k: Worker, before: Store, now: Store, m: Move)
    requires k.pc.Answered? && InView(handlers, k, before, now) && (m.Proceed? || m.FailLate?)
    ensures StaysInView(handlers, k, before, now, NextPc(handlers, k, now, false, m))
  {
    var pc, id := NextPc(handlers, k, now, false, m), k.ID();
    EffectOfAnswer(k.event, before, k.pc.status, k.pc.task, CallOf(handlers, NextWorker(k, pc)));
    EffectOfAnswer(k.event, before, k.pc.status, k.pc.task, CallOf(handlers, k));
    hide Visit;
    assert Get(now.repo, id) == At(now, id).task;
  }

  /** The save overwrites whatever expired since the visit's place in the order. */
  lemma SaveInView(handlers: set<string>, k: Worker, before: Store, now: Store, m: Move)
    requires k.pc.Stored? && InView(handlers, k, before, now) && (m.Proceed? || m.FailLate?)
    ensures StaysInView(handlers, k, before, now, NextPc(handlers, k, now, false, m))
  {
    var fate := if m.Proceed? then Works else FailsLate;
    EffectOfAnswer(k.event, before, k.pc.status, k.pc.task, CallOf(handlers, k).(save := fate));
    EffectOfAnswer(k.event, before, k.pc.status, k.pc.task, CallOf(handlers, k));
    hide Visit;
  }

  lemma StageInView(handlers: set<string>, k: Worker, before: Store, now: Store, lockFree: bool, m: Move)
    requires k.Executing() && InView(handlers, k, before, now)
    ensures StaysInView(handlers, k, before, now, NextPc(handlers, k, now, lockFree, m))
  {
    assert NextPc(handlers, k, now, lockFree, m) == NextPc(handlers, k, now, false, m);
    hide InView, StaysInView, NextPc;
    if (k.pc.Answered? || k.pc.Stored?) && (m.Proceed? || m.FailLate?) {
      if k.pc.Answered? {
        UpsertInView(handlers, k, before, now, m);
      } else {
        SaveInView(handlers, k, before, now, m);
      }
    } else if m.FailLate? {
      NothingLate(handlers, k, before, now);
    } else if !m.Proceed? {
      FailureInView(handlers, k, before, now, m);
    } else if k.pc.Ready? {
      LoadInView(handlers, k, before, now, m.reply);
    } else if k.pc.Loaded? && k.event.slug !in handlers {
      UnsupportedInView(handlers, k, before, now, m.reply);
    } else {
      DeliveryInView(handlers, k, before, now, m.reply);
    }
  }

  // The moves of the machine.

  lemma AtWorkInView(s: State, p: nat, id: string)
    requires Ordered(s) && SerialAt(s, id) && Keyed(s.store) && p < |s.order| && AtWork(s, p, id)
    ensures InView(s.handlers, s.workers[s.order[p].w], Serial(Deeds(s)[..p]), s.store)
  {
    TidyDeed(s, p);
    SerialKeyed(Deeds(s)[..p]);
    HolderView(s, p, id);
    assert FaithfulAt(s, p, id);
    assert s.workers[s.order[p].w] in s.workers;
    hide Separated, Serial, Faithful, Effect, Deeds, Tidy, At, Keyed;
  }

  /** A stage of a worker that has its place. */
  lemma StageSerial(s: State, w: nat, m: Move, id: string)
    requires Ordered(s) && OneKey(s) && SerialAt(s, id) && w < |s.workers| && s.workers[w].Executing()
    ensures InRange(ActStep(s, w, m)) && SerialAt(ActStep(s, w, m), id)
  {
    var k, s' := s.workers[w], ActStep(s, w, m);
    var p :| 0 <= p < |s.order| && s.order[p] == Of(w);
    var pc := NextPc(s.handlers, k, s.store, k.ID() !in s.locks, m);
    assert k in s.workers && OwnTask(k);
    MoveTidy(s.handlers, k, s.store, k.ID() !in s.locks, m);
    MoveWritesOwn(k, s.store, pc);
    hide NextPc, NextStore, NextLocks, NextWorker, Tidy, SerialAt, Keyed, At, InView, Faithful, Effect, Serial;
    assert Changed(s, s', p, NextWorker(k, pc)) by {
      hide Ordered;
    }
    if k.ID() == id {
      AtWorkInView(s, p, id);
      StageInView(s.handlers, k, Serial(Deeds(s)[..p]), s.store, k.ID() !in s.locks, m);
      ChangedHere(s, s', p, NextWorker(k, pc), id);
    } else {
      ChangedElsewhere(s, s', p, NextWorker(k, pc), id);
    }
  }

  /** Worker `w` finds its place, having done nothing yet, behind everybody at work on its task. */
  ghost predicate Joins(s: State, s': State, w: nat, k': Worker)
    requires InRange(s) && w < |s.workers|
  {
    && s'.store == s.store && s'.handlers == s.handlers && s'.order == s.order + [Of(w)]
    && s'.workers == s.workers[w := k'] && k'.event == s.workers[w].event
    && !s.workers[w].Placed()
    && !k'.lapsed && CallOf(s.handlers, k').reply.None?
  }

  lemma JoinDeeds(s: State, s': State, w: nat, k': Worker)
    requires Ordered(s) && w < |s.workers| && Joins(s, s', w, k')
    ensures InRange(s') && Of(w) !in s.order && Deeds(s') == Deeds(s) + [DeedOf(s.handlers, k')]
    ensures Serial(Deeds(s')) == Serial(Deeds(s))
  {
    hide CallOf, Tidy;
    assert Deeds(s') == Deeds(s) + [DeedOf(s.handlers, k')];
    NoAnswerNoEffect(Serial(Deeds(s)), CallOf(s.handlers, k'));
    FoldOneMore(Effect, EmptyStore, Deeds(s), DeedOf(s.handlers, k'));
  }

  lemma JoinSerial(s: State, s': State, w: nat, k': Worker, id: string)
    requires Ordered(s) && Keyed(s.store) && SerialAt(s, id) && w < |s.workers| && Joins(s, s', w, k')
    requires Tidy(s.handlers, k') && Faithful(k', s.store)
    requires k'.ID() == id && !DeedOf(s.handlers, k').LockedOut() ==>
               forall v | 0 <= v < |s.workers| && v != w && s.workers[v].ID() == id :: !s.workers[v].Executing()
    ensures InRange(s') && SerialAt(s', id)
  {
    JoinDeeds(s, s', w, k');
    SerialKeyed(Deeds(s));
    hide Serial, At, Keyed;
    forall i | 0 <= i < |s'.order| ensures FaithfulAt(s', i, id) {
      if i < |s.order| {
        assert Deeds(s')[..i] == Deeds(s)[..i];
        assert FaithfulAt(s, i, id);
      } else {
        assert Deeds(s')[..i] == Deeds(s);
        if k'.ID() == id {
          FaithfulLocal(k', s.store, Serial(Deeds(s)));
        }
      }
    }
    hide Faithful, Tidy, FaithfulAt;
    forall i | 0 <= i < |s'.order| && AtWork(s', i, id) ensures Untouched(Deeds(s'), i + 1, id) {
      if i < |s.order| {
        assert AtWork(s, i, id);
      }
    }
  }

  /** Lock errors, and status reads of the one worker that has the task's live lease. */
  lemma PlaceSerial(s: State, w: nat, m: Move, id: string)
    requires Ordered(s) && OneKey(s) && Excluded(s) && Alive(s, id) && SerialAt(s, id) && w < |s.workers|
    requires !s.workers[w].Placed() && ActStep(s, w, m).workers[w].Placed()
    ensures InRange(ActStep(s, w, m)) && SerialAt(ActStep(s, w, m), id)
  {
    var k, s' := s.workers[w], ActStep(s, w, m);
    var k' := s'.workers[w];
    assert k in s.workers;
    MoveTidy(s.handlers, k, s.store, k.ID() !in s.locks, m);
    FirstMove(s.handlers, k, s.store, k.ID() !in s.locks, m);
    hide NextPc, NextStore, NextLocks, NextWorker, Tidy, SerialAt, Faithful, CallOf;
    if k.ID() == id && !DeedOf(s.handlers, k').LockedOut() {
      forall v | 0 <= v < |s.workers| && v != w && s.workers[v].ID() == id ensures !s.workers[v].Executing() {
        if s.workers[v].Executing() {
          AliveIsAlone(s, id, v, w);
        }
      }
    }
    JoinSerial(s, s', w, k', id);
  }

  lemma FirstMove(handlers: set<string>, k: Worker, store: Store, lockFree: bool, m: Move)
    requires !k.Placed() && Tidy(handlers, k)
    ensures var pc := NextPc(handlers, k, store, lockFree, m);
            var k' := NextWorker(k, pc);
            && NextStore(store, k, pc) == store && k'.event == k.event && !k'.lapsed
            && (k'.Placed() ==> CallOf(handlers, k').reply.None? && Faithful(k', store))
            && (k'.Placed() && !DeedOf(handlers, k').LockedOut() ==> k.Active())
  {
  }

  /** Steps that change nothing the order sees: entering, unlocking, starting, losing a lease. */
  ghost predicate Idle(s: State, s': State) {
    && s'.store == s.store && s'.order == s.order && s'.handlers == s.handlers && |s'.workers| >= |s.workers|
    && forall w | 0 <= w < |s.workers| && s.workers[w].Placed() :: SameVisit(s.workers[w], s'.workers[w])
  }

  predicate SameVisit(k: Worker, k': Worker) {
    && k'.event == k.event && k'.lapsed == k.lapsed
    && (k'.pc == k.pc || (k.pc.Leaving? && k'.pc == Gone(k.pc.call, k.pc.outcome)))
  }

  lemma SameVisitSame(handlers: set<string>, k: Worker, k': Worker, before: Store)
    requires SameVisit(k, k')
    ensures DeedOf(handlers, k') == DeedOf(handlers, k) && k'.Executing() == k.Executing() && k'.ID() == k.ID()
    ensures Faithful(k, before) ==> Faithful(k', before)
  {
  }

  lemma IdleSerial(s: State, s': State, id: string)
    requires Ordered(s) && Idle(s, s') && SerialAt(s, id)
    ensures InRange(s') && SerialAt(s', id)
  {
    hide Serial, Faithful, At, SameVisit, Tidy, DeedOf;
    forall i | 0 <= i < |s.order| && s.order[i].Of?
      ensures DeedAt(s', i) == DeedAt(s, i)
      ensures AtWork(s', i, id) == AtWork(s, i, id) && Owns(s', i, id) == Owns(s, i, id)
    {
      SameVisitSame(s.handlers, s.workers[s.order[i].w], s'.workers[s.order[i].w], s.store);
    }
    assert Deeds(s') == Deeds(s);
    forall i | 0 <= i < |s'.order| ensures FaithfulAt(s', i, id) {
      assert FaithfulAt(s, i, id);
      if s.order[i].Of? {
        SameVisitSame(s.handlers, s.workers[s.order[i].w], s'.workers[s.order[i].w], Serial(Deeds(s)[..i]));
      }
    }
  }

  lemma RestIsIdle(s: State, w: nat, m: Move)
    requires w < |s.workers| && !s.workers[w].Executing()
    requires s.workers[w].Placed() || !ActStep(s, w, m).workers[w].Placed()
    ensures Idle(s, ActStep(s, w, m))
  {
  }

  lemma ActSerial(s: State, w: nat, m: Move, id: string)
    requires Ordered(s) && OneKey(s) && Excluded(s) && Alive(s, id) && SerialAt(s, id) && w < |s.workers|
    ensures InRange(ActStep(s, w, m)) && SerialAt(ActStep(s, w, m), id)
  {
    assert |ActStep(s, w, m).workers| == |s.workers|;
    hide SerialAt, Ordered, OneKey, Excluded, Alive, ActStep;
    if s.workers[w].Executing() {
      StageSerial(s, w, m, id);
    } else if !s.workers[w].Placed() && ActStep(s, w, m).workers[w].Placed() {
      PlaceSerial(s, w, m, id);
    } else {
      RestIsIdle(s, w, m);
      IdleSerial(s, ActStep(s, w, m), id);
    }
  }

  // Expiring statuses.

  /** The expiry hits a visit at work and goes right behind it. */
  lemma LapseSerial(s: State, lapsing: string, id: string)
    requires Ordered(s) && OneKey(s) && Excluded(s) && SerialAt(s, id)
    requires lapsing in s.store.statuses && BeingExecuted(s, lapsing)
    ensures InRange(ForgetStatus(s, lapsing)) && SerialAt(ForgetStatus(s, lapsing), id)
  {
    var w, s' := s.locks[lapsing], ForgetStatus(s, lapsing);
    var k := s.workers[w];
    var k' := k.(lapsed := true);
    assert Leased(s, lapsing) && k in s.workers;
    var p :| 0 <= p < |s.order| && s.order[p] == Of(w);
    assert Tidy(s.handlers, k');
    forall other | other != k.ID() ensures At(s'.store, other) == At(s.store, other) {
      ForgottenSlot(s.store, lapsing, other);
    }
    assert Changed(s, s', p, k');
    hide Tidy, Excluded, At, SerialAt, ForgetStatus, Serial, Effect;
    if k.ID() == id {
      var before := Serial(Deeds(s)[..p]);
      AtWorkInView(s, p, id);
      LapseInView(s.handlers, k, before, s.store);
      ChangedHere(s, s', p, k', id);
    } else {
      ChangedElsewhere(s, s', p, k', id);
    }
  }

  lemma LapseInView(handlers: set<string>, k: Worker, before: Store, now: Store)
    requires InView(handlers, k, before, now)
    ensures var k' := k.(lapsed := true);
            && Faithful(k', before)
            && At(Forgotten(now, k.ID()), k.ID()) == At(Effect(before, DeedOf(handlers, k')), k.ID())
  {
    var id, after := k.ID(), Visit(before, CallOf(handlers, k)).0;
    hide Visit, At, Forgotten;
    ForgottenSlot(now, id, id);
    ForgottenSlot(after, id, id);
  }

  /** The expiry hits nobody and takes its own place in the order. */
  lemma QuietLapseSerial(s: State, lapsing: string, id: string)
    requires Ordered(s) && Excluded(s) && Alive(s, id) && SerialAt(s, id)
    requires lapsing in s.store.statuses && !BeingExecuted(s, lapsing)
    ensures InRange(ForgetStatus(s, lapsing)) && SerialAt(ForgetStatus(s, lapsing), id)
  {
    var s' := ForgetStatus(s, lapsing);
    assert Deeds(s') == Deeds(s) + [Expiry(lapsing)];
    FoldOneMore(Effect, EmptyStore, Deeds(s), Expiry(lapsing));
    ForgottenSlot(s.store, lapsing, id);
    ForgottenSlot(Serial(Deeds(s)), lapsing, id);
    forall i | 0 <= i < |s'.order| && AtWork(s', i, id) ensures Untouched(Deeds(s'), i + 1, id) {
      assert AtWork(s, i, id);
      AliveIsAlone(s, id, s.order[i].w, s.order[i].w);
    }
    hide Serial, Faithful, At, Forgotten, Excluded, Alive;
    forall i | 0 <= i < |s'.order| ensures FaithfulAt(s', i, id) {
      if i < |s.order| {
        assert Deeds(s')[..i] == Deeds(s)[..i];
        assert FaithfulAt(s, i, id);
      }
    }
  }

  lemma StepSerial(s: State, a: Action, id: string)
    requires Ordered(s) && OneKey(s) && Excluded(s) && Alive(s, id) && SerialAt(s, id)
    ensures InRange(Step(s, a)) && SerialAt(Step(s, a), id)
  {
    hide SerialAt, OneKey, Excluded, Alive, ActStep, ForgetStatus;
    match a
    case Act(w, m) =>
      if w < |s.workers| {
        ActSerial(s, w, m, id);
      }
    case ExpireStatus(lapsing) =>
      if lapsing in s.store.statuses {
        if BeingExecuted(s, lapsing) {
          LapseSerial(s, lapsing, id);
        } else {
          QuietLapseSerial(s, lapsing, id);
        }
      }
    case Spawn(_) => IdleSerial(s, Step(s, a), id);
    case ExpireLease(_) => IdleSerial(s, Step(s, a), id);
  }

  lemma {:induction false} RunSerial(handlers: set<string>, acts: seq<Action>, id: string)
    requires Run(handlers, acts).expiredLeases[id] == 0
    ensures Ordered(Run(handlers, acts)) && SerialAt(Run(handlers, acts), id)
  {
    hide SerialAt, Excluded, OneKey, Step, Ordered, Alive;
    RunOrdered(handlers, acts);
    if acts == [] {
      NothingIsSerial(handlers, id);
    } else {
      var n := |acts| - 1;
      RunAlive(handlers, acts, id);
      RunAlive(handlers, acts[..n], id);
      RunSerial(handlers, acts[..n], id);
      RunExcluded(handlers, acts[..n]);
      RunOneKey(handlers, acts[..n]);
      StepSerial(Run(handlers, acts[..n]), acts[n], id);
    }
  }

  lemma NothingIsSerial(handlers: set<string>, id: string)
    ensures SerialAt(Init(handlers), id)
  {
  }

  /** What a worker returned, or did before a panic. */
  function OutcomeOf(k: Worker): Option<Outcome> {
    if k.pc.Leaving? || k.pc.Gone? then Some(k.pc.outcome) else None
  }

  /** The worker at position `i` returned, if it did, what its call returns at that place. */
  ghost predicate ReturnsInTurn(s: State, i: nat)
    requires InRange(s) && i < |s.order| && s.order[i].Of?
  {
    var k := s.workers[s.order[i].w];
    OutcomeOf(k).Some? && OutcomeOf(k).value.Returned? ==>
      OutcomeOf(k).value.result == Visit(Serial(Deeds(s)[..i]), CallOf(s.handlers, k)).1
  }

  /**
   One task is serial: its repository entry, status and deliveries are exactly those that the
   workers' calls and the expiries leave, made whole and alone in the order `s.order`; and what its
   workers returned are the results of their calls at their places.
   */
  ghost predicate IsSerialAt(s: State, id: string)
    requires InRange(s)
  {
    && At(s.store, id) == At(Serial(Deeds(s)), id)
    && forall i | 0 <= i < |s.order| && Owns(s, i, id) :: ReturnsInTurn(s, i)
  }

  /**
   Serializability, task by task: in every run, whatever fails or expires elsewhere, a task whose
   lease never ran out under an active holder is serial. The order names every worker that has
   found its place, once, with a call for its own event and for the handlers there are.
   */
  lemma EveryTaskIsSerial(handlers: set<string>, acts: seq<Action>, id: string)
    requires Run(handlers, acts).expiredLeases[id] == 0
    ensures Ordered(Run(handlers, acts)) && IsSerialAt(Run(handlers, acts), id)
  {
    RunSerial(handlers, acts, id);
    var s := Run(handlers, acts);
    hide Run, Visit, Serial, Separated, At;
    forall i | 0 <= i < |s.order| && Owns(s, i, id) ensures ReturnsInTurn(s, i) {
      assert FaithfulAt(s, i, id);
    }
  }

  /** The whole state is serial: all stores, and every result. */
  ghost predicate IsSerial(s: State) {
    && Ordered(s)
    && s.store == Serial(Deeds(s))
    && forall i | 0 <= i < |s.order| && s.order[i].Of? :: ReturnsInTurn(s, i)
  }

  /** And where no lease ran out under an active holder, the whole run is. */
  lemma EveryRunIsSerial(handlers: set<string>, acts: seq<Action>)
    requires Run(handlers, acts).expiredLeases == multiset{}
    ensures IsSerial(Run(handlers, acts))
  {
    var s := Run(handlers, acts);
    RunOrdered(handlers, acts);
    hide Run, Tidy, ReturnsInTurn, At;
    forall id ensures IsSerialAt(s, id) {
      EveryTaskIsSerial(handlers, acts, id);
    }
    forall id ensures At(s.store, id) == At(Serial(Deeds(s)), id) {
      assert IsSerialAt(s, id);
    }
    SlotsDetermine(s.store, Serial(Deeds(s)));
    forall i | 0 <= i < |s.order| && s.order[i].Of? ensures ReturnsInTurn(s, i) {
      var id := s.workers[s.order[i].w].ID();
      assert IsSerialAt(s, id) && Owns(s, i, id);
    }
  }

  /** The order respects time: later steps only append to it. */
  lemma {:induction false} OrderOnlyGrows(handlers: set<string>, acts: seq<Action>, more: seq<Action>)
    ensures Run(handlers, acts).order <= Run(handlers, acts + more).order
    decreases |more|
  {
    if more == [] {
      assert acts + more == acts;
    } else {
      var n := |more| - 1;
      OrderOnlyGrows(handlers, acts, more[..n]);
      assert (acts + more)[..|acts| + n] == acts + more[..n];
      StepOrder(Run(handlers, acts + more[..n]), more[n]);
    }
  }

  /**
   And strictly: a worker that has found its place stands before every worker that has not, in
   particular before every worker started later.
   */
  lemma OrderRespectsTime(handlers: set<string>, acts: seq<Action>, more: seq<Action>, v: nat, w: nat, i: nat, j: nat)
    requires var s := Run(handlers, acts);
             v < |s.workers| && s.workers[v].Placed() && (w >= |s.workers| || !s.workers[w].Placed())
    requires var order := Run(handlers, acts + more).order;
             i < |order| && j < |order| && order[i] == Of(v) && order[j] == Of(w)
    ensures i < j
  {
    var order, order' := Run(handlers, acts).order, Run(handlers, acts + more).order;
    OrderOnlyGrows(handlers, acts, more);
    RunOrdered(handlers, acts);
    RunOrdered(handlers, acts + more);
    hide Run, Tidy;
    var p :| 0 <= p < |order| && order[p] == Of(v);
    assert order'[p] == order[p] && order'[i] == order'[p];
    assert Of(w) !in order && order'[..|order|] == order;
  }

  lemma StepOrder(s: State, a: Action)
    ensures s.order <= Step(s, a).order
  {
    hide NextPc, NextStore, NextLocks;
  }
}
