/** The order of deeds a machine state stands for, and how one worker's change of state changes it. */
module SerialOrder {
  import opened TaskEntity
  import opened TaskService
  import opened TaskMachine
  import opened SerialDeeds

  // The machine's own order of deeds.

  function DeedOf(handlers: set<string>, k: Worker): Deed {
    Whole(CallOf(handlers, k), k.lapsed)
  }

  predicate InRange(s: State) {
    forall i | 0 <= i < |s.order| && s.order[i].Of? :: s.order[i].w < |s.workers|
  }

  function DeedAt(s: State, i: nat): Deed
    requires InRange(s) && i < |s.order|
  {
    match s.order[i]
    case Of(w) => DeedOf(s.handlers, s.workers[w])
    case Lapse(id) => Expiry(id)
  }

  function Deeds(s: State): seq<Deed>
    requires InRange(s)
  {
    seq(|s.order|, i requires 0 <= i < |s.order| => DeedAt(s, i))
  }

  /** A worker's call is for its own event and for the handlers there are; only who had the lock can have lapsed. */
  predicate Tidy(handlers: set<string>, k: Worker) {
    var c := CallOf(handlers, k);
    && c.event == k.event && c.supported == (k.event.slug in handlers)
    && (k.pc.Answered? || k.pc.Stored? ==> k.event.slug in handlers)
    && (k.pc.Leaving? ==> !c.lockFails)
    && (k.lapsed ==> k.Placed() && !c.lockFails)
  }

  /** Every worker that has found its place is in the order, once. */
  ghost predicate Ordered(s: State) {
    && InRange(s)
    && (forall i | 0 <= i < |s.order| && s.order[i].Of? :: s.workers[s.order[i].w].Placed())
    && (forall i, j | 0 <= i < j < |s.order| && s.order[i].Of? :: s.order[i] != s.order[j])
    && (forall w: nat | w < |s.workers| && s.workers[w].Placed() :: Of(w) in s.order)
    && (forall k <- s.workers :: Tidy(s.handlers, k))
  }

  lemma MoveTidy(handlers: set<string>, k: Worker, store: Store, lockFree: bool, m: Move)
    requires Tidy(handlers, k)
    ensures var k' := NextWorker(k, NextPc(handlers, k, store, lockFree, m));
            Tidy(handlers, k') && (k.Placed() ==> k'.Placed())
  {
  }

  lemma ActOrdered(s: State, w: nat, m: Move)
    requires Ordered(s) && w < |s.workers|
    ensures Ordered(ActStep(s, w, m))
  {
    var k := s.workers[w];
    var k' := NextWorker(k, NextPc(s.handlers, k, s.store, k.ID() !in s.locks, m));
    assert k in s.workers;
    MoveTidy(s.handlers, k, s.store, k.ID() !in s.locks, m);
    hide NextPc, NextStore, NextLocks, Tidy, NextWorker;
    PlacedOrdered(s, ActStep(s, w, m), w, k');
  }

  /** A worker moves, and is entered into the order when it finds its place. */
  lemma PlacedOrdered(s: State, s': State, w: nat, k': Worker)
    requires Ordered(s) && w < |s.workers| && s'.handlers == s.handlers && s'.workers == s.workers[w := k']
    requires Tidy(s.handlers, k') && (s.workers[w].Placed() ==> k'.Placed())
    requires s'.order == if !s.workers[w].Placed() && k'.Placed() then s.order + [Of(w)] else s.order
    ensures Ordered(s')
  {
    hide Tidy;
    forall v: nat | v < |s'.workers| && s'.workers[v].Placed() ensures Of(v) in s'.order {
      assert v == w || s.workers[v].Placed();
    }
    forall i, j | 0 <= i < j < |s'.order| && s'.order[i].Of? ensures s'.order[i] != s'.order[j] {
      assert j == |s.order| ==> s.workers[s.order[i].w].Placed();
    }
  }

  lemma ForgetOrdered(s: State, id: string)
    requires Ordered(s) && id in s.store.statuses
    ensures Ordered(ForgetStatus(s, id))
  {
    if BeingExecuted(s, id) {
      var w := s.locks[id];
      assert s.workers[w] in s.workers;
      PlacedOrdered(s, ForgetStatus(s, id), w, s.workers[w].(lapsed := true));
    }
  }

  lemma StepOrdered(s: State, a: Action)
    requires Ordered(s)
    ensures Ordered(Step(s, a))
  {
    match a
    case Act(w, m) =>
      if w < |s.workers| {
        ActOrdered(s, w, m);
      }
    case ExpireStatus(id) =>
      if id in s.store.statuses {
        ForgetOrdered(s, id);
      }
    case ExpireLease(id) =>
      if id in s.locks && s.locks[id] < |s.workers| {
        var k := s.workers[s.locks[id]];
        assert k in s.workers && Tidy(s.handlers, k.(expired := true));
        PlacedOrdered(s, Expire(s, id), s.locks[id], k.(expired := true));
      }
    case Spawn(e) =>
      assert Tidy(s.handlers, Worker(e, Start, false, false));
  }

  lemma {:induction false} RunOrdered(handlers: set<string>, acts: seq<Action>)
    ensures Ordered(Run(handlers, acts))
  {
    if acts == [] {
      assert Ordered(Init(handlers));
    } else {
      hide Step, Ordered;
      var n := |acts| - 1;
      RunOrdered(handlers, acts[..n]);
      StepOrdered(Run(handlers, acts[..n]), acts[n]);
    }
  }

  // One task of the machine against the serial order.

  /** `task` is what a visit finding the stores as `before` loads. */
  predicate Prepared(e: ProcessedEvent, before: Store, status: Status, task: Task) {
    var id := e.ID();
    && status == Recorded(before, id) && status.CanBeExecuted()
    && (status.IsBroadcast() ==> id in before.repo)
    && task == LoadedTask(before, e)
  }

  /** The worker's locals and its result are those of its call, made alone on `before`. */
  predicate Faithful(k: Worker, before: Store) {
    match k.pc
    case Start => true
    case Locked => true
    case Ready(status) => status == Recorded(before, k.ID()) && status.CanBeExecuted()
    case Loaded(status, task) => Prepared(k.event, before, status, task)
    case Answered(status, task, _) => Prepared(k.event, before, status, task)
    case Stored(status, task, _) => Prepared(k.event, before, status, task)
    case Leaving(c, o) => o.Returned? ==> o.result == Visit(before, c).1
    case Gone(c, o) => o.Returned? ==> o.result == Visit(before, c).1
  }

  predicate Owns(s: State, i: nat, id: string)
    requires InRange(s) && i < |s.order|
  {
    s.order[i].Of? && s.workers[s.order[i].w].ID() == id
  }

  predicate AtWork(s: State, i: nat, id: string)
    requires InRange(s) && i < |s.order|
  {
    Owns(s, i, id) && s.workers[s.order[i].w].Executing()
  }

  /** Nothing touches the task behind a visit that can still act. */
  predicate Separated(s: State, id: string)
    requires InRange(s)
  {
    forall i | 0 <= i < |s.order| && AtWork(s, i, id) :: Untouched(Deeds(s), i + 1, id)
  }

  ghost predicate FaithfulAt(s: State, i: nat, id: string)
    requires InRange(s) && i < |s.order|
  {
    Owns(s, i, id) ==> Faithful(s.workers[s.order[i].w], Serial(Deeds(s)[..i]))
  }

  ghost predicate SerialAt(s: State, id: string)
    requires InRange(s)
  {
    && Separated(s, id)
    && At(s.store, id) == At(Serial(Deeds(s)), id)
    && forall i | 0 <= i < |s.order| :: FaithfulAt(s, i, id)
  }

  lemma FaithfulLocal(k: Worker, b: Store, b': Store)
    requires Keyed(b) && Keyed(b') && At(b, k.ID()) == At(b', k.ID())
    requires k.pc.Leaving? || k.pc.Gone? ==> k.pc.call.event == k.event
    requires Faithful(k, b)
    ensures Faithful(k, b')
  {
    assert Get(b.repo, k.ID()) == Get(b'.repo, k.ID()) && Get(b.statuses, k.ID()) == Get(b'.statuses, k.ID());
    if k.pc.Leaving? || k.pc.Gone? {
      VisitHere(b, b', k.pc.call);
    }
  }

  /** What the visit at position `p` has done so far is all that happened to its task since. */
  lemma HolderView(s: State, p: nat, id: string)
    requires InRange(s) && SerialAt(s, id) && p < |s.order| && AtWork(s, p, id)
    requires DeedAt(s, p).ID() == id
    ensures At(s.store, id) == At(Effect(Serial(Deeds(s)[..p]), DeedAt(s, p)), id)
  {
    assert Deeds(s)[p := DeedAt(s, p)] == Deeds(s);
    hide At, Effect, FaithfulAt;
    ReplaceHere(Deeds(s), p, DeedAt(s, p));
  }

  /** `s'` is `s` with the worker at position `p` turned into `k'`, and other tasks' stores untouched. */
  ghost predicate Changed(s: State, s': State, p: nat, k': Worker)
    requires InRange(s) && p < |s.order| && s.order[p].Of?
  {
    var w := s.order[p].w;
    && s'.order == s.order && s'.handlers == s.handlers
    && s'.workers == s.workers[w := k'] && k'.event == s.workers[w].event
    && forall id | id != k'.ID() :: At(s'.store, id) == At(s.store, id)
  }

  lemma ChangedDeeds(s: State, s': State, p: nat, k': Worker)
    requires Ordered(s) && p < |s.order| && s.order[p].Of? && Changed(s, s', p, k')
    ensures InRange(s') && Deeds(s') == Deeds(s)[p := DeedOf(s.handlers, k')]
  {
    hide DeedOf, Tidy, At;
    forall i | 0 <= i < |s.order| ensures Deeds(s')[i] == Deeds(s)[p := DeedOf(s.handlers, k')][i] {
      assert i != p ==> s.order[i] != s.order[p];
    }
  }

  lemma TidyDeed(s: State, i: nat)
    requires Ordered(s) && i < |s.order|
    ensures s.order[i].Of? ==> DeedAt(s, i).call.event == s.workers[s.order[i].w].event
    ensures forall id :: Owns(s, i, id) ==> DeedAt(s, i).ID() == id
  {
    assert s.order[i].Of? ==> Tidy(s.handlers, s.workers[s.order[i].w]);
  }

  /** A change of another task's worker. */
  lemma ChangedElsewhere(s: State, s': State, p: nat, k': Worker, id: string)
    requires Ordered(s) && p < |s.order| && s.order[p].Of? && Changed(s, s', p, k')
    requires Tidy(s.handlers, k') && k'.ID() != id && SerialAt(s, id)
    ensures InRange(s') && SerialAt(s', id)
  {
    ChangedDeeds(s, s', p, k');
    TidyDeed(s, p);
    var d := DeedOf(s.handlers, k');
    assert d.ID() == Deeds(s)[p].ID() != id;
    ReplaceElsewhere(Deeds(s), p, d, id);
    hide At, Effect, Serial, Faithful, Tidy, DeedOf;
    forall i | 0 <= i < |s'.order| && AtWork(s', i, id) ensures Untouched(Deeds(s'), i + 1, id) {
      assert AtWork(s, i, id);
    }
    forall i | 0 <= i < |s'.order| ensures FaithfulAt(s', i, id) {
      OtherStaysFaithful(s, s', p, k', id, i);
    }
  }

  lemma OtherStaysFaithful(s: State, s': State, p: nat, k': Worker, id: string, i: nat)
    requires Ordered(s) && p < |s.order| && s.order[p].Of? && Changed(s, s', p, k')
    requires Tidy(s.handlers, k') && k'.ID() != id && i < |s.order| && FaithfulAt(s, i, id)
    ensures InRange(s') && FaithfulAt(s', i, id)
  {
    ChangedDeeds(s, s', p, k');
    TidyDeed(s, p);
    if Owns(s', i, id) {
      var w := s.order[i].w;
      assert s'.workers[w] == s.workers[w] && Owns(s, i, id);
      assert s.workers[w] in s.workers;
      var d, deeds := DeedOf(s.handlers, k'), Deeds(s)[..i];
      if i <= p {
        assert Deeds(s')[..i] == deeds;
      } else {
        assert Deeds(s')[..i] == deeds[p := d] && deeds[p] == Deeds(s)[p];
        hide At, Effect, Serial, Faithful;
        ReplaceElsewhere(deeds, p, d, id);
        SerialKeyed(deeds);
        SerialKeyed(deeds[p := d]);
        FaithfulLocal(s.workers[w], Serial(deeds), Serial(deeds[p := d]));
      }
    }
  }

  /** A change of the task's own worker at work: its deed is now `k'`'s. */
  lemma ChangedHere(s: State, s': State, p: nat, k': Worker, id: string)
    requires Ordered(s) && p < |s.order| && AtWork(s, p, id) && Changed(s, s', p, k')
    requires Tidy(s.handlers, k') && k'.Placed() && SerialAt(s, id)
    requires At(s'.store, id) == At(Effect(Serial(Deeds(s)[..p]), DeedOf(s.handlers, k')), id)
    requires Faithful(k', Serial(Deeds(s)[..p]))
    ensures InRange(s') && SerialAt(s', id)
  {
    ChangedDeeds(s, s', p, k');
    var d := DeedOf(s.handlers, k');
    assert d.ID() == id;
    hide At, Effect, Serial, FaithfulAt;
    ReplaceHere(Deeds(s), p, d);
    hide Faithful;
    forall i | 0 <= i < |s'.order|
      ensures FaithfulAt(s', i, id) && (AtWork(s', i, id) ==> Untouched(Deeds(s'), i + 1, id))
    {
      if i == p {
        OwnIsFaithful(s, s', p, k', id);
      } else {
        NeighbourStays(s, s', p, k', id, i);
      }
    }
  }

  lemma OwnIsFaithful(s: State, s': State, p: nat, k': Worker, id: string)
    requires Ordered(s) && p < |s.order| && AtWork(s, p, id) && Changed(s, s', p, k') && Separated(s, id)
    requires Faithful(k', Serial(Deeds(s)[..p]))
    ensures InRange(s') && FaithfulAt(s', p, id) && Untouched(Deeds(s'), p + 1, id)
  {
    ChangedDeeds(s, s', p, k');
    hide Faithful, Serial;
    assert Deeds(s')[..p] == Deeds(s)[..p];
  }

  /** Behind the visit at work its task has lock errors only, and before it nobody else at work. */
  lemma NeighbourStays(s: State, s': State, p: nat, k': Worker, id: string, i: nat)
    requires Ordered(s) && p < |s.order| && AtWork(s, p, id) && Changed(s, s', p, k') && SerialAt(s, id)
    requires i < |s.order| && i != p
    ensures InRange(s') && FaithfulAt(s', i, id) && !AtWork(s', i, id)
  {
    ChangedDeeds(s, s', p, k');
    TidyDeed(s, p);
    TidyDeed(s, i);
    assert FaithfulAt(s, i, id);
    hide At, Serial, Faithful;
    assert Deeds(s)[p].ID() == id && !Deeds(s)[p].LockedOut();
    assert s.order[i].Of? ==> s.order[i] != s.order[p];
    if Owns(s', i, id) {
      var k := s.workers[s.order[i].w];
      assert s'.workers[s'.order[i].w] == k;
      assert Deeds(s)[i] == DeedOf(s.handlers, k);
      if i < p {
        assert Deeds(s')[..i] == Deeds(s)[..i];
        assert !Untouched(Deeds(s), i + 1, id) && AtWork(s', i, id) == AtWork(s, i, id);
      } else {
        assert Deeds(s)[i].LockedOut();
        LockedOutFaithful(s.handlers, k, Serial(Deeds(s)[..i]), Serial(Deeds(s')[..i]));
      }
    }
  }

  lemma LockedOutFaithful(handlers: set<string>, k: Worker, b: Store, b': Store)
    requires DeedOf(handlers, k).LockedOut() && Faithful(k, b)
    ensures Faithful(k, b')
  {
  }
}
