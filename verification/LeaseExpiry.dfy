/** Why the serial order and the agreement of the stores are claimed for live leases only. */
module LeaseExpiry {
  import opened TaskEntity
  import opened Stores
  import opened TaskService
  import opened TaskMachine
  import opened DuplicationTight
  import opened SerialDeeds
  import opened StoreAgreement
  import opened Scripts

  lemma {:induction false} SerialMatches(deeds: seq<Deed>, id: string)
    ensures Matches(Serial(deeds), id)
  {
    if deeds != [] {
      var n := |deeds| - 1;
      SerialKeyed(deeds[..n]);
      SerialMatches(deeds[..n], id);
      EffectMatches(Serial(deeds[..n]), deeds[n], id);
    }
  }

  lemma PersistMatches(s: Store, task: string, r: RawResponse, upsert: Fate, save: Fate, id: string)
    requires Matches(s, id) && (task == id ==> !Recorded(s, id).Terminal())
    ensures Matches(Persist(s, task, r, upsert, save).0, id)
  {
  }

  lemma VisitMatches(s: Store, c: Call, id: string)
    requires Keyed(s) && Matches(s, id)
    ensures Matches(Visit(s, c).0, id)
  {
    var own := c.event.ID();
    if c.reply.Some? && Recorded(s, own).CanBeExecuted() && (Recorded(s, own).IsBroadcast() ==> own in s.repo) {
      var task := LoadedTask(s, c.event);
      var logged := LogDelivery(s, own, Delivery(task, c.reply.value));
      PersistMatches(logged, task.id, c.reply.value, c.upsert, c.save, id);
    }
    hide Persist;
  }

  lemma EffectMatches(s: Store, d: Deed, id: string)
    requires Keyed(s) && Matches(s, id)
    ensures Matches(Effect(s, d), id)
  {
    if d.Whole? {
      VisitMatches(s, d.call, id);
    }
    hide Visit;
  }

  const Retry: Response := RawResponse(RetriableFailed, 1, None)

  /** A first visit has written its success to the repository when its lease expires. */
  lemma Overtaken(handlers: set<string>, e: ProcessedEvent) returns (acts: seq<Action>)
    requires e.slug in handlers
    ensures var s := Run(handlers, acts);
            && s.workers == [Worker(e, Stored(NotExecuted, MakeTask(e), Answer), true, false)] && Quiet(s, e)
            && s.unsaved == multiset{} && s.expiredLeases == multiset{e.ID()} && s.expiredStatuses == multiset{}
  {
    var start := Init(handlers);
    hide RunFrom;
    acts := Deliver(start, e);
    acts := GoLast(start, acts, [], e, Answered(NotExecuted, MakeTask(e), Answer), Proceed(Answer));
    acts := Go(start, acts, ExpireLease(e.ID()));
  }

  /** A second visit stores a retriable failure; then the first one saves its success. */
  lemma Overtake(s: State, e: ProcessedEvent) returns (acts: seq<Action>)
    requires s.workers == [Worker(e, Stored(NotExecuted, MakeTask(e), Answer), true, false)] && Quiet(s, e)
    ensures var s' := RunFrom(s, acts);
            && Recorded(s'.store, e.ID()) == Success
            && e.ID() in s'.store.repo && s'.store.repo[e.ID()].status == RetriableFailed
            && s'.unsaved == s.unsaved && s'.expiredLeases == s.expiredLeases && s'.expiredStatuses == s.expiredStatuses
  {
    hide RunFrom;
    var stale := s.workers;
    acts := Prepare(s, e);
    acts := GoLast(s, acts, stale, e, Loaded(NotExecuted, MakeTask(e)), Proceed(Retry));
    acts := GoLast(s, acts, stale, e, Answered(NotExecuted, MakeTask(e), Retry), Proceed(Retry));
    assert RunFrom(s, acts).workers[0] == stale[0];
    acts := Go(s, acts, Act(0, Proceed(Answer)));
  }

  /**
   One lease that expires between repository write and status save lets a second visit write the
   repository in between: the recorded success and the stored failure fit no order of whole calls and expiries.
   */
  lemma ExpiredLeaseIsNotSerial(handlers: set<string>, e: ProcessedEvent) returns (acts: seq<Action>)
    requires e.slug in handlers
    ensures var s := Run(handlers, acts);
            && Recorded(s.store, e.ID()) == Success
            && e.ID() in s.store.repo && s.store.repo[e.ID()].status == RetriableFailed
            && s.unsaved == multiset{} && s.expiredLeases == multiset{e.ID()} && s.expiredStatuses == multiset{}
    ensures forall deeds :: Run(handlers, acts).store != Serial(deeds)
  {
    hide RunFrom;
    var first := Overtaken(handlers, e);
    var more := Overtake(Run(handlers, first), e);
    RunSplits(handlers, first, more);
    acts := first + more;
    forall deeds ensures Run(handlers, acts).store != Serial(deeds) {
      SerialMatches(deeds, e.ID());
    }
  }
}
