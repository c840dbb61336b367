/** Serial histories: whole calls and status expiries, one after the other, and how they commute. */
module SerialDeeds {
  import opened TaskEntity
  import opened Stores
  import opened TaskService
  import opened TaskMachine
  import opened Runs

  /** A whole call, with an expiry of its task's status right behind it if `lapsed`; or an expiry alone. */
  datatype Deed = Whole(call: Call, lapsed: bool) | Expiry(task: string) {

    function ID(): string {
      if Whole? then call.event.ID() else task
    }

    /** A call that got no lock. */
    predicate LockedOut() {
      Whole? && call.lockFails && !lapsed
    }
  }

  function Effect(s: Store, d: Deed): Store {
    match d
    case Whole(c, lapsed) => if lapsed then Forgotten(Visit(s, c).0, c.event.ID()) else Visit(s, c).0
    case Expiry(id) => Forgotten(s, id)
  }

  /** The stores after the deeds, one after the other. */
  function Serial(deeds: seq<Deed>): Store {
    Fold(Effect, EmptyStore, deeds)
  }

  // Deeds of different tasks do not see each other.

  lemma MapsAgree<V>(m: map<string, V>, n: map<string, V>)
    requires forall id :: Get(m, id) == Get(n, id)
    ensures m == n
  {
    forall id ensures id in m <==> id in n {
      assert Get(m, id) == Get(n, id);
    }
    forall id | id in m ensures m[id] == n[id] {
      assert Get(m, id) == Get(n, id);
    }
  }

  lemma SlotsDetermine(s: Store, t: Store)
    requires forall id :: At(s, id) == At(t, id)
    ensures s == t
  {
    forall id
      ensures Get(s.repo, id) == Get(t.repo, id) && Get(s.statuses, id) == Get(t.statuses, id)
      ensures Get(s.deliveries, id) == Get(t.deliveries, id)
    {
      assert At(s, id) == At(t, id);
    }
    MapsAgree(s.repo, t.repo);
    MapsAgree(s.statuses, t.statuses);
    MapsAgree(s.deliveries, t.deliveries);
  }

  lemma ForgottenSlot(s: Store, id: string, other: string)
    ensures At(Forgotten(s, id), other) == if other == id then At(s, id).(status := None) else At(s, other)
    ensures Keyed(s) ==> Keyed(Forgotten(s, id))
  {
  }

  lemma VisitElsewhere(s: Store, c: Call, id: string)
    requires Keyed(s)
    requires id != c.event.ID() || c.lockFails
    ensures At(Visit(s, c).0, id) == At(s, id)
  {
    var own := c.event.ID();
    if c.reply.Some? && own != id && (Recorded(s, own).IsBroadcast() ==> own in s.repo) {
      var task := LoadedTask(s, c.event);
      var logged := LogDelivery(s, own, Delivery(task, c.reply.value));
      PersistElsewhere(logged, own, c.reply.value, c.upsert, c.save, id);
    }
    hide Persist;
  }

  lemma PersistElsewhere(s: Store, own: string, r: RawResponse, upsert: Fate, save: Fate, id: string)
    requires own != id
    ensures At(Persist(s, own, r, upsert, save).0, id) == At(s, id)
  {
  }

  lemma PersistHere(s: Store, t: Store, id: string, r: RawResponse, upsert: Fate, save: Fate)
    requires At(s, id) == At(t, id)
    ensures At(Persist(s, id, r, upsert, save).0, id) == At(Persist(t, id, r, upsert, save).0, id)
    ensures Persist(s, id, r, upsert, save).1 == Persist(t, id, r, upsert, save).1
  {
    assert Get(s.repo, id) == Get(t.repo, id);
  }

  lemma FinishHere(s: Store, t: Store, task: Task, c: Call)
    requires task.id == c.event.ID() && At(s, task.id) == At(t, task.id)
    ensures At(Finish(s, task, c).0, task.id) == At(Finish(t, task, c).0, task.id)
    ensures Finish(s, task, c).1 == Finish(t, task, c).1
  {
    if c.supported && c.reply.Some? {
      var d := Delivery(task, c.reply.value);
      assert Get(s.deliveries, task.id) == Get(t.deliveries, task.id);
      var logged, logged' := LogDelivery(s, task.id, d), LogDelivery(t, task.id, d);
      assert At(logged, task.id) == At(logged', task.id);
      PersistHere(logged, logged', task.id, c.reply.value, c.upsert, c.save);
    }
    hide Persist, LogDelivery, At;
  }

  /** A call's result and effect depend on its own task's slot only. */
  lemma VisitHere(s: Store, t: Store, c: Call)
    requires Keyed(s) && Keyed(t)
    requires At(s, c.event.ID()) == At(t, c.event.ID())
    ensures At(Visit(s, c).0, c.event.ID()) == At(Visit(t, c).0, c.event.ID())
    ensures Visit(s, c).1 == Visit(t, c).1
  {
    var id := c.event.ID();
    assert Get(s.repo, id) == Get(t.repo, id) && Get(s.statuses, id) == Get(t.statuses, id);
    if Recorded(s, id).IsBroadcast() ==> id in s.repo {
      assert LoadedTask(s, c.event) == LoadedTask(t, c.event);
      FinishHere(s, t, LoadedTask(s, c.event), c);
    }
  }

  lemma EffectElsewhere(s: Store, d: Deed, id: string)
    requires Keyed(s) && (id != d.ID() || d.LockedOut())
    ensures At(Effect(s, d), id) == At(s, id)
  {
    hide Visit, At, Forgotten;
    if d.Whole? {
      VisitElsewhere(s, d.call, id);
      ForgottenSlot(Visit(s, d.call).0, d.ID(), id);
    } else {
      ForgottenSlot(s, d.ID(), id);
    }
  }

  lemma EffectHere(s: Store, t: Store, d: Deed)
    requires Keyed(s) && Keyed(t) && At(s, d.ID()) == At(t, d.ID())
    ensures At(Effect(s, d), d.ID()) == At(Effect(t, d), d.ID())
  {
    hide Visit, At, Forgotten;
    if d.Whole? {
      VisitHere(s, t, d.call);
      ForgottenSlot(Visit(s, d.call).0, d.ID(), d.ID());
      ForgottenSlot(Visit(t, d.call).0, d.ID(), d.ID());
    } else {
      ForgottenSlot(s, d.ID(), d.ID());
      ForgottenSlot(t, d.ID(), d.ID());
    }
  }

  lemma {:induction false} SerialKeyed(deeds: seq<Deed>)
    ensures Keyed(Serial(deeds))
  {
    if deeds != [] {
      hide Visit, Keyed, Forgotten;
      var n := |deeds| - 1;
      SerialKeyed(deeds[..n]);
      var s, d := Serial(deeds[..n]), deeds[n];
      ForgottenSlot(s, d.ID(), d.ID());
      if d.Whole? {
        VisitKeepsKeyed(s, d.call);
        ForgottenSlot(Visit(s, d.call).0, d.ID(), d.ID());
      }
    } else {
      assert Keyed(EmptyStore);
    }
  }

  /** From position `from` on, no deed touches the task. */
  predicate Untouched(deeds: seq<Deed>, from: nat, id: string) {
    forall j | from <= j < |deeds| :: deeds[j].ID() == id ==> deeds[j].LockedOut()
  }

  /** Deeds that touch nothing leave the task as they found it. */
  lemma {:induction false} UntouchedStays(deeds: seq<Deed>, k: nat, id: string)
    requires k <= |deeds| && Untouched(deeds, k, id)
    ensures At(Serial(deeds), id) == At(Serial(deeds[..k]), id)
    decreases |deeds|
  {
    if k == |deeds| {
      assert deeds[..k] == deeds;
    } else {
      hide At, Effect;
      var n := |deeds| - 1;
      assert deeds[..n][..k] == deeds[..k];
      UntouchedStays(deeds[..n], k, id);
      SerialKeyed(deeds[..n]);
      EffectElsewhere(Serial(deeds[..n]), deeds[n], id);
    }
  }

  /** Changing how deed `k` went, when nobody touches its task afterwards: its task is as `d` leaves it. */
  lemma ReplaceHere(deeds: seq<Deed>, k: nat, d: Deed)
    requires k < |deeds| && Untouched(deeds, k + 1, d.ID())
    ensures At(Serial(deeds[k := d]), d.ID()) == At(Effect(Serial(deeds[..k]), d), d.ID())
  {
    var changed := deeds[k := d];
    assert changed[..k + 1][..k] == deeds[..k];
    hide At, Effect;
    UntouchedStays(changed, k + 1, d.ID());
  }

  /** Commutation: changing how a deed went changes no other task. */
  lemma {:induction false} ReplaceElsewhere(deeds: seq<Deed>, k: nat, d: Deed, id: string)
    requires k < |deeds| && d.ID() == deeds[k].ID() != id
    ensures At(Serial(deeds[k := d]), id) == At(Serial(deeds), id)
    decreases |deeds|
  {
    hide At, Effect;
    var n := |deeds| - 1;
    var short := deeds[..n];
    SerialKeyed(short);
    if k == n {
      assert deeds[k := d][..n] == short;
      EffectElsewhere(Serial(short), d, id);
      EffectElsewhere(Serial(short), deeds[n], id);
    } else {
      assert deeds[k := d][..n] == short[k := d];
      ReplaceElsewhere(short, k, d, id);
      SerialKeyed(short[k := d]);
      if id == deeds[n].ID() {
        EffectHere(Serial(short[k := d]), Serial(short), deeds[n]);
      } else {
        EffectElsewhere(Serial(short[k := d]), deeds[n], id);
        EffectElsewhere(Serial(short), deeds[n], id);
      }
    }
  }
}
