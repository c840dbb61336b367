/** How often a task can be delivered to the end, in every run, whatever fails or expires. */
module Duplication {
  import opened TaskService
  import opened TaskMachine
  import opened Locking
  import opened TaskKeys
  import opened Sums

  function TerminalWeight(): Delivery -> nat {
    (d: Delivery) => if d.response.status.Terminal() then 1 else 0
  }

  /** The terminal deliveries a task has had. */
  ghost function Terminals(s: State, id: string): nat {
    Sum(Deliveries(s.store, id), TerminalWeight())
  }

  /** A worker without lease that may still deliver to the end, or overwrite a terminal status. */
  predicate Threat(k: Worker, id: string) {
    k.ID() == id && k.expired && k.Active() && !k.Owes()
  }

  function ThreatWeight(id: string): Worker -> nat {
    (k: Worker) => if Threat(k, id) then 1 else 0
  }

  ghost function Threats(s: State, id: string): nat {
    Sum(s.workers, ThreatWeight(id))
  }

  /** The delivery that needs no excuse: the holder's, while it executes, else the recorded one. */
  function Covered(s: State, id: string): nat {
    if BeingExecuted(s, id) then
      if s.workers[s.locks[id]].Owes() then 1 else 0
    else if Recorded(s.store, id).Terminal() then 1 else 0
  }

  ghost predicate Balanced(s: State, id: string) {
    Terminals(s, id) + Threats(s, id)
    <= Covered(s, id) + s.unsaved[id] + s.expiredLeases[id] + s.expiredStatuses[id]
  }

  /** The claim about one move, for its own task: what is delivered or threatened is paid for. */
  ghost predicate Paid(s: State, w: nat, m: Move)
    requires w < |s.workers|
  {
    var s' := ActStep(s, w, m);
    var id := s.workers[w].ID();
    Terminals(s', id) + ThreatWeight(id)(s'.workers[w]) + Covered(s, id) + s.unsaved[id]
    <= Terminals(s, id) + ThreatWeight(id)(s.workers[w]) + Covered(s', id) + s'.unsaved[id]
  }

  /** Nobody but the holder of a live lease decides what is covered while it executes. */
  lemma HolderIs(s: State, w: nat)
    requires Excluded(s) && w < |s.workers|
    ensures var k := s.workers[w];
            && (k.ID() in s.locks ==> s.locks[k.ID()] < |s.workers| && !s.workers[s.locks[k.ID()]].expired)
            && (Inside(k) && !k.expired ==> k.ID() in s.locks && s.locks[k.ID()] == w)
            && (k.expired ==> k.ID() !in s.locks || s.locks[k.ID()] != w)
            && (k.pc.Start? ==> !k.expired && (k.ID() in s.locks ==> s.locks[k.ID()] != w))
  {
    assert Holds(s, w);
    assert s.workers[w].ID() in s.locks ==> Leased(s, s.workers[w].ID());
  }

  lemma OneDelivered(s: State, w: nat, m: Move)
    requires w < |s.workers| && s.workers[w].pc.Loaded? && m.Proceed? && s.workers[w].event.slug in s.handlers
    ensures var id := s.workers[w].ID();
            Terminals(ActStep(s, w, m), id) == Terminals(s, id) + if m.reply.status.Terminal() then 1 else 0
  {
    var k := s.workers[w];
    hide NextLocks, NextWorker, Sum;
    var d := Delivery(k.pc.task, m.reply);
    assert Deliveries(ActStep(s, w, m).store, k.ID()) == Deliveries(s.store, k.ID()) + [d];
    SumAppend(Deliveries(s.store, k.ID()), d, TerminalWeight());
  }

  lemma DeliveryIsPaid(s: State, w: nat, m: Move)
    requires Excluded(s) && w < |s.workers|
    requires s.workers[w].pc.Loaded? && m.Proceed? && s.workers[w].event.slug in s.handlers
    ensures Paid(s, w, m)
  {
    HolderIs(s, w);
    OneDelivered(s, w, m);
    hide Excluded, Terminals;
  }

  lemma NothingDelivered(s: State, w: nat, m: Move)
    requires w < |s.workers| && !(s.workers[w].pc.Loaded? && m.Proceed? && s.workers[w].event.slug in s.handlers)
    ensures Terminals(ActStep(s, w, m), s.workers[w].ID()) == Terminals(s, s.workers[w].ID())
  {
    hide NextLocks, NextWorker, Sum;
    assert Deliveries(ActStep(s, w, m).store, s.workers[w].ID()) == Deliveries(s.store, s.workers[w].ID());
  }

  lemma StageIsPaid(s: State, w: nat, m: Move)
    requires Excluded(s) && OneKey(s) && w < |s.workers| && m.Proceed?
    requires !(s.workers[w].pc.Loaded? && s.workers[w].event.slug in s.handlers)
    ensures Paid(s, w, m)
  {
    HolderIs(s, w);
    assert OwnTask(s.workers[w]);
    NothingDelivered(s, w, m);
    hide Excluded, OneKey, Terminals;
  }

  lemma FailureIsPaid(s: State, w: nat, m: Move)
    requires Excluded(s) && OneKey(s) && w < |s.workers| && !m.Proceed?
    ensures Paid(s, w, m)
  {
    HolderIs(s, w);
    assert OwnTask(s.workers[w]);
    NothingDelivered(s, w, m);
    hide Excluded, OneKey, Terminals;
  }

  /** Other tasks are not concerned. */
  lemma MoveElsewhere(s: State, w: nat, m: Move, id: string)
    requires Excluded(s) && OneKey(s) && w < |s.workers| && id != s.workers[w].ID()
    ensures var s' := ActStep(s, w, m);
            && Terminals(s', id) == Terminals(s, id)
            && Covered(s', id) == Covered(s, id)
            && s'.unsaved[id] == s.unsaved[id]
  {
    hide NextPc;
    assert id in s.locks ==> Leased(s, id);
  }

  lemma ActBalanced(s: State, w: nat, m: Move, id: string)
    requires Excluded(s) && OneKey(s) && Balanced(s, id) && w < |s.workers|
    ensures Balanced(ActStep(s, w, m), id)
  {
    var s' := ActStep(s, w, m);
    SumUpdate(s.workers, w, s'.workers[w], ThreatWeight(id));
    if id == s.workers[w].ID() {
      if s.workers[w].pc.Loaded? && m.Proceed? && s.workers[w].event.slug in s.handlers {
        DeliveryIsPaid(s, w, m);
      } else if !m.Proceed? {
        FailureIsPaid(s, w, m);
      } else {
        StageIsPaid(s, w, m);
      }
    } else {
      MoveElsewhere(s, w, m, id);
    }
    hide NextPc, NextStore, NextLocks, Excluded, OneKey, Covered;
  }

  /** A lease that runs out turns its holder into a threat, and is counted. */
  lemma ExpireBalanced(s: State, expiring: string, id: string)
    requires Excluded(s) && Balanced(s, id) && expiring in s.locks
    ensures s.locks[expiring] < |s.workers| && Balanced(Expire(s, expiring), id)
  {
    assert Leased(s, expiring);
    assert id in s.locks ==> Leased(s, id);
    var w := s.locks[expiring];
    SumUpdate(s.workers, w, s.workers[w].(expired := true), ThreatWeight(id));
  }

  lemma ForgetBalanced(s: State, lapsing: string, id: string)
    requires Excluded(s) && Balanced(s, id) && lapsing in s.store.statuses
    ensures Balanced(ForgetStatus(s, lapsing), id)
  {
    if BeingExecuted(s, lapsing) {
      var w := s.locks[lapsing];
      assert Leased(s, lapsing);
      SumUpdate(s.workers, w, s.workers[w].(lapsed := true), ThreatWeight(id));
    }
  }

  lemma StepBalanced(s: State, a: Action, id: string)
    requires Excluded(s) && OneKey(s) && Balanced(s, id)
    ensures Balanced(Step(s, a), id)
  {
    match a
    case Spawn(e) =>
      SumAppend(s.workers, Worker(e, Start, false, false), ThreatWeight(id));
      assert id in s.locks ==> Leased(s, id);
    case Act(w, m) =>
      if w < |s.workers| {
        ActBalanced(s, w, m, id);
      }
    case ExpireLease(expiring) =>
      if expiring in s.locks {
        ExpireBalanced(s, expiring, id);
      }
    case ExpireStatus(lapsing) =>
      if lapsing in s.store.statuses {
        ForgetBalanced(s, lapsing, id);
      }
  }

  lemma {:induction false} RunBalanced(handlers: set<string>, acts: seq<Action>, id: string)
    ensures Balanced(Run(handlers, acts), id)
  {
    if acts == [] {
      assert Balanced(Init(handlers), id);
    } else {
      hide Step, Excluded, OneKey, Balanced;
      var n := |acts| - 1;
      RunBalanced(handlers, acts[..n], id);
      RunExcluded(handlers, acts[..n]);
      RunOneKey(handlers, acts[..n]);
      StepBalanced(Run(handlers, acts[..n]), acts[n], id);
    }
  }

  /**
   Bounded duplication. In every run the terminal deliveries of a task number at most one, plus
   one for every visit that ended with an unsaved terminal answer, every lease that expired under
   an active holder and every expired terminal status.
   */
  lemma TerminalDeliveriesBounded(handlers: set<string>, acts: seq<Action>, id: string)
    ensures var s := Run(handlers, acts);
            Terminals(s, id) <= 1 + s.unsaved[id] + s.expiredLeases[id] + s.expiredStatuses[id]
  {
    hide Run;
    RunBalanced(handlers, acts, id);
  }
}
