/** The manager's workers on the in-process channel: they create, and acknowledge what they created. */
module ManagerWorker {
  import opened SimpleChannel
  import opened SimpleChannelProperties
  import opened Sums
  import opened Runs

  ghost predicate Managed(s: State) {
    forall i | 0 <= i < |s.procs| && IsReader(s.procs[i]) :: s.procs[i].manager
  }

  lemma StepManaged(s: State, a: Action)
    requires Managed(s) && (a.StartReader? ==> a.manager)
    ensures Managed(Step(s, a))
  {
    if a.Act? && a.i < |s.procs| {
      NextOfAttempt(s, a.i, s.procs[a.i], a.move);
      hide NextProc, WgChange, NextOutput;
    }
  }

  /** Creations of a message: acknowledged ones and those of workers on their way to acknowledge. */
  ghost predicate CreationsExact(s: State, m: nat) {
    Times(s.creates, m) == Times(s.acks, m) + Sum(s.procs, Pending(m))
  }

  lemma GainOfPending(s: State, i: nat, p: Proc, move: Move, m: nat)
    requires IsReader(p) ==> p.manager
    ensures var p' := NextProc(s, p, move);
            Gain(p, p', Launched(i, p, p'), Pending(m)) == if p.Got? && p'.Created? && p.copy.msg == m then 1 else 0
  {
  }

  lemma ActCreations(s: State, i: nat, move: Move, m: nat)
    requires Managed(s) && CreationsExact(s, m) && i < |s.procs|
    ensures CreationsExact(ActStep(s, i, move), m)
  {
    var p, p' := s.procs[i], NextProc(s, s.procs[i], move);
    SumMove(s.procs, i, p', Launched(i, p, p'), Pending(m));
    GainOfPending(s, i, p, move, m);
    hide NextProc, Gain, WgChange, Launched, Pending;
  }

  lemma MeetCreations(s: State, r: nat, at: nat, m: nat)
    requires Coherent(s) && CreationsExact(s, m) && CanMeet(s, r, at)
    ensures CreationsExact(MeetStep(s, r, at), m)
  {
    assert Genuine(s.procs, s.procs[r].copy);
    hide Coherent;
    SumMeet(s.procs, r, Idle(s.procs[r].manager), at, Acknowledged(s.procs[at].msg), Pending(m));
  }

  lemma QuietCreations(s: State, s': State, m: nat)
    requires CreationsExact(s, m) && s'.acks == s.acks && s'.creates == s.creates
    requires s'.procs == s.procs || exists manager :: s'.procs == s.procs + [Idle(manager)]
    ensures CreationsExact(s', m)
  {
    if s'.procs != s.procs {
      var manager :| s'.procs == s.procs + [Idle(manager)];
      SumAppend(s.procs, Idle(manager), Pending(m));
    }
  }

  lemma StepCreations(s: State, a: Action, m: nat)
    requires Coherent(s) && Managed(s) && CreationsExact(s, m)
    ensures CreationsExact(Step(s, a), m)
  {
    hide ActStep, MeetStep, CreationsExact, Coherent, Managed;
    match a
    case Act(i, move) =>
      if i < |s.procs| {
        ActCreations(s, i, move, m);
      }
    case Meet(r, at) =>
      if CanMeet(s, r, at) {
        MeetCreations(s, r, at, m);
      }
    case StartReader(_) => QuietCreations(s, Step(s, a), m);
    case SignalDone => QuietCreations(s, Step(s, a), m);
  }

  predicate OnlyManagers(acts: seq<Action>) {
    forall a <- acts | a.StartReader? :: a.manager
  }

  lemma {:induction false} RunCreations(n: nat, acts: seq<Action>, m: nat)
    requires OnlyManagers(acts)
    ensures Managed(Run(n, acts)) && CreationsExact(Run(n, acts), m)
  {
    if acts == [] {
      SumOfConsumers(n, Pending(m), 0);
    } else {
      var k := |acts| - 1;
      assert forall a <- acts[..k] :: a in acts;
      assert acts[k] in acts;
      assert Run(n, acts) == Step(Run(n, acts[..k]), acts[k]);
      hide Run, Step, Coherent, Managed, CreationsExact;
      RunCreations(n, acts[..k], m);
      RunCoherent(n, acts[..k]);
      StepManaged(Run(n, acts[..k]), acts[k]);
      StepCreations(Run(n, acts[..k]), acts[k], m);
    }
  }

  // Creations are the successes the workers were told of.

  /** A manager worker with a copy of this message is told how its creation went. */
  function Told(msg: nat, succeeds: bool): (State, Action) -> bool {
    (s: State, a: Action) =>
      && a.Act? && a.i < |s.procs| && s.procs[a.i].Got? && s.procs[a.i].manager
      && s.procs[a.i].copy.msg == msg && a.move == Create(succeeds)
  }

  function ToldIn(n: nat, acts: seq<Action>, msg: nat, succeeds: bool): nat {
    CountSteps(Step, Init(n), acts, Told(msg, succeeds))
  }

  lemma StepCreates(s: State, a: Action, m: nat)
    ensures Times(Step(s, a).creates, m) == Times(s.creates, m) + if Told(m, true)(s, a) then 1 else 0
  {
    hide Launched, WgChange, NextOutput;
  }

  /** In every run, the creations of a message are the steps in which a worker was told of a success. */
  lemma CreatesAreSuccesses(n: nat, acts: seq<Action>, m: nat)
    ensures Times(Run(n, acts).creates, m) == ToldIn(n, acts, m, true)
  {
    forall s, a ensures Times(Step(s, a).creates, m) == Times(s.creates, m) + if Told(m, true)(s, a) then 1 else 0 {
      StepCreates(s, a, m);
    }
    hide Step, Told;
    MeasureCounts(Step, Init(n), acts, (s: State) => Times(s.creates, m), Told(m, true));
  }

  /**
   Acknowledged work was done: with manager workers reading, under any redelivery, the
   acknowledgements of a message are at most the successful creations that workers were told of in
   the run; so an acknowledged one was created.
   */
  lemma AckImpliesCreated(n: nat, acts: seq<Action>, m: nat)
    requires OnlyManagers(acts)
    ensures Times(Run(n, acts).acks, m) <= Times(Run(n, acts).creates, m) == ToldIn(n, acts, m, true)
    ensures m in Run(n, acts).acks ==> m in Run(n, acts).creates && ToldIn(n, acts, m, true) > 0
  {
    RunCreations(n, acts, m);
    CreatesAreSuccesses(n, acts, m);
    hide Run, ToldIn;
  }

  /** A failed creation: the worker reads on, and nothing is acknowledged or counted. */
  lemma FailedCreateChangesNothing(s: State, i: nat)
    requires i < |s.procs| && s.procs[i].Got? && s.procs[i].manager
    ensures Step(s, Act(i, Create(false))) == s.(procs := s.procs[i := Idle(true)])
  {
    assert s.procs[i := Idle(true)] + [] == s.procs[i := Idle(true)];
  }

  /**
   And it stays so: a message that is not acknowledged, and that no worker has created and is about
   to acknowledge, is not acknowledged in any continuation in which no worker is told of a success.
   */
  lemma NoSuccessNoAck(n: nat, acts: seq<Action>, more: seq<Action>, m: nat)
    requires OnlyManagers(acts + more) && m !in Run(n, acts).acks && Sum(Run(n, acts).procs, Pending(m)) == 0
    requires ToldIn(n, acts + more, m, true) == ToldIn(n, acts, m, true)
    ensures m !in Run(n, acts + more).acks
  {
    assert forall a <- acts :: a in acts + more;
    RunCreations(n, acts, m);
    RunCreations(n, acts + more, m);
    CreatesAreSuccesses(n, acts, m);
    CreatesAreSuccesses(n, acts + more, m);
    hide Run, ToldIn;
  }
}
