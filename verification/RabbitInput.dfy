/**
 The input side of the RabbitMQ channel: supervised instances that open a broker channel, take
 messages and publish each with growing pauses, and restart themselves when opening fails or the
 channel closes. The WaitGroup changes exactly where the code calls Add and Done.
 */
module RabbitInput {
  import opened Sums
  import opened Runs

  datatype Proc =
    // startWithContext's goroutine: launched; startInput launched; returned
    | Launching | LaunchLeaving | LaunchOver
    // the first startInput, not counted itself: waiting for a connection; Add called; returned
    | Starter | StarterCounted | StarterOver
    // an instance: opening a channel; in its loop; with a message, before and after Add for its
    // publisher; on its way to callMeNextTime, before and after Add; about to return; returned
    | Opening | Running | Handling(msg: nat) | HandlingCounted(msg: nat)
    | Rescheduling | RescheduleCounted | Leaving | Over
    // callMeNextTime's goroutine: asleep; waiting for a connection; Add called; about to return; returned
    | Asleep | Reconnecting | ReconnectCounted | RestartLeaving | RestartOver
    // a publisher: pausing; calling the broker; failed, before and after Add for the next try; about
    // to return; returned
    | Pausing(msg: nat, tries: nat) | Calling(msg: nat, tries: nat)
    | Failed(msg: nat, tries: nat) | FailedCounted(msg: nat, tries: nat) | PublisherLeaving | PublisherOver

  /** The remaining fields after `procs` are histories, per message number; `exits` counts instances that saw `done`. */
  datatype State = State(
    maxRetryPolicy: int,
    done: bool,
    wg: int,
    taken: seq<string>,
    procs: seq<Proc>,
    exits: nat,
    calls: seq<nat>,
    successes: seq<nat>,
    drops: seq<nat>,
    slept: map<nat, nat>)

  datatype Move = Go | Open(succeeds: bool) | Closed | Take(body: string) | Exit | Publish(succeeds: bool)

  datatype Action = Act(i: nat, move: Move) | SignalDone

  function Init(numberInstants: nat, maxRetryPolicy: int): State {
    State(maxRetryPolicy, false, numberInstants, [], seq(numberInstants, _ => Launching), 0, [], [], [], map[])
  }

  /** Add before every launch; a channel without input mode gets no input instances. */
  method StartInstances(numberInstants: int, inputMode: bool, maxRetryPolicy: int) returns (s: State)
    ensures s == Init(if numberInstants < 0 || !inputMode then 0 else numberInstants, maxRetryPolicy)
  {
    s := Init(0, maxRetryPolicy);
    var i := 0;
    while i < numberInstants
      invariant 0 <= i && (numberInstants >= 0 ==> i <= numberInstants) && (numberInstants < 0 ==> i == 0)
      invariant s == Init(if inputMode then i else 0, maxRetryPolicy)
    {
      if inputMode {
        s := s.(wg := s.wg + 1);
        s := s.(procs := s.procs + [Launching]);
      }
      i := i + 1;
    }
  }

  function NextStatement(s: State, p: Proc): Proc {
    match p
    case Launching => LaunchLeaving
    case LaunchLeaving => LaunchOver
    case Starter => StarterCounted
    case StarterCounted => StarterOver
    case Handling(m) => if 0 > s.maxRetryPolicy then Running else HandlingCounted(m)
    case HandlingCounted(_) => Running
    case Rescheduling => RescheduleCounted
    case RescheduleCounted => Leaving
    case Leaving => Over
    case Asleep => Reconnecting
    case Reconnecting => ReconnectCounted
    case ReconnectCounted => RestartLeaving
    case RestartLeaving => RestartOver
    case Pausing(m, t) => Calling(m, t)
    case Failed(m, t) => if t + 1 > s.maxRetryPolicy then PublisherLeaving else FailedCounted(m, t)
    case FailedCounted(_, _) => PublisherLeaving
    case PublisherLeaving => PublisherOver
    case _ => p
  }

  function NextProc(s: State, p: Proc, m: Move): Proc {
    match m
    case Go => NextStatement(s, p)
    case Open(succeeds) => if !p.Opening? then p else if succeeds then Running else Rescheduling
    case Closed => if p.Running? then Rescheduling else p
    case Take(_) => if p.Running? then Handling(|s.taken|) else p
    case Exit => if p.Running? && s.done then Leaving else p
    case Publish(succeeds) => if !p.Calling? then p else if succeeds then PublisherLeaving else Failed(p.msg, p.tries)
  }

  function Launched(p: Proc, p': Proc): seq<Proc> {
    if p.Launching? && p'.LaunchLeaving? then [Starter]
    else if p.StarterCounted? && p'.StarterOver? then [Opening]
    else if p.HandlingCounted? && p'.Running? then [Pausing(p.msg, 0)]
    else if p.RescheduleCounted? && p'.Leaving? then [Asleep]
    else if p.ReconnectCounted? && p'.RestartLeaving? then [Opening]
    else if p.FailedCounted? && p'.PublisherLeaving? then [Pausing(p.msg, p.tries + 1)]
    else []
  }

  /** Calls of Add and Done made by the move to `p'`. */
  function WgChange(p: Proc, p': Proc): int {
    if p' == p then 0
    else if p'.StarterCounted? || p'.HandlingCounted? || p'.RescheduleCounted? then 1
    else if p'.ReconnectCounted? || p'.FailedCounted? then 1
    else if p'.LaunchOver? || p'.Over? || p'.RestartOver? || p'.PublisherOver? then -1
    else 0
  }

  /** publishToRabbitmq returns without a publisher: too many tries. */
  predicate Drops(p: Proc, p': Proc) {
    (p.Handling? && p'.Running?) || (p.Failed? && p'.PublisherLeaving?)
  }

  function Slept(s: State, m: nat): nat {
    if m in s.slept then s.slept[m] else 0
  }

  function ActStep(s: State, i: nat, m: Move): State
    requires i < |s.procs|
  {
    var p := s.procs[i];
    var p' := NextProc(s, p, m);
    State(s.maxRetryPolicy,
          s.done,
          s.wg + WgChange(p, p'),
          if p.Running? && p'.Handling? && m.Take? then s.taken + [m.body] else s.taken,
          s.procs[i := p'] + Launched(p, p'),
          if p.Running? && p'.Leaving? then s.exits + 1 else s.exits,
          if p.Calling? && p' != p then s.calls + [p.msg] else s.calls,
          if p.Calling? && p'.PublisherLeaving? then s.successes + [p.msg] else s.successes,
          if Drops(p, p') then s.drops + [p.msg] else s.drops,
          if p.Pausing? && p'.Calling? then s.slept[p.msg := Slept(s, p.msg) + p.tries * 2] else s.slept)
  }

  function Step(s: State, a: Action): State {
    match a
    case Act(i, m) => if i < |s.procs| then ActStep(s, i, m) else s
    case SignalDone => s.(done := true)
  }

  function RunFrom(s: State, acts: seq<Action>): State {
    Fold(Step, s, acts)
  }

  function Run(numberInstants: nat, maxRetryPolicy: int, acts: seq<Action>): State {
    RunFrom(Init(numberInstants, maxRetryPolicy), acts)
  }

  // Counting goroutines.

  function Weight(): Proc -> nat {
    (p: Proc) =>
      if p.HandlingCounted? || p.RescheduleCounted? || p.ReconnectCounted? || p.FailedCounted? then 2
      else if p.LaunchOver? || p.Starter? || p.StarterOver? || p.Over? || p.RestartOver? || p.PublisherOver? then 0
      else 1
  }

  /** What an instance is doing, and NoInstance for goroutines that are none at the moment. */
  datatype Role = IsStarting | IsRunning | IsScheduled | NoInstance

  function RoleOf(p: Proc): Role {
    match p
    case Launching => IsStarting
    case Starter => IsStarting
    case StarterCounted => IsStarting
    case Opening => IsStarting
    case Running => IsRunning
    case Handling(_) => IsRunning
    case HandlingCounted(_) => IsRunning
    case Rescheduling => IsScheduled
    case RescheduleCounted => IsScheduled
    case Asleep => IsScheduled
    case Reconnecting => IsScheduled
    case ReconnectCounted => IsScheduled
    case _ => NoInstance
  }

  /** The goroutine is, at the moment, one of the channel's instances. */
  function Instance(): Proc -> nat {
    (p: Proc) => if RoleOf(p).NoInstance? then 0 else 1
  }

  predicate Holding(p: Proc) {
    p.Handling? || p.HandlingCounted? || p.Pausing? || p.Calling? || p.Failed? || p.FailedCounted?
  }

  function Holds(): Proc -> nat {
    (p: Proc) => if Holding(p) then 1 else 0
  }

  function HoldsMsg(m: nat): Proc -> nat {
    (p: Proc) => if Holding(p) && p.msg == m then 1 else 0
  }

  // What every step keeps.

  ghost predicate Exact(s: State, numberInstants: nat) {
    && s.wg == Sum(s.procs, Weight())
    && Sum(s.procs, Instance()) + s.exits == numberInstants
    && (s.exits > 0 ==> s.done)
    && Sum(s.procs, Holds()) + |s.successes| + |s.drops| == |s.taken|
  }

  ghost predicate HeldOnce(s: State, m: nat) {
    Sum(s.procs, HoldsMsg(m)) + Times(s.successes, m) + Times(s.drops, m) == if m < |s.taken| then 1 else 0
  }

  lemma StatementIsCounted(s: State, p: Proc)
    ensures var p' := NextStatement(s, p);
            Gain(p, p', Launched(p, p'), Weight()) == WgChange(p, p')
  {
  }

  lemma GainIsWgChange(s: State, p: Proc, m: Move)
    ensures var p' := NextProc(s, p, m);
            Gain(p, p', Launched(p, p'), Weight()) == WgChange(p, p')
  {
    StatementIsCounted(s, p);
    hide NextStatement;
  }

  lemma StatementKeepsInstance(s: State, p: Proc)
    ensures var p' := NextStatement(s, p);
            Gain(p, p', Launched(p, p'), Instance()) == 0 && !(p.Running? && p'.Leaving?)
  {
  }

  lemma EventKeepsInstance(s: State, p: Proc, m: Move)
    requires !m.Go?
    ensures var p' := NextProc(s, p, m);
            && Gain(p, p', Launched(p, p'), Instance()) == (if p.Running? && p'.Leaving? then -1 else 0)
            && (p.Running? && p'.Leaving? ==> s.done)
  {
    var p' := NextProc(s, p, m);
    hide NextStatement;
    assert Launched(p, p') == [];
    hide Launched;
  }

  lemma GainOfInstance(s: State, p: Proc, m: Move)
    ensures var p' := NextProc(s, p, m);
            && Gain(p, p', Launched(p, p'), Instance()) == (if p.Running? && p'.Leaving? then -1 else 0)
            && (p.Running? && p'.Leaving? ==> s.done)
  {
    if m.Go? {
      StatementKeepsInstance(s, p);
    } else {
      EventKeepsInstance(s, p, m);
    }
    hide NextStatement, Gain;
  }

  /** A message changes hands, except when it is taken, published or dropped. */
  ghost predicate HandsOn(s: State, p: Proc, p': Proc, m: Move, msg: nat) {
    var takes := p.Running? && p'.Handling? && m.Take?;
    var resolves := (p.Calling? && p'.PublisherLeaving?) || Drops(p, p');
    && Gain(p, p', Launched(p, p'), Holds()) == (if takes then 1 else if resolves then -1 else 0)
    && Gain(p, p', Launched(p, p'), HoldsMsg(msg)) ==
       (if takes && msg == |s.taken| then 1 else if resolves && p.msg == msg then -1 else 0)
  }

  lemma StatementHandsOn(s: State, p: Proc, msg: nat)
    ensures HandsOn(s, p, NextStatement(s, p), Go, msg)
  {
  }

  lemma GainOfHolding(s: State, p: Proc, m: Move, msg: nat)
    ensures HandsOn(s, p, NextProc(s, p, m), m, msg)
  {
    StatementHandsOn(s, p, msg);
    hide NextStatement;
  }

  lemma ActExact(s: State, i: nat, m: Move, numberInstants: nat)
    requires Exact(s, numberInstants) && i < |s.procs|
    ensures Exact(ActStep(s, i, m), numberInstants)
  {
    var p, p' := s.procs[i], NextProc(s, s.procs[i], m);
    SumMove(s.procs, i, p', Launched(p, p'), Weight());
    SumMove(s.procs, i, p', Launched(p, p'), Instance());
    SumMove(s.procs, i, p', Launched(p, p'), Holds());
    GainIsWgChange(s, p, m);
    GainOfInstance(s, p, m);
    GainOfHolding(s, p, m, 0);
    hide NextProc, Gain, WgChange, Launched, Weight, Instance, Holds;
  }

  lemma ActHeldOnce(s: State, i: nat, m: Move, msg: nat)
    requires HeldOnce(s, msg) && i < |s.procs|
    ensures HeldOnce(ActStep(s, i, m), msg)
  {
    var p, p' := s.procs[i], NextProc(s, s.procs[i], m);
    SumMove(s.procs, i, p', Launched(p, p'), HoldsMsg(msg));
    GainOfHolding(s, p, m, msg);
    hide NextProc, Gain, WgChange, Launched, HoldsMsg;
  }

  lemma {:induction false} SumOfLaunchers(n: nat, max: int, weight: Proc -> nat, w: nat)
    requires weight(Launching) == w
    ensures Sum(Init(n, max).procs, weight) == n * w
  {
    if n > 0 {
      assert Init(n, max).procs[..n - 1] == Init(n - 1, max).procs;
      SumOfLaunchers(n - 1, max, weight, w);
    }
  }

  lemma StepKeeps(s: State, a: Action, n: nat, m: nat)
    requires Exact(s, n) && HeldOnce(s, m)
    ensures Exact(Step(s, a), n) && HeldOnce(Step(s, a), m)
  {
    if a.Act? && a.i < |s.procs| {
      ActExact(s, a.i, a.move, n);
      ActHeldOnce(s, a.i, a.move, m);
      hide ActStep, Exact, HeldOnce;
    }
  }

  lemma {:induction false} RunKeeps(n: nat, max: int, acts: seq<Action>, m: nat)
    ensures Exact(Run(n, max, acts), n) && HeldOnce(Run(n, max, acts), m)
  {
    if acts == [] {
      SumOfLaunchers(n, max, Weight(), 1);
      SumOfLaunchers(n, max, Instance(), 1);
      SumOfLaunchers(n, max, Holds(), 0);
      SumOfLaunchers(n, max, HoldsMsg(m), 0);
    } else {
      hide Step, Exact, HeldOnce;
      RunKeeps(n, max, acts[..|acts| - 1], m);
      StepKeeps(Run(n, max, acts[..|acts| - 1]), acts[|acts| - 1], n, m);
    }
  }

  /**
   Supervision: until `done` is signalled, and through any open errors and channel closes, exactly
   `numberInstants` goroutines are instances, each of them starting, running or scheduled for a
   restart; afterwards only instances that saw `done` are gone.
   */
  lemma InstancesAreSupervised(numberInstants: nat, max: int, acts: seq<Action>)
    ensures var s := Run(numberInstants, max, acts);
            && (!s.done ==> Sum(s.procs, Instance()) == numberInstants)
            && Sum(s.procs, Instance()) + s.exits == numberInstants
  {
    RunKeeps(numberInstants, max, acts, 0);
    hide Run;
  }

  function Uncounted(): Proc -> nat {
    (p: Proc) => if p.Starter? then 1 else 0
  }

  lemma {:induction false} InstancesWeigh(procs: seq<Proc>)
    ensures Sum(procs, Instance()) <= Sum(procs, Weight()) + Sum(procs, Uncounted())
  {
    if procs != [] {
      InstancesWeigh(procs[..|procs| - 1]);
    }
  }

  /** The WaitGroup covers every instance but those still in their first, uncounted, wait for a connection. */
  lemma WaitGroupCoversInstances(numberInstants: nat, max: int, acts: seq<Action>)
    ensures var s := Run(numberInstants, max, acts);
            s.wg >= numberInstants - s.exits - Sum(s.procs, Uncounted())
  {
    RunKeeps(numberInstants, max, acts, 0);
    InstancesWeigh(Run(numberInstants, max, acts).procs);
    hide Run, Weight, Instance, Uncounted, Holds;
  }

  predicate Returned(p: Proc) {
    p.LaunchOver? || p.StarterOver? || p.Over? || p.RestartOver? || p.PublisherOver?
  }

  lemma UncountedAreInstances(procs: seq<Proc>)
    requires forall p <- procs :: p.Starter? || Returned(p)
    ensures Sum(procs, Uncounted()) == Sum(procs, Instance())
  {
    forall p <- procs ensures Uncounted()(p) == Instance()(p) {
    }
    SumMonotone(procs, Uncounted(), Instance());
    SumMonotone(procs, Instance(), Uncounted());
  }

  /**
   When a shutdown that waits for the WaitGroup goes through: it is at zero if and only if every
   goroutine has returned or is in its first, uncounted, wait for a connection. Then every message
   taken is published or dropped, and the live instances are exactly those first waits.
   */
  lemma WaitGroupZeroExactlyWhen(numberInstants: nat, max: int, acts: seq<Action>)
    ensures var s := Run(numberInstants, max, acts);
            && (s.wg == 0 <==> forall p <- s.procs :: p.Starter? || Returned(p))
            && (s.wg == 0 ==> Sum(s.procs, Uncounted()) + s.exits == numberInstants)
            && (s.wg == 0 ==> |s.successes| + |s.drops| == |s.taken|)
  {
    var s := Run(numberInstants, max, acts);
    RunKeeps(numberInstants, max, acts, 0);
    WaitGroupCoversMessages(numberInstants, max, acts);
    hide Run;
    SumZeroExactlyWhen(s.procs, Weight());
    assert forall p :: Weight()(p) == 0 <==> p.Starter? || Returned(p);
    if s.wg == 0 {
      UncountedAreInstances(s.procs);
    }
  }

  /** And not those: with one instance the WaitGroup is at zero while that instance waits to start. */
  lemma FirstStartIsNotCovered(max: int) returns (acts: seq<Action>)
    ensures var s := Run(1, max, acts);
            s.wg == 0 && s.exits == 0 && s.procs == [LaunchOver, Starter]
  {
    var first := [Act(0, Go)];
    acts := first + [Act(0, Go)];
    FoldOneMore(Step, Init(1, max), first, Act(0, Go));
    FoldOneMore(Step, Init(1, max), [], Act(0, Go));
    assert [] + first == first;
    var s1 := Run(1, max, first);
    assert s1 == Step(Init(1, max), Act(0, Go)) && s1.procs == [LaunchLeaving, Starter];
  }

  lemma HoldersAreCounted(procs: seq<Proc>)
    ensures Sum(procs, Holds()) <= Sum(procs, Weight())
  {
    forall p <- procs ensures Holds()(p) <= Weight()(p) {
    }
    SumMonotone(procs, Holds(), Weight());
  }

  /** The WaitGroup is never negative and covers every message not yet published or dropped. */
  lemma WaitGroupCoversMessages(numberInstants: nat, max: int, acts: seq<Action>)
    ensures var s := Run(numberInstants, max, acts);
            0 <= |s.taken| - |s.successes| - |s.drops| <= s.wg
  {
    RunKeeps(numberInstants, max, acts, 0);
    HoldersAreCounted(Run(numberInstants, max, acts).procs);
    hide Run, Weight, Holds;
  }

  // The tries of one message.

  /** Tries made and seconds slept so far, read off the goroutine that has the message. */
  predicate OnSchedule(p: Proc, max: int, calls: nat, slept: nat)
    requires Holding(p)
  {
    match p
    case Handling(_) => calls == 0 && slept == 0
    case HandlingCounted(_) => calls == 0 && slept == 0 && 0 <= max
    case Pausing(_, t) => calls == t && slept == t * t - t && t <= max
    case Calling(_, t) => calls == t && slept == t * t + t && t <= max
    case Failed(_, t) => calls == t + 1 && slept == t * t + t && t <= max
    case FailedCounted(_, t) => calls == t + 1 && slept == t * t + t && t + 1 <= max
  }

  predicate HoldsAt(s: State, i: int, m: nat) {
    0 <= i < |s.procs| && Holding(s.procs[i]) && s.procs[i].msg == m
  }

  ghost predicate TriesExact(s: State, m: nat) {
    var calls := Times(s.calls, m);
    && (forall i | HoldsAt(s, i, m) :: OnSchedule(s.procs[i], s.maxRetryPolicy, calls, Slept(s, m)))
    && (m in s.successes ==> 1 <= calls <= s.maxRetryPolicy + 1)
    && (m in s.drops ==> calls == if s.maxRetryPolicy < 0 then 0 else s.maxRetryPolicy + 1)
    && (m >= |s.taken| ==> calls == 0 && Slept(s, m) == 0)
  }

  lemma OnlyHolder(s: State, m: nat, i: nat, j: nat)
    requires HeldOnce(s, m) && HoldsAt(s, i, m) && HoldsAt(s, j, m)
    ensures i == j && m < |s.taken| && m !in s.successes && m !in s.drops
  {
    SumAtLeast(s.procs, i, HoldsMsg(m));
    OnlyOne(s.procs, i, j, HoldsMsg(m));
  }

  /** Calls made and seconds slept for its message by a goroutine's move. */
  function CallsMade(p: Proc, p': Proc): nat {
    if p.Calling? && p' != p then 1 else 0
  }

  function SecondsSlept(p: Proc, p': Proc): nat {
    if p.Pausing? && p'.Calling? then p.tries * 2 else 0
  }

  lemma ScheduleKept(s: State, p: Proc, move: Move, calls: nat, slept: nat)
    requires Holding(p) && OnSchedule(p, s.maxRetryPolicy, calls, slept)
    ensures var p' := NextProc(s, p, move);
            var calls', slept' := calls + CallsMade(p, p'), slept + SecondsSlept(p, p');
            && (Holding(p') ==> OnSchedule(p', s.maxRetryPolicy, calls', slept'))
            && (forall q <- Launched(p, p') | Holding(q) :: OnSchedule(q, s.maxRetryPolicy, calls', slept'))
            && (p.Calling? && p'.PublisherLeaving? ==> 1 <= calls' <= s.maxRetryPolicy + 1)
            && (Drops(p, p') ==> calls' == if s.maxRetryPolicy < 0 then 0 else s.maxRetryPolicy + 1)
  {
  }

  /** A message's own goroutine moves: the schedule is kept, by it or by the one it launches. */
  lemma OwnMove(s: State, i: nat, move: Move, m: nat)
    requires HeldOnce(s, m) && TriesExact(s, m) && HoldsAt(s, i, m)
    ensures TriesExact(ActStep(s, i, move), m)
  {
    OnlyHolder(s, m, i, i);
    var s' := ActStep(s, i, move);
    var p, p' := s.procs[i], NextProc(s, s.procs[i], move);
    ScheduleKept(s, p, move, Times(s.calls, m), Slept(s, m));
    hide NextProc, Launched, OnSchedule, WgChange, Holding;
    assert Times(s'.calls, m) == Times(s.calls, m) + CallsMade(p, p');
    assert Slept(s', m) == Slept(s, m) + SecondsSlept(p, p');
    forall j | HoldsAt(s', j, m) ensures OnSchedule(s'.procs[j], s'.maxRetryPolicy, Times(s'.calls, m), Slept(s', m)) {
      if j != i && j < |s.procs| {
        OnlyHolder(s, m, i, j);
      }
    }
  }

  /** A goroutine without the message gets it only by taking it, and launches nobody with it. */
  lemma NoOneElse(s: State, p: Proc, move: Move, m: nat)
    requires !(Holding(p) && p.msg == m)
    ensures var p' := NextProc(s, p, move);
            && (Holding(p') && p'.msg == m ==> p' == Handling(m) && m == |s.taken|)
            && (forall q <- Launched(p, p') | Holding(q) :: q.msg != m)
            && (p.Calling? && p'.PublisherLeaving? ==> p.msg != m)
            && (Drops(p, p') ==> p.msg != m)
  {
  }

  /** Somebody else moves: nothing changes for the message, unless it is just being taken. */
  lemma OtherMove(s: State, i: nat, move: Move, m: nat)
    requires HeldOnce(s, m) && TriesExact(s, m) && i < |s.procs| && !HoldsAt(s, i, m)
    ensures TriesExact(ActStep(s, i, move), m)
  {
    var s' := ActStep(s, i, move);
    NoOneElse(s, s.procs[i], move, m);
    hide NextProc, Launched, WgChange, HeldOnce;
    assert Times(s'.calls, m) == Times(s.calls, m) && Slept(s', m) == Slept(s, m);
    forall j | HoldsAt(s', j, m) ensures OnSchedule(s'.procs[j], s'.maxRetryPolicy, Times(s'.calls, m), Slept(s', m)) {
      if j < |s.procs| && j != i {
        assert HoldsAt(s, j, m);
      }
    }
  }

  lemma StepTries(s: State, a: Action, m: nat)
    requires HeldOnce(s, m) && TriesExact(s, m)
    ensures TriesExact(Step(s, a), m) && Step(s, a).maxRetryPolicy == s.maxRetryPolicy
  {
    if a.Act? && a.i < |s.procs| {
      if HoldsAt(s, a.i, m) {
        OwnMove(s, a.i, a.move, m);
      } else {
        OtherMove(s, a.i, a.move, m);
      }
      hide TriesExact, NextProc;
    } else if a.SignalDone? {
      forall i | HoldsAt(Step(s, a), i, m) ensures HoldsAt(s, i, m) {
      }
    }
  }

  lemma {:induction false} RunTries(n: nat, max: int, acts: seq<Action>, m: nat)
    ensures TriesExact(Run(n, max, acts), m)
    ensures Run(n, max, acts).maxRetryPolicy == max
  {
    if acts == [] {
      assert TriesExact(Init(n, max), m);
    } else {
      hide Step, TriesExact, HeldOnce;
      RunTries(n, max, acts[..|acts| - 1], m);
      RunKeeps(n, max, acts[..|acts| - 1], m);
      StepTries(Run(n, max, acts[..|acts| - 1]), acts[|acts| - 1], m);
    }
  }

  /**
   Publish retry, in every run and for every message: it is published once, dropped, or still with
   one goroutine, never two of these; it is dropped if and only if all of `max` + 1 calls failed (no
   call, for a negative `max`) and nobody has it any more; there are never more calls than that; and
   who has it after the last call has just seen it fail.
   */
  lemma PublishRetries(n: nat, max: int, acts: seq<Action>, m: nat)
    requires m < |Run(n, max, acts).taken|
    ensures var s := Run(n, max, acts);
            var limit := if max < 0 then 0 else max + 1;
            && Times(s.successes, m) + Times(s.drops, m) <= 1
            && (m in s.drops <==>
                  m !in s.successes && Times(s.calls, m) == limit && !(exists i :: HoldsAt(s, i, m)))
            && (m in s.successes ==> 1 <= Times(s.calls, m) <= limit)
            && (m !in s.drops && m !in s.successes ==> Times(s.calls, m) <= limit && exists i :: HoldsAt(s, i, m))
            && (forall i | HoldsAt(s, i, m) && max >= 0 ::
                  Times(s.calls, m) == max + 1 <==> s.procs[i] == Failed(m, max))
  {
    RunKeeps(n, max, acts, m);
    RunTries(n, max, acts, m);
    var s := Run(n, max, acts);
    hide Run, Exact;
    forall i | HoldsAt(s, i, m)
      ensures m !in s.drops && (max >= 0 ==> (Times(s.calls, m) == max + 1 <==> s.procs[i] == Failed(m, max)))
    {
      OnlyHolder(s, m, i, i);
      assert OnSchedule(s.procs[i], max, Times(s.calls, m), Slept(s, m));
    }
    if m !in s.drops && m !in s.successes {
      var i := SumWitness(s.procs, HoldsMsg(m));
      assert HoldsAt(s, i, m);
    }
  }

  lemma CallingSchedule(s: State, i: nat, m: nat)
    requires HeldOnce(s, m) && TriesExact(s, m) && HoldsAt(s, i, m) && s.procs[i].Calling?
    ensures var t := s.procs[i].tries;
            Times(s.calls, m) == t && m !in s.successes && m !in s.drops && Slept(s, m) == t * (t + 1)
  {
    OnlyHolder(s, m, i, i);
    assert OnSchedule(s.procs[i], s.maxRetryPolicy, Times(s.calls, m), Slept(s, m));
    hide HeldOnce, TriesExact, Times, Slept;
  }

  /** The call number t of a message, counted from 0, comes after t failed calls and t * (t + 1) seconds of pauses. */
  lemma BackoffIsExact(n: nat, max: int, acts: seq<Action>, i: nat)
    requires i < |Run(n, max, acts).procs| && Run(n, max, acts).procs[i].Calling?
    ensures var s := Run(n, max, acts);
            var Calling(m, t) := s.procs[i];
            Times(s.calls, m) == t && m !in s.successes && m !in s.drops && Slept(s, m) == t * (t + 1)
  {
    hide Run, Exact, HeldOnce, TriesExact, Times, Slept;
    var s := Run(n, max, acts);
    var m := s.procs[i].msg;
    RunKeeps(n, max, acts, m);
    RunTries(n, max, acts, m);
    CallingSchedule(s, i, m);
  }
}
