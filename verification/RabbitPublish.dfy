/** What the broker answered in a run of the input side, and runs that publish, retry, drop and restart. */
module RabbitPublish {
  import opened Sums
  import opened Runs
  import opened RabbitInput

  // What the broker answered.

  /** The broker answers a call for this message. */
  function Answers(msg: nat, succeeds: bool): (State, Action) -> bool {
    (s: State, a: Action) =>
      a.Act? && a.i < |s.procs| && s.procs[a.i].Calling? && s.procs[a.i].msg == msg && a.move == Publish(succeeds)
  }

  function AnswersIn(n: nat, max: int, acts: seq<Action>, msg: nat, succeeds: bool): nat {
    CountSteps(Step, Init(n, max), acts, Answers(msg, succeeds))
  }

  lemma StepAnswers(s: State, a: Action, m: nat)
    ensures var s' := Step(s, a);
            && Times(s'.successes, m) == Times(s.successes, m) + (if Answers(m, true)(s, a) then 1 else 0)
            && Times(s'.calls, m) - Times(s'.successes, m) ==
               Times(s.calls, m) - Times(s.successes, m) + (if Answers(m, false)(s, a) then 1 else 0)
  {
    hide Launched, WgChange;
  }

  /**
   The histories are the broker's answers: in every run, the successes of a message are the calls
   the broker accepted, and its other calls are those the broker refused.
   */
  lemma CallsAreAnswers(n: nat, max: int, acts: seq<Action>, m: nat)
    ensures var s := Run(n, max, acts);
            && Times(s.successes, m) == AnswersIn(n, max, acts, m, true)
            && Times(s.calls, m) == AnswersIn(n, max, acts, m, true) + AnswersIn(n, max, acts, m, false)
  {
    forall s, a
      ensures var s' := Step(s, a);
              && Times(s'.successes, m) == Times(s.successes, m) + (if Answers(m, true)(s, a) then 1 else 0)
              && Times(s'.calls, m) - Times(s'.successes, m) ==
                 Times(s.calls, m) - Times(s.successes, m) + (if Answers(m, false)(s, a) then 1 else 0)
    {
      StepAnswers(s, a, m);
    }
    hide Step, Answers;
    var init := Init(n, max);
    MeasureCounts(Step, init, acts, (s: State) => Times(s.successes, m), Answers(m, true));
    MeasureCounts(Step, init, acts, (s: State) => Times(s.calls, m) - Times(s.successes, m), Answers(m, false));
  }

  /** Dropped is refused: as often as the policy allows, and never accepted. */
  lemma DroppedIsRefused(n: nat, max: int, acts: seq<Action>, m: nat)
    requires m < |Run(n, max, acts).taken|
    ensures var s := Run(n, max, acts);
            && (m in s.drops ==>
                  && AnswersIn(n, max, acts, m, true) == 0
                  && AnswersIn(n, max, acts, m, false) == if max < 0 then 0 else max + 1)
            && (m in s.successes <==> AnswersIn(n, max, acts, m, true) == 1)
            && AnswersIn(n, max, acts, m, true) <= 1
  {
    hide Run, AnswersIn;
    CallsAreAnswers(n, max, acts, m);
    PublishRetries(n, max, acts, m);
  }

  lemma OneMore(s: State, acts: seq<Action>, a: Action) returns (acts': seq<Action>)
    ensures acts' == acts + [a] && RunFrom(s, acts') == Step(RunFrom(s, acts), a)
  {
    hide Step;
    acts' := acts + [a];
    FoldOneMore(Step, s, acts, a);
  }

  /**
   A refused call before the last: the message stays with its goroutine, and some continuation
   makes the next call, after 2 * (t + 1) more seconds.
   */
  lemma RefusedIsRetried(s: State, i: nat) returns (more: seq<Action>)
    requires i < |s.procs| && s.procs[i].Calling? && s.procs[i].tries < s.maxRetryPolicy
    ensures var Calling(m, t) := s.procs[i];
            var refused, later := Step(s, Act(i, Publish(false))), RunFrom(s, [Act(i, Publish(false))] + more);
            && HoldsAt(refused, i, m) && refused.calls == s.calls + [m]
            && |later.procs| == |s.procs| + 1 && later.procs[|s.procs|] == Calling(m, t + 1)
            && later.procs[i] == PublisherLeaving
            && later.taken == s.taken && later.calls == s.calls + [m]
            && later.successes == s.successes && later.drops == s.drops
            && Slept(later, m) == Slept(s, m) + 2 * (t + 1)
            && later.maxRetryPolicy == s.maxRetryPolicy
  {
    Unmoved(s);
    hide RunFrom;
    var Calling(m, t) := s.procs[i];
    var acts := OneMore(s, [], Act(i, Publish(false)));
    acts := OneMore(s, acts, Act(i, Go));
    assert RunFrom(s, acts).procs[i] == FailedCounted(m, t);
    acts := OneMore(s, acts, Act(i, Go));
    assert RunFrom(s, acts).procs[|s.procs|] == Pausing(m, t + 1);
    acts := OneMore(s, acts, Act(|s.procs|, Go));
    more := [Act(i, Go), Act(i, Go), Act(|s.procs|, Go)];
    assert acts == [Act(i, Publish(false))] + more;
  }

  lemma Unmoved(s: State)
    ensures RunFrom(s, []) == s
  {
  }

  // Runs that publish, retry and drop.

  /** One instance, waiting for its first connection. */
  lemma Begun(max: int) returns (acts: seq<Action>)
    ensures Run(1, max, acts) == State(max, false, 1, [], [LaunchLeaving, Starter], 0, [], [], [], map[])
  {
    Unmoved(Init(1, max));
    hide RunFrom;
    assert Init(1, max).procs == [Launching];
    acts := OneMore(Init(1, max), [], Act(0, Go));
    assert Run(1, max, acts).procs == [LaunchLeaving, Starter];
  }

  lemma Connected(max: int) returns (acts: seq<Action>)
    ensures Run(1, max, acts) == State(max, false, 2, [], [LaunchLeaving, StarterCounted], 0, [], [], [], map[])
  {
    acts := Begun(max);
    hide RunFrom;
    acts := OneMore(Init(1, max), acts, Act(1, Go));
    assert Run(1, max, acts).procs == [LaunchLeaving, StarterCounted];
  }

  /** About to open its channel. */
  lemma Started(max: int) returns (acts: seq<Action>)
    ensures Run(1, max, acts) ==
            State(max, false, 2, [], [LaunchLeaving, StarterOver, Opening], 0, [], [], [], map[])
  {
    acts := Connected(max);
    hide RunFrom;
    acts := OneMore(Init(1, max), acts, Act(1, Go));
    assert Run(1, max, acts).procs == [LaunchLeaving, StarterOver, Opening];
  }

  /** In its loop. */
  lemma Opened(max: int) returns (acts: seq<Action>)
    ensures Run(1, max, acts) ==
            State(max, false, 2, [], [LaunchLeaving, StarterOver, Running], 0, [], [], [], map[])
  {
    acts := Started(max);
    hide RunFrom;
    acts := OneMore(Init(1, max), acts, Act(2, Open(true)));
    assert Run(1, max, acts).procs == [LaunchLeaving, StarterOver, Running];
  }

  lemma Taken(max: int, body: string) returns (acts: seq<Action>)
    ensures Run(1, max, acts) ==
            State(max, false, 2, [body], [LaunchLeaving, StarterOver, Handling(0)], 0, [], [], [], map[])
  {
    acts := Opened(max);
    hide RunFrom;
    acts := OneMore(Init(1, max), acts, Act(2, Take(body)));
    assert Run(1, max, acts).procs == [LaunchLeaving, StarterOver, Handling(0)];
  }

  lemma HandedOn(max: nat, body: string) returns (acts: seq<Action>)
    ensures Run(1, max, acts) ==
            State(max, false, 3, [body], [LaunchLeaving, StarterOver, Running, Pausing(0, 0)], 0, [], [], [], map[])
  {
    acts := Taken(max, body);
    hide RunFrom;
    acts := OneMore(Init(1, max), acts, Act(2, Go));
    assert Run(1, max, acts).procs == [LaunchLeaving, StarterOver, HandlingCounted(0)];
    acts := OneMore(Init(1, max), acts, Act(2, Go));
    assert Run(1, max, acts).procs == [LaunchLeaving, StarterOver, Running, Pausing(0, 0)];
  }

  /** One instance with one message, at its first call of the broker. */
  lemma FirstCall(max: nat, body: string) returns (acts: seq<Action>)
    ensures var s := Run(1, max, acts);
            && s.procs == [LaunchLeaving, StarterOver, Running, Calling(0, 0)] && s.maxRetryPolicy == max
            && s.taken == [body] && s.calls == [] && s.successes == [] && s.drops == []
  {
    acts := HandedOn(max, body);
    hide RunFrom;
    acts := OneMore(Init(1, max), acts, Act(3, Go));
  }

  /** Call number t of the one message, after t refused ones. */
  lemma {:induction false} LaterCall(max: nat, body: string, t: nat) returns (acts: seq<Action>, i: nat)
    requires t <= max
    ensures var s := Run(1, max, acts);
            && i < |s.procs| && s.procs[i] == Calling(0, t) && s.maxRetryPolicy == max
            && s.taken == [body] && |s.calls| == Times(s.calls, 0) == t && s.successes == [] && s.drops == []
  {
    if t == 0 {
      acts := FirstCall(max, body);
      i := 3;
    } else {
      acts, i := LaterCall(max, body, t - 1);
      var s := Run(1, max, acts);
      var more := RefusedIsRetried(s, i);
      hide Step;
      more := [Act(i, Publish(false))] + more;
      FoldSplits(Step, Init(1, max), acts, more);
      acts, i := acts + more, |s.procs|;
    }
  }

  /** For every policy and every call it allows, some run publishes the message with that call. */
  lemma PublishHappens(max: nat, body: string, t: nat) returns (acts: seq<Action>)
    requires t <= max
    ensures var s := Run(1, max, acts);
            s.taken == [body] && s.successes == [0] && s.drops == [] && Times(s.calls, 0) == t + 1
  {
    var i;
    acts, i := LaterCall(max, body, t);
    hide RunFrom;
    acts := OneMore(Init(1, max), acts, Act(i, Publish(true)));
  }

  /** And for every policy some run drops it, after exactly `max` + 1 refused calls, ... */
  lemma DropHappens(max: nat, body: string) returns (acts: seq<Action>)
    ensures var s := Run(1, max, acts);
            s.taken == [body] && s.successes == [] && s.drops == [0] && Times(s.calls, 0) == max + 1
  {
    var i;
    acts, i := LaterCall(max, body, max);
    hide RunFrom;
    acts := OneMore(Init(1, max), acts, Act(i, Publish(false)));
    acts := OneMore(Init(1, max), acts, Act(i, Go));
  }

  /** ... for a negative policy without any call. */
  lemma NegativePolicyDrops(max: int, body: string) returns (acts: seq<Action>)
    requires max < 0
    ensures var s := Run(1, max, acts);
            s.taken == [body] && s.successes == [] && s.drops == [0] && s.calls == []
  {
    acts := Taken(max, body);
    hide RunFrom;
    acts := OneMore(Init(1, max), acts, Act(2, Go));
  }

  // Restarts and exits.

  /** A goroutine that is on its way to a restart, or was: one per failed opening or closed channel. */
  function Restarts(): Proc -> nat {
    (p: Proc) =>
      if p.Rescheduling? || p.RescheduleCounted? || p.Asleep? || p.Reconnecting? || p.ReconnectCounted?
         || p.RestartLeaving? || p.RestartOver? then 1 else 0
  }

  /** An instance fails to open its channel, or its channel closes. */
  function Breaks(): (State, Action) -> bool {
    (s: State, a: Action) =>
      && a.Act? && a.i < |s.procs|
      && ((s.procs[a.i].Opening? && a.move == Open(false)) || (s.procs[a.i].Running? && a.move == Closed))
  }

  /** A running instance takes the signal to stop. */
  function Stops(): (State, Action) -> bool {
    (s: State, a: Action) => a.Act? && a.i < |s.procs| && s.procs[a.i].Running? && s.done && a.move == Exit
  }

  lemma StepRestarts(s: State, a: Action)
    ensures Sum(Step(s, a).procs, Restarts()) == Sum(s.procs, Restarts()) + if Breaks()(s, a) then 1 else 0
  {
    if a.Act? && a.i < |s.procs| {
      var p, p' := s.procs[a.i], NextProc(s, s.procs[a.i], a.move);
      SumMove(s.procs, a.i, p', Launched(p, p'), Restarts());
      GainOfRestarts(s, p, a.move);
      hide NextProc, Launched, Restarts, WgChange;
    }
  }

  lemma GainOfRestarts(s: State, p: Proc, m: Move)
    ensures var p' := NextProc(s, p, m);
            Gain(p, p', Launched(p, p'), Restarts()) ==
            if (p.Opening? && m == Open(false)) || (p.Running? && m == Closed) then 1 else 0
  {
  }

  /**
   Restarts are answers too: in every run, there is one restart, pending or made, for every opening
   that failed and every channel that closed; and one exit for every instance that took the signal.
   */
  lemma RestartsAreBreaks(n: nat, max: int, acts: seq<Action>)
    ensures var s := Run(n, max, acts);
            && Sum(s.procs, Restarts()) == CountSteps(Step, Init(n, max), acts, Breaks())
            && s.exits == CountSteps(Step, Init(n, max), acts, Stops())
  {
    forall s, a
      ensures Sum(Step(s, a).procs, Restarts()) == Sum(s.procs, Restarts()) + if Breaks()(s, a) then 1 else 0
    {
      StepRestarts(s, a);
    }
    forall s, a ensures Step(s, a).exits == s.exits + if Stops()(s, a) then 1 else 0 {
      StepExits(s, a);
    }
    SumOfLaunchers(n, max, Restarts(), 0);
    hide Step, Breaks, Stops, Restarts;
    MeasureCounts(Step, Init(n, max), acts, (s: State) => Sum(s.procs, Restarts()), Breaks());
    MeasureCounts(Step, Init(n, max), acts, (s: State) => s.exits, Stops());
  }

  lemma StepExits(s: State, a: Action)
    ensures Step(s, a).exits == s.exits + if Stops()(s, a) then 1 else 0
  {
    hide Launched, WgChange;
  }

  /** A broken instance leaves and schedules its restart, in a new goroutine. */
  lemma BreakIsScheduled(s: State, i: nat, move: Move) returns (more: seq<Action>)
    requires i < |s.procs| && Breaks()(s, Act(i, move))
    ensures RunFrom(s, [Act(i, move)] + more).procs == s.procs[i := Leaving] + [Asleep]
  {
    Unmoved(s);
    hide RunFrom, Breaks;
    var broken := Step(s, Act(i, move));
    assert broken.procs == s.procs[i := Rescheduling] by {
      BreakMoves(s, i, move);
    }
    var acts := OneMore(s, [], Act(i, move));
    acts := OneMore(s, acts, Act(i, Go));
    assert RunFrom(s, acts).procs == s.procs[i := RescheduleCounted];
    acts := OneMore(s, acts, Act(i, Go));
    more := [Act(i, Go), Act(i, Go)];
    assert acts == [Act(i, move)] + more;
  }

  lemma BreakMoves(s: State, i: nat, move: Move)
    requires i < |s.procs| && Breaks()(s, Act(i, move))
    ensures Step(s, Act(i, move)).procs == s.procs[i := Rescheduling]
  {
  }

  /** A scheduled restart opens a channel again. */
  lemma ScheduledReopens(s: State, j: nat) returns (more: seq<Action>)
    requires j < |s.procs| && s.procs[j].Asleep?
    ensures RunFrom(s, more).procs == s.procs[j := RestartLeaving] + [Opening]
  {
    Unmoved(s);
    hide RunFrom;
    more := OneMore(s, [], Act(j, Go));
    assert RunFrom(s, more).procs == s.procs[j := Reconnecting];
    more := OneMore(s, more, Act(j, Go));
    assert RunFrom(s, more).procs == s.procs[j := ReconnectCounted];
    more := OneMore(s, more, Act(j, Go));
  }

  /** A broken instance is restarted: some continuation has it open a channel again, in a new goroutine. */
  lemma BreakIsRepaired(s: State, i: nat, move: Move) returns (more: seq<Action>)
    requires i < |s.procs| && Breaks()(s, Act(i, move))
    ensures RunFrom(s, [Act(i, move)] + more).procs == s.procs[i := Leaving] + [RestartLeaving] + [Opening]
  {
    hide Step;
    var first := BreakIsScheduled(s, i, move);
    var acts := [Act(i, move)] + first;
    var rest := ScheduledReopens(RunFrom(s, acts), |s.procs|);
    FoldSplits(Step, s, acts, rest);
    more := first + rest;
    assert [Act(i, move)] + more == acts + rest;
  }

  lemma Stopping(max: int) returns (acts: seq<Action>)
    ensures Run(1, max, acts) ==
            State(max, true, 2, [], [LaunchLeaving, StarterOver, Leaving], 1, [], [], [], map[])
  {
    acts := Opened(max);
    hide RunFrom;
    acts := OneMore(Init(1, max), acts, SignalDone);
    acts := OneMore(Init(1, max), acts, Act(2, Exit));
    assert Run(1, max, acts).procs == [LaunchLeaving, StarterOver, Leaving];
  }

  lemma Stopped(max: int) returns (acts: seq<Action>)
    ensures Run(1, max, acts) ==
            State(max, true, 1, [], [LaunchLeaving, StarterOver, Over], 1, [], [], [], map[])
  {
    acts := Stopping(max);
    hide RunFrom;
    acts := OneMore(Init(1, max), acts, Act(2, Go));
    assert Run(1, max, acts).procs == [LaunchLeaving, StarterOver, Over];
  }

  /** A clean end: told to stop, the instance exits and the WaitGroup goes to zero. */
  lemma ShutdownHappens(max: int) returns (acts: seq<Action>)
    ensures var s := Run(1, max, acts);
            s.done && s.exits == 1 && s.wg == 0 && s.procs == [LaunchOver, StarterOver, Over]
  {
    acts := Stopped(max);
    hide RunFrom;
    acts := OneMore(Init(1, max), acts, Act(0, Go));
    assert Run(1, max, acts).procs == [LaunchOver, StarterOver, Over];
  }
}
