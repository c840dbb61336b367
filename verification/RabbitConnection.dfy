/**
 The connection keeper: the constructor dials until it succeeds, every connection is given a
 watcher, and the watcher of a lost connection dials until the next one stands. Connections are
 numbered from 1 in the order they are established; the last one is the current one.
 */
module RabbitConnection {
  import opened Sums
  import opened Runs

  /**
   `counted` tells a watcher (counted by the WaitGroup) from the constructor's caller. Dialing: may
   dial again. Attached: the new connection is current. AttachCounted: Add called for its watcher.
   Settling: the watcher is launched; the final pause. Registering: launched, about to ask for
   close notifications of the current connection. Watching: in the select; `late` if the connection
   was lost before the watcher asked, so that it is told nil instead of an error.
   */
  datatype Proc =
    | Dialing(counted: bool) | Attached(counted: bool) | AttachCounted(counted: bool) | Settling(counted: bool) | Over
    | Registering | Watching(connection: nat, late: bool)

  /**
   `crashed`: a watcher called a method of a nil error, which ends the process. `watched` lists the
   connections in the order their watchers registered; `exits` counts watchers that saw `done`.
   */
  datatype State = State(
    crashed: bool,
    done: bool,
    wg: int,
    connections: nat,
    closed: set<nat>,
    procs: seq<Proc>,
    watched: seq<nat>,
    exits: nat)

  datatype Move = Go | Dial(succeeds: bool) | Notice | Exit

  datatype Action = Act(i: nat, move: Move) | Lose(connection: nat) | SignalDone

  /** The constructor, about to dial for the first time. */
  const Init := State(false, false, 0, 0, {}, [Dialing(false)], [], 0)

  function NextProc(s: State, p: Proc, m: Move): Proc {
    match m
    case Go =>
      (match p
       case Attached(c) => AttachCounted(c)
       case AttachCounted(c) => Settling(c)
       case Settling(_) => Over
       case Registering => Watching(s.connections, s.connections in s.closed)
       case _ => p)
    case Dial(succeeds) => if p.Dialing? && succeeds then Attached(p.counted) else p
    case Notice => if p.Watching? && !p.late && p.connection in s.closed then Dialing(true) else p
    case Exit => if p.Watching? && s.done then Over else p
  }

  function Launched(p: Proc, p': Proc): seq<Proc> {
    if p.AttachCounted? && p'.Settling? then [Registering] else []
  }

  /** Calls of Add and Done made by the move to `p'`. */
  function WgChange(p: Proc, p': Proc): int {
    if p.Attached? && p'.AttachCounted? then 1
    else if p'.Over? && (p.Watching? || (p.Settling? && p.counted)) then -1
    else 0
  }

  function ActStep(s: State, i: nat, m: Move): State
    requires i < |s.procs|
  {
    var p := s.procs[i];
    var p' := NextProc(s, p, m);
    State(p.Watching? && p.late && m.Notice?,
          s.done,
          s.wg + WgChange(p, p'),
          if p.Dialing? && p'.Attached? then s.connections + 1 else s.connections,
          s.closed,
          s.procs[i := p'] + Launched(p, p'),
          if p.Registering? && p'.Watching? then s.watched + [p'.connection] else s.watched,
          if p.Watching? && p'.Over? then s.exits + 1 else s.exits)
  }

  function Step(s: State, a: Action): State {
    if s.crashed then s else
    match a
    case Act(i, m) => if i < |s.procs| then ActStep(s, i, m) else s
    case Lose(c) => if 1 <= c <= s.connections then s.(closed := s.closed + {c}) else s
    case SignalDone => s.(done := true)
  }

  function RunFrom(s: State, acts: seq<Action>): State {
    Fold(Step, s, acts)
  }

  function Run(acts: seq<Action>): State {
    RunFrom(Init, acts)
  }

  function Weight(): Proc -> nat {
    (p: Proc) => match p
      case Dialing(c) => if c then 1 else 0
      case Attached(c) => if c then 1 else 0
      case AttachCounted(c) => if c then 2 else 1
      case Settling(c) => if c then 1 else 0
      case Over => 0
      case Registering => 1
      case Watching(_, _) => 1
  }

  /** In charge of the connection: dialing, attaching, about to watch or watching. */
  predicate InCharge(p: Proc) {
    !p.Settling? && !p.Over?
  }

  function Charge(): Proc -> nat {
    (p: Proc) => if InCharge(p) then 1 else 0
  }

  // What every step keeps.

  ghost predicate Exact(s: State) {
    && s.wg == Sum(s.procs, Weight())
    && Sum(s.procs, Charge()) + s.exits == 1
    && (s.exits > 0 ==> s.done)
  }

  lemma GainsOfMove(s: State, p: Proc, m: Move)
    ensures var p' := NextProc(s, p, m);
            && Gain(p, p', Launched(p, p'), Weight()) == WgChange(p, p')
            && Gain(p, p', Launched(p, p'), Charge()) == (if p.Watching? && p'.Over? then -1 else 0)
            && (p.Watching? && p'.Over? ==> s.done)
  {
  }

  lemma StepExact(s: State, a: Action)
    requires Exact(s)
    ensures Exact(Step(s, a))
  {
    if a.Act? && a.i < |s.procs| {
      var p, p' := s.procs[a.i], NextProc(s, s.procs[a.i], a.move);
      SumMove(s.procs, a.i, p', Launched(p, p'), Weight());
      SumMove(s.procs, a.i, p', Launched(p, p'), Charge());
      GainsOfMove(s, p, a.move);
      hide NextProc, Gain, WgChange, Launched, Weight, Charge;
    }
  }

  /** What the goroutine in charge knows about connections and watchers. */
  predicate InStep(s: State, p: Proc)
    requires InCharge(p)
  {
    match p
    case Dialing(counted) => |s.watched| == s.connections && (!counted ==> s.connections == 0)
    case Attached(counted) => |s.watched| + 1 == s.connections && (!counted ==> s.connections == 1)
    case AttachCounted(_) => |s.watched| + 1 == s.connections
    case Registering => |s.watched| + 1 == s.connections
    case Watching(c, _) => |s.watched| == s.connections == c && c > 0
  }

  /** Watchers registered for the connections 1, 2, 3, ..., each once. */
  ghost predicate InTurn(s: State) {
    && (forall k | 0 <= k < |s.watched| :: s.watched[k] == k + 1)
    && (forall i | 0 <= i < |s.procs| && InCharge(s.procs[i]) :: InStep(s, s.procs[i]))
    && |s.watched| <= s.connections <= |s.watched| + 1
  }

  lemma OnlyOneInCharge(s: State, i: nat, j: nat)
    requires Exact(s) && i < |s.procs| && j < |s.procs| && InCharge(s.procs[i]) && InCharge(s.procs[j])
    ensures i == j && s.exits == 0
  {
    SumAtLeast(s.procs, i, Charge());
    OnlyOne(s.procs, i, j, Charge());
  }

  lemma StepInTurn(s: State, a: Action)
    requires Exact(s) && InTurn(s)
    ensures InTurn(Step(s, a))
  {
    var s' := Step(s, a);
    forall j | 0 <= j < |s'.procs| && InCharge(s'.procs[j]) ensures InStep(s', s'.procs[j]) {
      if a.Act? && a.i < |s.procs| && j < |s.procs| && j != a.i && InCharge(s.procs[a.i]) {
        OnlyOneInCharge(s, j, a.i);
      }
    }
  }

  lemma {:induction false} RunKeeps(acts: seq<Action>)
    ensures Exact(Run(acts)) && InTurn(Run(acts))
  {
    if acts == [] {
      assert Init.procs[..0] == [];
    } else {
      hide Step, Exact, InTurn;
      RunKeeps(acts[..|acts| - 1]);
      StepExact(Run(acts[..|acts| - 1]), acts[|acts| - 1]);
      StepInTurn(Run(acts[..|acts| - 1]), acts[|acts| - 1]);
    }
  }

  /**
   One keeper: in every run until a watcher has seen `done`, exactly one goroutine is in charge. It
   watches the current connection, or is about to, or it alone may dial; so no two ever dial.
   */
  lemma OneKeeper(acts: seq<Action>)
    requires Run(acts).exits == 0
    ensures var s := Run(acts);
            exists i | 0 <= i < |s.procs| && InCharge(s.procs[i]) ::
              && (s.procs[i].Watching? ==> s.procs[i].connection == s.connections)
              && forall j | 0 <= j < |s.procs| && InCharge(s.procs[j]) :: j == i
  {
    RunKeeps(acts);
    var s := Run(acts);
    hide Run;
    var i := SumWitness(s.procs, Charge());
    forall j | 0 <= j < |s.procs| && InCharge(s.procs[j]) ensures j == i {
      OnlyOneInCharge(s, i, j);
    }
    assert InStep(s, s.procs[i]);
  }

  /** After a watcher has seen `done`, nobody watches or dials any more. */
  lemma NobodyAfterDone(acts: seq<Action>, i: nat)
    requires Run(acts).exits > 0 && i < |Run(acts).procs|
    ensures !InCharge(Run(acts).procs[i])
  {
    RunKeeps(acts);
    var s := Run(acts);
    hide Run;
    SumAtLeast(s.procs, i, Charge());
  }

  /**
   Every connection gets one watcher: the watchers registered for the connections 1, 2, 3, ... in
   this order, none twice, and at most the current connection is still without its watcher.
   */
  lemma EveryConnectionWatchedOnce(acts: seq<Action>)
    ensures var s := Run(acts);
            && s.connections - 1 <= |s.watched| <= s.connections
            && forall k | 0 <= k < |s.watched| :: s.watched[k] == k + 1
  {
    RunKeeps(acts);
    hide Run;
  }

  /**
   Once the constructor has called Add for the first watcher, the WaitGroup stays positive until a
   watcher sees `done`.
   */
  lemma WaitGroupCoversWatcher(acts: seq<Action>)
    requires Run(acts).exits == 0
    requires forall p <- Run(acts).procs :: p != Dialing(false) && p != Attached(false)
    ensures Run(acts).wg >= 1
  {
    RunKeeps(acts);
    var s := Run(acts);
    hide Run;
    var i := SumWitness(s.procs, Charge());
    assert InStep(s, s.procs[i]) && s.procs[i] in s.procs;
    SumAtLeast(s.procs, i, Weight());
  }

  // A connection lost before its watcher has asked for notifications.

  /** This goroutine is in charge of a connection that was lost before its watcher asked. */
  predicate TooLate(s: State, p: Proc) {
    || ((p.Attached? || p.AttachCounted? || p.Registering?) && s.connections in s.closed)
    || (p.Watching? && p.late)
  }

  ghost predicate LostEarly(s: State) {
    exists i | 0 <= i < |s.procs| :: TooLate(s, s.procs[i])
  }

  /** Whoever is in charge, if anybody, is too late. */
  ghost predicate Fated(s: State) {
    forall i | 0 <= i < |s.procs| && InCharge(s.procs[i]) :: TooLate(s, s.procs[i])
  }

  /** The run `more` brings the next connection. */
  predicate Replaces(s: State, more: seq<Action>) {
    RunFrom(s, more).connections > s.connections
  }

  lemma StepFated(s: State, a: Action)
    requires Fated(s)
    ensures Fated(Step(s, a)) && Step(s, a).connections == s.connections
  {
  }

  lemma {:induction false} StaysFated(s: State, more: seq<Action>)
    requires Fated(s)
    ensures Fated(RunFrom(s, more)) && RunFrom(s, more).connections == s.connections
    decreases |more|
  {
    if more != [] {
      hide Step, Fated;
      StaysFated(s, more[..|more| - 1]);
      StepFated(RunFrom(s, more[..|more| - 1]), more[|more| - 1]);
    }
  }

  /** With one goroutine in charge: it is too late, or nobody is in charge any more. */
  lemma FatedExactlyWhen(acts: seq<Action>)
    ensures Fated(Run(acts)) <==> Run(acts).exits > 0 || LostEarly(Run(acts))
  {
    var s := Run(acts);
    RunKeeps(acts);
    hide Run;
    if s.exits > 0 {
      forall i | 0 <= i < |s.procs| ensures !InCharge(s.procs[i]) {
        SumAtLeast(s.procs, i, Charge());
      }
    } else {
      var i := SumWitness(s.procs, Charge());
      forall j | 0 <= j < |s.procs| && InCharge(s.procs[j]) ensures j == i {
        OnlyOneInCharge(s, i, j);
      }
    }
  }

  /** One action in front of a run. */
  lemma First(s: State, a: Action, more: seq<Action>)
    ensures RunFrom(s, [a] + more) == RunFrom(Step(s, a), more)
  {
    hide Step;
    FoldSplits(Step, s, [a], more);
    FoldOneMore(Step, s, [], a);
    assert [] + [a] == [a];
  }

  lemma DialingReplaces(s: State, i: nat) returns (more: seq<Action>)
    requires !s.crashed && i < |s.procs| && s.procs[i].Dialing?
    ensures RunFrom(s, more).connections == s.connections + 1
  {
    more := [Act(i, Dial(true))];
    First(s, more[0], []);
    assert [more[0]] + [] == more;
  }

  /** A watched connection is lost, noticed and replaced. */
  lemma WatchingReplaces(s: State, i: nat) returns (more: seq<Action>)
    requires !s.crashed && i < |s.procs| && s.procs[i] == Watching(s.connections, false) && s.connections > 0
    ensures RunFrom(s, more).connections == s.connections + 1
  {
    hide RunFrom;
    var lost := Step(s, Lose(s.connections));
    var noticed := Step(lost, Act(i, Notice));
    more := DialingReplaces(noticed, i);
    First(lost, Act(i, Notice), more);
    First(s, Lose(s.connections), [Act(i, Notice)] + more);
    more := [Lose(s.connections)] + ([Act(i, Notice)] + more);
  }

  lemma RegisteringReplaces(s: State, i: nat) returns (more: seq<Action>)
    requires !s.crashed && i < |s.procs| && s.procs[i].Registering? && s.connections > 0 && s.connections !in s.closed
    ensures RunFrom(s, more).connections == s.connections + 1
  {
    hide RunFrom;
    more := WatchingReplaces(Step(s, Act(i, Go)), i);
    First(s, Act(i, Go), more);
    more := [Act(i, Go)] + more;
  }

  lemma AttachedReplaces(s: State, i: nat) returns (more: seq<Action>)
    requires !s.crashed && i < |s.procs| && (s.procs[i].Attached? || s.procs[i].AttachCounted?)
    requires s.connections > 0 && s.connections !in s.closed
    ensures RunFrom(s, more).connections == s.connections + 1
    decreases s.procs[i].Attached?
  {
    hide RunFrom;
    var next := Step(s, Act(i, Go));
    if s.procs[i].Attached? {
      more := AttachedReplaces(next, i);
    } else {
      more := RegisteringReplaces(next, |s.procs|);
    }
    First(s, Act(i, Go), more);
    more := [Act(i, Go)] + more;
  }

  lemma KeeperReplaces(acts: seq<Action>) returns (more: seq<Action>)
    requires Run(acts).exits == 0 && !LostEarly(Run(acts))
    ensures Replaces(Run(acts), more)
  {
    var s := Run(acts);
    RunKeeps(acts);
    CrashMeansEarlyLoss(acts);
    hide Run, RunFrom;
    var i := SumWitness(s.procs, Charge());
    assert InStep(s, s.procs[i]) && !TooLate(s, s.procs[i]);
    match s.procs[i]
    case Dialing(_) => more := DialingReplaces(s, i);
    case Watching(_, _) => more := WatchingReplaces(s, i);
    case Registering => more := RegisteringReplaces(s, i);
    case _ => more := AttachedReplaces(s, i);
  }

  /**
   When a connection is replaced: in every run, some continuation brings the next connection if and
   only if no watcher has seen `done` and the current connection was not lost before its watcher
   asked for notifications.
   */
  lemma ReplacedExactlyWhen(acts: seq<Action>)
    ensures (exists more :: Replaces(Run(acts), more)) <==> Run(acts).exits == 0 && !LostEarly(Run(acts))
  {
    var s := Run(acts);
    FatedExactlyWhen(acts);
    if s.exits == 0 && !LostEarly(s) {
      var more := KeeperReplaces(acts);
    } else {
      hide RunFrom, Run;
      forall more ensures !Replaces(s, more) {
        StaysFated(s, more);
      }
    }
  }

  /** The early loss happens: the first connection goes before the first watcher runs. */
  lemma EarlyLossHappens() returns (acts: seq<Action>)
    ensures var s := Run(acts);
            && s.procs == [Settling(false), Registering] && s.connections == 1 && s.closed == {1}
            && s.exits == 0 && !s.crashed && LostEarly(s)
  {
    hide RunFrom;
    acts := [Act(0, Dial(true))] + ([Act(0, Go)] + ([Act(0, Go)] + ([Lose(1)] + [])));
    var dialed := Step(Init, Act(0, Dial(true)));
    var counted := Step(dialed, Act(0, Go));
    var launched := Step(counted, Act(0, Go));
    First(Init, Act(0, Dial(true)), [Act(0, Go)] + ([Act(0, Go)] + ([Lose(1)] + [])));
    First(dialed, Act(0, Go), [Act(0, Go)] + ([Lose(1)] + []));
    First(counted, Act(0, Go), [Lose(1)] + []);
    First(launched, Lose(1), []);
    Unmoved(Step(launched, Lose(1)));
    assert launched.procs == [Settling(false), Registering];
    assert TooLate(Run(acts), Run(acts).procs[1]);
  }

  lemma Unmoved(s: State)
    ensures RunFrom(s, []) == s
  {
  }

  /** A crash can only come of an early loss: then the keeper watches the current connection, lost before it asked. */
  lemma {:induction false} CrashMeansEarlyLoss(acts: seq<Action>)
    ensures var s := Run(acts);
            s.crashed ==> exists i | 0 <= i < |s.procs| :: s.procs[i] == Watching(s.connections, true)
    ensures Run(acts).crashed ==> LostEarly(Run(acts))
  {
    if acts != [] {
      var n := |acts| - 1;
      var before, a := Run(acts[..n]), acts[n];
      CrashMeansEarlyLoss(acts[..n]);
      RunKeeps(acts[..n]);
      assert Run(acts) == Step(before, a);
      hide Run;
      if !before.crashed && Step(before, a).crashed {
        assert InStep(before, before.procs[a.i]);
        assert Step(before, a).procs[a.i] == Watching(before.connections, true);
      }
    }
  }

  /** And every early loss can come to a crash, from whatever stage its watcher is at. */
  lemma EarlyLossCrashes(s: State, i: nat) returns (more: seq<Action>)
    requires i < |s.procs| && TooLate(s, s.procs[i])
    ensures LosesNothing(more) && RunFrom(s, more).crashed
    decreases s.procs[i].Attached?, s.procs[i].AttachCounted?, s.procs[i].Registering?
  {
    hide RunFrom;
    if s.crashed {
      more := [];
      Unmoved(s);
    } else if s.procs[i].Watching? {
      more := [Act(i, Notice)] + [];
      First(s, Act(i, Notice), []);
      Unmoved(Step(s, Act(i, Notice)));
    } else {
      var next := Step(s, Act(i, Go));
      more := EarlyLossCrashes(next, if s.procs[i].AttachCounted? then |s.procs| else i);
      First(s, Act(i, Go), more);
      more := [Act(i, Go)] + more;
    }
  }

  predicate LosesNothing(more: seq<Action>) {
    forall a <- more :: !a.Lose?
  }

  /** Only established connections are lost, and the current one not before its watcher asked. */
  ghost predicate InTime(s: State) {
    !s.crashed && !LostEarly(s) && forall c <- s.closed :: c <= s.connections
  }

  lemma StepInTime(s: State, a: Action)
    requires InTime(s) && !a.Lose?
    ensures InTime(Step(s, a))
  {
    var s' := Step(s, a);
    if a.Act? && a.i < |s.procs| {
      assert !TooLate(s, s.procs[a.i]);
      forall j | 0 <= j < |s'.procs| ensures !TooLate(s', s'.procs[j]) {
        assert j < |s.procs| ==> !TooLate(s, s.procs[j]);
      }
    } else {
      forall j | 0 <= j < |s'.procs| ensures !TooLate(s', s'.procs[j]) {
        assert !TooLate(s, s.procs[j]);
      }
    }
  }

  lemma {:induction false} StaysInTime(s: State, more: seq<Action>)
    requires InTime(s) && LosesNothing(more)
    ensures InTime(RunFrom(s, more))
    decreases |more|
  {
    if more != [] {
      hide Step, InTime;
      assert forall a <- more[..|more| - 1] :: a in more;
      assert more[|more| - 1] in more;
      StaysInTime(s, more[..|more| - 1]);
      StepInTime(RunFrom(s, more[..|more| - 1]), more[|more| - 1]);
    }
  }

  lemma {:induction false} RunLosesEstablished(acts: seq<Action>)
    ensures forall c <- Run(acts).closed :: c <= Run(acts).connections
  {
    if acts != [] {
      RunLosesEstablished(acts[..|acts| - 1]);
      assert Run(acts) == Step(Run(acts[..|acts| - 1]), acts[|acts| - 1]);
      hide Run, NextProc, Launched;
    }
  }

  /**
   When the process is doomed: in every run, it can crash without a further loss if and only if
   the current connection was lost before its watcher asked.
   */
  lemma CrashesExactlyWhen(acts: seq<Action>)
    ensures (exists more :: LosesNothing(more) && RunFrom(Run(acts), more).crashed) <==> LostEarly(Run(acts))
  {
    var s := Run(acts);
    CrashMeansEarlyLoss(acts);
    RunLosesEstablished(acts);
    hide Run, RunFrom;
    if LostEarly(s) {
      var i :| 0 <= i < |s.procs| && TooLate(s, s.procs[i]);
      var more := EarlyLossCrashes(s, i);
    } else {
      forall more | LosesNothing(more) ensures !RunFrom(s, more).crashed {
        StaysInTime(s, more);
      }
    }
  }

  // What the broker and the shutdown answered.

  /** A dial that succeeds. */
  function Dials(): (State, Action) -> bool {
    (s: State, a: Action) =>
      !s.crashed && a.Act? && a.i < |s.procs| && s.procs[a.i].Dialing? && a.move == Dial(true)
  }

  /** A watcher sees `done`. */
  function Stops(): (State, Action) -> bool {
    (s: State, a: Action) =>
      !s.crashed && s.done && a.Act? && a.i < |s.procs| && s.procs[a.i].Watching? && a.move == Exit
  }

  lemma StepCounts(s: State, a: Action)
    ensures Step(s, a).connections == s.connections + if Dials()(s, a) then 1 else 0
    ensures Step(s, a).exits == s.exits + if Stops()(s, a) then 1 else 0
  {
  }

  /** In every run, the connections are the dials that succeeded and the exits the watchers told to stop. */
  lemma ConnectionsAreDials(acts: seq<Action>)
    ensures Run(acts).connections == CountSteps(Step, Init, acts, Dials())
    ensures Run(acts).exits == CountSteps(Step, Init, acts, Stops())
  {
    forall s, a
      ensures Step(s, a).connections == s.connections + if Dials()(s, a) then 1 else 0
      ensures Step(s, a).exits == s.exits + if Stops()(s, a) then 1 else 0
    {
      StepCounts(s, a);
    }
    hide Step, Dials, Stops;
    MeasureCounts(Step, Init, acts, (s: State) => s.connections, Dials());
    MeasureCounts(Step, Init, acts, (s: State) => s.exits, Stops());
  }

  /** How far a keeper is from watching. */
  function Distance(p: Proc): nat {
    match p
    case Dialing(_) => 4
    case Attached(_) => 3
    case AttachCounted(_) => 2
    case Registering => 1
    case _ => 0
  }

  lemma KeeperStops(s: State, i: nat) returns (more: seq<Action>)
    requires !s.crashed && i < |s.procs| && InCharge(s.procs[i])
    ensures RunFrom(s, more).exits == s.exits + 1
    decreases Distance(s.procs[i])
  {
    hide RunFrom;
    if s.procs[i].Watching? {
      var signalled := Step(s, SignalDone);
      First(signalled, Act(i, Exit), []);
      Unmoved(Step(signalled, Act(i, Exit)));
      First(s, SignalDone, [Act(i, Exit)] + []);
      more := [SignalDone] + ([Act(i, Exit)] + []);
    } else {
      var a := if s.procs[i].Dialing? then Act(i, Dial(true)) else Act(i, Go);
      more := KeeperStops(Step(s, a), if s.procs[i].AttachCounted? then |s.procs| else i);
      First(s, a, more);
      more := [a] + more;
    }
  }

  lemma {:induction false} CrashedStays(s: State, more: seq<Action>)
    requires s.crashed
    ensures RunFrom(s, more) == s
    decreases |more|
  {
    if more != [] {
      CrashedStays(s, more[..|more| - 1]);
    }
  }

  /** When the adapter can be stopped: some continuation has a watcher see `done` unless the process has crashed. */
  lemma StopsExactlyWhen(acts: seq<Action>)
    ensures (exists more :: RunFrom(Run(acts), more).exits > 0) <==> Run(acts).exits > 0 || !Run(acts).crashed
  {
    var s := Run(acts);
    RunKeeps(acts);
    hide Run;
    if s.exits > 0 {
      Unmoved(s);
    } else if s.crashed {
      forall more ensures RunFrom(s, more).exits == 0 {
        CrashedStays(s, more);
      }
    } else {
      var i := SumWitness(s.procs, Charge());
      var more := KeeperStops(s, i);
    }
  }
}
