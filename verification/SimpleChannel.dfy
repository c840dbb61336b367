/**
 The in-process channel: consumers take messages from the input, a delivery attempt per message
 offers it on the output until somebody acknowledges, and a timed-out attempt starts the next one.
 Every goroutine is a program counter; the WaitGroup changes exactly where the code calls Add and
 Done. The output buffer is not bounded, which only adds interleavings.
 */
module SimpleChannel {
  import opened Sums
  import opened Runs

  /** What goes over the output: the message and, through its Ack, one attempt's channel. */
  datatype Copy = Copy(attempt: nat, msg: nat)

  datatype Proc =
    // startConsume: in the select; with a message; Add called for its first attempt; returned
    | Selecting | Took(msg: nat) | Counted(msg: nat) | Stopped
    // startDelivery's goroutine: launched; in the select; timer fired; Add called for the next
    // attempt; next attempt launched; acknowledged; returned
    | Starting(msg: nat) | Waiting(msg: nat) | TimedOut(msg: nat) | Recounted(msg: nat)
    | HandedOver(msg: nat) | Acknowledged(msg: nat) | Over(msg: nat)
    // publishMessage: launched; Add called; copy sent; returned
    | Offering(copy: Copy) | Sending(copy: Copy) | Sent | Published
    // a reader of the output; a manager worker creates before it acknowledges
    | Idle(manager: bool) | Got(manager: bool, copy: Copy) | Created(manager: bool, copy: Copy)
    | Acking(manager: bool, copy: Copy)

  /** `taken`, `acks` and `creates` are histories: bodies accepted, messages whose Ack returned, messages created. */
  datatype State = State(
    done: bool,
    wg: int,
    taken: seq<string>,
    procs: seq<Proc>,
    output: seq<Copy>,
    acks: seq<nat>,
    creates: seq<nat>)

  /** What one goroutine does next; `Go` is its next statement where it has only one. */
  datatype Move =
    | Take(body: string) | Stop | TimeOut | Go
    | Receive(j: nat) | Create(succeeds: bool) | SkipCreate

  datatype Action =
    | Act(i: nat, move: Move)
    | Meet(reader: nat, attempt: nat)
    | StartReader(manager: bool)
    | SignalDone

  function Init(numberInstants: nat): State {
    State(false, numberInstants, [], seq(numberInstants, _ => Selecting), [], [], [])
  }

  /** Add before every launch: the loop leaves one counted consumer per instance, none for a negative number. */
  method StartConsume(numberInstants: int) returns (s: State)
    ensures s == Init(if numberInstants < 0 then 0 else numberInstants)
  {
    s := State(false, 0, [], [], [], [], []);
    var i := 0;
    while i < numberInstants
      invariant 0 <= i && (numberInstants >= 0 ==> i <= numberInstants) && (numberInstants < 0 ==> i == 0)
      invariant s == Init(i)
    {
      s := s.(wg := s.wg + 1);
      s := s.(procs := s.procs + [Selecting]);
      i := i + 1;
    }
  }

  function NextStatement(p: Proc): Proc {
    match p
    case Took(m) => Counted(m)
    case Counted(_) => Selecting
    case Starting(m) => Waiting(m)
    case TimedOut(m) => Recounted(m)
    case Recounted(m) => HandedOver(m)
    case HandedOver(m) => Over(m)
    case Acknowledged(m) => Over(m)
    case Offering(c) => Sending(c)
    case Sending(_) => Sent
    case Sent => Published
    case Created(manager, c) => Acking(manager, c)
    case _ => p
  }

  /** Where goroutine `p` is after the move; unchanged if it cannot make it. */
  function NextProc(s: State, p: Proc, m: Move): Proc {
    match m
    case Take(_) => if p.Selecting? then Took(|s.taken|) else p
    case Stop => if p.Selecting? && s.done then Stopped else p
    case TimeOut => if p.Waiting? then TimedOut(p.msg) else p
    case Go => NextStatement(p)
    case Receive(j) => if p.Idle? && j < |s.output| then Got(p.manager, s.output[j]) else p
    case Create(succeeds) =>
      if !(p.Got? && p.manager) then p else if succeeds then Created(true, p.copy) else Idle(true)
    case SkipCreate => if p.Got? && !p.manager then Created(false, p.copy) else p
  }

  /** The goroutine launched by the move to `p'`. */
  function Launched(i: nat, p: Proc, p': Proc): seq<Proc> {
    if p.Counted? && p'.Selecting? then [Starting(p.msg)]
    else if p.Recounted? && p'.HandedOver? then [Starting(p.msg)]
    else if p.Starting? && p'.Waiting? then [Offering(Copy(i, p.msg))]
    else []
  }

  /** Calls of Add and Done made by the move to `p'`. */
  function WgChange(p: Proc, p': Proc): int {
    if p' == p then 0
    else if p'.Counted? || p'.Recounted? || p'.Sending? then 1
    else if p'.Stopped? || p'.Over? || p'.Published? then -1
    else 0
  }

  function NextOutput(s: State, p: Proc, p': Proc, m: Move): seq<Copy> {
    if p.Sending? && p'.Sent? then s.output + [p.copy]
    else if p.Idle? && p'.Got? && m.Receive? && m.j < |s.output| then s.output[..m.j] + s.output[m.j + 1..]
    else s.output
  }

  function ActStep(s: State, i: nat, m: Move): State
    requires i < |s.procs|
  {
    var p := s.procs[i];
    var p' := NextProc(s, p, m);
    State(s.done,
          s.wg + WgChange(p, p'),
          if p.Selecting? && p'.Took? && m.Take? then s.taken + [m.body] else s.taken,
          s.procs[i := p'] + Launched(i, p, p'),
          NextOutput(s, p, p', m),
          s.acks,
          if p.Got? && p'.Created? && p.manager then s.creates + [p.copy.msg] else s.creates)
  }

  /** The reader's Ack call finds its attempt still waiting. */
  predicate CanMeet(s: State, r: nat, at: nat) {
    r < |s.procs| && at < |s.procs| && s.procs[r].Acking? && s.procs[r].copy.attempt == at && s.procs[at].Waiting?
  }

  /** They meet on the attempt's unbuffered channel, and the Ack returns. */
  function MeetStep(s: State, r: nat, at: nat): State
    requires CanMeet(s, r, at)
  {
    s.(procs := s.procs[r := Idle(s.procs[r].manager)][at := Acknowledged(s.procs[at].msg)],
       acks := s.acks + [s.procs[at].msg])
  }

  function Step(s: State, a: Action): State {
    match a
    case Act(i, m) => if i < |s.procs| then ActStep(s, i, m) else s
    case Meet(r, at) => if CanMeet(s, r, at) then MeetStep(s, r, at) else s
    case StartReader(manager) => s.(procs := s.procs + [Idle(manager)])
    case SignalDone => s.(done := true)
  }

  function RunFrom(s: State, acts: seq<Action>): State {
    Fold(Step, s, acts)
  }

  function Run(numberInstants: nat, acts: seq<Action>): State {
    RunFrom(Init(numberInstants), acts)
  }

  // Counting goroutines.

  /** What a goroutine contributes to the WaitGroup: one while it runs, one more for what it is about to launch. */
  function Weight(): Proc -> nat {
    (p: Proc) => match p
      case Counted(_) => 2
      case Recounted(_) => 2
      case Selecting => 1
      case Took(_) => 1
      case Starting(_) => 1
      case Waiting(_) => 1
      case TimedOut(_) => 1
      case HandedOver(_) => 1
      case Acknowledged(_) => 1
      case Sending(_) => 1
      case Sent => 1
      case _ => 0
  }

  /** The goroutine has a message in its care: a consumer before the first attempt, an attempt before it hands over. */
  predicate Holding(p: Proc) {
    p.Took? || p.Counted? || p.Starting? || p.Waiting? || p.TimedOut? || p.Recounted?
  }

  function Holds(): Proc -> nat {
    (p: Proc) => if Holding(p) then 1 else 0
  }

  function HoldsMsg(m: nat): Proc -> nat {
    (p: Proc) => if Holding(p) && p.msg == m then 1 else 0
  }

  predicate IsAttempt(p: Proc) {
    p.Starting? || p.Waiting? || p.TimedOut? || p.Recounted? || p.HandedOver? || p.Acknowledged? || p.Over?
  }

  function AttemptsOf(m: nat): Proc -> nat {
    (p: Proc) => if IsAttempt(p) && p.msg == m then 1 else 0
  }

  /** A manager worker between the creation and the return of its Ack. */
  function Pending(m: nat): Proc -> nat {
    (p: Proc) => if (p.Created? || p.Acking?) && p.copy.msg == m then 1 else 0
  }

  // What every step keeps.

  ghost predicate WaitGroupExact(s: State) {
    s.wg == Sum(s.procs, Weight())
  }

  /** A message that was taken is with exactly one goroutine, or acknowledged exactly once. */
  ghost predicate HeldOnce(s: State, m: nat) {
    Sum(s.procs, HoldsMsg(m)) + Times(s.acks, m) == if m < |s.taken| then 1 else 0
  }

  ghost predicate AllHeld(s: State) {
    Sum(s.procs, Holds()) + |s.acks| == |s.taken|
  }

  /** Add and Done match the goroutines' weights, move by move. */
  lemma GainIsWgChange(s: State, i: nat, p: Proc, m: Move)
    ensures var p' := NextProc(s, p, m);
            Gain(p, p', Launched(i, p, p'), Weight()) == WgChange(p, p')
  {
  }

  /** A move hands its message on, except that taking one adds it. */
  lemma GainOfHolding(s: State, i: nat, p: Proc, m: Move, msg: nat)
    ensures var p' := NextProc(s, p, m);
            var takes := p.Selecting? && p'.Took? && m.Take?;
            && Gain(p, p', Launched(i, p, p'), Holds()) == (if takes then 1 else 0)
            && Gain(p, p', Launched(i, p, p'), HoldsMsg(msg)) == (if takes && msg == |s.taken| then 1 else 0)
  {
  }

  lemma ActKeeps(s: State, i: nat, m: Move, msg: nat)
    requires WaitGroupExact(s) && AllHeld(s) && HeldOnce(s, msg) && i < |s.procs|
    ensures WaitGroupExact(ActStep(s, i, m)) && AllHeld(ActStep(s, i, m)) && HeldOnce(ActStep(s, i, m), msg)
  {
    var p, p' := s.procs[i], NextProc(s, s.procs[i], m);
    SumMove(s.procs, i, p', Launched(i, p, p'), Weight());
    SumMove(s.procs, i, p', Launched(i, p, p'), Holds());
    SumMove(s.procs, i, p', Launched(i, p, p'), HoldsMsg(msg));
    GainIsWgChange(s, i, p, m);
    GainOfHolding(s, i, p, m, msg);
    hide NextProc, NextOutput, Gain, WgChange, Launched, Weight, Holds, HoldsMsg;
  }

  /** The acknowledged attempt keeps its weight and gives up its message. */
  lemma MeetSum(s: State, r: nat, at: nat, weight: Proc -> nat)
    requires CanMeet(s, r, at) && weight(s.procs[r]) == weight(Idle(s.procs[r].manager)) == 0
    ensures Sum(MeetStep(s, r, at).procs, weight) + weight(s.procs[at])
            == Sum(s.procs, weight) + weight(Acknowledged(s.procs[at].msg))
  {
    SumMeet(s.procs, r, Idle(s.procs[r].manager), at, Acknowledged(s.procs[at].msg), weight);
  }

  lemma MeetKeeps(s: State, r: nat, at: nat, msg: nat)
    requires WaitGroupExact(s) && AllHeld(s) && HeldOnce(s, msg) && CanMeet(s, r, at)
    ensures var s' := MeetStep(s, r, at);
            WaitGroupExact(s') && AllHeld(s') && HeldOnce(s', msg)
  {
    MeetSum(s, r, at, Weight());
    MeetSum(s, r, at, Holds());
    MeetSum(s, r, at, HoldsMsg(msg));
  }

  lemma QuietKeeps(s: State, s': State, msg: nat)
    requires WaitGroupExact(s) && AllHeld(s) && HeldOnce(s, msg)
    requires s'.wg == s.wg && s'.acks == s.acks && s'.taken == s.taken
    requires s'.procs == s.procs || exists manager :: s'.procs == s.procs + [Idle(manager)]
    ensures WaitGroupExact(s') && AllHeld(s') && HeldOnce(s', msg)
  {
    if s'.procs != s.procs {
      var manager :| s'.procs == s.procs + [Idle(manager)];
      SumAppend(s.procs, Idle(manager), Weight());
      SumAppend(s.procs, Idle(manager), Holds());
      SumAppend(s.procs, Idle(manager), HoldsMsg(msg));
    }
  }

  lemma StepKeeps(s: State, a: Action, msg: nat)
    requires WaitGroupExact(s) && AllHeld(s) && HeldOnce(s, msg)
    ensures WaitGroupExact(Step(s, a)) && AllHeld(Step(s, a)) && HeldOnce(Step(s, a), msg)
  {
    hide ActStep, MeetStep, WaitGroupExact, AllHeld, HeldOnce;
    match a
    case Act(i, m) =>
      if i < |s.procs| {
        ActKeeps(s, i, m, msg);
      }
    case Meet(r, at) =>
      if CanMeet(s, r, at) {
        MeetKeeps(s, r, at, msg);
      }
    case StartReader(_) => QuietKeeps(s, Step(s, a), msg);
    case SignalDone => QuietKeeps(s, Step(s, a), msg);
  }

  lemma {:induction false} SumOfConsumers(n: nat, weight: Proc -> nat, w: nat)
    requires weight(Selecting) == w
    ensures Sum(Init(n).procs, weight) == n * w
  {
    if n > 0 {
      assert Init(n).procs[..n - 1] == Init(n - 1).procs;
      SumOfConsumers(n - 1, weight, w);
    }
  }

  lemma {:induction false} RunKeeps(n: nat, acts: seq<Action>, msg: nat)
    ensures WaitGroupExact(Run(n, acts)) && AllHeld(Run(n, acts)) && HeldOnce(Run(n, acts), msg)
  {
    if acts == [] {
      SumOfConsumers(n, Weight(), 1);
      SumOfConsumers(n, Holds(), 0);
      SumOfConsumers(n, HoldsMsg(msg), 0);
    } else {
      hide Step, WaitGroupExact, AllHeld, HeldOnce;
      RunKeeps(n, acts[..|acts| - 1], msg);
      StepKeeps(Run(n, acts[..|acts| - 1]), acts[|acts| - 1], msg);
    }
  }
}
