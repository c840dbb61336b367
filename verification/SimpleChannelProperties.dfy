/** What the in-process channel promises in every run, across timeouts and after `done`. */
module SimpleChannelProperties {
  import opened SimpleChannel
  import opened Sums
  import opened Runs

  predicate HoldsAt(s: State, i: int, m: nat) {
    0 <= i < |s.procs| && Holding(s.procs[i]) && s.procs[i].msg == m
  }

  /**
   Conservation: a message that was taken is, at all times, either acknowledged, by exactly one
   returned Ack, and then with nobody; or not acknowledged, and then with exactly one goroutine.
   */
  lemma EveryMessageIsInOnePlace(n: nat, acts: seq<Action>, m: nat)
    requires m < |Run(n, acts).taken|
    ensures var s := Run(n, acts);
            && Times(s.acks, m) <= 1
            && (m in s.acks ==> forall i :: !HoldsAt(s, i, m))
            && (m !in s.acks ==> exists i :: HoldsAt(s, i, m) && forall j | HoldsAt(s, j, m) :: j == i)
  {
    var s := Run(n, acts);
    RunKeeps(n, acts, m);
    hide Run;
    forall i | HoldsAt(s, i, m) ensures Sum(s.procs, HoldsMsg(m)) >= 1 {
      SumAtLeast(s.procs, i, HoldsMsg(m));
    }
    if m !in s.acks {
      var i := SumWitness(s.procs, HoldsMsg(m));
      forall j | HoldsAt(s, j, m) ensures j == i {
        OnlyOne(s.procs, i, j, HoldsMsg(m));
      }
      assert HoldsAt(s, i, m);
    }
  }

  /** The WaitGroup is never negative and never below the number of unacknowledged messages. */
  lemma WaitGroupCoversMessages(n: nat, acts: seq<Action>)
    ensures 0 <= |Run(n, acts).taken| - |Run(n, acts).acks| <= Run(n, acts).wg
  {
    RunKeeps(n, acts, 0);
    hide Run;
    SumMonotone(Run(n, acts).procs, Holds(), Weight());
  }

  /** A consumer, at work or stopped. */
  function Consuming(): Proc -> nat {
    (p: Proc) => if p.Selecting? || p.Took? || p.Counted? || p.Stopped? then 1 else 0
  }

  ghost predicate Consumed(s: State, n: nat) {
    && Sum(s.procs, Consuming()) == n
    && (forall p <- s.procs :: p.Stopped? ==> s.done)
  }

  lemma NextOfConsumer(s: State, i: nat, p: Proc, m: Move)
    ensures var p' := NextProc(s, p, m);
            && Gain(p, p', Launched(i, p, p'), Consuming()) == 0
            && (p'.Stopped? ==> p.Stopped? || s.done)
            && (forall q <- Launched(i, p, p') :: !q.Stopped?)
  {
  }

  lemma StepConsumed(s: State, a: Action, n: nat)
    requires Consumed(s, n)
    ensures Consumed(Step(s, a), n)
  {
    match a
    case Act(i, m) =>
      if i < |s.procs| {
        ActConsumed(s, i, m, n);
      }
      hide ActStep, Consumed;
    case Meet(r, at) =>
      if CanMeet(s, r, at) {
        SumMeet(s.procs, r, Idle(s.procs[r].manager), at, Acknowledged(s.procs[at].msg), Consuming());
      }
    case StartReader(manager) => SumAppend(s.procs, Idle(manager), Consuming());
    case SignalDone =>
  }

  lemma ActConsumed(s: State, i: nat, m: Move, n: nat)
    requires Consumed(s, n) && i < |s.procs|
    ensures Consumed(ActStep(s, i, m), n)
  {
    var p, p' := s.procs[i], NextProc(s, s.procs[i], m);
    SumMove(s.procs, i, p', Launched(i, p, p'), Consuming());
    NextOfConsumer(s, i, p, m);
    hide NextProc, Launched, WgChange, NextOutput, Consuming;
    assert p in s.procs;
  }

  lemma {:induction false} RunConsumed(n: nat, acts: seq<Action>)
    ensures Consumed(Run(n, acts), n)
  {
    if acts == [] {
      SumOfConsumers(n, Consuming(), 1);
    } else {
      hide Step, Consumed;
      RunConsumed(n, acts[..|acts| - 1]);
      StepConsumed(Run(n, acts[..|acts| - 1]), acts[|acts| - 1], n);
    }
  }

  /** The consumers are there, all of them, and none of them stops before `done`. */
  lemma ConsumersStay(n: nat, acts: seq<Action>)
    ensures Sum(Run(n, acts).procs, Consuming()) == n
    ensures !Run(n, acts).done ==> Stopped !in Run(n, acts).procs
  {
    RunConsumed(n, acts);
    hide Run;
  }

  predicate IsReader(p: Proc) {
    p.Idle? || p.Got? || p.Created? || p.Acking?
  }

  /** Returned, never counted (a reader), or about to offer a copy and not counted yet. */
  predicate Weightless(p: Proc) {
    p.Stopped? || p.Over? || p.Published? || p.Offering? || IsReader(p)
  }

  /**
   The WaitGroup is at zero if and only if every goroutine of the channel has returned or is about
   to offer a copy it is not yet counted for; then every message taken is acknowledged.
   */
  lemma WaitGroupZeroExactlyWhen(n: nat, acts: seq<Action>)
    ensures var s := Run(n, acts);
            && (s.wg == 0 <==> forall p <- s.procs :: Weightless(p))
            && (s.wg == 0 ==> |s.acks| == |s.taken|)
  {
    RunKeeps(n, acts, 0);
    WaitGroupCoversMessages(n, acts);
    hide Run;
    SumZeroExactlyWhen(Run(n, acts).procs, Weight());
    assert forall p :: Weight()(p) == 0 <==> Weightless(p);
  }

  // After the acknowledgement.

  /** Only who holds the message can launch an attempt for it. */
  lemma GainOfAttempts(s: State, i: nat, p: Proc, move: Move, m: nat)
    requires !(Holding(p) && p.msg == m)
    ensures var p' := NextProc(s, p, move);
            Gain(p, p', Launched(i, p, p'), AttemptsOf(m)) == 0
  {
  }

  lemma ActAfterAck(s: State, i: nat, move: Move, m: nat)
    requires HeldOnce(s, m) && m in s.acks && m < |s.taken| && i < |s.procs|
    ensures var s' := ActStep(s, i, move);
            m in s'.acks && m < |s'.taken| && Sum(s'.procs, AttemptsOf(m)) == Sum(s.procs, AttemptsOf(m))
  {
    SumAtLeast(s.procs, i, HoldsMsg(m));
    var p, p' := s.procs[i], NextProc(s, s.procs[i], move);
    SumMove(s.procs, i, p', Launched(i, p, p'), AttemptsOf(m));
    GainOfAttempts(s, i, p, move, m);
    hide NextProc, Gain, WgChange, Launched, AttemptsOf, HoldsMsg;
  }

  lemma MeetAfterAck(s: State, r: nat, at: nat, m: nat)
    requires m in s.acks && CanMeet(s, r, at)
    ensures m in MeetStep(s, r, at).acks
    ensures Sum(MeetStep(s, r, at).procs, AttemptsOf(m)) == Sum(s.procs, AttemptsOf(m))
  {
    SumMeet(s.procs, r, Idle(s.procs[r].manager), at, Acknowledged(s.procs[at].msg), AttemptsOf(m));
  }

  ghost predicate AckedWith(s: State, m: nat, attempts: nat) {
    m in s.acks && m < |s.taken| && Sum(s.procs, AttemptsOf(m)) == attempts
  }

  lemma StepAfterAck(s: State, a: Action, m: nat, attempts: nat)
    requires HeldOnce(s, m) && AckedWith(s, m, attempts)
    ensures AckedWith(Step(s, a), m, attempts)
  {
    hide ActStep, AttemptsOf, HeldOnce;
    match a
    case Act(i, move) =>
      if i < |s.procs| {
        ActAfterAck(s, i, move, m);
      }
    case Meet(r, at) =>
      if CanMeet(s, r, at) {
        MeetAfterAck(s, r, at, m);
      }
    case StartReader(manager) => ReaderAfterAck(s, manager, m);
    case SignalDone =>
  }

  lemma ReaderAfterAck(s: State, manager: bool, m: nat)
    ensures Sum(s.procs + [Idle(manager)], AttemptsOf(m)) == Sum(s.procs, AttemptsOf(m))
  {
    SumAppend(s.procs, Idle(manager), AttemptsOf(m));
  }

  lemma {:induction false} StaysAcked(n: nat, acts: seq<Action>, more: seq<Action>, m: nat, attempts: nat)
    requires AckedWith(Run(n, acts), m, attempts)
    ensures AckedWith(Run(n, acts + more), m, attempts)
    decreases |more|
  {
    hide Step, HeldOnce, AckedWith;
    if more == [] {
      assert acts + more == acts;
    } else {
      var k := |more| - 1;
      assert (acts + more)[..|acts| + k] == acts + more[..k];
      StaysAcked(n, acts, more[..k], m, attempts);
      RunKeeps(n, acts + more[..k], m);
      StepAfterAck(Run(n, acts + more[..k]), more[k], m, attempts);
    }
  }

  /** Once a message is acknowledged, no run ever starts another attempt for it. */
  lemma NoAttemptAfterAck(n: nat, acts: seq<Action>, more: seq<Action>, m: nat)
    requires m in Run(n, acts).acks && m < |Run(n, acts).taken|
    ensures Sum(Run(n, acts + more).procs, AttemptsOf(m)) == Sum(Run(n, acts).procs, AttemptsOf(m))
  {
    hide Run, AttemptsOf;
    StaysAcked(n, acts, more, m, Sum(Run(n, acts).procs, AttemptsOf(m)));
  }

  // When an Ack returns.

  /** An attempt past its select: nobody will ever receive on its channel. */
  predicate Late(p: Proc) {
    p.TimedOut? || p.Recounted? || p.HandedOver? || p.Acknowledged? || p.Over?
  }

  /** The copy belongs to an attempt for its message that has reached its select. */
  predicate Genuine(procs: seq<Proc>, c: Copy) {
    && c.attempt < |procs| && (procs[c.attempt].Waiting? || Late(procs[c.attempt]))
    && procs[c.attempt].msg == c.msg
  }

  predicate HasCopy(p: Proc) {
    p.Offering? || p.Sending? || p.Got? || p.Created? || p.Acking?
  }

  ghost predicate Coherent(s: State) {
    && (forall i | 0 <= i < |s.procs| && HasCopy(s.procs[i]) :: Genuine(s.procs, s.procs[i].copy))
    && (forall j | 0 <= j < |s.output| :: Genuine(s.procs, s.output[j]))
  }

  /** Past its start, an attempt stays an attempt for its message, and stays past its start. */
  predicate Onward(p: Proc, p': Proc) {
    p.Waiting? || Late(p) ==> (p'.Waiting? || Late(p')) && p'.msg == p.msg
  }

  lemma GenuineStays(procs: seq<Proc>, procs': seq<Proc>, c: Copy)
    requires Genuine(procs, c) && |procs| <= |procs'| && Onward(procs[c.attempt], procs'[c.attempt])
    ensures Genuine(procs', c)
  {
  }

  lemma NextOfAttempt(s: State, i: nat, p: Proc, m: Move)
    ensures var p' := NextProc(s, p, m);
            && Onward(p, p')
            && (p.Starting? && p'.Waiting? ==> p'.msg == p.msg)
            && (HasCopy(p') ==>
                  || (HasCopy(p) && p'.copy == p.copy)
                  || (m.Receive? && m.j < |s.output| && p'.copy == s.output[m.j]))
            && (IsReader(p') ==> IsReader(p) && p'.manager == p.manager)
  {
  }

  lemma ActCoherent(s: State, i: nat, m: Move)
    requires Coherent(s) && i < |s.procs|
    ensures Coherent(ActStep(s, i, m))
  {
    var s' := ActStep(s, i, m);
    NextOfAttempt(s, i, s.procs[i], m);
    hide NextProc, WgChange;
    forall c | Genuine(s.procs, c) ensures Genuine(s'.procs, c) {
      GenuineStays(s.procs, s'.procs, c);
    }
  }

  lemma StepCoherent(s: State, a: Action)
    requires Coherent(s)
    ensures Coherent(Step(s, a))
  {
    if a.Act? && a.i < |s.procs| {
      ActCoherent(s, a.i, a.move);
    } else {
      var s' := Step(s, a);
      hide ActStep;
      forall c | Genuine(s.procs, c) ensures Genuine(s'.procs, c) {
        GenuineStays(s.procs, s'.procs, c);
      }
    }
  }

  lemma {:induction false} RunCoherent(n: nat, acts: seq<Action>)
    ensures Coherent(Run(n, acts))
  {
    if acts == [] {
      assert Coherent(Init(n));
    } else {
      hide Step, Coherent;
      RunCoherent(n, acts[..|acts| - 1]);
      StepCoherent(Run(n, acts[..|acts| - 1]), acts[|acts| - 1]);
    }
  }

  /** A reader inside the Ack of an attempt that is past its select. */
  predicate Stuck(s: State, r: nat) {
    && r < |s.procs| && s.procs[r].Acking?
    && s.procs[r].copy.attempt < |s.procs| && Late(s.procs[s.procs[r].copy.attempt])
  }

  lemma StepStuck(s: State, a: Action, r: nat)
    requires Stuck(s, r)
    ensures Stuck(Step(s, a), r) && Step(s, a).procs[r] == s.procs[r]
  {
  }

  /** An Ack on an attempt that is past its select never returns, whatever happens afterwards. */
  lemma {:induction false} LateAckNeverReturns(s: State, acts: seq<Action>, r: nat)
    requires Stuck(s, r)
    ensures Stuck(RunFrom(s, acts), r) && RunFrom(s, acts).procs[r] == s.procs[r]
    decreases |acts|
  {
    if acts != [] {
      hide Step;
      LateAckNeverReturns(s, acts[..|acts| - 1], r);
      StepStuck(RunFrom(s, acts[..|acts| - 1]), acts[|acts| - 1], r);
    }
  }

  /** The run `more` takes the reader out of its Ack, with the acknowledgement of its message. */
  predicate Releases(s: State, more: seq<Action>, r: nat)
    requires r < |s.procs| && s.procs[r].Acking?
  {
    var s' := RunFrom(s, more);
    r < |s'.procs| && s'.procs[r] == Idle(s.procs[r].manager) && s'.acks == s.acks + [s.procs[r].copy.msg]
  }

  /**
   When an Ack returns: in every run, a reader inside Ack can be released by some continuation if
   and only if its attempt has not left its select; otherwise no continuation ever moves it.
   */
  lemma AckReturnsExactlyWhen(n: nat, acts: seq<Action>, r: nat)
    requires r < |Run(n, acts).procs| && Run(n, acts).procs[r].Acking?
    ensures var s := Run(n, acts);
            var at := s.procs[r].copy.attempt;
            && at < |s.procs|
            && ((exists more :: Releases(s, more, r)) <==> !Late(s.procs[at]))
            && (Late(s.procs[at]) ==>
                  forall more :: r < |RunFrom(s, more).procs| && RunFrom(s, more).procs[r] == s.procs[r])
  {
    RunCoherent(n, acts);
    var s := Run(n, acts);
    hide Run;
    var at := s.procs[r].copy.attempt;
    assert Genuine(s.procs, s.procs[r].copy);
    if Late(s.procs[at]) {
      hide RunFrom;
      forall more ensures r < |RunFrom(s, more).procs| && RunFrom(s, more).procs[r] == s.procs[r] {
        LateAckNeverReturns(s, more, r);
      }
    } else {
      FoldOneMore(Step, s, [], Meet(r, at));
      assert [] + [Meet(r, at)] == [Meet(r, at)];
      assert RunFrom(s, [Meet(r, at)]) == MeetStep(s, r, at);
      assert Releases(s, [Meet(r, at)], r);
    }
  }
}
