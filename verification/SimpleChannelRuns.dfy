/** Runs of the in-process channel that show what can go wrong: an uncounted offer, and an Ack that never returns. */
module SimpleChannelRuns {
  import opened SimpleChannel
  import opened SimpleChannelProperties
  import opened ManagerWorker
  import opened Runs

  lemma OneMore(acts: seq<Action>, a: Action) returns (acts': seq<Action>)
    ensures acts' == acts + [a] && Run(1, acts') == Step(Run(1, acts), a)
  {
    hide Step;
    acts' := acts + [a];
    FoldOneMore(Step, Init(1), acts, a);
  }

  lemma Launch(body: string) returns (acts: seq<Action>)
    ensures OnlyManagers(acts)
    ensures Run(1, acts) == State(false, 2, [body], [Selecting, Starting(0)], [], [], [])
  {
    assert Run(1, []).procs == [Selecting];
    hide Run;
    acts := OneMore([], Act(0, Take(body)));
    assert Run(1, acts).procs == [Took(0)];
    acts := OneMore(acts, Act(0, Go));
    assert Run(1, acts).procs == [Counted(0)];
    acts := OneMore(acts, Act(0, Go));
    assert Run(1, acts).procs == [Selecting, Starting(0)];
  }

  /** One consumer, one message, offered on the output by its first attempt. */
  lemma Offer(body: string) returns (acts: seq<Action>)
    ensures OnlyManagers(acts)
    ensures Run(1, acts) == State(false, 3, [body], [Selecting, Waiting(0), Sent], [Copy(1, 0)], [], [])
  {
    hide Run;
    acts := Launch(body);
    acts := OneMore(acts, Act(1, Go));
    assert Run(1, acts).procs == [Selecting, Waiting(0), Offering(Copy(1, 0))];
    acts := OneMore(acts, Act(2, Go));
    assert Run(1, acts).procs == [Selecting, Waiting(0), Sending(Copy(1, 0))];
    acts := OneMore(acts, Act(2, Go));
    assert Run(1, acts).procs == [Selecting, Waiting(0), Sent];
  }

  /** A manager's worker has read the message and created its project. */
  lemma CreateProject(body: string) returns (acts: seq<Action>)
    ensures OnlyManagers(acts)
    ensures var procs := [Selecting, Waiting(0), Sent, Created(true, Copy(1, 0))];
            Run(1, acts) == State(false, 3, [body], procs, [], [], [0])
  {
    hide Run;
    acts := Offer(body);
    acts := OneMore(acts, StartReader(true));
    acts := OneMore(acts, Act(3, Receive(0)));
    assert Run(1, acts).procs == [Selecting, Waiting(0), Sent, Got(true, Copy(1, 0))];
    acts := OneMore(acts, Act(3, Create(true)));
    assert Run(1, acts).procs == [Selecting, Waiting(0), Sent, Created(true, Copy(1, 0))];
  }

  /** One message, one timeout: the manager's worker has created its project and waits in Ack for ever. */
  lemma ManagerCanBlock(body: string) returns (acts: seq<Action>)
    ensures OnlyManagers(acts) && Run(1, acts).creates == [0] && Run(1, acts).acks == []
    ensures |Run(1, acts).procs| == 4 && Run(1, acts).procs[3] == Acking(true, Copy(1, 0))
    ensures forall more :: var s := RunFrom(Run(1, acts), more);
                           3 < |s.procs| && s.procs[3] == Acking(true, Copy(1, 0))
  {
    hide Run;
    acts := CreateProject(body);
    acts := OneMore(acts, Act(3, Go));
    assert Run(1, acts).procs == [Selecting, Waiting(0), Sent, Acking(true, Copy(1, 0))];
    acts := OneMore(acts, Act(1, TimeOut));
    var s := Run(1, acts);
    assert s.procs == [Selecting, TimedOut(0), Sent, Acking(true, Copy(1, 0))];
    hide Step, RunFrom;
    forall more ensures 3 < |RunFrom(s, more).procs| && RunFrom(s, more).procs[3] == Acking(true, Copy(1, 0)) {
      LateAckNeverReturns(s, more, 3);
    }
  }

  /** The first attempt times out before its copy is offered, and hands over to a second one. */
  lemma HandOver(body: string) returns (acts: seq<Action>)
    ensures Run(1, acts) == State(false, 2, [body], [Selecting, Over(0), Offering(Copy(1, 0)), Starting(0)], [], [], [])
  {
    hide Run;
    acts := Launch(body);
    acts := OneMore(acts, Act(1, Go));
    assert Run(1, acts).procs == [Selecting, Waiting(0), Offering(Copy(1, 0))];
    acts := OneMore(acts, Act(1, TimeOut));
    assert Run(1, acts).procs == [Selecting, TimedOut(0), Offering(Copy(1, 0))];
    acts := OneMore(acts, Act(1, Go));
    assert Run(1, acts).procs == [Selecting, Recounted(0), Offering(Copy(1, 0))];
    acts := OneMore(acts, Act(1, Go));
    assert Run(1, acts).procs == [Selecting, HandedOver(0), Offering(Copy(1, 0)), Starting(0)];
    acts := OneMore(acts, Act(1, Go));
    assert Run(1, acts).procs == [Selecting, Over(0), Offering(Copy(1, 0)), Starting(0)];
  }

  /** The second attempt's copy is offered and read. */
  lemma OfferAgain(body: string) returns (acts: seq<Action>)
    ensures var procs := [Selecting, Over(0), Offering(Copy(1, 0)), Waiting(0), Published, Idle(false)];
            Run(1, acts) == State(false, 2, [body], procs, [Copy(3, 0)], [], [])
  {
    hide Run;
    acts := HandOver(body);
    acts := OneMore(acts, Act(3, Go));
    assert Run(1, acts).procs == [Selecting, Over(0), Offering(Copy(1, 0)), Waiting(0), Offering(Copy(3, 0))];
    acts := OneMore(acts, Act(4, Go));
    assert Run(1, acts).procs == [Selecting, Over(0), Offering(Copy(1, 0)), Waiting(0), Sending(Copy(3, 0))];
    acts := OneMore(acts, Act(4, Go));
    assert Run(1, acts).procs == [Selecting, Over(0), Offering(Copy(1, 0)), Waiting(0), Sent];
    acts := OneMore(acts, Act(4, Go));
    acts := OneMore(acts, StartReader(false));
    assert Run(1, acts).procs == [Selecting, Over(0), Offering(Copy(1, 0)), Waiting(0), Published, Idle(false)];
  }

  /** The reader receives, ... */
  lemma ReadAgain(body: string) returns (acts: seq<Action>)
    ensures var procs := [Selecting, Over(0), Offering(Copy(1, 0)), Waiting(0), Published, Got(false, Copy(3, 0))];
            Run(1, acts) == State(false, 2, [body], procs, [], [], [])
  {
    hide Run;
    acts := OfferAgain(body);
    var procs := Run(1, acts).procs;
    acts := OneMore(acts, Act(5, Receive(0)));
    assert Run(1, acts).procs == procs[5 := Got(false, Copy(3, 0))];
  }

  /** ... calls Ack, ... */
  lemma CallAgain(body: string) returns (acts: seq<Action>)
    ensures var procs := [Selecting, Over(0), Offering(Copy(1, 0)), Waiting(0), Published, Acking(false, Copy(3, 0))];
            Run(1, acts) == State(false, 2, [body], procs, [], [], [])
  {
    hide Run;
    acts := ReadAgain(body);
    var procs := Run(1, acts).procs;
    acts := OneMore(acts, Act(5, SkipCreate));
    assert Run(1, acts).procs == procs[5 := Created(false, Copy(3, 0))];
    acts := OneMore(acts, Act(5, Go));
    assert Run(1, acts).procs == procs[5 := Acking(false, Copy(3, 0))];
  }

  /** ... and the second attempt ends. */
  lemma AckAgain(body: string) returns (acts: seq<Action>)
    ensures var procs := [Selecting, Over(0), Offering(Copy(1, 0)), Over(0), Published, Idle(false)];
            Run(1, acts) == State(false, 1, [body], procs, [], [0], [])
  {
    hide Run;
    acts := CallAgain(body);
    var procs := Run(1, acts).procs;
    acts := OneMore(acts, Meet(5, 3));
    assert Run(1, acts).procs == procs[5 := Idle(false)][3 := Acknowledged(0)];
    acts := OneMore(acts, Act(3, Go));
    assert Run(1, acts).procs == procs[5 := Idle(false)][3 := Over(0)];
  }

  /**
   The WaitGroup can be at zero, with the only message acknowledged and the consumer stopped, while
   the first attempt's copy is still to be offered and counted.
   */
  lemma OfferIsNotCovered(body: string) returns (acts: seq<Action>)
    ensures var s := Run(1, acts);
            && s.wg == 0 && s.done && s.taken == [body] && s.acks == [0]
            && s.procs == [Stopped, Over(0), Offering(Copy(1, 0)), Over(0), Published, Idle(false)]
  {
    hide Run;
    acts := AckAgain(body);
    acts := OneMore(acts, SignalDone);
    acts := OneMore(acts, Act(0, Stop));
  }
}
