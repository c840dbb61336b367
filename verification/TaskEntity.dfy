/** Task values: delivery status, processed event, task, and the string forms they are stored under. */
module TaskEntity {

  datatype Option<+T> = None | Some(value: T)

  type Byte = n: nat | n < 256

  datatype Status = Invalid | NotExecuted | RetriableFailed | UnRetriableFailed | Success {

    predicate CanBeExecuted() {
      NotExecuted? || RetriableFailed?
    }

    predicate IsBroadcast() {
      !Invalid? && !NotExecuted?
    }

    /** A status after which the task must not be delivered again. */
    predicate Terminal() {
      UnRetriableFailed? || Success?
    }

    function ToNumericString(): string {
      match this
      case Invalid => "0"
      case NotExecuted => "1"
      case RetriableFailed => "2"
      case UnRetriableFailed => "3"
      case Success => "4"
    }
  }

  function FromNumericString(s: string): Status {
    if s == "1" then NotExecuted
    else if s == "2" then RetriableFailed
    else if s == "3" then UnRetriableFailed
    else if s == "4" then Success
    else Invalid
  }

  function TaskID(messageID: string, integrationID: string): string {
    messageID + "-" + integrationID
  }

  /** `payload` stands for every field the protocol only carries along. */
  datatype ProcessedEvent = ProcessedEvent(messageID: string, integrationID: string, slug: string, payload: string) {

    function ID(): string {
      TaskID(messageID, integrationID)
    }

    function DestinationType(): string {
      slug
    }
  }

  /** Go's zero value: what a task created by the repository carries as its event. */
  const NoEvent := ProcessedEvent("", "", "", "")

  datatype Task = Task(id: string, status: Status, attempts: Byte, failedReason: Option<string>, event: ProcessedEvent)

  function MakeTask(e: ProcessedEvent): Task {
    Task(e.ID(), NotExecuted, 0, None, e)
  }

  datatype RawResponse = RawResponse(status: Status, attempts: Byte, failedReason: Option<string>)

  predicate Reported(status: Status) {
    status.RetriableFailed? || status.UnRetriableFailed? || status.Success?
  }

  /** Delivery handlers answer with one of three statuses. */
  type Response = r: RawResponse | Reported(r.status) witness RawResponse(Success, 0, None)

  /** The webhook handler: always a success, one more attempt, in uint8 arithmetic. */
  function WebhookHandle(t: Task): Response {
    RawResponse(Success, (t.attempts + 1) % 256, None)
  }

  /** The numeric strings are the statuses' positions, read back exactly; anything else reads as invalid. */
  lemma NumericStringsRoundTrip(status: Status, s: string)
    ensures FromNumericString(status.ToNumericString()) == status
    ensures FromNumericString(s) != Invalid ==> FromNumericString(s).ToNumericString() == s
    ensures var statuses := [Invalid, NotExecuted, RetriableFailed, UnRetriableFailed, Success];
            forall i | 0 <= i < |statuses| :: statuses[i].ToNumericString() == ["01234"[i]]
  {
    var statuses := [Invalid, NotExecuted, RetriableFailed, UnRetriableFailed, Success];
    forall i | 0 <= i < |statuses| ensures statuses[i].ToNumericString() == ["01234"[i]] {
      assert i == 0 || i == 1 || i == 2 || i == 3 || i == 4;
    }
  }

  /** What a handler can report either lets the task be executed again or ends it. */
  lemma ReportedIsExecutableOrTerminal(status: Status)
    requires Reported(status)
    ensures status.CanBeExecuted() <==> !status.Terminal()
  {
  }

  function EventOf(messageID: string, integrationID: string): ProcessedEvent {
    ProcessedEvent(messageID, integrationID, "", "")
  }

  /** No two events with these message IDs share a task ID without sharing message and integration. */
  ghost predicate NeverConfused(m1: string, m2: string) {
    forall e1: ProcessedEvent, e2: ProcessedEvent | e1.messageID == m1 && e2.messageID == m2 ::
      e1.ID() == e2.ID() ==> m1 == m2 && e1.integrationID == e2.integrationID
  }

  /** The colliding family: every integration of the longer message ID has its double under the shorter one. */
  lemma PrefixCollides(short: string, long: string, i: string)
    requires short + "-" <= long
    ensures TaskID(short, long[|short| + 1..] + "-" + i) == TaskID(long, i)
    ensures !NeverConfused(short, long) && !NeverConfused(long, short)
  {
    var rest := long[|short| + 1..];
    assert long == short + "-" + rest;
    assert TaskID(short, rest + "-" + i) == TaskID(long, i);
    assert EventOf(short, rest + "-" + i).ID() == EventOf(long, i).ID();
  }

  lemma SameIDLongerMessage(m1: string, i1: string, m2: string, i2: string)
    requires TaskID(m1, i1) == TaskID(m2, i2) && |m1| < |m2|
    ensures m1 + "-" <= m2
  {
    var whole := TaskID(m1, i1);
    assert whole[..|m1| + 1] == m1 + "-";
    assert whole[..|m2|] == m2;
    assert m2[..|m1| + 1] == m1 + "-";
  }

  lemma SameIDSameMessage(m1: string, i1: string, m2: string, i2: string)
    requires TaskID(m1, i1) == TaskID(m2, i2) && |m1| == |m2|
    ensures m1 == m2 && i1 == i2
  {
    var whole := TaskID(m1, i1);
    assert m1 == whole[..|m1|] && m2 == whole[..|m2|];
    assert i1 == whole[|m1| + 1..] && i2 == whole[|m2| + 1..];
  }

  /** Task IDs tell two message IDs apart exactly when neither starts with the other and a dash. */
  lemma IDsInjectiveExactlyWhen(m1: string, m2: string)
    ensures NeverConfused(m1, m2) <==> !(m1 + "-" <= m2) && !(m2 + "-" <= m1)
  {
    if m1 + "-" <= m2 {
      PrefixCollides(m1, m2, "");
    } else if m2 + "-" <= m1 {
      PrefixCollides(m2, m1, "");
    } else {
      forall e1: ProcessedEvent, e2: ProcessedEvent | e1.messageID == m1 && e2.messageID == m2 && e1.ID() == e2.ID()
        ensures m1 == m2 && e1.integrationID == e2.integrationID
      {
        var i1, i2 := e1.integrationID, e2.integrationID;
        if |m1| < |m2| {
          SameIDLongerMessage(m1, i1, m2, i2);
        } else if |m2| < |m1| {
          SameIDLongerMessage(m2, i2, m1, i1);
        } else {
          SameIDSameMessage(m1, i1, m2, i2);
        }
      }
    }
  }

  lemma PrefixCarriesDash(short: string, long: string)
    ensures short + "-" <= long ==> '-' in long
  {
    if short + "-" <= long {
      assert long[|short|] == (short + "-")[|short|];
    }
  }

  /** In particular, dash-free message IDs never share a task ID. */
  lemma DashFreeIDsInjective(m1: string, m2: string)
    requires '-' !in m1 && '-' !in m2
    ensures NeverConfused(m1, m2)
  {
    PrefixCarriesDash(m1, m2);
    PrefixCarriesDash(m2, m1);
    IDsInjectiveExactlyWhen(m1, m2);
  }

  lemma SameIDLongerIntegration(m1: string, i1: string, m2: string, i2: string)
    requires TaskID(m1, i1) == TaskID(m2, i2)
    ensures |m1| < |m2| ==> '-' in i1
  {
    if |m1| < |m2| {
      assert TaskID(m1, i1)[|m2|] == i1[|m2| - |m1| - 1] && TaskID(m2, i2)[|m2|] == '-';
    }
  }

  /** Nor do any message IDs, when it is the integration IDs that are dash-free. */
  lemma DashFreeIntegrationsInjective(m1: string, i1: string, m2: string, i2: string)
    requires '-' !in i1 && '-' !in i2 && TaskID(m1, i1) == TaskID(m2, i2)
    ensures m1 == m2 && i1 == i2
  {
    SameIDLongerIntegration(m1, i1, m2, i2);
    SameIDLongerIntegration(m2, i2, m1, i1);
    SameIDSameMessage(m1, i1, m2, i2);
  }
}
