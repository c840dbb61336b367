/** Kind and message lookup along a chain of wrapped errors. */
module RichErrors {
  import opened TaskEntity

  /** A Go error: plain, wrapping another one (and unwrapping to it), or a RichError. */
  datatype Error =
    | Plain(text: string)
    | Wrapping(text: string, inner: Error)
    | Rich(operation: string, wrapped: Option<Error>, message: string, kind: int)
  {
    /** The text of its Error method. */
    function Text(): string {
      if Rich? then message else text
    }
  }

  function Depth(e: Error): nat {
    match e
    case Plain(_) => 1
    case Wrapping(_, inner) => 1 + Depth(inner)
    case Rich(_, wrapped, _, _) => 1 + if wrapped.None? then 0 else Depth(wrapped.value)
  }

  /** Length of the chain from here on. */
  function Length(e: Option<Error>): nat {
    if e.None? then 0 else Depth(e.value)
  }

  /** errors.As with a RichError target: the first RichError that unwrapping leads to. */
  function AsRich(e: Option<Error>): (r: Option<Error>)
    ensures r.Some? ==> r.value.Rich? && Length(r) <= Length(e)
    decreases Length(e)
  {
    match e
    case None => None
    case Some(Plain(_)) => None
    case Some(Wrapping(_, inner)) => AsRich(Some(inner))
    case Some(Rich(_, _, _, _)) => e
  }

  function Kind(r: Error): int
    requires r.Rich?
    decreases Length(Some(r))
  {
    if r.kind != 0 then r.kind
    else
      var next := AsRich(r.wrapped);
      if next.None? then 0 else Kind(next.value)
  }

  /** None where the code calls a method of a nil error, which panics. */
  function Message(r: Error): Option<string>
    requires r.Rich?
    decreases Length(Some(r))
  {
    if r.message != "" then Some(r.message)
    else
      var next := AsRich(r.wrapped);
      if next.Some? then Message(next.value)
      else if r.wrapped.None? then None
      else Some(r.wrapped.value.Text())
  }

  // The chain, laid out.

  /** The RichErrors of a chain, from the outside in. */
  function Riches(e: Option<Error>): seq<Error>
    decreases Length(e)
  {
    match e
    case None => []
    case Some(Plain(_)) => []
    case Some(Wrapping(_, inner)) => Riches(Some(inner))
    case Some(Rich(_, wrapped, _, _)) => [e.value] + Riches(wrapped)
  }

  lemma {:induction false} RichesFrom(e: Option<Error>)
    ensures Riches(e) == if AsRich(e).None? then [] else Riches(AsRich(e))
    decreases Length(e)
  {
    if e.Some? && e.value.Wrapping? {
      RichesFrom(Some(e.value.inner));
    }
  }

  lemma RichesOf(r: Error)
    requires r.Rich?
    ensures Riches(Some(r)) == [r] + if AsRich(r.wrapped).None? then [] else Riches(AsRich(r.wrapped))
  {
    RichesFrom(r.wrapped);
  }

  /** Every error of the chain in `rs` before position `k` has no kind. */
  predicate FirstKindAt(rs: seq<Error>, k: nat) {
    k < |rs| && rs[k].Rich? && rs[k].kind != 0 && forall j | 0 <= j < k :: rs[j].Rich? && rs[j].kind == 0
  }

  /** The kind of a chain is its first non-zero kind from the outside in, and 0 when there is none. */
  lemma {:induction false} KindIsFirstInChain(r: Error)
    requires r.Rich?
    ensures forall k: nat | FirstKindAt(Riches(Some(r)), k) :: Kind(r) == Riches(Some(r))[k].kind
    ensures Kind(r) != 0 ==> exists k: nat :: FirstKindAt(Riches(Some(r)), k)
    decreases Length(Some(r))
  {
    RichesOf(r);
    var rs, next := Riches(Some(r)), AsRich(r.wrapped);
    if r.kind != 0 {
      assert FirstKindAt(rs, 0);
    } else if next.Some? {
      KindIsFirstInChain(next.value);
      var rest := Riches(next);
      forall k: nat | FirstKindAt(rs, k) ensures k > 0 && FirstKindAt(rest, k - 1) {
        forall j | 0 <= j < k - 1 ensures rest[j].Rich? && rest[j].kind == 0 {
          assert rest[j] == rs[j + 1];
        }
      }
      if k: nat :| FirstKindAt(rest, k) {
        assert FirstKindAt(rs, k + 1);
      }
    }
  }

  /** The innermost RichError of the chain; what it wraps, if anything, holds no RichError. */
  function Innermost(r: Error): Error
    requires r.Rich?
  {
    Riches(Some(r))[|Riches(Some(r))| - 1]
  }

  predicate SomeMessage(r: Error) {
    exists x <- Riches(Some(r)) :: x.Rich? && x.message != ""
  }

  lemma {:induction false} RichesAreRich(e: Option<Error>)
    ensures forall x <- Riches(e) :: x.Rich?
    decreases Length(e)
  {
    if e.Some? && e.value.Wrapping? {
      RichesAreRich(Some(e.value.inner));
    } else if e.Some? && e.value.Rich? {
      RichesAreRich(e.value.wrapped);
    }
  }

  /**
   The lookup does not panic exactly when some RichError of the chain has a message or the chain
   ends in an error that is not nil and not a RichError; in the latter case, without any message,
   it returns that error's text.
   */
  lemma {:induction false} MessageDefinedExactlyWhen(r: Error)
    requires r.Rich?
    ensures Innermost(r).Rich?
    ensures Message(r).Some? <==> SomeMessage(r) || Innermost(r).wrapped.Some?
    ensures !SomeMessage(r) && Innermost(r).wrapped.Some? ==> Message(r) == Some(Innermost(r).wrapped.value.Text())
    decreases Length(Some(r))
  {
    RichesOf(r);
    RichesAreRich(Some(r));
    var next := AsRich(r.wrapped);
    assert r in Riches(Some(r));
    if next.Some? {
      MessageDefinedExactlyWhen(next.value);
      assert forall x :: x in Riches(Some(r)) <==> x == r || x in Riches(next);
    }
  }

  predicate FirstMessageAt(rs: seq<Error>, k: nat) {
    k < |rs| && rs[k].Rich? && rs[k].message != "" && forall j | 0 <= j < k :: rs[j].Rich? && rs[j].message == ""
  }

  /** And where a RichError has a message, the outermost such message is the one returned. */
  lemma {:induction false} MessageIsFirstInChain(r: Error, k: nat)
    requires r.Rich? && FirstMessageAt(Riches(Some(r)), k)
    ensures Message(r) == Some(Riches(Some(r))[k].message)
    decreases Length(Some(r))
  {
    RichesOf(r);
    var rs, next := Riches(Some(r)), AsRich(r.wrapped);
    if k > 0 {
      assert rs[0].message == "";
      var rest := Riches(next);
      forall j | 0 <= j < k - 1 ensures rest[j].Rich? && rest[j].message == "" {
        assert rest[j] == rs[j + 1];
      }
      MessageIsFirstInChain(next.value, k - 1);
    }
  }
}
