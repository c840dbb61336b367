/** Environment variable names and the configuration keys they stand for. */
module EnvName {

  const Prefix := "ORMUS_"
  const Separator := "__"
  const Delimiter := "."

  function Lower(c: char): char {
    if 'A' <= c <= 'Z' then c + 32 as char else c
  }

  function Upper(c: char): char {
    if 'a' <= c <= 'z' then c - 32 as char else c
  }

  function ToLower(s: string): string {
    seq(|s|, i requires 0 <= i < |s| => Lower(s[i]))
  }

  function ToUpper(s: string): string {
    seq(|s|, i requires 0 <= i < |s| => Upper(s[i]))
  }

  function TrimPrefix(s: string): string {
    if Prefix <= s then s[|Prefix|..] else s
  }

  /** Separators become delimiters, from the left and without overlap. */
  function ReplaceAll(s: string): string {
    if |s| < 2 then s
    else if s[..2] == Separator then Delimiter + ReplaceAll(s[2..])
    else [s[0]] + ReplaceAll(s[1..])
  }

  /** The configuration key of an environment variable. */
  function DefaultCallbackEnv(source: string): string {
    ReplaceAll(ToLower(TrimPrefix(source)))
  }

  function Join(segments: seq<string>, glue: string): string {
    if segments == [] then ""
    else if |segments| == 1 then segments[0]
    else segments[0] + glue + Join(segments[1..], glue)
  }

  /** The variable that, by convention, sets the nested key made of `segments`. */
  function VariableName(segments: seq<string>): string {
    Prefix + ToUpper(Join(segments, Separator))
  }

  /** No separator inside. */
  predicate SeparatorFree(s: string) {
    forall i | 0 <= i < |s| - 1 :: !(s[i] == '_' && s[i + 1] == '_')
  }

  predicate LowerCase(s: string) {
    forall i | 0 <= i < |s| :: !('A' <= s[i] <= 'Z')
  }

  /** Separator-free, and still so with an underscore behind each segment but the last. */
  predicate Separable(segments: seq<string>) {
    forall k | 0 <= k < |segments| ::
      SeparatorFree(if k < |segments| - 1 then segments[k] + "_" else segments[k])
  }

  lemma {:induction false} SeparatorFreeStays(s: string)
    requires SeparatorFree(s)
    ensures ReplaceAll(s) == s
    decreases |s|
  {
    if |s| >= 2 {
      assert s[..2] == [s[0], s[1]];
      forall i | 0 <= i < |s[1..]| - 1 ensures !(s[1..][i] == '_' && s[1..][i + 1] == '_') {
        assert !(s[i + 1] == '_' && s[i + 2] == '_');
      }
      SeparatorFreeStays(s[1..]);
    }
  }

  lemma TailIsFree(y: string)
    requires y != "" && SeparatorFree(y + "_")
    ensures SeparatorFree(y[1..] + "_")
  {
    var t, t' := y + "_", y[1..] + "_";
    forall i | 0 <= i < |t'| - 1 ensures !(t'[i] == '_' && t'[i + 1] == '_') {
      assert t'[i] == t[i + 1] && t'[i + 1] == t[i + 2];
    }
  }

  lemma TakeSeparator(z: string)
    ensures ReplaceAll(Separator + z) == Delimiter + ReplaceAll(z)
  {
    assert (Separator + z)[..2] == Separator && (Separator + z)[2..] == z;
  }

  lemma SkipOne(c: char, s: string)
    requires s != "" && !(c == '_' && s[0] == '_')
    ensures ReplaceAll([c] + s) == [c] + ReplaceAll(s)
  {
    assert ([c] + s)[..2] == [c, s[0]] && ([c] + s)[1..] == s;
  }

  /** The first separator is the one that is replaced first. */
  lemma {:induction false} FirstSeparator(y: string, z: string)
    requires SeparatorFree(y + "_")
    ensures ReplaceAll(y + Separator + z) == y + Delimiter + ReplaceAll(z)
    decreases |y|
  {
    hide ReplaceAll;
    if y == "" {
      TakeSeparator(z);
      assert y + Separator + z == Separator + z && y + Delimiter + ReplaceAll(z) == Delimiter + ReplaceAll(z);
    } else {
      var c, y' := y[0], y[1..];
      var s := y' + Separator + z;
      assert y == [c] + y' && s[0] == (y + "_")[1] && !((y + "_")[0] == '_' && (y + "_")[1] == '_');
      TailIsFree(y);
      FirstSeparator(y', z);
      SkipOne(c, s);
      assert y + Separator + z == [c] + s;
      assert [c] + (y' + Delimiter + ReplaceAll(z)) == y + Delimiter + ReplaceAll(z);
    }
  }

  lemma {:induction false} FindSeparator(s: string) returns (k: nat)
    requires !SeparatorFree(s)
    ensures k + 1 < |s| && s[k] == '_' && s[k + 1] == '_' && SeparatorFree(s[..k] + "_")
    decreases |s|
  {
    if s[0] == '_' && s[1] == '_' {
      k := 0;
    } else {
      var i :| 0 <= i < |s| - 1 && s[i] == '_' && s[i + 1] == '_';
      assert s[1..][i - 1] == '_' && s[1..][i] == '_';
      k := FindSeparator(s[1..]);
      var t, t' := s[..k + 1] + "_", s[1..][..k] + "_";
      forall j | 0 <= j < |t| - 1 ensures !(t[j] == '_' && t[j + 1] == '_') {
        if j > 0 {
          assert t[j] == t'[j - 1] && t[j + 1] == t'[j];
        }
      }
      k := k + 1;
    }
  }

  /** A separator in the wrong place shows: the delimiter stands where an underscore should. */
  lemma SeparatorShows(head: string, tail: string, expected: string)
    requires !SeparatorFree(head) && |expected| >= |head| - 1 && expected[..|head| - 1] == head[..|head| - 1]
    ensures ReplaceAll(head + tail) != expected
  {
    var k := FindSeparator(head);
    var z := (head + tail)[k + 2..];
    assert head + tail == head[..k] + Separator + z;
    FirstSeparator(head[..k], z);
    assert ReplaceAll(head + tail)[k] == '.';
    assert expected[k] == expected[..|head| - 1][k] == head[k] == '_';
  }

  lemma {:induction false} JoinedDecodesExactlyWhen(segments: seq<string>)
    ensures ReplaceAll(Join(segments, Separator)) == Join(segments, Delimiter) <==> Separable(segments)
    decreases |segments|
  {
    if |segments| == 1 {
      var x := segments[0];
      if SeparatorFree(x) {
        SeparatorFreeStays(x);
      } else {
        assert x + "" == x;
        SeparatorShows(x, "", x);
      }
    } else if |segments| > 1 {
      var x, rest := segments[0], segments[1..];
      var t := Join(rest, Separator);
      JoinedDecodesExactlyWhen(rest);
      SeparableStep(segments);
      if SeparatorFree(x + "_") {
        FirstSeparator(x, t);
        assert ReplaceAll(x + Separator + t)[|x| + 1..] == ReplaceAll(t);
        assert (x + Delimiter + Join(rest, Delimiter))[|x| + 1..] == Join(rest, Delimiter);
      } else {
        assert x + Separator + t == (x + "_") + ("_" + t);
        SeparatorShows(x + "_", "_" + t, x + Delimiter + Join(rest, Delimiter));
      }
    }
  }

  lemma SeparableStep(segments: seq<string>)
    requires |segments| > 1
    ensures Separable(segments) <==> SeparatorFree(segments[0] + "_") && Separable(segments[1..])
  {
    var rest := segments[1..];
    if Separable(segments) {
      forall k | 0 <= k < |rest| ensures SeparatorFree(if k < |rest| - 1 then rest[k] + "_" else rest[k]) {
        assert rest[k] == segments[k + 1];
      }
    }
    if SeparatorFree(segments[0] + "_") && Separable(rest) {
      forall k | 0 <= k < |segments|
        ensures SeparatorFree(if k < |segments| - 1 then segments[k] + "_" else segments[k])
      {
        if k > 0 {
          assert segments[k] == rest[k - 1];
        }
      }
    }
  }

  // Letter case.

  lemma LowerOfUpper(s: string)
    ensures LowerCase(ToLower(ToUpper(s)))
    ensures LowerCase(s) ==> ToLower(ToUpper(s)) == s
  {
  }

  lemma {:induction false} ReplacedStaysLower(s: string)
    requires LowerCase(s)
    ensures LowerCase(ReplaceAll(s))
    decreases |s|
  {
    if |s| >= 2 {
      ReplacedStaysLower(s[2..]);
      ReplacedStaysLower(s[1..]);
    }
  }

  lemma LowerOfConcat(a: string, b: string)
    ensures LowerCase(a + b) <==> LowerCase(a) && LowerCase(b)
  {
    assert forall i | 0 <= i < |a| :: a[i] == (a + b)[i];
    assert forall i | 0 <= i < |b| :: b[i] == (a + b)[|a| + i];
  }

  lemma {:induction false} JoinLowerExactlyWhen(segments: seq<string>, glue: string)
    requires LowerCase(glue)
    ensures LowerCase(Join(segments, glue)) <==> forall x <- segments :: LowerCase(x)
    decreases |segments|
  {
    if |segments| > 1 {
      var x, t := segments[0], Join(segments[1..], glue);
      JoinLowerExactlyWhen(segments[1..], glue);
      LowerOfConcat(x, glue);
      LowerOfConcat(x + glue, t);
      assert forall y :: y in segments <==> y == x || y in segments[1..];
    }
  }

  /**
   Round trip, exactly: the variable named after `segments` is decoded to the segments joined by
   dots if and only if they are lower-case, none has a separator inside, and none but the last
   ends in an underscore.
   */
  lemma VariableNameRoundTrip(segments: seq<string>)
    ensures DefaultCallbackEnv("ORMUS_" + ToUpper(Join(segments, "__"))) == Join(segments, ".")
            <==> Separable(segments) && forall x <- segments :: LowerCase(x)
  {
    assert VariableName(segments) == "ORMUS_" + ToUpper(Join(segments, "__"));
    var joined := Join(segments, Separator);
    assert TrimPrefix(VariableName(segments)) == ToUpper(joined);
    LowerOfUpper(joined);
    JoinLowerExactlyWhen(segments, Separator);
    JoinLowerExactlyWhen(segments, Delimiter);
    JoinedDecodesExactlyWhen(segments);
    ReplacedStaysLower(ToLower(ToUpper(joined)));
  }

  /** A name without the prefix is not cut: lower-case and without separator, it is its own key. */
  lemma PlainNameStays(source: string)
    requires LowerCase(source) && SeparatorFree(source)
    ensures DefaultCallbackEnv(source) == source
  {
    assert Prefix[0] == 'O' && (source != "" ==> source[0] != 'O');
    assert ToLower(source) == source;
    SeparatorFreeStays(source);
  }

  /** `Separable` in the convention's own words. */
  lemma SeparableMeans(segments: seq<string>)
    ensures Separable(segments) <==>
            && (forall x <- segments :: SeparatorFree(x))
            && (forall k | 0 <= k < |segments| - 1 && segments[k] != "" :: segments[k][|segments[k]| - 1] != '_')
  {
    forall k | 0 <= k < |segments|
      ensures SeparatorFree(segments[k] + "_") <==>
              SeparatorFree(segments[k]) && (segments[k] == "" || segments[k][|segments[k]| - 1] != '_')
    {
      EndsWell(segments[k]);
    }
  }

  lemma EndsWell(x: string)
    ensures SeparatorFree(x + "_") <==> SeparatorFree(x) && (x == "" || x[|x| - 1] != '_')
  {
    var t := x + "_";
    if SeparatorFree(t) {
      forall i | 0 <= i < |x| - 1 ensures !(x[i] == '_' && x[i + 1] == '_') {
        assert !(t[i] == '_' && t[i + 1] == '_');
      }
      if x != "" {
        assert t[|x|] == '_' && t[|x| - 1] == x[|x| - 1];
      }
    }
  }
}
