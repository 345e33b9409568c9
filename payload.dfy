/**
 * The request `main` builds from the parsed command line when input does not
 * come from standard input, and what sanitizing makes of it.
 */
module Payload {
  import opened Wrappers
  import opened Text
  import opened Sanitizer
  import opened Cli

  /** `String(undefined)`. */
  const Undefined: string := "undefined"

  /**
   * The argument list as written: a missing value, pushed as `undefined`,
   * becomes the text "undefined" once `sanitizeInput` converts it to a string.
   */
  function Coerced(values: seq<Option<string>>): (r: seq<string>)
    ensures |r| == |values|
    ensures forall k :: 0 <= k < |values| ==> r[k] == values[k].GetOr(Undefined)
  {
    if values == [] then [] else [values[0].GetOr(Undefined)] + Coerced(values[1..])
  }

  /** The payload as written: the parsed lists are passed on unchanged. */
  function PayloadAsWritten(parsed: ParsedArgs): (r: RawInput)
    ensures r.argumentsFor == Some(Coerced(parsed.argumentsFor))
    ensures r.argumentsAgainst == Some(Coerced(parsed.argumentsAgainst))
  {
    RawInput(
      parsed.idea,
      Some(Coerced(parsed.argumentsFor)),
      Some(Coerced(parsed.argumentsAgainst)),
      Some(parsed.availableData.GetOr([])))
  }

  /** A trailing `--for` with no value turns into the argument "undefined". */
  lemma MissingValueBecomesArgument()
    ensures var parsed := Outcome(["--idea", "grow", "--for"]);
      && parsed.Success?
      && parsed.value.argumentsFor == [None]
      && SanitizeInput(PayloadAsWritten(parsed.value)).argumentsFor == [Undefined]
  {
    var argv := ["--idea", "grow", "--for"];
    assert FlagOf(argv[0]) == Some(Idea) && FlagOf(argv[2]) == Some(For);
    assert Scan(argv, 4) == [];
    assert Scan(argv, 2) == [2];
    assert Scan(argv, 0) == [0, 2];
    assert [0, 2][..1] == [0];
    assert Collect(argv, [0]) == NoArgs.(idea := Some("grow"));
    assert Collect(argv, [0, 2]).argumentsFor == [None];
    assert Coerced([None]) == [Undefined];
    TrimExactly([], Undefined, []);
    assert [] + Undefined + [] == Undefined;
  }

  /** The values actually given, in order; a missing value is dropped. */
  function Present(values: seq<Option<string>>): (r: seq<string>)
    ensures |r| <= |values|
  {
    if values == [] then []
    else
      var rest := Present(values[1..]);
      if values[0].Some? then [values[0].value] + rest else rest
  }

  lemma {:induction false} PresentMembers(values: seq<Option<string>>, s: string)
    ensures s in Present(values) <==> Some(s) in values
  {
    if values != [] {
      PresentMembers(values[1..], s);
      assert values == [values[0]] + values[1..];
    }
  }

  /** The payload `main` evidently means to build: missing values are left out. */
  function PayloadOf(parsed: ParsedArgs): (r: RawInput)
    ensures r.argumentsFor == Some(Present(parsed.argumentsFor))
    ensures r.argumentsAgainst == Some(Present(parsed.argumentsAgainst))
  {
    RawInput(
      parsed.idea,
      Some(Present(parsed.argumentsFor)),
      Some(Present(parsed.argumentsAgainst)),
      Some(parsed.availableData.GetOr([])))
  }

  /**
   * Every argument of the sanitized request is the trimmed text of a value
   * given after `--for`, and every such value that is not blank is kept.
   */
  lemma PayloadInventsNothing(parsed: ParsedArgs, y: string)
    ensures y in SanitizeInput(PayloadOf(parsed)).argumentsFor
            <==> y != [] && exists s :: Some(s) in parsed.argumentsFor && Trim(s) == y
  {
    var present := Present(parsed.argumentsFor);
    CleanListMembers(present, y);
    if y in SanitizeInput(PayloadOf(parsed)).argumentsFor {
      var k :| 0 <= k < |present| && Trim(present[k]) == y;
      PresentMembers(parsed.argumentsFor, present[k]);
    }
    if y != [] && exists s :: Some(s) in parsed.argumentsFor && Trim(s) == y {
      var s :| Some(s) in parsed.argumentsFor && Trim(s) == y;
      PresentMembers(parsed.argumentsFor, s);
      var k :| 0 <= k < |present| && present[k] == s;
    }
  }

  /** The same command line no longer yields an invented argument. */
  lemma MissingValueDropped()
    ensures var parsed := Outcome(["--idea", "grow", "--for"]);
      && parsed.Success?
      && SanitizeInput(PayloadOf(parsed.value)).argumentsFor == []
  {
    MissingValueBecomesArgument();
  }
}
