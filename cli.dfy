/**
 * `parseArgs`: one left-to-right pass over the command-line tokens. Flags
 * consume one token, options consume the flag and the token after it.
 */
module Cli {
  import opened Wrappers

  /**
   * The parsed command line. A boolean flag that was never given is `false`;
   * an option that was never given, or was given as the last token and so
   * read past the end of the argument list, is `None`. The repeatable lists
   * keep one entry per occurrence, `None` where the value was missing.
   */
  datatype ParsedArgs = ParsedArgs(
    help: bool,
    stdin: bool,
    idea: Option<string>,
    argumentsFor: seq<Option<string>>,
    argumentsAgainst: seq<Option<string>>,
    availableData: Option<string>,
    model: Option<string>)

  const NoArgs: ParsedArgs := ParsedArgs(false, false, None, [], [], None, None)

  /** The recognised flags. */
  datatype Flag = Help | Stdin | Idea | For | Against | Data | Model {
    /** Options take the next token as their value; the others stand alone. */
    predicate TakesValue() {
      this != Help && this != Stdin
    }

    /** How many tokens the flag consumes. */
    function Width(): (n: nat)
      ensures 1 <= n <= 2
      ensures n == 2 <==> TakesValue()
    {
      if TakesValue() then 2 else 1
    }
  }

  /** The flag a token names, if it names one. */
  function FlagOf(token: string): (f: Option<Flag>)
    ensures f == Some(Help) <==> token == "--help" || token == "-h"
    ensures f == Some(Stdin) <==> token == "--stdin"
    ensures f == Some(Idea) <==> token == "--idea"
    ensures f == Some(For) <==> token == "--for"
    ensures f == Some(Against) <==> token == "--against"
    ensures f == Some(Data) <==> token == "--data"
    ensures f == Some(Model) <==> token == "--model"
  {
    if token == "--help" || token == "-h" then Some(Help)
    else if token == "--stdin" then Some(Stdin)
    else if token == "--idea" then Some(Idea)
    else if token == "--for" then Some(For)
    else if token == "--against" then Some(Against)
    else if token == "--data" then Some(Data)
    else if token == "--model" then Some(Model)
    else None
  }

  /** `argv[p + 1]`: the next token, or `None` past the end. */
  function ValueAfter(argv: seq<string>, p: nat): (v: Option<string>)
    ensures v.Some? <==> p + 1 < |argv|
    ensures v.Some? ==> v.value == argv[p + 1]
  {
    if p + 1 < |argv| then Some(argv[p + 1]) else None
  }

  /**
   * The positions read as flags, from `from` on: each recognised flag is
   * followed by the position after what it consumes, and an unrecognised
   * token is the last position read.
   */
  function Scan(argv: seq<string>, from: nat): (ps: seq<nat>)
    ensures from < |argv| ==> |ps| <= |argv| - from
    ensures from >= |argv| ==> ps == []
    ensures forall k :: 0 <= k < |ps| ==> from <= ps[k] < |argv|
    decreases |argv| - from
  {
    if from >= |argv| then []
    else
      match FlagOf(argv[from])
      case None => [from]
      case Some(f) => [from] + Scan(argv, from + f.Width())
  }

  /**
   * Each position read but the last holds a recognised flag, and the next
   * position read is the one after what that flag consumed.
   */
  lemma {:induction false} ScanSteps(argv: seq<string>, from: nat)
    ensures var ps := Scan(argv, from);
      forall k :: 0 <= k < |ps| - 1 ==>
        FlagOf(argv[ps[k]]).Some? && ps[k + 1] == ps[k] + FlagOf(argv[ps[k]]).value.Width()
    decreases |argv| - from
  {
    if from < |argv| && FlagOf(argv[from]).Some? {
      var next := from + FlagOf(argv[from]).value.Width();
      ScanSteps(argv, next);
      var ps := Scan(argv, from);
      assert ps == [from] + Scan(argv, next);
      forall k | 1 <= k < |ps| - 1
        ensures ps[k + 1] == ps[k] + FlagOf(argv[ps[k]]).value.Width()
      {
        assert ps[k] == Scan(argv, next)[k - 1];
        assert ps[k + 1] == Scan(argv, next)[k];
      }
    }
  }

  /**
   * The scan starts at `from`, and the last position read holds an unknown
   * token or a flag whose width reaches past the end of the arguments.
   */
  lemma {:induction false} ScanEnds(argv: seq<string>, from: nat)
    ensures from < |argv| ==> Scan(argv, from) != [] && Scan(argv, from)[0] == from
    ensures var ps := Scan(argv, from);
      ps != [] ==> var p := ps[|ps| - 1];
        FlagOf(argv[p]).None? || p + FlagOf(argv[p]).value.Width() >= |argv|
    decreases |argv| - from
  {
    if from < |argv| && FlagOf(argv[from]).Some? {
      ScanEnds(argv, from + FlagOf(argv[from]).value.Width());
    }
  }

  /** The positions read strictly increase. */
  lemma {:induction false} ScanIncreasing(argv: seq<string>, from: nat)
    ensures var ps := Scan(argv, from);
      forall j, k :: 0 <= j < k < |ps| ==> ps[j] < ps[k]
    decreases |argv| - from
  {
    if from < |argv| && FlagOf(argv[from]).Some? {
      var next := from + FlagOf(argv[from]).value.Width();
      ScanIncreasing(argv, next);
      var ps := Scan(argv, from);
      assert ps == [from] + Scan(argv, next);
      forall j, k | 0 <= j < k < |ps|
        ensures ps[j] < ps[k]
      {
        assert ps[k] == Scan(argv, next)[k - 1];
        if j > 0 { assert ps[j] == Scan(argv, next)[j - 1]; }
      }
    }
  }

  /** The token after an option is its value and is never read as a flag. */
  lemma ValuesAreSkipped(argv: seq<string>, k: nat)
    requires k < |Scan(argv, 0)|
    requires FlagOf(argv[Scan(argv, 0)[k]]).Some? && FlagOf(argv[Scan(argv, 0)[k]]).value.TakesValue()
    ensures Scan(argv, 0)[k] + 1 !in Scan(argv, 0)
  {
    var ps := Scan(argv, 0);
    ScanSteps(argv, 0);
    ScanIncreasing(argv, 0);
    forall j | 0 <= j < |ps|
      ensures ps[j] != ps[k] + 1
    {
      if j > k + 1 { assert ps[k + 1] < ps[j]; }
    }
  }

  predicate InRange(argv: seq<string>, ps: seq<nat>) {
    forall k :: 0 <= k < |ps| ==> ps[k] < |argv|
  }

  /** The value after every occurrence of `flag` at positions `ps`, in order. */
  function Values(argv: seq<string>, ps: seq<nat>, flag: Flag): seq<Option<string>>
    requires InRange(argv, ps)
  {
    if ps == [] then []
    else
      var p := ps[|ps| - 1];
      Values(argv, ps[..|ps| - 1], flag) + (if FlagOf(argv[p]) == Some(flag) then [ValueAfter(argv, p)] else [])
  }

  /** The value after the last occurrence of `flag`, if any. */
  function LastValue(argv: seq<string>, ps: seq<nat>, flag: Flag): Option<string>
    requires InRange(argv, ps)
  {
    var vs := Values(argv, ps, flag);
    if vs == [] then None else vs[|vs| - 1]
  }

  /** Some position of `ps` holds `flag`. */
  predicate Mentions(argv: seq<string>, ps: seq<nat>, flag: Flag)
    requires InRange(argv, ps)
  {
    exists k :: 0 <= k < |ps| && FlagOf(argv[ps[k]]) == Some(flag)
  }

  lemma ValuesSnoc(argv: seq<string>, ps: seq<nat>, p: nat, flag: Flag)
    requires InRange(argv, ps) && p < |argv|
    ensures InRange(argv, ps + [p])
    ensures Values(argv, ps + [p], flag)
            == Values(argv, ps, flag) + (if FlagOf(argv[p]) == Some(flag) then [ValueAfter(argv, p)] else [])
  {
  }

  /** A later occurrence of an option overrides every earlier one. */
  lemma LastValueSnoc(argv: seq<string>, ps: seq<nat>, p: nat, flag: Flag)
    requires InRange(argv, ps) && p < |argv|
    ensures InRange(argv, ps + [p])
    ensures LastValue(argv, ps + [p], flag)
            == if FlagOf(argv[p]) == Some(flag) then ValueAfter(argv, p) else LastValue(argv, ps, flag)
  {
  }

  lemma MentionsSnoc(argv: seq<string>, ps: seq<nat>, p: nat, flag: Flag)
    requires InRange(argv, ps) && p < |argv|
    ensures InRange(argv, ps + [p])
    ensures Mentions(argv, ps + [p], flag) == (Mentions(argv, ps, flag) || FlagOf(argv[p]) == Some(flag))
  {
    var qs := ps + [p];
    if Mentions(argv, ps, flag) {
      var k :| 0 <= k < |ps| && FlagOf(argv[ps[k]]) == Some(flag);
      assert qs[k] == ps[k];
    }
    if FlagOf(argv[p]) == Some(flag) {
      assert qs[|ps|] == p;
    }
    if Mentions(argv, qs, flag) {
      var k :| 0 <= k < |qs| && FlagOf(argv[qs[k]]) == Some(flag);
      if k < |ps| { assert qs[k] == ps[k]; }
    }
  }

  /** What reading `flag`, followed by `v`, does to the result so far. */
  function Apply(acc: ParsedArgs, flag: Flag, v: Option<string>): (r: ParsedArgs)
    ensures flag == Help ==> r == acc.(help := true)
    ensures flag == For ==> r.argumentsFor == acc.argumentsFor + [v] && r.argumentsAgainst == acc.argumentsAgainst
    ensures flag == Against ==> r.argumentsAgainst == acc.argumentsAgainst + [v] && r.argumentsFor == acc.argumentsFor
  {
    match flag
    case Help => acc.(help := true)
    case Stdin => acc.(stdin := true)
    case Idea => acc.(idea := v)
    case For => acc.(argumentsFor := acc.argumentsFor + [v])
    case Against => acc.(argumentsAgainst := acc.argumentsAgainst + [v])
    case Data => acc.(availableData := v)
    case Model => acc.(model := v)
  }

  /**
   * The result of reading the flags at positions `ps` in order, starting
   * from the empty result; unrecognised positions change nothing.
   */
  function Collect(argv: seq<string>, ps: seq<nat>): ParsedArgs
    requires InRange(argv, ps)
    decreases |ps|
  {
    if ps == [] then NoArgs
    else
      var p := ps[|ps| - 1];
      var acc := Collect(argv, ps[..|ps| - 1]);
      match FlagOf(argv[p])
      case None => acc
      case Some(f) => Apply(acc, f, ValueAfter(argv, p))
  }

  lemma CollectSnoc(argv: seq<string>, ps: seq<nat>, p: nat)
    requires InRange(argv, ps) && p < |argv| && FlagOf(argv[p]).Some?
    ensures InRange(argv, ps + [p])
    ensures Collect(argv, ps + [p]) == Apply(Collect(argv, ps), FlagOf(argv[p]).value, ValueAfter(argv, p))
  {
  }

  /**
   * Each field of the result, stated on its own: a boolean flag is set iff
   * it occurs, a repeatable option lists the value after each occurrence in
   * order, and any other option holds the value after its last occurrence.
   */
  lemma {:induction false} CollectFields(argv: seq<string>, ps: seq<nat>)
    requires InRange(argv, ps)
    ensures Collect(argv, ps) == ParsedArgs(
      Mentions(argv, ps, Help),
      Mentions(argv, ps, Stdin),
      LastValue(argv, ps, Idea),
      Values(argv, ps, For),
      Values(argv, ps, Against),
      LastValue(argv, ps, Data),
      LastValue(argv, ps, Model))
    decreases |ps|
  {
    if ps != [] {
      var qs, p := ps[..|ps| - 1], ps[|ps| - 1];
      assert ps == qs + [p];
      CollectFields(argv, qs);
      MentionsSnoc(argv, qs, p, Help);
      MentionsSnoc(argv, qs, p, Stdin);
      LastValueSnoc(argv, qs, p, Idea);
      ValuesSnoc(argv, qs, p, For);
      ValuesSnoc(argv, qs, p, Against);
      LastValueSnoc(argv, qs, p, Data);
      LastValueSnoc(argv, qs, p, Model);
    }
  }

  /**
   * `seen` are the positions read so far, each a recognised flag, and the
   * scan goes on from `index`.
   */
  predicate Consumed(argv: seq<string>, seen: seq<nat>, index: nat) {
    && InRange(argv, seen)
    && (forall k :: 0 <= k < |seen| ==> FlagOf(argv[seen[k]]).Some?)
    && Scan(argv, 0) == seen + Scan(argv, index)
  }

  lemma ConsumeFlag(argv: seq<string>, seen: seq<nat>, index: nat)
    requires Consumed(argv, seen, index)
    requires index < |argv| && FlagOf(argv[index]).Some?
    ensures Consumed(argv, seen + [index], index + FlagOf(argv[index]).value.Width())
  {
    var next := index + FlagOf(argv[index]).value.Width();
    var seen' := seen + [index];
    assert Scan(argv, index) == [index] + Scan(argv, next);
    assert seen + ([index] + Scan(argv, next)) == seen' + Scan(argv, next);
    forall k | 0 <= k < |seen'|
      ensures seen'[k] < |argv| && FlagOf(argv[seen'[k]]).Some?
    {
      if k < |seen| { assert seen'[k] == seen[k]; }
    }
  }

  lemma ConsumeUnknown(argv: seq<string>, seen: seq<nat>, index: nat)
    requires Consumed(argv, seen, index)
    requires index < |argv| && FlagOf(argv[index]).None?
    ensures Scan(argv, 0) == seen + [index]
  {
  }

  lemma ConsumeAll(argv: seq<string>, seen: seq<nat>, index: nat)
    requires Consumed(argv, seen, index)
    requires index >= |argv|
    ensures Scan(argv, 0) == seen
  {
  }

  /** What parsing the whole command line yields, stated on `Scan` and `Collect`. */
  function Outcome(argv: seq<string>): Result<ParsedArgs, string> {
    var ps := Scan(argv, 0);
    if ps != [] && FlagOf(argv[ps[|ps| - 1]]).None? then
      Failure("Unknown argument: " + argv[ps[|ps| - 1]])
    else
      Success(Collect(argv, ps))
  }

  /** An unknown token after a recognised flag still ends the pass with an error. */
  lemma UnknownAfterFlag()
    ensures Outcome(["--help", "bogus"]) == Failure("Unknown argument: bogus")
  {
    var argv := ["--help", "bogus"];
    assert FlagOf(argv[0]) == Some(Help) && FlagOf(argv[1]).None?;
    assert Scan(argv, 1) == [1];
    assert Scan(argv, 0) == [0, 1];
    assert Outcome(argv) == Failure("Unknown argument: " + argv[1]);
    assert "Unknown argument: " + "bogus" == "Unknown argument: bogus";
  }

  /** The rest of the pass, from `index` on, given the result `acc` so far. */
  ghost function ParseFrom(argv: seq<string>, index: nat, acc: ParsedArgs): Result<ParsedArgs, string>
    decreases |argv| - index
  {
    if index >= |argv| then Success(acc)
    else
      match FlagOf(argv[index])
      case None => Failure("Unknown argument: " + argv[index])
      case Some(f) => ParseFrom(argv, index + f.Width(), Apply(acc, f, ValueAfter(argv, index)))
  }

  lemma {:induction false} ParseFromOutcome(argv: seq<string>, seen: seq<nat>, index: nat)
    requires Consumed(argv, seen, index)
    ensures ParseFrom(argv, index, Collect(argv, seen)) == Outcome(argv)
    decreases |argv| - index
  {
    if index >= |argv| {
      ConsumeAll(argv, seen, index);
    } else if FlagOf(argv[index]).None? {
      ConsumeUnknown(argv, seen, index);
    } else {
      ConsumeFlag(argv, seen, index);
      CollectSnoc(argv, seen, index);
      ParseFromOutcome(argv, seen + [index], index + FlagOf(argv[index]).value.Width());
    }
  }

  method ParseArgs(argv: seq<string>) returns (r: Result<ParsedArgs, string>)
    ensures argv == [] ==> r == Success(NoArgs)
    ensures var ps := Scan(argv, 0);
      r.Failure? <==> ps != [] && FlagOf(argv[ps[|ps| - 1]]).None?
    ensures var ps := Scan(argv, 0);
      r.Failure? ==> ps != [] && r.error == "Unknown argument: " + argv[ps[|ps| - 1]]
    ensures r.Success? ==> r.value == Collect(argv, Scan(argv, 0))
  {
    var result := NoArgs;
    var index := 0;
    while index < |argv|
      invariant ParseFrom(argv, index, result) == ParseFrom(argv, 0, NoArgs)
      decreases |argv| - index
    {
      var token := argv[index];
      if token == "--help" || token == "-h" {
        result := result.(help := true);
      } else if token == "--stdin" {
        result := result.(stdin := true);
      } else if token == "--idea" {
        result := result.(idea := ValueAfter(argv, index));
        index := index + 1;
      } else if token == "--for" {
        result := result.(argumentsFor := result.argumentsFor + [ValueAfter(argv, index)]);
        index := index + 1;
      } else if token == "--against" {
        result := result.(argumentsAgainst := result.argumentsAgainst + [ValueAfter(argv, index)]);
        index := index + 1;
      } else if token == "--data" {
        result := result.(availableData := ValueAfter(argv, index));
        index := index + 1;
      } else if token == "--model" {
        result := result.(model := ValueAfter(argv, index));
        index := index + 1;
      } else {
        ParseFromOutcome(argv, [], 0);
        return Failure("Unknown argument: " + token);
      }
      index := index + 1;
    }
    ParseFromOutcome(argv, [], 0);
    return Success(result);
  }
}
