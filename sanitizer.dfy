/**
 * `sanitizeInput`: the loosely typed request record is normalised into the
 * canonical debate request that the rest of the pipeline sees.
 */
module Sanitizer {
  import opened Wrappers
  import opened Text

  /**
   * The request as it arrives. An absent or falsy string field is `None`;
   * a list field that is not an array is `None`.
   */
  datatype RawInput = RawInput(
    idea: Option<string>,
    argumentsFor: Option<seq<string>>,
    argumentsAgainst: Option<seq<string>>,
    availableData: Option<string>)

  /** The canonical request handed to the pipeline. */
  datatype DebateRequest = DebateRequest(
    idea: string,
    argumentsFor: seq<string>,
    argumentsAgainst: seq<string>,
    availableData: string)

  /** No entry is empty and none starts or ends with whitespace. */
  predicate IsClean(items: seq<string>) {
    forall k :: 0 <= k < |items| ==> items[k] != [] && IsTrimmed(items[k])
  }

  /** Every field is trimmed and both lists are clean. */
  predicate IsCanonical(r: DebateRequest) {
    IsTrimmed(r.idea) && IsTrimmed(r.availableData)
    && IsClean(r.argumentsFor) && IsClean(r.argumentsAgainst)
  }

  /** Trim every entry and drop those that become empty, keeping the order. */
  function CleanList(items: seq<string>): (r: seq<string>)
    ensures |r| <= |items|
  {
    if items == [] then []
    else
      var t := Trim(items[0]);
      (if t == [] then [] else [t]) + CleanList(items[1..])
  }

  /** Every entry CleanList keeps is non-empty and trimmed. */
  lemma {:induction false} CleanListIsClean(items: seq<string>)
    ensures IsClean(CleanList(items))
  {
    if items != [] {
      var t := Trim(items[0]);
      var head := if t == [] then [] else [t];
      CleanListIsClean(items[1..]);
      TrimIsTrimmed(items[0]);
      var r := CleanList(items);
      assert r == head + CleanList(items[1..]);
      forall k | 0 <= k < |r|
        ensures r[k] != [] && IsTrimmed(r[k])
      {
        if k >= |head| { assert r[k] == CleanList(items[1..])[k - |head|]; }
      }
    }
  }

  /** An array field: the cleaned entries, or `[]` when the field is not an array. */
  function CleanField(field: Option<seq<string>>): (r: seq<string>)
    ensures field.None? ==> r == []
    ensures field.Some? ==> r == CleanList(field.value)
  {
    match field
    case None => []
    case Some(items) => CleanList(items)
  }

  /** A string field: trimmed, and `""` when it is absent or falsy. */
  function CleanString(field: Option<string>): (r: string)
    ensures IsTrimmed(r)
    ensures field.None? ==> r == []
  {
    TrimIsTrimmed(field.GetOr([]));
    Trim(field.GetOr([]))
  }

  function SanitizeInput(input: RawInput): (r: DebateRequest)
    ensures input.idea.None? ==> r.idea == []
    ensures input.idea.Some? ==> r.idea == Trim(input.idea.value)
    ensures input.availableData.None? ==> r.availableData == []
    ensures input.availableData.Some? ==> r.availableData == Trim(input.availableData.value)
    ensures r.argumentsFor == CleanField(input.argumentsFor)
    ensures r.argumentsAgainst == CleanField(input.argumentsAgainst)
  {
    DebateRequest(
      CleanString(input.idea),
      CleanField(input.argumentsFor),
      CleanField(input.argumentsAgainst),
      CleanString(input.availableData))
  }

  /** A canonical request seen again as raw input. */
  function AsRaw(r: DebateRequest): RawInput {
    RawInput(Some(r.idea), Some(r.argumentsFor), Some(r.argumentsAgainst), Some(r.availableData))
  }

  /** CleanList works entry by entry: cleaning a concatenation cleans each part. */
  lemma {:induction false} CleanListAppend(xs: seq<string>, ys: seq<string>)
    ensures CleanList(xs + ys) == CleanList(xs) + CleanList(ys)
  {
    if xs != [] {
      assert (xs + ys)[1..] == xs[1..] + ys;
      CleanListAppend(xs[1..], ys);
    } else {
      assert xs + ys == ys;
    }
  }

  /** The result holds exactly the non-empty trimmed entries of the input. */
  lemma {:induction false} CleanListMembers(xs: seq<string>, y: string)
    ensures y in CleanList(xs) <==> y != [] && exists k :: 0 <= k < |xs| && Trim(xs[k]) == y
  {
    if xs != [] {
      CleanListMembers(xs[1..], y);
      if y != [] && Trim(xs[0]) != y && exists k :: 0 <= k < |xs| && Trim(xs[k]) == y {
        var k :| 0 <= k < |xs| && Trim(xs[k]) == y;
        assert xs[1..][k - 1] == xs[k];
      }
      if exists k :: 0 <= k < |xs[1..]| && Trim(xs[1..][k]) == y {
        var k :| 0 <= k < |xs[1..]| && Trim(xs[1..][k]) == y;
        assert xs[k + 1] == xs[1..][k];
      }
    }
  }

  /** A list that is already clean is its own cleaning. */
  lemma {:induction false} CleanListKeepsClean(xs: seq<string>)
    requires IsClean(xs)
    ensures CleanList(xs) == xs
  {
    if xs != [] {
      TrimKeepsTrimmed(xs[0]);
      CleanListKeepsClean(xs[1..]);
    }
  }

  /** Sanitizing always yields a canonical request. */
  lemma SanitizeCanonical(input: RawInput)
    ensures IsCanonical(SanitizeInput(input))
  {
    if input.argumentsFor.Some? {
      CleanListIsClean(input.argumentsFor.value);
    }
    if input.argumentsAgainst.Some? {
      CleanListIsClean(input.argumentsAgainst.value);
    }
  }

  /** A canonical request is a fixed point of sanitising. */
  lemma SanitizeKeepsCanonical(r: DebateRequest)
    requires IsCanonical(r)
    ensures SanitizeInput(AsRaw(r)) == r
  {
    TrimKeepsTrimmed(r.idea);
    TrimKeepsTrimmed(r.availableData);
    CleanListKeepsClean(r.argumentsFor);
    CleanListKeepsClean(r.argumentsAgainst);
  }

  /** Sanitising is idempotent. */
  lemma SanitizeIdempotent(input: RawInput)
    ensures SanitizeInput(AsRaw(SanitizeInput(input))) == SanitizeInput(input)
  {
    SanitizeCanonical(input);
    SanitizeKeepsCanonical(SanitizeInput(input));
  }
}
