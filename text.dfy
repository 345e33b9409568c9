/**
 * The string helpers the engine relies on: `String.prototype.trim` and
 * `Array.prototype.join`, over strings as sequences of characters.
 */
module Text {

  /**
   * The characters `trim` removes: the ECMAScript WhiteSpace characters
   * (tab, vertical tab, form feed, space, no-break space, byte-order mark
   * and the Unicode space separators U+1680, U+2000 to U+200A, U+202F,
   * U+205F and U+3000) and the LineTerminator characters.
   */
  const WhitespaceChars: set<char> := {
    '\t', '\n', '\U{000B}', '\U{000C}', '\r', ' ', '\U{00A0}', '\U{1680}',
    '\U{2000}', '\U{2001}', '\U{2002}', '\U{2003}', '\U{2004}', '\U{2005}',
    '\U{2006}', '\U{2007}', '\U{2008}', '\U{2009}', '\U{200A}',
    '\U{2028}', '\U{2029}', '\U{202F}', '\U{205F}', '\U{3000}', '\U{FEFF}'}

  predicate IsWhitespace(c: char) {
    c in WhitespaceChars
  }

  predicate AllWhitespace(s: string) {
    forall k :: 0 <= k < |s| ==> IsWhitespace(s[k])
  }

  /** Neither end of `s` is a whitespace character. */
  predicate IsTrimmed(s: string) {
    s == [] || (!IsWhitespace(s[0]) && !IsWhitespace(s[|s| - 1]))
  }

  /** `String.prototype.trimStart`: drop leading whitespace, one character at a time. */
  function TrimStart(s: string): (r: string)
    ensures |r| <= |s|
  {
    if s != [] && IsWhitespace(s[0]) then TrimStart(s[1..]) else s
  }

  /** `String.prototype.trimEnd`: drop trailing whitespace, one character at a time. */
  function TrimEnd(s: string): (r: string)
    ensures |r| <= |s|
  {
    if s != [] && IsWhitespace(s[|s| - 1]) then TrimEnd(s[..|s| - 1]) else s
  }

  /**
   * TrimStart keeps a suffix of `s`: what it cuts off is whitespace, and
   * what it keeps does not start with whitespace.
   */
  lemma {:induction false} TrimStartSuffix(s: string)
    ensures TrimStart(s) == s[|s| - |TrimStart(s)|..]
    ensures AllWhitespace(s[..|s| - |TrimStart(s)|])
    ensures TrimStart(s) == [] || !IsWhitespace(TrimStart(s)[0])
  {
    if s != [] && IsWhitespace(s[0]) {
      TrimStartSuffix(s[1..]);
      var cut := s[..|s| - |TrimStart(s)|];
      forall k | 0 <= k < |cut|
        ensures IsWhitespace(cut[k])
      {
        if k > 0 { assert cut[k] == s[1..][..|s| - 1 - |TrimStart(s)|][k - 1]; }
      }
    }
  }

  /**
   * TrimEnd keeps a prefix of `s`: what it cuts off is whitespace, and what
   * it keeps does not end with whitespace.
   */
  lemma {:induction false} TrimEndPrefix(s: string)
    ensures TrimEnd(s) == s[..|TrimEnd(s)|]
    ensures AllWhitespace(s[|TrimEnd(s)|..])
    ensures TrimEnd(s) == [] || !IsWhitespace(TrimEnd(s)[|TrimEnd(s)| - 1])
  {
    if s != [] && IsWhitespace(s[|s| - 1]) {
      var init := s[..|s| - 1];
      TrimEndPrefix(init);
      var n := |TrimEnd(s)|;
      var cut := s[n..];
      forall k | 0 <= k < |cut|
        ensures IsWhitespace(cut[k])
      {
        if k < |cut| - 1 { assert cut[k] == init[n..][k]; }
      }
    }
  }

  /** `String.prototype.trim`: drop whitespace from both ends. */
  function Trim(s: string): (r: string)
    ensures |r| <= |s|
  {
    TrimEnd(TrimStart(s))
  }

  /** Neither end of a trimmed string is whitespace. */
  lemma TrimIsTrimmed(s: string)
    ensures IsTrimmed(Trim(s))
  {
    var rest := TrimStart(s);
    TrimStartSuffix(s);
    TrimEndPrefix(rest);
    if Trim(s) != [] {
      assert Trim(s)[0] == rest[0];
    }
  }

  /** Trim only removes whitespace: `s` is whitespace, then `Trim(s)`, then whitespace. */
  lemma TrimSplits(s: string)
    ensures exists i, j :: 0 <= i <= j <= |s| && Trim(s) == s[i..j]
                           && AllWhitespace(s[..i]) && AllWhitespace(s[j..])
  {
    var rest := TrimStart(s);
    TrimStartSuffix(s);
    TrimEndPrefix(rest);
    var i := |s| - |rest|;
    var j := i + |Trim(s)|;
    assert Trim(s) == s[i..j];
    var tail := s[j..];
    forall k | 0 <= k < |tail|
      ensures IsWhitespace(tail[k])
    {
      assert tail[k] == rest[|Trim(s)|..][k];
    }
  }

  /** Leading whitespace before a string that does not start with whitespace is exactly what TrimStart drops. */
  lemma {:induction false} TrimStartSkips(p: string, u: string)
    requires AllWhitespace(p)
    requires u == [] || !IsWhitespace(u[0])
    ensures TrimStart(p + u) == u
  {
    if p == [] {
      assert p + u == u;
    } else {
      assert (p + u)[0] == p[0];
      assert (p + u)[1..] == p[1..] + u;
      TrimStartSkips(p[1..], u);
    }
  }

  /** Trailing whitespace after a string that does not end with whitespace is exactly what TrimEnd drops. */
  lemma {:induction false} TrimEndSkips(u: string, q: string)
    requires AllWhitespace(q)
    requires u == [] || !IsWhitespace(u[|u| - 1])
    ensures TrimEnd(u + q) == u
  {
    if q == [] {
      assert u + q == u;
    } else {
      var s := u + q;
      assert s[|s| - 1] == q[|q| - 1];
      assert s[..|s| - 1] == u + q[..|q| - 1];
      TrimEndSkips(u, q[..|q| - 1]);
    }
  }

  /**
   * Trim is the unique trimmed core: whatever whitespace surrounds a trimmed
   * string, trimming gives that string back.
   */
  lemma TrimExactly(p: string, t: string, q: string)
    requires AllWhitespace(p) && AllWhitespace(q) && IsTrimmed(t)
    ensures Trim(p + t + q) == t
  {
    if t == [] {
      var s := p + q;
      assert p + t + q == s + [];
      TrimStartSkips(s, []);
      assert TrimEnd([]) == [];
    } else {
      assert p + t + q == p + (t + q);
      assert (t + q)[0] == t[0];
      TrimStartSkips(p, t + q);
      TrimEndSkips(t, q);
    }
  }

  /** A trimmed string is left unchanged by Trim. */
  lemma TrimKeepsTrimmed(t: string)
    requires IsTrimmed(t)
    ensures Trim(t) == t
  {
    TrimExactly([], t, []);
    assert [] + t + [] == t;
  }

  /** Trim is idempotent. */
  lemma TrimIdempotent(s: string)
    ensures Trim(Trim(s)) == Trim(s)
  {
    TrimIsTrimmed(s);
    TrimKeepsTrimmed(Trim(s));
  }

  /** `Array.prototype.join`: the parts with `sep` between neighbours. */
  function Join(parts: seq<string>, sep: string): (r: string)
    ensures parts == [] ==> r == []
    ensures |parts| == 1 ==> r == parts[0]
  {
    if parts == [] then []
    else if |parts| == 1 then parts[0]
    else parts[0] + sep + Join(parts[1..], sep)
  }

  /** Joining a concatenation puts one separator between the two joined halves. */
  lemma {:induction false} JoinAppend(xs: seq<string>, ys: seq<string>, sep: string)
    requires xs != [] && ys != []
    ensures Join(xs + ys, sep) == Join(xs, sep) + sep + Join(ys, sep)
  {
    if |xs| == 1 {
      assert (xs + ys)[1..] == ys;
    } else {
      assert (xs + ys)[1..] == xs[1..] + ys;
      JoinAppend(xs[1..], ys, sep);
    }
  }
}
