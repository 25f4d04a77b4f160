/**
 * The few ECMAScript string operations the API-key code relies on:
 * `trim`, `indexOf` for a one-character search string, and `startsWith`.
 * A JavaScript string is a sequence of UTF-16 code units, a Dafny string a
 * sequence of Unicode scalar values: the two agree, length included, on
 * strings of Basic Multilingual Plane characters, where each `char` is one
 * code unit. A character outside that plane is one `char` here and two code
 * units in JavaScript.
 */
module JsStrings {

  /** The characters `String.prototype.trim` removes: WhiteSpace and LineTerminator. */
  predicate IsWhitespace(c: char) {
    || c == '\t' || c == '\n' || c == '\U{000B}' || c == '\U{000C}' || c == '\r'
    || c == ' ' || c == '\U{00A0}' || c == '\U{1680}'
    || ('\U{2000}' <= c <= '\U{200A}')
    || c == '\U{2028}' || c == '\U{2029}' || c == '\U{202F}' || c == '\U{205F}'
    || c == '\U{3000}' || c == '\U{FEFF}'
  }

  predicate AllWhitespace(s: string) {
    forall i | 0 <= i < |s| :: IsWhitespace(s[i])
  }

  /** One step of `TrimStart`: a leading whitespace character joins the run that the rest starts with. */
  lemma TrimStartStep(s: string, r: string)
    requires |s| > 0 && IsWhitespace(s[0]) && |r| <= |s| - 1
    requires r == s[1..][|s| - 1 - |r|..] && AllWhitespace(s[1..][..|s| - 1 - |r|])
    ensures r == s[|s| - |r|..] && AllWhitespace(s[..|s| - |r|])
  {
    var t := s[1..];
    var k := |t| - |r|;
    assert t[k..] == s[k + 1..];
    var run := s[..k + 1];
    forall i | 0 <= i < |run| ensures IsWhitespace(run[i]) {
      if i > 0 {
        assert run[i] == t[..k][i - 1];
      }
    }
  }

  /** Drops leading whitespace: the result is the suffix of `s` after its whitespace run. */
  function TrimStart(s: string): (r: string)
    ensures |r| <= |s| && r == s[|s| - |r|..]
    ensures AllWhitespace(s[..|s| - |r|])
    ensures r == [] || !IsWhitespace(r[0])
  {
    if |s| > 0 && IsWhitespace(s[0]) then
      var r := TrimStart(s[1..]);
      TrimStartStep(s, r);
      r
    else
      s
  }

  /** Drops trailing whitespace: the result is the prefix of `s` before its whitespace run. */
  function TrimEnd(s: string): (r: string)
    ensures |r| <= |s| && r == s[..|r|]
    ensures AllWhitespace(s[|r|..])
    ensures r == [] || !IsWhitespace(r[|r| - 1])
  {
    if |s| > 0 && IsWhitespace(s[|s| - 1]) then TrimEnd(s[..|s| - 1]) else s
  }

  /** `s.trim()`. */
  function Trim(s: string): (r: string)
    ensures r == [] <==> AllWhitespace(s)
    ensures r == [] || (!IsWhitespace(r[0]) && !IsWhitespace(r[|r| - 1]))
  {
    TrimEnd(TrimStart(s))
  }

  /**
   * What `trim` removes: `Trim(s)` is the part of `s` between a leading
   * whitespace run of length `n` and a trailing whitespace run.
   */
  lemma TrimRemovesRuns(s: string) returns (n: nat)
    ensures n + |Trim(s)| <= |s| && Trim(s) == s[n..n + |Trim(s)|]
    ensures AllWhitespace(s[..n]) && AllWhitespace(s[n + |Trim(s)|..])
  {
    var t := TrimStart(s);
    var r := TrimEnd(t);
    n := |s| - |t|;
    assert Trim(s) == r;
    var middle := s[n..n + |r|];
    forall i | 0 <= i < |r| ensures middle[i] == r[i] {
      assert r[i] == t[i] && t[i] == s[n + i];
    }
    var tail := s[n + |r|..];
    var trailing := t[|r|..];
    forall i | 0 <= i < |tail| ensures IsWhitespace(tail[i]) {
      assert tail[i] == trailing[i];
    }
  }

  /** `s.trim().length === 0`. */
  predicate IsBlank(s: string) {
    Trim(s) == []
  }

  /** `s.startsWith(prefix)`. */
  predicate StartsWith(s: string, prefix: string) {
    |prefix| <= |s| && s[..|prefix|] == prefix
  }

  /** `s.indexOf(c, start)` for a one-character search string: the first occurrence at or after `start`, or -1. */
  function IndexOf(s: string, c: char, start: nat): (r: int)
    decreases |s| - start
    ensures r == -1 || (start <= r < |s| && s[r] == c)
    ensures r == -1 ==> forall k | start <= k < |s| :: s[k] != c
    ensures r != -1 ==> forall k | start <= k < r :: s[k] != c
  {
    if start >= |s| then -1
    else if s[start] == c then start
    else IndexOf(s, c, start + 1)
  }

  /** The first occurrence at or after `start` is the one `IndexOf` finds. */
  lemma IndexOfFinds(s: string, c: char, start: nat, i: nat)
    requires start <= i < |s| && s[i] == c
    requires forall k | start <= k < i :: s[k] != c
    ensures IndexOf(s, c, start) == i
  {
  }

  /** The empty string is blank. */
  lemma EmptyIsBlank()
    ensures IsBlank("")
  {
  }

  /** Strings that trim to the same string are both blank or both not. */
  lemma SameTrimSameBlankness(s1: string, s2: string)
    requires Trim(s1) == Trim(s2)
    ensures IsBlank(s1) <==> IsBlank(s2)
  {
  }

  /** Trimming twice is trimming once. */
  lemma TrimIdempotent(s: string)
    ensures Trim(Trim(s)) == Trim(s)
  {
    var r := Trim(s);
    if r != [] {
      assert !IsWhitespace(r[0]);
      assert TrimStart(r) == r;
      assert !IsWhitespace(r[|r| - 1]);
      assert TrimEnd(r) == r;
    }
    assert Trim(r) == TrimEnd(TrimStart(r));
  }

  /** Leading whitespace does not change `TrimStart`. */
  lemma {:induction false} TrimStartSkipsWhitespace(w: string, s: string)
    requires AllWhitespace(w)
    ensures TrimStart(w + s) == TrimStart(s)
  {
    if w != [] {
      var x := w + s;
      assert x[0] == w[0];
      assert x[1..] == w[1..] + s;
      TrimStartSkipsWhitespace(w[1..], s);
    } else {
      assert w + s == s;
    }
  }

  /** Trailing whitespace does not change `TrimEnd`. */
  lemma {:induction false} TrimEndSkipsWhitespace(s: string, w: string)
    requires AllWhitespace(w)
    ensures TrimEnd(s + w) == TrimEnd(s)
  {
    if w != [] {
      var x := s + w;
      assert x[|x| - 1] == w[|w| - 1];
      assert x[..|x| - 1] == s + w[..|w| - 1];
      TrimEndSkipsWhitespace(s, w[..|w| - 1]);
    } else {
      assert s + w == s;
    }
  }

  /** Once a non-whitespace character has been met, `TrimStart` keeps everything after it. */
  lemma {:induction false} TrimStartAppend(s: string, t: string)
    requires !AllWhitespace(s)
    ensures TrimStart(s + t) == TrimStart(s) + t
  {
    assert |s| > 0;
    if IsWhitespace(s[0]) {
      assert (s + t)[1..] == s[1..] + t;
      TrimStartAppend(s[1..], t);
    }
  }

  /** Surrounding a string with whitespace does not change what `trim` returns. */
  lemma TrimIgnoresPadding(w1: string, s: string, w2: string)
    requires AllWhitespace(w1) && AllWhitespace(w2)
    ensures Trim(w1 + s + w2) == Trim(s)
  {
    assert w1 + s + w2 == w1 + (s + w2);
    TrimStartSkipsWhitespace(w1, s + w2);
    if AllWhitespace(s) {
      assert AllWhitespace(s + w2);
    } else {
      TrimStartAppend(s, w2);
      TrimEndSkipsWhitespace(TrimStart(s), w2);
    }
  }
}
