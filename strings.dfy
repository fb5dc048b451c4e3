/** The few helpers of Go's `strings` package that the plugin relies on. */
module Strings {

  predicate IsDigit(c: char) { '0' <= c <= '9' }

  predicate AllDigits(s: string) { forall i :: 0 <= i < |s| ==> IsDigit(s[i]) }

  /** strings.HasSuffix */
  predicate HasSuffix(s: string, suffix: string) {
    |suffix| <= |s| && s[|s| - |suffix|..] == suffix
  }

  /** strings.Index for one character: the first position of `c`, or -1. */
  function IndexOf(s: string, c: char): (i: int)
    ensures -1 <= i < |s|
    ensures i == -1 <==> c !in s
    ensures 0 <= i ==> s[i] == c && c !in s[..i]
  {
    if s == [] then -1
    else if s[0] == c then 0
    else
      var j := IndexOf(s[1..], c);
      if j < 0 then -1
      else
        assert s[..j + 1] == [s[0]] + s[1..][..j];
        j + 1
  }

  /** strings.LastIndex for one character: the last position of `c`, or -1. */
  function LastIndexOf(s: string, c: char): (i: int)
    ensures -1 <= i < |s|
    ensures i == -1 <==> c !in s
    ensures 0 <= i ==> s[i] == c && c !in s[i + 1..]
  {
    if s == [] then -1
    else if s[|s| - 1] == c then |s| - 1
    else
      var j := LastIndexOf(s[..|s| - 1], c);
      assert s[..|s| - 1] + [s[|s| - 1]] == s;
      j
  }

  /** strings.Split on one separator character: the maximal pieces between separators. */
  function Split(s: string, sep: char): (parts: seq<string>)
    ensures |parts| >= 1
    ensures forall k :: 0 <= k < |parts| ==> sep !in parts[k]
  {
    var i := IndexOf(s, sep);
    if i < 0 then [s] else [s[..i]] + Split(s[i + 1..], sep)
  }

  /** The decimal value of a string of digits. */
  function DecimalValue(s: string): nat
    requires AllDigits(s)
  {
    if s == [] then 0
    else 10 * DecimalValue(s[..|s| - 1]) + (s[|s| - 1] as int - '0' as int)
  }

  /** A non-empty sequence is its prefix followed by its last element. */
  lemma SplitLast<T>(s: seq<T>)
    requires |s| > 0
    ensures s[..|s| - 1] + [s[|s| - 1]] == s
  {
  }

  /** Being a prefix is transitive. */
  lemma PrefixTrans<T>(a: seq<T>, b: seq<T>, c: seq<T>)
    requires |a| <= |b| <= |c| && c[..|b|] == b && b[..|a|] == a
    ensures c[..|a|] == a
  {
    assert forall i :: 0 <= i < |a| ==> c[i] == b[i];
  }

  /** Some element of `s` is mapped to `y` by `f`. */
  predicate SomeMapsTo<T, U(==)>(s: seq<T>, f: T -> U, y: U) {
    exists i :: 0 <= i < |s| && f(s[i]) == y
  }

  /** One more element: it maps to `y`, or an earlier one does. */
  lemma SomeMapsToSnoc<T, U>(s: seq<T>, f: T -> U, y: U)
    requires s != []
    ensures SomeMapsTo(s, f, y) <==> SomeMapsTo(s[..|s| - 1], f, y) || f(s[|s| - 1]) == y
  {
    var init := s[..|s| - 1];
    if SomeMapsTo(init, f, y) {
      var i :| 0 <= i < |init| && f(init[i]) == y;
      assert s[i] == init[i];
    }
    if SomeMapsTo(s, f, y) {
      var i :| 0 <= i < |s| && f(s[i]) == y;
      if i < |init| {
        assert init[i] == s[i];
      }
    }
  }

  /** The first occurrence found by IndexOf is the only one before it. */
  lemma IndexOfAt(s: string, c: char, i: int)
    requires 0 <= i < |s| && s[i] == c && c !in s[..i]
    ensures IndexOf(s, c) == i
  {
  }

  /** The last occurrence found by LastIndexOf is the only one after it. */
  lemma LastIndexOfAt(s: string, c: char, i: int)
    requires 0 <= i < |s| && s[i] == c && c !in s[i + 1..]
    ensures LastIndexOf(s, c) == i
  {
  }
}
