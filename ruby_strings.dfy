/** The two Ruby `String` operations the strategy relies on: `strip` and
    `String#[]` with a string argument (substring test). */
module RubyStrings {

  /** Ruby's `strip` removes these characters at both ends: NUL, horizontal
      tab, line feed, vertical tab, form feed, carriage return and space. */
  predicate IsSpace(c: char) {
    c == '\0' || c == '\t' || c == '\n' || c == '\U{B}' || c == '\U{C}' || c == '\r' || c == ' '
  }

  predicate AllSpace(s: string) {
    forall i :: 0 <= i < |s| ==> IsSpace(s[i])
  }

  /** How many whitespace characters `lstrip` removes from the front. */
  function LeadingSpaceCount(s: string): (n: nat)
    ensures n <= |s| && AllSpace(s[..n])
    ensures n < |s| ==> !IsSpace(s[n])
    decreases |s|
  {
    if s != [] && IsSpace(s[0]) then
      var n := 1 + LeadingSpaceCount(s[1..]);
      assert s[..n] == [s[0]] + s[1..][..n - 1];
      n
    else
      0
  }

  /** Where the trailing run of whitespace that `rstrip` removes begins. */
  function TrailingSpaceStart(s: string): (j: nat)
    ensures j <= |s| && AllSpace(s[j..])
    ensures 0 < j ==> !IsSpace(s[j - 1])
    decreases |s|
  {
    if s != [] && IsSpace(s[|s| - 1]) then
      var j := TrailingSpaceStart(s[..|s| - 1]);
      assert s[j..] == s[..|s| - 1][j..] + [s[|s| - 1]];
      j
    else
      |s|
  }

  /** Ruby's `strip`: `rstrip` followed by `lstrip`. */
  function Strip(s: string): (r: string)
    ensures r != [] ==> !IsSpace(r[0]) && !IsSpace(r[|r| - 1])
  {
    var t := s[..TrailingSpaceStart(s)];
    t[LeadingSpaceCount(t)..]
  }

  /** `strip` keeps one contiguous slice of its argument and removes only
      whitespace around it. */
  lemma StripIsTrimmedSlice(s: string)
    ensures exists i, j :: 0 <= i <= j <= |s| && Strip(s) == s[i..j]
                           && AllSpace(s[..i]) && AllSpace(s[j..])
  {
    var j := TrailingSpaceStart(s);
    var i := LeadingSpaceCount(s[..j]);
    assert s[..j][i..] == s[i..j];
    assert s[..i] == s[..j][..i];
  }

  /** Leading whitespace is exactly what `lstrip` removes. */
  lemma {:induction false} LeadingSpacesOfPadded(p: string, core: string)
    requires AllSpace(p)
    requires core == [] || !IsSpace(core[0])
    ensures LeadingSpaceCount(p + core) == |p|
    decreases |p|
  {
    if p == [] {
      assert p + core == core;
    } else {
      assert (p + core)[1..] == p[1..] + core;
      LeadingSpacesOfPadded(p[1..], core);
    }
  }

  /** Trailing whitespace is exactly what `rstrip` removes. */
  lemma {:induction false} TrailingSpacesOfPadded(core: string, q: string)
    requires AllSpace(q)
    requires core == [] || !IsSpace(core[|core| - 1])
    ensures TrailingSpaceStart(core + q) == |core|
    decreases |q|
  {
    if q == [] {
      assert core + q == core;
    } else {
      assert (core + q)[..|core + q| - 1] == core + q[..|q| - 1];
      TrailingSpacesOfPadded(core, q[..|q| - 1]);
    }
  }

  /** `s` is `core` with whitespace on both sides. */
  ghost predicate Padded(s: string, core: string) {
    exists p, q :: AllSpace(p) && AllSpace(q) && s == p + core + q
  }

  lemma StripsToOnlyIfPadded(s: string, core: string)
    requires Strip(s) == core
    ensures Padded(s, core)
  {
  }

  lemma StripsToIfPadded(s: string, core: string)
    requires core != [] && !IsSpace(core[0]) && !IsSpace(core[|core| - 1])
    requires Padded(s, core)
    ensures Strip(s) == core
  {
    var p, q :| AllSpace(p) && AllSpace(q) && s == p + core + q;
    assert s == (p + core) + q;
    TrailingSpacesOfPadded(p + core, q);
    assert s[..|p + core|] == p + core;
    LeadingSpacesOfPadded(p, core);
    assert (p + core)[|p|..] == core;
  }

  /** A string strips to a non-blank `core` exactly when it is `core`
      surrounded by whitespace on both sides. */
  lemma StripEqualsIff(s: string, core: string)
    requires core != [] && !IsSpace(core[0]) && !IsSpace(core[|core| - 1])
    ensures Strip(s) == core <==> Padded(s, core)
  {
    if Strip(s) == core {
      StripsToOnlyIfPadded(s, core);
    }
    if Padded(s, core) {
      StripsToIfPadded(s, core);
    }
  }

  /** `k` occurs in `s` starting at index `i`. */
  ghost predicate OccursAt(s: string, k: string, i: int) {
    0 <= i && i + |k| <= |s| && s[i..i + |k|] == k
  }

  /** Does `k` occur in `s` at some index `from` or later? */
  function ContainsFrom(s: string, k: string, from: nat): (r: bool)
    ensures r <==> exists i :: from <= i && OccursAt(s, k, i)
    decreases |s| - from
  {
    if from + |k| > |s| then
      assert forall i :: from <= i ==> !OccursAt(s, k, i);
      false
    else if s[from..from + |k|] == k then
      assert OccursAt(s, k, from);
      true
    else
      assert forall i :: from <= i && OccursAt(s, k, i) ==> from + 1 <= i;
      ContainsFrom(s, k, from + 1)
  }

  /** `s[k]` for a string `k` in Ruby: is `k` a substring of `s`? */
  function Contains(s: string, k: string): (r: bool)
    ensures r <==> exists i :: OccursAt(s, k, i)
  {
    ContainsFrom(s, k, 0)
  }

  /** A string without the first character of `k` does not contain `k`. */
  lemma FirstCharAbsent(s: string, k: string)
    requires k != []
    requires forall i :: 0 <= i < |s| ==> s[i] != k[0]
    ensures !Contains(s, k)
  {
    forall i | 0 <= i && i + |k| <= |s|
      ensures !OccursAt(s, k, i)
    {
      assert s[i..i + |k|][0] == s[i];
    }
  }
}
