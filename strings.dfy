/**
 * Python's `str.strip()` with no argument: remove every leading and every
 * trailing character for which `str.isspace()` holds.
 */
module Strings {

  /** The characters CPython's `str.isspace()` accepts. */
  predicate IsSpace(c: char) {
    || ('\t' <= c <= '\r')              // tab, line feed, vertical tab, form feed, carriage return
    || ('\U{1C}' <= c <= '\U{1F}')      // file, group, record and unit separators
    || c == ' '
    || c == '\U{85}'                    // next line
    || c == '\U{A0}'                    // no-break space
    || c == '\U{1680}'                  // ogham space mark
    || ('\U{2000}' <= c <= '\U{200A}')  // en quad .. hair space
    || c == '\U{2028}' || c == '\U{2029}'
    || c == '\U{202F}' || c == '\U{205F}'
    || c == '\U{3000}'                  // ideographic space
  }

  /** The first `n` characters of `s` are whitespace. */
  ghost predicate SpaceBefore(s: string, n: nat)
    requires n <= |s|
  {
    forall k :: 0 <= k < n ==> IsSpace(s[k])
  }

  /** The characters of `s` from position `n` on are whitespace. */
  ghost predicate SpaceFrom(s: string, n: nat)
    requires n <= |s|
  {
    forall k :: n <= k < |s| ==> IsSpace(s[k])
  }

  /** Neither the first nor the last character is whitespace. */
  predicate Trimmed(s: string) {
    s == [] || (!IsSpace(s[0]) && !IsSpace(s[|s| - 1]))
  }

  /** The first position at or after `i` that is not whitespace, or `|s|` when there is none. */
  function SkipSpace(s: string, i: nat): (k: nat)
    requires i <= |s|
    ensures i <= k <= |s|
    ensures forall m :: i <= m < k ==> IsSpace(s[m])
    ensures k == |s| || !IsSpace(s[k])
    decreases |s| - i
  {
    if i < |s| && IsSpace(s[i]) then SkipSpace(s, i + 1) else i
  }

  /** The position just after the last non-whitespace character before `j`, or `0` when there is none. */
  function SkipSpaceBack(s: string, j: nat): (k: nat)
    requires j <= |s|
    ensures k <= j
    ensures forall m :: k <= m < j ==> IsSpace(s[m])
    ensures k == 0 || !IsSpace(s[k - 1])
    decreases j
  {
    if j > 0 && IsSpace(s[j - 1]) then SkipSpaceBack(s, j - 1) else j
  }

  /**
   * `str.strip()`: scan forward past the leading whitespace and backward past
   * the trailing whitespace, and keep what lies between.
   */
  function Strip(s: string): (r: string)
    ensures |r| <= |s| && Trimmed(r)
    ensures exists i :: 0 <= i <= |s| - |r| && r == s[i..i + |r|] && SpaceBefore(s, i) && SpaceFrom(s, i + |r|)
  {
    var i := SkipSpace(s, 0);
    var j := SkipSpaceBack(s, |s|);
    var e := if j <= i then i else j;
    assert SpaceBefore(s, i) && SpaceFrom(s, i + (e - i));
    s[i..e]
  }

  /** The first non-whitespace position of `s` is `i` whenever everything before `i` is whitespace and `s[i]` is not. */
  lemma SkipSpaceAt(s: string, i: nat)
    requires i <= |s| && SpaceBefore(s, i)
    requires i == |s| || !IsSpace(s[i])
    ensures SkipSpace(s, 0) == i
  {
  }

  /** Symmetrically, the backward scan stops at `j` whenever everything from `j` on is whitespace and `s[j - 1]` is not. */
  lemma SkipSpaceBackAt(s: string, j: nat)
    requires j <= |s| && SpaceFrom(s, j)
    requires j == 0 || !IsSpace(s[j - 1])
    ensures SkipSpaceBack(s, |s|) == j
  {
  }

  /**
   * Names the two end positions of the slice whose existence the contract of
   * `Strip` asserts: `Strip(s)` is `s[i..j]`, with only whitespace before `i`
   * and from `j` on.
   */
  lemma StripIsSlice(s: string) returns (i: nat, j: nat)
    ensures i <= j <= |s| && Strip(s) == s[i..j]
    ensures SpaceBefore(s, i) && SpaceFrom(s, j)
  {
    i := SkipSpace(s, 0);
    var b := SkipSpaceBack(s, |s|);
    j := if b <= i then i else b;
  }

  /**
   * `Strip` is determined by its contract: any split of `s` into whitespace,
   * a trimmed middle and whitespace yields that middle.
   */
  lemma StripUnique(s: string, i: nat, j: nat)
    requires i <= j <= |s|
    requires SpaceBefore(s, i) && SpaceFrom(s, j) && Trimmed(s[i..j])
    ensures Strip(s) == s[i..j]
  {
    if i < j {
      assert s[i..j][0] == s[i] && s[i..j][j - i - 1] == s[j - 1];
      SkipSpaceAt(s, i);
      SkipSpaceBackAt(s, j);
    } else {
      assert SpaceBefore(s, |s|) by {
        forall m | 0 <= m < |s| ensures IsSpace(s[m]) {
          if m >= i {
            assert j <= m;
          }
        }
      }
      SkipSpaceAt(s, |s|);
    }
  }

  /** A string with no surrounding whitespace is left unchanged. */
  lemma StripTrimmed(t: string)
    requires Trimmed(t)
    ensures Strip(t) == t
  {
    assert t[0..|t|] == t;
    StripUnique(t, 0, |t|);
  }

  /** Stripping twice is stripping once. */
  lemma StripIdempotent(s: string)
    ensures Strip(Strip(s)) == Strip(s)
  {
    StripTrimmed(Strip(s));
  }
}
