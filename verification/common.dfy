/** Shared wrappers and the few JavaScript string operations the application relies on. */
module Common {

  datatype Option<+T> = None | Some(value: T)

  datatype Result<+R, +E> = Success(value: R) | Failure(error: E)

  /** `p` occurs in `s` starting at index `i`. */
  predicate OccursAt(s: string, p: string, i: int)
  {
    0 <= i <= |s| - |p| && s[i..i + |p|] == p
  }

  /** `s.includes(p)`: `p` occurs as a contiguous piece of `s`. */
  predicate Contains(s: string, p: string)
  {
    exists i | 0 <= i <= |s| - |p| :: OccursAt(s, p, i)
  }

  /** Every string includes the empty string (so an empty search term matches everything). */
  lemma EmptyIsContained(s: string)
    ensures Contains(s, "")
  {
    assert OccursAt(s, "", 0);
  }

  /** A string that includes `p` holds every character of `p`. */
  lemma ContainedCharsOccur(s: string, p: string, k: int)
    requires Contains(s, p) && 0 <= k < |p|
    ensures p[k] in s
  {
    var i :| 0 <= i <= |s| - |p| && OccursAt(s, p, i);
    assert s[i + k] == s[i..i + |p|][k];
  }

  lemma CharNotInJoin(a: string, b: string, c: char)
    requires c !in a && c !in b
    ensures c !in a + b
  {
  }

  /** Character `c` is immediately followed by `d` at index `j` of `s`. */
  predicate PairAt(s: string, c: char, d: char, j: int)
  {
    0 <= j < |s| - 1 && s[j] == c && s[j + 1] == d
  }

  ghost predicate HasPair(s: string, c: char, d: char)
  {
    exists j :: PairAt(s, c, d, j)
  }

  /** A string that includes `p` holds every adjacent pair of characters of `p`. */
  lemma ContainedPairsOccur(s: string, p: string, k: int)
    requires Contains(s, p) && 0 <= k < |p| - 1
    ensures HasPair(s, p[k], p[k + 1])
  {
    var i :| 0 <= i <= |s| - |p| && OccursAt(s, p, i);
    assert s[i + k] == s[i..i + |p|][k];
    assert s[i + k + 1] == s[i..i + |p|][k + 1];
    assert PairAt(s, p[k], p[k + 1], i + k);
  }

  /** A pair in a concatenation lies in one half or straddles the seam. */
  lemma PairInConcat(a: string, b: string, c: char, d: char)
    requires HasPair(a + b, c, d)
    ensures HasPair(a, c, d) || HasPair(b, c, d) || (|a| > 0 && |b| > 0 && a[|a| - 1] == c && b[0] == d)
  {
    var j :| PairAt(a + b, c, d, j);
    if j + 1 < |a| {
      assert PairAt(a, c, d, j);
    } else if j >= |a| {
      assert PairAt(b, c, d, j - |a|);
    }
  }

  /** Two pieces without the pair, joined at a seam that does not form it, have no such pair. */
  lemma NoPairInJoin(a: string, b: string, c: char, d: char)
    requires !HasPair(a, c, d) && !HasPair(b, c, d)
    requires |a| == 0 || |b| == 0 || a[|a| - 1] != c || b[0] != d
    ensures !HasPair(a + b, c, d)
  {
    if HasPair(a + b, c, d) {
      PairInConcat(a, b, c, d);
    }
  }

  /** A string without the character `c` has no pair starting with `c`. */
  lemma NoPairWithout(s: string, c: char, d: char)
    requires c !in s
    ensures !HasPair(s, c, d)
  {
  }

  /** The characters JavaScript's `String.prototype.trim` removes. */
  predicate IsWhitespace(c: char)
  {
    c == ' ' || c == '\t' || c == '\n' || c == '\r' || c == '\U{000B}' || c == '\U{000C}'
    || c == '\U{00A0}' || c == '\U{1680}' || ('\U{2000}' <= c <= '\U{200A}')
    || c == '\U{2028}' || c == '\U{2029}' || c == '\U{202F}' || c == '\U{205F}'
    || c == '\U{3000}' || c == '\U{FEFF}'
  }

  /** `s.trim() === ''`: the string is empty or made only of whitespace. */
  predicate IsBlank(s: string)
  {
    forall i :: 0 <= i < |s| ==> IsWhitespace(s[i])
  }

  /** ASCII `toLowerCase`; other characters are left as they are. */
  function LowerChar(c: char): (r: char)
    ensures 'A' <= c <= 'Z' ==> 'a' <= r <= 'z'
    ensures !('A' <= c <= 'Z') ==> r == c
  {
    if 'A' <= c <= 'Z' then (c as int + 32) as char else c
  }

  function Lower(s: string): (r: string)
    ensures |r| == |s|
    ensures forall i :: 0 <= i < |s| ==> r[i] == LowerChar(s[i])
  {
    if s == [] then [] else [LowerChar(s[0])] + Lower(s[1..])
  }
}
