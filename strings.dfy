/**
 The two Python string operators the handler relies on: `part in whole`
 (substring containment, used by both final-state filters) and `a < b`
 (the order `sorted()` puts pipeline names in).
 */
module Strings {

  /** `part` is a prefix of `whole`. */
  predicate IsPrefix(part: string, whole: string)
  {
    |part| <= |whole| && whole[..|part|] == part
  }

  /** Python's `part in whole` on strings: `part` occurs in `whole` as one
      contiguous run. The empty string occurs in every string. */
  predicate IsSubstring(part: string, whole: string)
    ensures IsSubstring(part, whole) ==> |part| <= |whole|
    decreases |whole|
  {
    IsPrefix(part, whole) || (|whole| > 0 && IsSubstring(part, whole[1..]))
  }

  /** The scan above agrees with the textbook definition: an occurrence at some offset. */
  lemma {:induction false} SubstringIffOccurrence(part: string, whole: string)
    ensures IsSubstring(part, whole) <==> exists i :: 0 <= i <= |whole| && IsPrefix(part, whole[i..])
    decreases |whole|
  {
    assert whole[0..] == whole;
    if |whole| > 0 {
      SubstringIffOccurrence(part, whole[1..]);
      if IsSubstring(part, whole) && !IsPrefix(part, whole) {
        var i :| 0 <= i <= |whole[1..]| && IsPrefix(part, whole[1..][i..]);
        assert whole[1..][i..] == whole[i + 1..];
      }
      if exists i :: 0 <= i <= |whole| && IsPrefix(part, whole[i..]) {
        var i :| 0 <= i <= |whole| && IsPrefix(part, whole[i..]);
        if i > 0 {
          assert whole[1..][i - 1..] == whole[i..];
        }
      }
    }
  }

  /** A mismatch at position k of `part`, or `whole` ending before it, rules out a prefix. */
  lemma MismatchNotPrefix(part: string, whole: string, k: nat)
    requires k < |part| && (k >= |whole| || part[k] != whole[k])
    ensures !IsPrefix(part, whole)
  {
  }

  /** Every character of a substring is a character of the whole string. */
  lemma {:induction false} SubstringCharacters(part: string, whole: string, c: char)
    requires IsSubstring(part, whole) && c in part
    ensures c in whole
    decreases |whole|
  {
    if IsPrefix(part, whole) {
      var k :| 0 <= k < |part| && part[k] == c;
      assert whole[k] == c;
    } else {
      SubstringCharacters(part, whole[1..], c);
    }
  }

  /** A string holding a character that `whole` lacks is not a substring of it. */
  lemma ForeignCharacterExcludes(part: string, whole: string, c: char)
    requires c in part && c !in whole
    ensures !IsSubstring(part, whole)
  {
    if IsSubstring(part, whole) {
      SubstringCharacters(part, whole, c);
    }
  }

  /** Python's `a < b` on strings: lexicographic by code point, a proper
      prefix ordered first. */
  predicate LexLess(a: string, b: string)
    decreases |a|
  {
    |b| > 0 && (|a| == 0 || a[0] < b[0] || (a[0] == b[0] && LexLess(a[1..], b[1..])))
  }

  lemma {:induction false} LexLessIrreflexive(a: string)
    ensures !LexLess(a, a)
    decreases |a|
  {
    if |a| > 0 {
      LexLessIrreflexive(a[1..]);
    }
  }

  lemma {:induction false} LexLessTransitive(a: string, b: string, c: string)
    requires LexLess(a, b) && LexLess(b, c)
    ensures LexLess(a, c)
    decreases |a|
  {
    if |a| > 0 && a[0] == b[0] && b[0] == c[0] {
      LexLessTransitive(a[1..], b[1..], c[1..]);
    }
  }

  lemma {:induction false} LexLessTotal(a: string, b: string)
    requires a != b
    ensures LexLess(a, b) || LexLess(b, a)
    decreases |a|
  {
    if |a| > 0 && |b| > 0 && a[0] == b[0] {
      assert a == [a[0]] + a[1..] && b == [b[0]] + b[1..];
      LexLessTotal(a[1..], b[1..]);
    }
  }

  /** LexLess is a strict order: it never holds both ways. */
  lemma LexLessAsymmetric(a: string, b: string)
    requires LexLess(a, b)
    ensures !LexLess(b, a)
  {
    if LexLess(b, a) {
      LexLessTransitive(a, b, a);
      LexLessIrreflexive(a);
    }
  }
}
