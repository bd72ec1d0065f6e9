// Python's substring test `needle in haystack` on strings, which the
// eligibility check uses to read the credit-history label.
module Text {

  /** `s` begins with `p`. */
  predicate StartsWith(s: string, p: string) {
    |p| <= |s| && s[..|p|] == p
  }

  /** `needle in s`: some window of `s` equals `needle`, tried from the left.
      As in Python, the empty needle occurs in every string. */
  function Contains(s: string, needle: string): (found: bool)
    ensures found ==> |needle| <= |s|
    ensures needle == [] ==> found
    decreases |s|
  {
    StartsWith(s, needle) || (|s| > 0 && Contains(s[1..], needle))
  }

  /** The reference meaning of an occurrence: `needle` sits at index `i` of `s`. */
  ghost predicate OccursAt(s: string, needle: string, i: int) {
    0 <= i && i + |needle| <= |s| && s[i..i + |needle|] == needle
  }

  /** The left-to-right search finds a needle exactly when it occurs somewhere. */
  lemma {:induction false} ContainsIffOccurs(s: string, needle: string)
    ensures Contains(s, needle) <==> exists i :: OccursAt(s, needle, i)
    decreases |s|
  {
    if StartsWith(s, needle) {
      assert OccursAt(s, needle, 0);
    } else if |s| == 0 {
      assert |needle| > 0;
      forall i ensures !OccursAt(s, needle, i) {
      }
    } else {
      var t := s[1..];
      ContainsIffOccurs(t, needle);
      if Contains(t, needle) {
        var j :| OccursAt(t, needle, j);
        assert s[j + 1..j + 1 + |needle|] == t[j..j + |needle|];
        assert OccursAt(s, needle, j + 1);
      } else {
        forall i | 0 < i && i + |needle| <= |s| ensures !OccursAt(s, needle, i) {
          assert t[i - 1..i - 1 + |needle|] == s[i..i + |needle|];
          assert !OccursAt(t, needle, i - 1);
        }
        assert !OccursAt(s, needle, 0);
      }
    }
  }
}
