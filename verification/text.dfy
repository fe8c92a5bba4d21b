/**
 Substring search on text, as used by `str::contains` with a string pattern.
 The specification is existential; `FindSubstring` is a left-to-right search
 proven to agree with it and to report the first occurrence.
 */
module Text {

  /** `pattern` occurs in `text` starting at position `i`. */
  predicate OccursAt(pattern: string, text: string, i: int)
  {
    0 <= i && i + |pattern| <= |text| && text[i..i + |pattern|] == pattern
  }

  /** `text` contains `pattern` somewhere (the empty pattern is contained in every text). */
  predicate Contains(text: string, pattern: string)
  {
    exists i | 0 <= i <= |text| :: OccursAt(pattern, text, i)
  }

  /**
   Naive search: compares `pattern` character by character against each window
   of `text`, from the left. Reports whether it occurs and, if so, where it
   first occurs.
   */
  method FindSubstring(text: string, pattern: string) returns (found: bool, index: nat)
    ensures found <==> Contains(text, pattern)
    ensures found ==> OccursAt(pattern, text, index)
    ensures found ==> forall j | 0 <= j < index :: !OccursAt(pattern, text, j)
    ensures !found ==> index == 0
  {
    var i := 0;
    while i + |pattern| <= |text|
      invariant 0 <= i
      invariant forall j | 0 <= j < i :: !OccursAt(pattern, text, j)
      decreases |text| - i
    {
      var k := 0;
      while k < |pattern| && text[i + k] == pattern[k]
        invariant 0 <= k <= |pattern|
        invariant forall m | 0 <= m < k :: text[i + m] == pattern[m]
        decreases |pattern| - k
      {
        k := k + 1;
      }
      if k == |pattern| {
        assert text[i..i + |pattern|] == pattern;
        assert OccursAt(pattern, text, i);
        return true, i;
      }
      assert text[i + k] != pattern[k];
      assert text[i..i + |pattern|][k] != pattern[k];
      i := i + 1;
    }
    return false, 0;
  }
}
