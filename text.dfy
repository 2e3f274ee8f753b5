/** Python's substring test `needle in text` on strings. */
module Text {

  /** `needle` occurs in `text` starting at position i. */
  ghost predicate OccursAt(text: string, needle: string, i: int)
  {
    0 <= i && i + |needle| <= |text| && text[i..i + |needle|] == needle
  }

  /** `text` starts with `prefix`. */
  predicate StartsWith(text: string, prefix: string)
  {
    |prefix| <= |text| && text[..|prefix|] == prefix
  }

  /** `needle in text`: try every start position from the left. */
  function Contains(text: string, needle: string): (found: bool)
    ensures StartsWith(text, needle) ==> found
    ensures found ==> |needle| <= |text|
    decreases |text|
  {
    StartsWith(text, needle) || (|text| > 0 && Contains(text[1..], needle))
  }

  /** The search answers yes exactly when some position holds an occurrence. */
  lemma {:induction false} ContainsIff(text: string, needle: string)
    ensures Contains(text, needle) <==> exists i :: OccursAt(text, needle, i)
    decreases |text|
  {
    if |text| > 0 {
      ContainsIff(text[1..], needle);
    }
    if Contains(text, needle) {
      if StartsWith(text, needle) {
        assert OccursAt(text, needle, 0);
      } else {
        var i :| OccursAt(text[1..], needle, i);
        assert text[1..][i..i + |needle|] == text[i + 1..i + 1 + |needle|];
        assert OccursAt(text, needle, i + 1);
      }
    }
    if exists i :: OccursAt(text, needle, i) {
      var i :| OccursAt(text, needle, i);
      if i == 0 {
        assert StartsWith(text, needle);
      } else {
        assert text[1..][i - 1..i - 1 + |needle|] == text[i..i + |needle|];
        assert OccursAt(text[1..], needle, i - 1);
      }
    }
  }

  /** An occurrence at a known position makes the search answer yes. */
  lemma ContainsAt(text: string, needle: string, i: int)
    requires OccursAt(text, needle, i)
    ensures Contains(text, needle)
  {
    ContainsIff(text, needle);
  }

  /** A needle longer than the text never occurs in it. */
  lemma NotContainsLonger(text: string, needle: string)
    requires |text| < |needle|
    ensures !Contains(text, needle)
  {
    ContainsIff(text, needle);
  }
}
