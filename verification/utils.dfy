/** Detection of Chinese text, which the melody plugin uses to pick the
    prompt language. */
module Utils {

  /** A character of the CJK Unified Ideographs block (U+4E00..U+9FFF) or of
      its Extension A (U+3400..U+4DBF), both ranges inclusive. */
  predicate IsHanCharacter(c: char) {
    ('\U{4E00}' <= c <= '\U{9FFF}') || ('\U{3400}' <= c <= '\U{4DBF}')
  }

  /** True exactly when some character of `text` is a Han character; the scan
      stops at the first one. */
  function ContainsChinese(text: string): (r: bool)
    ensures r <==> exists i :: 0 <= i < |text| && IsHanCharacter(text[i])
  {
    if |text| == 0 then false
    else if IsHanCharacter(text[0]) then true
    else
      var rest := ContainsChinese(text[1..]);
      assert forall i :: 1 <= i < |text| ==> text[i] == text[1..][i - 1];
      rest
  }

  /** Adding text on either side never removes a Han character. */
  lemma ContainsChineseMonotone(s: string, t: string)
    requires ContainsChinese(s)
    ensures ContainsChinese(s + t) && ContainsChinese(t + s)
  {
    var i :| 0 <= i < |s| && IsHanCharacter(s[i]);
    assert (s + t)[i] == s[i];
    assert (t + s)[|t| + i] == s[i];
  }

  /** Both ends of both ranges count; the neighbours just outside do not. */
  lemma ContainsChineseRangeEnds()
    ensures ContainsChinese("\U{4E00}") && ContainsChinese("\U{9FFF}")
    ensures ContainsChinese("\U{3400}") && ContainsChinese("\U{4DBF}")
    ensures !ContainsChinese("\U{4DFF}") && !ContainsChinese("\U{4DC0}")
    ensures !ContainsChinese("\U{A000}") && !ContainsChinese("\U{33FF}")
    ensures !ContainsChinese("")
  {
  }
}
