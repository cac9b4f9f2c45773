/**
 * Case-insensitive string comparison as the web-interface descriptor uses it
 * (StringUtils::EqualsNoCase). Its body is not part of this model; it is
 * modelled here as a character-by-character comparison after ASCII case
 * folding, the behaviour of `tolower` in the C locale.
 */
module AsciiCase {

  /** ASCII lower-casing: 'A'..'Z' map to 'a'..'z', every other character is kept. */
  function ToLower(c: char): char {
    if 'A' <= c <= 'Z' then (c as int + 32) as char else c
  }

  /** ASCII upper-casing: 'a'..'z' map to 'A'..'Z', every other character is kept. */
  function ToUpper(c: char): char {
    if 'a' <= c <= 'z' then (c as int - 32) as char else c
  }

  /** The comparison itself: walk both strings, folding each pair of characters. */
  function EqualsNoCase(a: string, b: string): (r: bool)
    ensures a == b ==> r
    ensures r ==> |a| == |b|
  {
    if a == [] || b == [] then a == b
    else ToLower(a[0]) == ToLower(b[0]) && EqualsNoCase(a[1..], b[1..])
  }

  /** Reference definition: equal length and equal after folding at every position. */
  predicate SameFolding(a: string, b: string) {
    |a| == |b| && forall i :: 0 <= i < |a| ==> ToLower(a[i]) == ToLower(b[i])
  }

  /** `word` is written in lower-case ASCII letters only. */
  predicate IsLowerAsciiWord(word: string) {
    forall i :: 0 <= i < |word| ==> 'a' <= word[i] <= 'z'
  }

  /** `s` spells `word` with each letter in either case ("wSgI" spells "wsgi"). */
  predicate SpellsInAnyCase(s: string, word: string) {
    |s| == |word| && forall i :: 0 <= i < |s| ==> s[i] == word[i] || s[i] == ToUpper(word[i])
  }

  /** The recursive comparison agrees with the position-wise reference definition. */
  lemma {:induction false} EqualsNoCaseIsSameFolding(a: string, b: string)
    ensures EqualsNoCase(a, b) <==> SameFolding(a, b)
  {
    if a != [] && b != [] {
      EqualsNoCaseIsSameFolding(a[1..], b[1..]);
      if SameFolding(a, b) {
        forall i | 0 <= i < |a| - 1
          ensures ToLower(a[1..][i]) == ToLower(b[1..][i])
        {
          assert a[1..][i] == a[i + 1] && b[1..][i] == b[i + 1];
        }
      }
      if ToLower(a[0]) == ToLower(b[0]) && SameFolding(a[1..], b[1..]) {
        forall i | 0 <= i < |a|
          ensures ToLower(a[i]) == ToLower(b[i])
        {
          if i > 0 {
            assert a[1..][i - 1] == a[i] && b[1..][i - 1] == b[i];
          }
        }
      }
    }
  }

  /** Every mixed-case spelling of a lower-case word compares equal to it. */
  lemma {:induction false} SpellingInAnyCaseEqualsNoCase(s: string, word: string)
    requires IsLowerAsciiWord(word)
    requires SpellsInAnyCase(s, word)
    ensures EqualsNoCase(s, word)
  {
    forall i | 0 <= i < |s|
      ensures ToLower(s[i]) == ToLower(word[i])
    {
      assert 'a' <= word[i] <= 'z';
    }
    EqualsNoCaseIsSameFolding(s, word);
  }

  /** Conversely, a string that compares equal to a lower-case word is one of its spellings. */
  lemma {:induction false} EqualsNoCaseIsSpellingInAnyCase(s: string, word: string)
    requires IsLowerAsciiWord(word)
    requires EqualsNoCase(s, word)
    ensures SpellsInAnyCase(s, word)
  {
    EqualsNoCaseIsSameFolding(s, word);
    forall i | 0 <= i < |s|
      ensures s[i] == word[i] || s[i] == ToUpper(word[i])
    {
      assert ToLower(s[i]) == ToLower(word[i]) == word[i];
    }
  }
}
