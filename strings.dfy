/** Substring containment, Python's `word in text` on two strings. */
module Strings {

  /** `word` occurs in `text` at position `i`. */
  predicate OccursAt(text: string, word: string, i: int)
  {
    0 <= i && i + |word| <= |text| && text[i..i + |word|] == word
  }

  /** `word in text`: some position of `text` starts an occurrence of `word`. */
  predicate Contains(text: string, word: string)
  {
    exists i | 0 <= i <= |text| - |word| :: OccursAt(text, word, i)
  }

  /** A string placed between two others occurs in their concatenation. */
  lemma ContainsInfix(pre: string, word: string, post: string)
    ensures Contains(pre + word + post, word)
  {
    var text := pre + word + post;
    assert text[|pre|..|pre| + |word|] == word;
    assert OccursAt(text, word, |pre|);
  }

  /** Every string contains itself. */
  lemma ContainsSelf(word: string)
    ensures Contains(word, word)
  {
    assert word[0..|word|] == word;
    assert OccursAt(word, word, 0);
  }

  /** A word occurs where the text agrees with it character by character. */
  lemma OccursByChars(text: string, word: string, i: nat)
    requires i + |word| <= |text|
    requires forall j :: 0 <= j < |word| ==> text[i + j] == word[j]
    ensures Contains(text, word)
  {
    assert text[i..i + |word|] == word;
    assert OccursAt(text, word, i);
  }

  /** A word is absent when no position of the text starts with its first
      two characters. */
  lemma AbsentByFirstTwo(text: string, word: string)
    requires |word| >= 2
    requires forall i :: 0 <= i <= |text| - |word| ==> text[i] != word[0] || text[i + 1] != word[1]
    ensures !Contains(text, word)
  {
    forall i | 0 <= i <= |text| - |word|
      ensures !OccursAt(text, word, i)
    {
      assert text[i..i + |word|][0] == text[i];
      assert text[i..i + |word|][1] == text[i + 1];
    }
  }

  /** A word longer than the text cannot occur in it. */
  lemma LongerNotContained(text: string, word: string)
    requires |text| < |word|
    ensures !Contains(text, word)
  {
  }
}
