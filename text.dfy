/**
 * The two string operations the emotion classifier uses: `str.lower()`,
 * restricted to ASCII letters, and the substring test `needle in haystack`.
 */
module Text {

  /** Lower-cases one character; only 'A'..'Z' change. */
  function LowerChar(c: char): (d: char)
    ensures 'a' <= d <= 'z' <==> ('a' <= c <= 'z' || 'A' <= c <= 'Z')
    ensures !('A' <= c <= 'Z') ==> d == c
  {
    if 'A' <= c <= 'Z' then (c - 'A' + 'a') as char else c
  }

  /** `s.lower()`: the string lower-cased character by character. */
  function Lower(s: string): (r: string)
  {
    seq(|s|, i requires 0 <= i < |s| => LowerChar(s[i]))
  }

  /** `word` occurs in `text` starting at index `i`. */
  predicate OccursAt(text: string, word: string, i: int)
  {
    0 <= i && i + |word| <= |text| && text[i..i + |word|] == word
  }

  /** Python's `word in text` on strings: some slice of `text` equals `word`. */
  function Contains(text: string, word: string): (r: bool)
    ensures r <==> exists i :: OccursAt(text, word, i)
    decreases |text|
  {
    if |word| > |text| then false
    else if OccursAt(text, word, 0) then true
    else
      ShiftOccurrences(text, word);
      Contains(text[1..], word)
  }

  /** Dropping the first character shifts every later occurrence one place to the left. */
  lemma ShiftOccurrences(text: string, word: string)
    requires text != [] && !OccursAt(text, word, 0)
    ensures (exists i :: OccursAt(text, word, i)) <==> (exists i :: OccursAt(text[1..], word, i))
  {
    forall i | OccursAt(text[1..], word, i)
      ensures OccursAt(text, word, i + 1)
    {
      SliceOfTail(text, i, i + |word|);
    }
    forall i | OccursAt(text, word, i)
      ensures OccursAt(text[1..], word, i - 1)
    {
      if i == 0 {
        assert false;
      } else {
        SliceOfTail(text, i - 1, i - 1 + |word|);
      }
    }
  }

  lemma SliceOfTail(text: string, i: int, j: int)
    requires text != [] && 0 <= i <= j <= |text| - 1
    ensures text[1..][i..j] == text[i + 1..j + 1]
  {
  }

  /** Lower-casing a string twice is the same as lower-casing it once. */
  lemma LowerIdempotent(s: string)
    ensures Lower(Lower(s)) == Lower(s)
  {
  }

  /** Lower-casing commutes with taking a slice. */
  lemma LowerSlice(s: string, i: int, j: int)
    requires 0 <= i <= j <= |s|
    ensures Lower(s)[i..j] == Lower(s[i..j])
  {
  }

  /** If `word` occurs in `text` in any casing, its lower-cased form occurs in `text.lower()`. */
  lemma ContainsLowered(text: string, word: string)
    requires Contains(text, word)
    ensures Contains(Lower(text), Lower(word))
  {
    var i :| OccursAt(text, word, i);
    LowerSlice(text, i, i + |word|);
    assert OccursAt(Lower(text), Lower(word), i);
  }
}
