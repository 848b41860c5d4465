/**
 * The emotion classifier `analyze_sentiment`: an ordered, first-match-wins
 * ladder over the polarity score and the lower-cased input text.
 *
 * The polarity comes from a sentiment library outside this model and is a
 * parameter here; the ladder only compares it with the two thresholds.
 */
module Sentiment {
  import opened Text

  /** The closed set of labels the classifier can produce. */
  datatype Emotion = Happy | Sad | Angry | Nostalgic | Birthday | Default
  {
    /** The label string, which is also the key looked up in the message table. */
    function Key(): (k: string)
      ensures k in {"happy", "sad", "angry", "nostalgic", "birthday", "default"}
      ensures k == "default" <==> this == Default
    {
      match this
      case Happy => "happy"
      case Sad => "sad"
      case Angry => "angry"
      case Nostalgic => "nostalgic"
      case Birthday => "birthday"
      case Default => "default"
    }
  }

  /** Thresholds of the first two rungs: above `HappyAbove` is happy, below `SadBelow` is sad. */
  const HappyAbove: real := 0.3
  const SadBelow: real := -0.3

  /** The polarity falls through both threshold rungs. */
  predicate Neutral(polarity: real)
  {
    SadBelow <= polarity <= HappyAbove
  }

  /** `word in text.lower()`. */
  predicate Mentions(text: string, word: string)
  {
    Contains(Lower(text), word)
  }

  /** `analyze_sentiment` with the polarity of `text` passed in. */
  function Classify(polarity: real, text: string): (e: Emotion)
  {
    if polarity > HappyAbove then Happy
    else if polarity < SadBelow then Sad
    else if Mentions(text, "angry") then Angry
    else if Mentions(text, "nostalgic") then Nostalgic
    else if Mentions(text, "birthday") then Birthday
    else Default
  }

  /** A clearly positive score is "happy" whatever words the text contains. */
  lemma PositiveIsHappy(polarity: real, text: string)
    requires polarity > 0.3
    ensures Classify(polarity, text) == Happy
  {
  }

  /** A clearly negative score is "sad" whatever words the text contains. */
  lemma NegativeIsSad(polarity: real, text: string)
    requires polarity < -0.3
    ensures Classify(polarity, text) == Sad
  {
  }

  /**
   * The whole ladder, label by label: each label is produced exactly when
   * its own rung matches and no earlier rung does.
   */
  lemma ClassifyCharacterized(polarity: real, text: string)
    ensures Classify(polarity, text) == Happy <==> polarity > 0.3
    ensures Classify(polarity, text) == Sad <==> polarity < -0.3
    ensures Classify(polarity, text) == Angry <==>
      -0.3 <= polarity <= 0.3 && Mentions(text, "angry")
    ensures Classify(polarity, text) == Nostalgic <==>
      -0.3 <= polarity <= 0.3 && !Mentions(text, "angry") && Mentions(text, "nostalgic")
    ensures Classify(polarity, text) == Birthday <==>
      -0.3 <= polarity <= 0.3 && !Mentions(text, "angry") && !Mentions(text, "nostalgic")
      && Mentions(text, "birthday")
    ensures Classify(polarity, text) == Default <==>
      -0.3 <= polarity <= 0.3 && !Mentions(text, "angry") && !Mentions(text, "nostalgic")
      && !Mentions(text, "birthday")
  {
  }

  /**
   * The keyword rungs ignore case: texts that agree after lower-casing are
   * classified alike, and classifying the lower-cased text changes nothing.
   */
  lemma ClassifyIgnoresCase(polarity: real, text: string)
    ensures Classify(polarity, Lower(text)) == Classify(polarity, text)
  {
    LowerIdempotent(text);
  }

  /**
   * A neutral text in which `word` occurs in any casing of "angry" is
   * "angry", whatever later keywords (such as "birthday") it also holds.
   */
  lemma AngryInAnyCaseWins(polarity: real, text: string, word: string)
    requires -0.3 <= polarity <= 0.3
    requires Lower(word) == "angry" && Contains(text, word)
    ensures Classify(polarity, text) == Angry
  {
    ContainsLowered(text, word);
  }

  /** "ANGRY about my birthday" with a neutral score is "angry": first match wins. */
  lemma AngryBeforeBirthdayExample()
    ensures Classify(0.0, "ANGRY about my birthday") == Angry
  {
    var text := "ANGRY about my birthday";
    assert OccursAt(text, "ANGRY", 0);
    assert Lower("ANGRY") == "angry";
    AngryInAnyCaseWins(0.0, text, "ANGRY");
  }

  /** The empty text with score 0 falls through every rung to "default". */
  lemma EmptyTextIsDefault()
    ensures Classify(0.0, "") == Default
  {
  }
}
