/**
 * The page flow of `main` with its foreign inputs passed in: the current
 * date, the loaded table, the submitted text with its polarity, and the two
 * random draws.
 */
module Page {
  import opened Wrappers
  import opened Sentiment
  import opened Messages

  datatype Date = Date(year: int, month: int, day: int)

  /** The configured special date (month, day): June 25. */
  const BirthdayMonth: int := 6
  const BirthdayDay: int := 25

  /** `today.month == BIRTHDAY[0] and today.day == BIRTHDAY[1]`. */
  predicate IsBirthday(today: Date)
  {
    today.month == BirthdayMonth && today.day == BirthdayDay
  }

  /** The special date is June 25 of any year. */
  lemma IsBirthdayExactly(today: Date)
    ensures IsBirthday(today) <==> today.month == 6 && today.day == 25
    ensures forall y :: IsBirthday(Date(y, today.month, today.day)) == IsBirthday(today)
  {
  }

  /**
   * The birthday card shown above the form: absent on ordinary days, and
   * on the special date the record resolved for "birthday".
   */
  function BirthdayCard(today: Date, table: Table): (c: Option<Result<Record>>)
    ensures c.Some? <==> today.month == 6 && today.day == 25
    ensures c.Some? ==> (c.value.Success? <==> "default" in table.records)
    ensures c.Some? && "birthday" in table.records && "default" in table.records ==>
      c.value == Success(table.records["birthday"])
    ensures c.Some? && "birthday" !in table.records && "default" in table.records ==>
      c.value == Success(table.records["default"])
  {
    if IsBirthday(today) then Some(Resolve(table, Emotion.Birthday.Key())) else None
  }

  /**
   * What one submission renders: the label and its record, which are shown
   * first, and then the outcome of the memory block, which may still raise.
   */
  datatype Response = Response(emotion: Emotion, record: Record, memory: Result<Option<string>>)

  /** Probability threshold of the memory draw. */
  const MemoryChance: real := 0.4

  /**
   * The "Random Memory" block: shown when the draw is below 0.4 and the
   * table has a memories list; `random.choice` raises on an empty list.
   * `pick` stands for the index `random.choice` draws, reduced modulo the
   * list's length.
   */
  function MemorySnippet(draw: real, pick: nat, table: Table): (r: Result<Option<string>>)
    ensures r.Failure? <==> draw < 0.4 && table.memories == Some([])
    ensures r.Failure? ==> r.error == IndexError
    ensures r == Success(None) <==> !(draw < 0.4) || table.memories.None?
    ensures r.Success? && r.value.Some? ==> r.value.value in table.memories.value
  {
    if draw < MemoryChance && table.memories.Some? then
      var memories := table.memories.value;
      if |memories| == 0 then Failure(IndexError)
      else Success(Some(memories[pick % |memories|]))
    else Success(None)
  }

  /**
   * One pass through the feeling form. Nothing happens unless the form was
   * submitted with non-empty text; then the text is classified and its
   * record resolved, which raises when the table has no "default" record.
   * Once the card is rendered, the memory block is drawn; its failure comes
   * after the card and is kept beside it.
   */
  function FeelingResponse(submitted: bool, input: string, polarity: real,
                           draw: real, pick: nat, table: Table): (c: Option<Result<Response>>)
    ensures c.None? <==> !submitted || input == []
    ensures c.Some? ==> (c.value.Success? <==> "default" in table.records)
    ensures c.Some? && "default" !in table.records ==> c.value == Failure(KeyError("default"))
    ensures c.Some? && c.value.Success? ==>
      var key := Classify(polarity, input).Key();
      && c.value.value.emotion == Classify(polarity, input)
      && c.value.value.record in table.records.Values
      && (key in table.records ==> c.value.value.record == table.records[key])
      && (key !in table.records ==> c.value.value.record == table.records["default"])
      && c.value.value.memory == MemorySnippet(draw, pick, table)
  {
    if !submitted || input == [] then None
    else
      var emotion := Classify(polarity, input);
      match Resolve(table, emotion.Key())
      case Failure(e) => Some(Failure(e))
      case Success(record) => Some(Success(Response(emotion, record, MemorySnippet(draw, pick, table))))
  }

  /**
   * An empty "memories" list does not take the card away: the card is
   * rendered with its label and record, and only the memory block raises.
   */
  lemma CardSurvivesEmptyMemories(input: string, polarity: real, draw: real, pick: nat)
    requires input != [] && draw < 0.4
    ensures var table := Table(map["default" := FallbackRecord], Some([]));
      FeelingResponse(true, input, polarity, draw, pick, table)
        == Some(Success(Response(Classify(polarity, input), FallbackRecord, Failure(IndexError))))
  {
  }

  /**
   * With the built-in table, every submitted text gets the one default
   * record whatever its label, and no memory block is ever shown.
   */
  lemma FallbackFeelingResponse(input: string, polarity: real, draw: real, pick: nat)
    requires input != []
    ensures FeelingResponse(true, input, polarity, draw, pick, LoadEmotions(None))
      == Some(Success(Response(Classify(polarity, input), FallbackRecord, Success(None))))
  {
  }

  /** With the built-in table, the card on the special date is the default record. */
  lemma FallbackBirthdayCard(today: Date)
    requires IsBirthday(today)
    ensures BirthdayCard(today, LoadEmotions(None)) == Some(Success(FallbackRecord))
  {
  }

  /** An empty submission is never classified, so the page shows no card for it. */
  lemma EmptyInputShowsNothing(polarity: real, draw: real, pick: nat, table: Table)
    ensures FeelingResponse(true, "", polarity, draw, pick, table).None?
  {
  }
}
