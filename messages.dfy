/**
 * The message table and its lookup: `load_emotions` with its built-in
 * fallback table, and `emotions.get(key, emotions["default"])`.
 */
module Messages {
  import opened Wrappers

  /** One display record; `note` may be absent and then renders as "". */
  datatype Record = Record(title: string, message: string, note: Option<string>)
  {
    /** `record.get('note', '')`. */
    function NoteText(): string
    {
      match note
      case None => ""
      case Some(n) => n
    }
  }

  /**
   * The loaded document: records keyed by label, and the optional
   * "memories" list stored beside them.
   */
  datatype Table = Table(records: map<string, Record>, memories: Option<seq<string>>)

  /** The record of the built-in table. */
  const FallbackRecord: Record := Record("For You", "Thinking of you!", Some("You're amazing!"))

  /** The table used when the message file cannot be opened or parsed. */
  const FallbackTable: Table := Table(map["default" := FallbackRecord], None)

  /**
   * `load_emotions`: `parsed` is the outcome of opening and parsing the
   * message file, `None` when either step raised.
   */
  function LoadEmotions(parsed: Option<Table>): (t: Table)
    ensures parsed.None? ==> t == FallbackTable && t.records.Keys == {"default"}
    ensures parsed.Some? ==> t == parsed.value
  {
    match parsed
    case None => FallbackTable
    case Some(table) => table
  }

  /**
   * `emotions.get(key, emotions["default"])`. Python evaluates the
   * fallback argument before the lookup, so a table without "default"
   * raises even when `key` is present.
   */
  function Resolve(table: Table, key: string): (r: Result<Record>)
  {
    var fallback := if "default" in table.records then Success(table.records["default"])
                    else Failure(KeyError("default"));
    match fallback
    case Failure(e) => Failure(e)
    case Success(d) => Success(if key in table.records then table.records[key] else d)
  }

  /**
   * Resolution succeeds exactly when the table holds "default", and then
   * yields the record stored under `key` if there is one and the default
   * record otherwise.
   */
  lemma ResolveSpec(table: Table, key: string)
    ensures Resolve(table, key).Success? <==> "default" in table.records
    ensures "default" !in table.records ==> Resolve(table, key) == Failure(KeyError("default"))
    ensures "default" in table.records && key in table.records ==>
      Resolve(table, key) == Success(table.records[key])
    ensures "default" in table.records && key !in table.records ==>
      Resolve(table, key) == Success(table.records["default"])
  {
  }

  /** Whatever resolution yields is one of the table's own records. */
  lemma ResolveYieldsStoredRecord(table: Table, key: string)
    requires Resolve(table, key).Success?
    ensures Resolve(table, key).value in table.records.Values
  {
  }

  /** With the built-in table every label resolves to the one default record. */
  lemma FallbackResolvesEverything(key: string)
    ensures Resolve(LoadEmotions(None), key) == Success(FallbackRecord)
    ensures FallbackRecord.title == "For You" && FallbackRecord.message == "Thinking of you!"
    ensures FallbackRecord.note == Some("You're amazing!")
  {
  }
}
