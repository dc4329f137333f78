/**
 * The journal's data model: one entry per calendar day, keyed by the day's
 * "yyyy-MM-dd" string, as it is kept (JSON-encoded) under the storage key
 * "moodEntries".
 */
module Entries {

  datatype Option<+T> = None | Some(value: T)

  /** Ambient weather attached to an entry: a whole-degree temperature and a condition name. */
  datatype Weather = Weather(temp: int, condition: string)

  /**
   * One saved day. `date` is the human-readable display date, `mood` a mood id
   * such as "happy", `note` the free text (possibly empty) and `weather` the
   * snapshot taken when the entry was saved, or none.
   */
  datatype Entry = Entry(date: string, mood: string, note: string, weather: Option<Weather>)

  /** The decoded storage payload: date key to entry. An absent payload is the empty map. */
  type EntryMap = map<string, Entry>

  /** The storage key the payload lives under. */
  const StorageKey: string := "moodEntries"

  /**
   * JavaScript truthiness of a `string | null`: null and "" are falsy, every
   * other string is truthy.
   */
  function Truthy(s: Option<string>): (t: bool)
    ensures !t <==> s == None || s == Some("")
  {
    s.Some? && s.value != ""
  }

  /**
   * The browser's client-local storage slot under `StorageKey`, already decoded.
   * Every open page of the app shares this one object.
   */
  class Storage {
    var entries: EntryMap

    /** A slot holding `saved`; an absent payload is `map[]`. */
    constructor (saved: EntryMap)
      ensures entries == saved
    {
      entries := saved;
    }
  }
}
