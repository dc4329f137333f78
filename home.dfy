/**
 * The journal's home page: the entry form (mood, note, weather), the save
 * handler that commits one day's entry to storage, and the calendar whose days
 * carry a coloured dot for each recorded mood.
 */
module Home {
  import opened Entries
  import WeatherDisplay
  import MoodSelector

  /** The calendar's annotation of each recorded day: date key to mood, nothing else. */
  type CalendarMap = map<string, string>

  /** The calendar annotation derived from stored entries: same keys, each entry's mood. */
  function CalendarOf(entries: EntryMap): (cal: CalendarMap)
    ensures cal.Keys == entries.Keys
    ensures forall k :: k in cal ==> cal[k] == entries[k].mood
  {
    map k | k in entries :: entries[k].mood
  }

  /** The load effect's loop: visit every stored key once and record its mood. */
  method BuildCalendar(entries: EntryMap) returns (cal: CalendarMap)
    ensures cal == CalendarOf(entries)
  {
    cal := map[];
    var keys := entries.Keys;
    while keys != {}
      invariant keys <= entries.Keys
      invariant cal.Keys == entries.Keys - keys
      invariant forall k :: k in cal ==> cal[k] == entries[k].mood
      decreases keys
    {
      var k :| k in keys;
      cal := cal[k := entries[k].mood];
      keys := keys - {k};
    }
  }

  /** One day's commit into the entry map: the entry for `key` is replaced as a whole. */
  function Put(entries: EntryMap, key: string, entry: Entry): (r: EntryMap)
    ensures r.Keys == entries.Keys + {key}
    ensures r[key] == entry
    ensures forall k :: k in entries && k != key ==> r[k] == entries[k]
  {
    entries[key := entry]
  }

  /** Saving the same entry for the same day twice leaves the map as saving it once. */
  lemma PutIdempotent(entries: EntryMap, key: string, entry: Entry)
    ensures Put(Put(entries, key, entry), key, entry) == Put(entries, key, entry)
  {
  }

  /** A later save for a day overwrites the earlier one completely: no field of it survives. */
  lemma PutOverwritesWholeEntry(entries: EntryMap, key: string, first: Entry, second: Entry)
    ensures Put(Put(entries, key, first), key, second) == Put(entries, key, second)
  {
  }

  /** Saves for different days commute. */
  lemma PutCommutes(entries: EntryMap, k1: string, e1: Entry, k2: string, e2: Entry)
    requires k1 != k2
    ensures Put(Put(entries, k1, e1), k2, e2) == Put(Put(entries, k2, e2), k1, e1)
  {
  }

  /** Patching the calendar with the saved mood keeps it the projection of the stored map. */
  lemma CalendarOfPut(entries: EntryMap, key: string, entry: Entry)
    ensures CalendarOf(Put(entries, key, entry)) == CalendarOf(entries)[key := entry.mood]
  {
  }

  /** Every mood the selector can hand over passes the save guard's truthiness test. */
  lemma CatalogMoodsPassGuard(i: nat)
    requires i < |MoodSelector.Moods|
    ensures Truthy(Some(MoodSelector.Click(None, i)))
  {
  }

  /** The notification a save raises. */
  datatype Toast = Toast(title: string, description: string, destructive: bool)

  const NoMoodToast: Toast :=
    Toast("Please select a mood", "You need to select how you're feeling today", true)
  const SavedToast: Toast :=
    Toast("Entry saved!", "Your mood has been recorded for today.", false)

  // ----- calendar day decoration -----

  /** The dot colour class for a mood; an unrecognised mood gets no colour class. */
  function DotColour(mood: string): (c: Option<string>)
    ensures c.Some? <==> mood in {"happy", "neutral", "sad", "angry", "tired"}
  {
    match mood
    case "happy" => Some("bg-yellow-400")
    case "neutral" => Some("bg-blue-400")
    case "sad" => Some("bg-red-400")
    case "angry" => Some("bg-red-500")
    case "tired" => Some("bg-green-400")
    case _ => None
  }

  /** The five recognised moods get five different dot colours. */
  lemma DotColoursDistinct(m1: string, m2: string)
    requires DotColour(m1).Some? && DotColour(m2).Some?
    ensures DotColour(m1) == DotColour(m2) <==> m1 == m2
  {
  }

  /** What a calendar day shows under its number. */
  datatype Decoration = NoDot | Dot(colour: Option<string>)

  /**
   * The decoration of one day, given the day's formatted key ("" when the
   * widget passes no day): a dot exactly when the key is annotated, coloured
   * by the annotated mood alone.
   */
  function DayContent(calendar: CalendarMap, dateStr: string): (d: Decoration)
    ensures d.Dot? <==> dateStr != "" && dateStr in calendar
    ensures d.Dot? ==> d.colour == DotColour(calendar[dateStr])
  {
    if dateStr != "" && dateStr in calendar then Dot(DotColour(calendar[dateStr])) else NoDot
  }

  /** Two annotated days with the same mood look the same, whatever else differs. */
  lemma DecorationDependsOnlyOnMood(c1: CalendarMap, k1: string, c2: CalendarMap, k2: string)
    requires k1 != "" && k1 in c1 && k2 != "" && k2 in c2
    ensures c1[k1] == c2[k2] ==> DayContent(c1, k1) == DayContent(c2, k2)
  {
  }

  /** With the calendar in step with storage, a day has a dot iff an entry is stored for it. */
  lemma StoredDayHasDot(entries: EntryMap, dateStr: string)
    requires dateStr != ""
    ensures DayContent(CalendarOf(entries), dateStr).Dot? <==> dateStr in entries
    ensures dateStr in entries ==>
      DayContent(CalendarOf(entries), dateStr) == Dot(DotColour(entries[dateStr].mood))
  {
  }

  /** The header shows a weather badge exactly when weather has arrived. */
  function HeaderWeather(weather: Option<Weather>): (b: Option<WeatherDisplay.Badge>)
    ensures b.Some? <==> weather.Some?
    ensures weather.Some? ==> b.value == WeatherDisplay.Render(weather.value.temp, weather.value.condition, None)
  {
    if weather.Some? then Some(WeatherDisplay.Render(weather.value.temp, weather.value.condition, None)) else None
  }

  /**
   * The page's state: the shared storage slot, the page's own in-memory
   * calendar annotation, and the form.
   */
  class HomePage {
    const storage: Storage
    var calendar: CalendarMap
    var selectedMood: Option<string>
    var note: string
    var weather: Option<Weather>

    /** The page's calendar mirrors what is in storage. */
    ghost predicate CalendarInSync()
      reads this, storage
    {
      calendar == CalendarOf(storage.entries)
    }

    /** Mounting the page: an empty form, and the calendar built from the stored payload. */
    constructor (storage: Storage)
      ensures this.storage == storage
      ensures selectedMood == None && note == "" && weather == None
      ensures CalendarInSync()
    {
      var cal := BuildCalendar(storage.entries);
      this.storage := storage;
      calendar := cal;
      selectedMood := None;
      note := "";
      weather := None;
    }

    /** The selector's `onSelectMood` callback. */
    method SelectMood(id: string)
      modifies this
      ensures selectedMood == Some(id)
      ensures calendar == old(calendar) && note == old(note) && weather == old(weather)
    {
      selectedMood := Some(id);
    }

    /** The note field's change handler. */
    method EditNote(text: string)
      modifies this
      ensures note == text
      ensures calendar == old(calendar) && selectedMood == old(selectedMood) && weather == old(weather)
    {
      note := text;
    }

    /** The weather provider's callback. */
    method ReceiveWeather(w: Weather)
      modifies this
      ensures weather == Some(w)
      ensures calendar == old(calendar) && selectedMood == old(selectedMood) && note == old(note)
    {
      weather := Some(w);
    }

    /**
     * The save handler for the day whose formatted key is `dateKey` and whose
     * display date is `displayDate`. Without a mood nothing changes and the
     * warning toast is raised. Otherwise storage is re-read, the day's entry is
     * replaced as a whole, storage is written back, the calendar is patched
     * with the mood, and the form's mood and note are cleared.
     */
    method Save(dateKey: string, displayDate: string) returns (toast: Toast)
      modifies this, storage
      ensures !old(Truthy(selectedMood)) ==>
        toast == NoMoodToast && storage.entries == old(storage.entries) &&
        calendar == old(calendar) && selectedMood == old(selectedMood) && note == old(note)
      ensures old(Truthy(selectedMood)) ==>
        toast == SavedToast &&
        storage.entries == Put(old(storage.entries), dateKey,
                               Entry(displayDate, old(selectedMood).value, old(note), old(weather))) &&
        calendar == old(calendar)[dateKey := old(selectedMood).value] &&
        selectedMood == None && note == ""
      ensures weather == old(weather)
      ensures old(CalendarInSync()) ==> CalendarInSync()
    {
      if !Truthy(selectedMood) {
        toast := NoMoodToast;
        return;
      }
      var mood := selectedMood.value;
      var entry := Entry(displayDate, mood, note, weather);
      var entries := storage.entries;
      entries := entries[dateKey := entry];
      storage.entries := entries;
      calendar := calendar[dateKey := mood];
      toast := SavedToast;
      note := "";
      selectedMood := None;
      CalendarOfPut(old(storage.entries), dateKey, entry);
    }
  }

  /**
   * Two pages open on the same storage: the first is mounted, the second saves
   * one day, then the first saves another. Because each save re-reads storage,
   * both days end up stored, although the first page's calendar never saw the
   * second page's day.
   */
  method TwoPagesKeepBothDays(saved: EntryMap, mood1: string, day1: string, mood2: string, day2: string)
    returns (final: EntryMap, firstCalendar: CalendarMap)
    requires mood1 != "" && mood2 != "" && day1 != day2
    ensures final == Put(Put(saved, day2, Entry(day2, mood2, "", None)), day1, Entry(day1, mood1, "", None))
    ensures day1 in final && day2 in final
    ensures day2 !in saved ==> day2 !in firstCalendar
  {
    var slot := new Storage(saved);
    var first := new HomePage(slot);
    var second := new HomePage(slot);
    second.SelectMood(mood2);
    var _ := second.Save(day2, day2);
    first.SelectMood(mood1);
    var _ := first.Save(day1, day1);
    final := slot.entries;
    firstCalendar := first.calendar;
  }
}
