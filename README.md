# MoodMate journal: a verified model of its core

MoodMate is a single-user, browser-only mood journal. On the home page you pick
one of five moods, optionally write a note, and save. The entry for the chosen
day is kept in client-local storage under the key `moodEntries`, as a map from a
`yyyy-MM-dd` date key to `{date, mood, note, weather}`. A calendar puts a
coloured dot on each recorded day. The "All Notes" page lists the stored
entries newest first, optionally narrowed to one mood.

This project models that core in Dafny, one module per source file:

- `Entries` (entries.dfy): the entry record, the weather snapshot, the
  date-keyed entry map, and a `Storage` object holding the decoded `moodEntries`
  payload. Every open page shares that object.
- `Home` (home.dfy, `app/page.tsx`): a `HomePage` class with the page's state.
  That state is the shared storage, the in-memory calendar annotation (date key
  to mood), the selected mood, the note and the weather. Its `Save` method
  re-reads storage, replaces one day's entry as a whole, writes storage back,
  patches the calendar and resets the form. The module also has the load-time
  loop that builds the calendar from storage, and the day-dot lookup with its
  mood-to-colour table.
- `AllNotes` (all_notes.dfy, `app/all-notes/page.tsx`):
  - `Object.entries`, modelled as an enumeration in unspecified order;
  - the mood filter;
  - the sort comparator, which puts invalid dates last;
  - the in-place `.sort`, modelled as an insertion sort on an array;
  - the cards, the "No entries found" message and the filter bar.
- `MoodIcon`, `WeatherDisplay`, `MoodSelector` (mood_icon.dfy,
  weather_display.dfy, mood_selector.dfy): the three components, as total
  functions over strings.

The main invariant is `HomePage.CalendarInSync`: the calendar is the mood
projection of what is stored. Mounting the page establishes it, and `Save`
preserves it.

The model follows the code as written:

- `JSON.parse` (app/page.tsx:71, app/page.tsx:103, app/all-notes/page.tsx:29)
  is not guarded, so a malformed payload is never replaced by an empty map.
  The model holds an already-decoded map; an absent payload is the empty map
  (app/page.tsx:103).
- Moods are plain strings (app/page.tsx:20). The save guard `!selectedMood`
  (app/page.tsx:84) is JavaScript truthiness: no selection and the empty
  string are both rejected, and any other string is accepted.
- The list filter `filter ? … : …` (app/all-notes/page.tsx:41-43) is also
  truthiness: an empty filter string shows every entry.

Outside inputs are parameters:

- The date-fns `format` results (the date key and the display date) are
  parameters of `Save`.
- `new Date(key)` with `isValid` and `getTime` is a parameter
  `parse: string -> Option<int>`. It gives the time in milliseconds, or None
  for an invalid date.
- The weather arrives through `ReceiveWeather`.

## Model

| member | source | states |
|---|---|---|
| `Entries.Storage.constructor` | app/page.tsx:102-103 | the storage slot holds the given decoded payload; an absent payload is the empty map |
| `Home.CalendarOf` | app/page.tsx:74-77 | the calendar annotation has exactly the stored keys, and each maps to that entry's mood |
| `Home.BuildCalendar` | app/page.tsx:74-77 | the load loop visits every stored key and yields exactly the mood projection of the stored map |
| `Home.Put` | app/page.tsx:104 | the key is added if missing, maps to the new entry as a whole, and every other key keeps its entry |
| `Home.PutIdempotent` | app/page.tsx:104 | saving the same entry for the same day twice gives the same map as saving it once |
| `Home.PutOverwritesWholeEntry` | app/page.tsx:104 | a later save for a day replaces the earlier entry completely, with no merge of fields |
| `Home.PutCommutes` | app/page.tsx:102-105 | saves for two different days give the same map in either order |
| `Home.CalendarOfPut` | app/page.tsx:104-111 | the projection of the map after a save is the old projection patched with the saved mood |
| `Entries.Truthy` | app/page.tsx:84 | JavaScript truthiness of a nullable string: false exactly for null and the empty string; it is the save guard `!selectedMood` here and the filter test at app/all-notes/page.tsx:41 |
| `Home.CatalogMoodsPassGuard` | app/page.tsx:84 | any mood id handed over by a selector click passes the save guard |
| `Home.DotColour` | app/page.tsx:171-175 | five recognised moods have a colour class; any other mood has none |
| `Home.DotColoursDistinct` | app/page.tsx:171-175 | two recognised moods share a colour class only if they are the same mood |
| `Home.DayContent` | app/page.tsx:161-176 | a day shows a dot iff its key is non-empty and annotated; the day's mood picks the colour |
| `Home.DecorationDependsOnlyOnMood` | app/page.tsx:161-176 | two annotated days with the same mood are decorated identically |
| `Home.StoredDayHasDot` | app/page.tsx:74-77 | with the calendar built from storage, a day has a dot iff an entry is stored, coloured by that entry's mood |
| `Home.HeaderWeather` | app/page.tsx:132 | the header shows a weather badge iff weather is present, rendered at the default size |
| `Home.HomePage.constructor` | app/page.tsx:19-24 | mounting gives no mood, an empty note and no weather, with the calendar in step with storage (load effect 68-81) |
| `Home.HomePage.SelectMood` | app/page.tsx:188 | the selection becomes the clicked id; the calendar, note and weather stay the same |
| `Home.HomePage.EditNote` | app/page.tsx:195 | the note becomes the typed text; nothing else changes |
| `Home.HomePage.ReceiveWeather` | app/page.tsx:35 | the weather becomes the provided snapshot; nothing else changes |
| `Home.HomePage.Save` | app/page.tsx:83-121 | without a mood nothing changes and the warning toast is returned; otherwise the re-read storage gets the day's whole new entry, the calendar gets the mood, the mood and note are cleared, and the calendar stays in step with storage (details below) |
| `Home.TwoPagesKeepBothDays` | app/page.tsx:102-105 | two pages on one storage each save a different day: both days end up stored, though, when the second page's day was not stored before, the first page's calendar lacks it |
| `AllNotes.EntriesOf` | app/all-notes/page.tsx:42-43 | every stored key appears exactly once, paired with its entry, and nothing else appears |
| `AllNotes.KeepMood` | app/all-notes/page.tsx:42 | the filtered list holds exactly the pairs whose mood matches, is no longer than its input, and keeps keys distinct |
| `AllNotes.FilteredEntries` | app/all-notes/page.tsx:41-43 | no active filter passes every pair; an active filter keeps exactly the pairs with that mood |
| `AllNotes.VisibleKeys` | app/all-notes/page.tsx:41-43 | the visible keys are the stored keys whose entry passes the filter |
| `AllNotes.UnfilteredShowsAll` | app/all-notes/page.tsx:43 | with no filter, as many keys are visible as are stored |
| `AllNotes.Shown` | app/all-notes/page.tsx:41-43 | with an inactive filter every entry passes; with an active one an entry passes iff its mood equals the filter |
| `AllNotes.Compare` | app/all-notes/page.tsx:116-131 | both invalid gives 0; only the first invalid gives a positive value; only the second gives a negative one; otherwise time(B) minus time(A) |
| `AllNotes.CompareAntisymmetric` | app/all-notes/page.tsx:122-126 | swapping the two arguments flips the comparator's sign |
| `AllNotes.CompareTransitive` | app/all-notes/page.tsx:122-126 | "first or tie" is transitive, so the comparator is a consistent ordering for the sort |
| `AllNotes.CompareMatchesReference` | app/all-notes/page.tsx:122-126 | the comparator says "first or tie" iff the other key is invalid, or both are valid and the first is not older |
| `AllNotes.SortedMeaning` | app/all-notes/page.tsx:116-131 | in a sorted list, valid dates are non-increasing, and every invalid date comes after every valid one |
| `AllNotes.InsertAt` | app/all-notes/page.tsx:116 | one insertion step extends the ordered prefix by one element and keeps the array's multiset |
| `AllNotes.SortEntries` | app/all-notes/page.tsx:115-131 | the array ends sorted by the comparator and is a permutation of its initial contents |
| `AllNotes.CardText` | app/all-notes/page.tsx:139 | the card's main line is the note when non-empty, else "Feeling <mood> today" |
| `AllNotes.CardFor` | app/all-notes/page.tsx:133-146 | a card carries the key, the 24px mood icon, the main line, the display date, and a weather badge iff the entry has weather; that badge is the small rendering of the entry's own temperature and condition |
| `AllNotes.RenderList` | app/all-notes/page.tsx:114-150 | "No entries found" iff the list is empty; otherwise one card per pair, in order |
| `AllNotes.View` | app/all-notes/page.tsx:41-131 | the list is exactly the visible stored pairs, one per visible key, sorted by the comparator, and rendered as cards |
| `AllNotes.ViewIsExactlyTheFilter` | app/all-notes/page.tsx:41-43 | every entry with the filter's mood is listed; no entry with another mood is; with no filter every entry is listed |
| `AllNotes.NoEntriesMessage` | app/all-notes/page.tsx:114-149 | the "No entries found" message appears iff no stored entry passes the filter |
| `AllNotes.FilterBar` | app/all-notes/page.tsx:62-111 | "All" then one button per mood in catalog order; each is highlighted iff the current filter is what it sets |
| `AllNotes.FilterBarHighlightsOne` | app/all-notes/page.tsx:62-111 | for any filter the bar can set, exactly one button is highlighted |
| `AllNotes.AllNotesPage.constructor` | app/all-notes/page.tsx:23-31 | mounting reads the stored payload once, with no filter |
| `AllNotes.AllNotesPage.FilterByMood` | app/all-notes/page.tsx:37-39 | a filter click sets the filter and leaves the entries alone |
| `AllNotes.AllNotesPage.Render` | app/all-notes/page.tsx:41-150 | the rendered list is a view of the page's entries under its filter |
| `MoodIcon.GetMoodEmoji` | components/mood-icon.tsx:7-22 | total over strings; always one of the five emojis, each one code point |
| `MoodIcon.EmojiMatchesTable` | components/mood-icon.tsx:8-21 | each known mood gets its own emoji from the table; every other string gets the happy emoji |
| `MoodIcon.KnownMoodsAreTableKeys` | components/mood-icon.tsx:9-18 | exactly five moods are recognised, and they are the table's keys |
| `MoodIcon.KnownEmojisDistinct` | components/mood-icon.tsx:9-18 | the five known moods map to five pairwise-distinct emojis |
| `MoodIcon.UnknownMoodIsHappy` | components/mood-icon.tsx:19-20 | any string outside the five known moods maps to the happy emoji |
| `MoodIcon.Render` | components/mood-icon.tsx:6-27 | the size is 24 when omitted; the aria-label is the raw mood string; the text is that mood's emoji |
| `WeatherDisplay.IconSizeClass` | components/weather-display.tsx:13-19 | "h-4 w-4" when small, "h-5 w-5" otherwise |
| `WeatherDisplay.GetWeatherIcon` | components/weather-display.tsx:10-21 | total over strings; the size class depends only on `small` |
| `WeatherDisplay.WeatherIconChoice` | components/weather-display.tsx:11-20 | cloudy gives Cloud and rainy gives CloudRain (each iff); any other condition gives Sun |
| `WeatherDisplay.IconSizeIndependentOfCondition` | components/weather-display.tsx:13-19 | any two conditions get the same size class; small and normal sizes differ |
| `WeatherDisplay.NatToDecimal` | components/weather-display.tsx:26 | a non-empty string of decimal digits without leading zeros: it starts with '0' only for zero, which is exactly "0" |
| `WeatherDisplay.IntToDecimal` | components/weather-display.tsx:26 | non-empty; starts with a minus sign iff the number is negative; the minus sign is followed by a non-zero digit, and a non-negative form starts with '0' only when it is "0" |
| `WeatherDisplay.ReadNatToDecimal` | components/weather-display.tsx:26 | reading the digits back gives the natural number |
| `WeatherDisplay.ReadIntToDecimal` | components/weather-display.tsx:26 | reading the decimal form back gives the integer |
| `WeatherDisplay.TemperatureLabel` | components/weather-display.tsx:26 | the label ends with the unit "°C" after at least one character |
| `WeatherDisplay.TemperatureLabelReadsBack` | components/weather-display.tsx:26 | the text before the unit reads back as the temperature, so different temperatures get different labels |
| `WeatherDisplay.Render` | components/weather-display.tsx:9-28 | the icon comes from the condition and the small flag; the text class is "text-xs" iff small; the label is the temperature label |
| `WeatherDisplay.SmallDefaultsToFalse` | components/weather-display.tsx:9 | omitting `small` renders exactly as passing false |
| `MoodSelector.AriaLabel` | components/mood-selector.tsx:29 | the button label is "Select " followed by the mood's label and then " mood" |
| `MoodSelector.IsHighlighted` | components/mood-selector.tsx:27 | never highlighted while nothing is selected; highlighted iff the selection equals the mood's id |
| `MoodSelector.ButtonFor` | components/mood-selector.tsx:22-33 | a button's key and click id are the mood's id, its emoji is the mood's emoji, its aria-label is "Select <label> mood" and its emoji span's label is the mood's label, and it is highlighted (with the highlight classes) iff the selection equals the id |
| `MoodSelector.Render` | components/mood-selector.tsx:21-35 | one button per catalog mood, in catalog order |
| `MoodSelector.Click` | components/mood-selector.tsx:24 | a click on rendered button i passes catalog mood i's id, whatever the current selection |
| `MoodSelector.CatalogShape` | components/mood-selector.tsx:11-17 | exactly five moods, ordered happy, neutral, sad, angry, tired, with pairwise-distinct ids |
| `MoodSelector.CatalogAgreesWithMoodIcon` | components/mood-selector.tsx:12-16 | each catalog emoji is the emoji MoodIcon draws for the same id |
| `MoodSelector.AtMostOneHighlighted` | components/mood-selector.tsx:27 | no two buttons are highlighted at once, and none is while nothing is selected |
| `MoodSelector.SelectingHighlightsOne` | components/mood-selector.tsx:27 | selecting a catalog id highlights exactly that mood's button |

`Home.HomePage.Save`, which models app/page.tsx:83-121, states the following.

- Without a mood (app/page.tsx:84-91): it returns the warning toast. Storage,
  the calendar, the selection and the note are unchanged.
- With a mood (app/page.tsx:93-105): storage becomes the storage as re-read,
  with the day's key set to the whole new entry `{displayDate, mood, note,
  weather}`. Keys already in storage survive even when the page's calendar does
  not know them.
- The calendar (app/page.tsx:108-111) becomes the old calendar with the day
  mapped to the mood.
- The form (app/page.tsx:119-120): the selection is cleared and the note
  emptied; the weather is untouched.
- If the calendar mirrored storage before the call, it still does after.

## Left out

- JSX layout and styling: everything except the dot colours, the icon size
  classes, the text size class and the highlight classes modelled above. The
  Popover and Calendar widgets and the day number text (`format(day, "d")`) are
  external UI.
- `localStorage`, `JSON.parse` and `JSON.stringify` are foreign I/O. Storage is
  a decoded map. A malformed payload would make `JSON.parse` throw; the code
  does not guard it, and the model does not represent such payloads.
- JavaScript object quirks: inherited property names such as "constructor"
  used as keys are not modelled, and the map holds only own keys.
- Geolocation and the mock weather (app/page.tsx:27-65): `Math.random`,
  browser callbacks and a timeout. The `location` state is never read and is
  left out. Weather is an opaque input delivered by `HomePage.ReceiveWeather`.
- date-fns `format`, `isValid` and JavaScript `Date` parsing are foreign
  library calls. They are the date key and display date given to `Save`, and
  the `parse` parameter.
- The comparator's `try`/`catch` (app/all-notes/page.tsx:127-130): parsing a
  string into a `Date` does not throw, so the catch branch is not modelled.
- `AllNotes.SortEntries`: does not state stability. Ties arise only between
  two invalid keys or two keys with the same time. The input order
  (`Object.entries` order) is itself left unspecified by `AllNotes.EntriesOf`,
  so the order among tied cards is not modelled.
- `AllNotes.KeepMood`: does not state that the filter keeps the input order.
  The sort fixes the order except among ties, whose order is not modelled
  (see `AllNotes.SortEntries`).
- `WeatherDisplay.TemperatureLabel`: models integral temperatures only, and
  integers of magnitude below 10^21. The source's temperature is a JavaScript
  number produced by `Math.floor`. Fractional, NaN or infinite values are not
  modelled. Neither is the exponent form ("1e+21°C") that `${temp}` gives from
  10^21 up, which `IntToDecimal` writes out as plain digits.
- `MoodIcon.Render`: keeps the font size as an integer number of pixels rather
  than the `${size}px` style string.
- React plumbing:
  - state setters take effect at once (including the functional update of the
    calendar);
  - toasts are the `Toast` value `Save` returns;
  - router navigation (`viewAllNotes`, `handleBack`) is left out.
- The all-notes page's `MoodEntry` type declares `weather` non-null, but the
  page tests it before use. Entries saved by the home page store
  `weather: null` when no weather has arrived. The model gives every entry an
  optional weather.
