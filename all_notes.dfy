/**
 * The "All Notes" page: every stored entry, optionally narrowed to one mood,
 * newest day first, one card per entry.
 */
module AllNotes {
  import opened Entries
  import MoodIcon
  import WeatherDisplay

  /** One `[dateKey, entry]` pair, as `Object.entries` yields it. */
  type Item = (string, Entry)

  /**
   * Date parsing as the page performs it: `new Date(key)` followed by
   * `isValid`, giving the time in milliseconds, or None for an invalid date.
   */
  type DateParser = string -> Option<int>

  predicate DistinctKeys(s: seq<Item>) {
    forall i, j :: 0 <= i < j < |s| ==> s[i].0 != s[j].0
  }

  /** The keys occurring in a sequence of pairs. */
  function KeySet(s: seq<Item>): (ks: set<string>)
    ensures forall i :: 0 <= i < |s| ==> s[i].0 in ks
    ensures forall k :: k in ks ==> exists i :: 0 <= i < |s| && s[i].0 == k
    decreases |s|
  {
    if s == [] then {} else {s[0].0} + KeySet(s[1..])
  }

  lemma {:induction false} DistinctKeysCount(s: seq<Item>)
    requires DistinctKeys(s)
    ensures |KeySet(s)| == |s|
    decreases |s|
  {
    if s != [] {
      var t := s[1..];
      assert DistinctKeys(t);
      DistinctKeysCount(t);
      forall i | 0 <= i < |t| ensures t[i].0 != s[0].0 {
        assert t[i] == s[i + 1];
      }
    }
  }

  /**
   * `Object.entries(entries)`: every key once, paired with its entry. The
   * model deliberately leaves the order of the keys unspecified.
   */
  method EntriesOf(m: EntryMap) returns (s: seq<Item>)
    ensures forall x :: x in s <==> x.0 in m && m[x.0] == x.1
    ensures DistinctKeys(s)
    ensures KeySet(s) == m.Keys
  {
    s := [];
    var rest := m.Keys;
    while rest != {}
      invariant rest <= m.Keys
      invariant forall x :: x in s <==> x.0 in m && x.0 !in rest && m[x.0] == x.1
      invariant DistinctKeys(s)
      decreases rest
    {
      var k :| k in rest;
      s := s + [(k, m[k])];
      rest := rest - {k};
    }
    assert KeySet(s) == m.Keys by {
      forall k | k in m.Keys ensures k in KeySet(s) {
        assert (k, m[k]) in s;
      }
    }
  }

  // ----- the mood filter -----

  // The filter test `filter ? … : …` is `Truthy(filter)`: null and "" show everything.

  /** Whether an entry passes the filter: always with no active filter, else iff its mood is the filter. */
  function Shown(filter: Option<string>, e: Entry): (shown: bool)
    ensures filter == None || filter == Some("") ==> shown
    ensures filter.Some? && filter.value != "" ==> (shown <==> e.mood == filter.value)
  {
    !Truthy(filter) || e.mood == filter.value
  }

  /** `Array.prototype.filter` with the predicate "this entry's mood is `mood`". */
  function KeepMood(s: seq<Item>, mood: string): (r: seq<Item>)
    ensures |r| <= |s|
    ensures forall x :: x in r <==> x in s && x.1.mood == mood
    ensures DistinctKeys(s) ==> DistinctKeys(r)
    decreases |s|
  {
    if s == [] then []
    else
      var rest := KeepMood(s[1..], mood);
      assert forall x :: x in rest ==> x in s[1..];
      if s[0].1.mood == mood then [s[0]] + rest else rest
  }

  /** `filteredEntries`: all pairs when no filter is active, else exactly those of the chosen mood. */
  function FilteredEntries(all: seq<Item>, filter: Option<string>): (r: seq<Item>)
    ensures forall x :: x in r <==> x in all && Shown(filter, x.1)
    ensures !Truthy(filter) ==> r == all
    ensures DistinctKeys(all) ==> DistinctKeys(r)
  {
    if Truthy(filter) then KeepMood(all, filter.value) else all
  }

  /** The keys the page shows for a filter. */
  function VisibleKeys(entries: EntryMap, filter: Option<string>): (ks: set<string>)
    ensures ks <= entries.Keys
    ensures forall k :: k in ks <==> k in entries && Shown(filter, entries[k])
  {
    set k | k in entries && Shown(filter, entries[k])
  }

  /** With no filter, every stored key is visible. */
  lemma UnfilteredShowsAll(entries: EntryMap, filter: Option<string>)
    requires !Truthy(filter)
    ensures |VisibleKeys(entries, filter)| == |entries|
  {
    assert VisibleKeys(entries, filter) == entries.Keys;
  }

  // ----- the sort comparator -----

  /**
   * The comparator given to `.sort`: two invalid dates tie, an invalid date
   * goes after a valid one, and valid dates order newest first.
   */
  function Compare(parse: DateParser, a: string, b: string): (r: int)
    ensures parse(a).None? && parse(b).None? ==> r == 0
    ensures parse(a).None? && parse(b).Some? ==> r > 0
    ensures parse(a).Some? && parse(b).None? ==> r < 0
    ensures parse(a).Some? && parse(b).Some? ==> r == parse(b).value - parse(a).value
  {
    var pa, pb := parse(a), parse(b);
    if pa.None? && pb.None? then 0
    else if pa.None? then 1
    else if pb.None? then -1
    else pb.value - pa.value
  }

  function Sign(x: int): int {
    if x < 0 then -1 else if x > 0 then 1 else 0
  }

  /** Swapping the arguments flips the sign. */
  lemma CompareAntisymmetric(parse: DateParser, a: string, b: string)
    ensures Sign(Compare(parse, a, b)) == -Sign(Compare(parse, b, a))
  {
  }

  /** "May come first" is transitive, so the comparator is a consistent ordering. */
  lemma CompareTransitive(parse: DateParser, a: string, b: string, c: string)
    requires Compare(parse, a, b) <= 0 && Compare(parse, b, c) <= 0
    ensures Compare(parse, a, c) <= 0
  {
  }

  /** Reference ordering: a key may come first when the other is invalid, or when it is valid and not older. */
  predicate MayPrecede(pa: Option<int>, pb: Option<int>) {
    pb.None? || (pa.Some? && pa.value >= pb.value)
  }

  /** The comparator says "a first or tie" exactly when the reference ordering allows a first. */
  lemma CompareMatchesReference(parse: DateParser, a: string, b: string)
    ensures Compare(parse, a, b) <= 0 <==> MayPrecede(parse(a), parse(b))
  {
  }

  predicate SortedBy(parse: DateParser, s: seq<Item>) {
    forall i, j :: 0 <= i < j < |s| ==> Compare(parse, s[i].0, s[j].0) <= 0
  }

  /** In a sorted view, valid dates run newest to oldest and every invalid date comes after every valid one. */
  lemma SortedMeaning(parse: DateParser, s: seq<Item>, i: nat, j: nat)
    requires SortedBy(parse, s)
    requires i < j < |s|
    ensures parse(s[i].0).Some? && parse(s[j].0).Some? ==> parse(s[i].0).value >= parse(s[j].0).value
    ensures parse(s[j].0).Some? ==> parse(s[i].0).Some?
  {
  }

  /** Each pair may come before its successor, by the reference ordering. */
  predicate AdjacentInOrder(parse: DateParser, s: seq<Item>) {
    forall k :: 0 < k < |s| ==> MayPrecede(parse(s[k - 1].0), parse(s[k].0))
  }

  lemma {:induction false} AdjacentInOrderIsSorted(parse: DateParser, s: seq<Item>)
    requires AdjacentInOrder(parse, s)
    ensures SortedBy(parse, s)
    decreases |s|
  {
    if |s| > 1 {
      var t := s[..|s| - 1];
      assert AdjacentInOrder(parse, t);
      AdjacentInOrderIsSorted(parse, t);
      forall i | 0 <= i < |s| - 1 ensures Compare(parse, s[i].0, s[|s| - 1].0) <= 0 {
        CompareMatchesReference(parse, s[|s| - 2].0, s[|s| - 1].0);
        if i < |s| - 2 {
          assert t[i] == s[i] && t[|s| - 2] == s[|s| - 2];
          CompareTransitive(parse, s[i].0, s[|s| - 2].0, s[|s| - 1].0);
        }
      }
    }
  }

  /** Exchange two neighbouring pairs; the array's contents stay the same multiset. */
  method SwapDown(a: array<Item>, j: nat)
    requires 0 < j < a.Length
    modifies a
    ensures a[j - 1] == old(a[j]) && a[j] == old(a[j - 1])
    ensures forall k :: 0 <= k < a.Length && k != j - 1 && k != j ==> a[k] == old(a[k])
    ensures multiset(a[..]) == multiset(old(a[..]))
  {
    a[j - 1], a[j] := a[j], a[j - 1];
  }

  /**
   * One insertion step: with a[..i] in order, move a[i] down past every pair
   * that must come after it, leaving a[..i+1] in order.
   */
  method InsertAt(a: array<Item>, i: nat, parse: DateParser)
    requires i < a.Length
    requires forall k :: 0 < k < i ==> MayPrecede(parse(a[k - 1].0), parse(a[k].0))
    modifies a
    ensures forall k :: 0 < k <= i ==> MayPrecede(parse(a[k - 1].0), parse(a[k].0))
    ensures multiset(a[..]) == multiset(old(a[..]))
    ensures a[i + 1..] == old(a[i + 1..])
  {
    var j := i;
    while j > 0 && Compare(parse, a[j - 1].0, a[j].0) > 0
      invariant 0 <= j <= i
      invariant multiset(a[..]) == multiset(old(a[..]))
      invariant a[i + 1..] == old(a[i + 1..])
      invariant forall k :: 0 < k <= i && k != j && k != j + 1 ==> MayPrecede(parse(a[k - 1].0), parse(a[k].0))
      invariant 0 < j < i ==> MayPrecede(parse(a[j - 1].0), parse(a[j + 1].0))
      invariant j < i ==> MayPrecede(parse(a[j].0), parse(a[j + 1].0))
    {
      CompareMatchesReference(parse, a[j].0, a[j - 1].0);
      SwapDown(a, j);
      j := j - 1;
    }
    if j > 0 {
      CompareMatchesReference(parse, a[j - 1].0, a[j].0);
    }
  }

  /** `.sort(compare)` on the array of pairs, in place: an insertion sort. */
  method SortEntries(a: array<Item>, parse: DateParser)
    modifies a
    ensures SortedBy(parse, a[..])
    ensures multiset(a[..]) == multiset(old(a[..]))
  {
    var i := 0;
    while i < a.Length
      invariant 0 <= i <= a.Length
      invariant forall k :: 0 < k < i ==> MayPrecede(parse(a[k - 1].0), parse(a[k].0))
      invariant multiset(a[..]) == multiset(old(a[..]))
    {
      InsertAt(a, i, parse);
      i := i + 1;
    }
    assert AdjacentInOrder(parse, a[..]);
    AdjacentInOrderIsSorted(parse, a[..]);
  }

  // ----- the cards -----

  /** A card's main line: the note, or a generated sentence when the note is empty. */
  function CardText(e: Entry): (t: string)
    ensures e.note != "" ==> t == e.note
    ensures e.note == "" ==> t == "Feeling " + e.mood + " today"
  {
    if e.note != "" then e.note else "Feeling " + e.mood + " today"
  }

  datatype Card = Card(key: string, icon: MoodIcon.Span, text: string, date: string,
                       weather: Option<WeatherDisplay.Badge>)

  datatype NotesList = NoEntriesFound | Cards(cards: seq<Card>)

  /** One card: the 24px mood icon, the main line, the display date and, when recorded, a small weather badge. */
  function CardFor(x: Item): (c: Card)
    ensures c.key == x.0 && c.text == CardText(x.1) && c.date == x.1.date
    ensures c.icon == MoodIcon.Render(x.1.mood, Some(24))
    ensures c.weather.Some? <==> x.1.weather.Some?
    ensures x.1.weather.Some? ==>
      c.weather.value == WeatherDisplay.Render(x.1.weather.value.temp, x.1.weather.value.condition, Some(true))
  {
    var e := x.1;
    Card(x.0, MoodIcon.Render(e.mood, Some(24)), CardText(e), e.date,
         if e.weather.Some? then Some(WeatherDisplay.Render(e.weather.value.temp, e.weather.value.condition, Some(true)))
         else None)
  }

  /** The list area: the "No entries found" message for an empty view, else one card per pair in order. */
  function RenderList(sorted: seq<Item>): (v: NotesList)
    ensures v.NoEntriesFound? <==> |sorted| == 0
    ensures v.Cards? ==> |v.cards| == |sorted| && forall i :: 0 <= i < |sorted| ==> v.cards[i] == CardFor(sorted[i])
  {
    if |sorted| == 0 then NoEntriesFound else Cards(seq(|sorted|, i requires 0 <= i < |sorted| => CardFor(sorted[i])))
  }

  /**
   * What the page lists: exactly the visible stored pairs, as many as there
   * are visible keys (so each once), in comparator order.
   */
  ghost predicate IsViewOf(entries: EntryMap, filter: Option<string>, parse: DateParser, shown: seq<Item>) {
    && (forall x :: x in shown <==> x.0 in entries && entries[x.0] == x.1 && Shown(filter, x.1))
    && |shown| == |VisibleKeys(entries, filter)|
    && SortedBy(parse, shown)
  }

  /**
   * The page's list for the stored entries and the current filter: exactly
   * the visible entries, each once, newest valid date first and invalid dates
   * last, rendered as cards.
   */
  method View(entries: EntryMap, filter: Option<string>, parse: DateParser) returns (shown: seq<Item>, v: NotesList)
    ensures IsViewOf(entries, filter, parse, shown)
    ensures v == RenderList(shown)
  {
    var all := EntriesOf(entries);
    var filtered := FilteredEntries(all, filter);
    FilteredCount(entries, filter, all, filtered);
    var a := new Item[|filtered|](i requires 0 <= i < |filtered| => filtered[i]);
    assert a[..] == filtered;
    SortEntries(a, parse);
    shown := a[..];
    PermutationKeepsMembers(filtered, shown);
    v := RenderList(shown);
  }

  /** The filtered pairs number exactly the visible keys. */
  lemma FilteredCount(entries: EntryMap, filter: Option<string>, all: seq<Item>, filtered: seq<Item>)
    requires forall x :: x in all <==> x.0 in entries && entries[x.0] == x.1
    requires DistinctKeys(all)
    requires filtered == FilteredEntries(all, filter)
    ensures |filtered| == |VisibleKeys(entries, filter)|
  {
    assert KeySet(filtered) == VisibleKeys(entries, filter) by {
      forall k | k in VisibleKeys(entries, filter) ensures k in KeySet(filtered) {
        assert (k, entries[k]) in filtered;
      }
    }
    DistinctKeysCount(filtered);
  }

  /** A rearrangement has the same members and the same length. */
  lemma PermutationKeepsMembers(s: seq<Item>, t: seq<Item>)
    requires multiset(s) == multiset(t)
    ensures forall x :: x in s <==> x in t
    ensures |s| == |t|
  {
    assert forall x :: x in s <==> x in multiset(s);
    assert forall x :: x in t <==> x in multiset(t);
    assert |s| == |multiset(s)|;
    assert |t| == |multiset(t)|;
  }

  /** Every stored entry with the filter's mood is shown, nothing else, and with no filter all of them. */
  lemma ViewIsExactlyTheFilter(entries: EntryMap, filter: Option<string>, parse: DateParser, shown: seq<Item>)
    requires IsViewOf(entries, filter, parse, shown)
    ensures Truthy(filter) ==> forall x :: x in shown ==> x.1.mood == filter.value
    ensures forall k :: k in entries && Shown(filter, entries[k]) ==> (k, entries[k]) in shown
    ensures !Truthy(filter) ==> |shown| == |entries|
  {
    if !Truthy(filter) {
      UnfilteredShowsAll(entries, filter);
    }
  }

  /** The "No entries found" message appears exactly when no stored entry passes the filter. */
  lemma NoEntriesMessage(entries: EntryMap, filter: Option<string>, parse: DateParser, shown: seq<Item>)
    requires IsViewOf(entries, filter, parse, shown)
    ensures RenderList(shown).NoEntriesFound? <==> forall k :: k in entries ==> !Shown(filter, entries[k])
  {
  }

  // ----- the filter bar -----

  /** One filter button: the filter it sets when clicked and whether it is highlighted. */
  datatype FilterButton = FilterButton(sets: Option<string>, highlighted: bool)

  /** "All" followed by one button per mood, each highlighted when it is the current filter. */
  function FilterBar(filter: Option<string>): (bs: seq<FilterButton>)
    ensures |bs| == 1 + |MoodIcon.KnownMoods|
    ensures bs[0].sets == None
    ensures forall i :: 0 <= i < |MoodIcon.KnownMoods| ==> bs[i + 1].sets == Some(MoodIcon.KnownMoods[i])
    ensures forall i :: 0 <= i < |bs| ==> (bs[i].highlighted <==> filter == bs[i].sets)
  {
    [FilterButton(None, filter == None)] +
    seq(|MoodIcon.KnownMoods|, i requires 0 <= i < |MoodIcon.KnownMoods| =>
      FilterButton(Some(MoodIcon.KnownMoods[i]), filter == Some(MoodIcon.KnownMoods[i])))
  }

  /** Exactly one filter button is highlighted for any filter the bar can set. */
  lemma FilterBarHighlightsOne(filter: Option<string>)
    requires filter == None || filter.value in MoodIcon.KnownMoods
    ensures exists i :: 0 <= i < |FilterBar(filter)| && FilterBar(filter)[i].highlighted
    ensures forall i, j :: 0 <= i < j < |FilterBar(filter)| ==>
      !(FilterBar(filter)[i].highlighted && FilterBar(filter)[j].highlighted)
  {
    var bs := FilterBar(filter);
    if filter == None {
      assert bs[0].highlighted;
    } else {
      var k :| 0 <= k < |MoodIcon.KnownMoods| && MoodIcon.KnownMoods[k] == filter.value;
      assert bs[k + 1].highlighted;
    }
  }

  /** The page's state: the entries read from storage at mount, and the current filter. */
  class AllNotesPage {
    var entries: EntryMap
    var filter: Option<string>

    /** Mounting: the stored payload is read once; no filter. */
    constructor (storage: Storage)
      ensures entries == storage.entries && filter == None
    {
      entries := storage.entries;
      filter := None;
    }

    /** A filter button's click handler. */
    method FilterByMood(mood: Option<string>)
      modifies this
      ensures filter == mood && entries == old(entries)
    {
      filter := mood;
    }

    /** Render the list for the current state. */
    method Render(parse: DateParser) returns (shown: seq<Item>, v: NotesList)
      ensures IsViewOf(entries, filter, parse, shown)
      ensures v == RenderList(shown)
    {
      shown, v := View(entries, filter, parse);
    }
  }
}
