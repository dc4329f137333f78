/**
 * The MoodSelector component: one button per mood of a fixed catalog. The
 * selection itself belongs to the caller; the selector only compares against
 * it and reports clicks.
 */
module MoodSelector {
  import opened Entries
  import MoodIcon

  datatype Mood = Mood(id: string, emoji: string, title: string)

  /** The catalog, in display order. */
  const Moods: seq<Mood> := [
    Mood("happy", "\U{1F60A}", "Happy"),
    Mood("neutral", "\U{1F610}", "Neutral"),
    Mood("sad", "\U{1F614}", "Sad"),
    Mood("angry", "\U{1F620}", "Angry"),
    Mood("tired", "\U{1F922}", "Tired")
  ]

  const HighlightClass: string := "bg-gray-200 scale-110 shadow-sm"
  const HoverClass: string := "hover:bg-gray-100"

  /**
   * One rendered button: its React key, the id its click handler passes to
   * `onSelectMood`, whether it carries the highlight classes, its aria-label,
   * and the emoji span with its own label.
   */
  datatype Button = Button(key: string, clickId: string, highlighted: bool, stateClass: string,
                           ariaLabel: string, emoji: string, emojiLabel: string)

  /** A button is highlighted exactly when the caller's selection is that button's id. */
  function IsHighlighted(selected: Option<string>, mood: Mood): (on: bool)
    ensures selected.None? ==> !on
    ensures on ==> selected.value == mood.id
    ensures selected == Some(mood.id) ==> on
  {
    selected == Some(mood.id)
  }

  function AriaLabel(title: string): (s: string)
    ensures |s| == |title| + 12
    ensures s[..7] == "Select " && s[|s| - 5..] == " mood" && s[7..|s| - 5] == title
  {
    "Select " + title + " mood"
  }

  function ButtonFor(selected: Option<string>, mood: Mood): (b: Button)
    ensures b.key == mood.id && b.clickId == mood.id && b.emoji == mood.emoji
    ensures b.highlighted <==> IsHighlighted(selected, mood)
    ensures b.stateClass == if b.highlighted then HighlightClass else HoverClass
    ensures b.ariaLabel == AriaLabel(mood.title) && b.emojiLabel == mood.title
  {
    var on := IsHighlighted(selected, mood);
    Button(mood.id, mood.id, on, if on then HighlightClass else HoverClass,
           AriaLabel(mood.title), mood.emoji, mood.title)
  }

  /** The whole selector: one button per catalog mood, in catalog order. */
  function Render(selected: Option<string>): (bs: seq<Button>)
    ensures |bs| == |Moods|
    ensures forall i :: 0 <= i < |bs| ==> bs[i] == ButtonFor(selected, Moods[i])
  {
    seq(|Moods|, i requires 0 <= i < |Moods| => ButtonFor(selected, Moods[i]))
  }

  /**
   * The id a click on rendered button i passes to `onSelectMood`: catalog
   * mood i's own id, whatever the current selection.
   */
  function Click(selected: Option<string>, i: nat): (id: string)
    requires i < |Moods|
    ensures id == Moods[i].id
  {
    Render(selected)[i].clickId
  }

  /** The catalog holds exactly five moods, in the ids' fixed order, with distinct ids. */
  lemma CatalogShape()
    ensures |Moods| == 5
    ensures forall i :: 0 <= i < 5 ==> Moods[i].id == MoodIcon.KnownMoods[i]
    ensures forall i, j :: 0 <= i < j < |Moods| ==> Moods[i].id != Moods[j].id
  {
  }

  /** The selector's emojis are the ones MoodIcon draws for the same ids. */
  lemma CatalogAgreesWithMoodIcon()
    ensures forall i :: 0 <= i < |Moods| ==> Moods[i].emoji == MoodIcon.GetMoodEmoji(Moods[i].id)
  {
  }

  /** At most one button is highlighted, and none while nothing is selected. */
  lemma AtMostOneHighlighted(selected: Option<string>)
    ensures forall i, j :: 0 <= i < j < |Moods| ==>
      !(Render(selected)[i].highlighted && Render(selected)[j].highlighted)
    ensures selected.None? ==> forall i :: 0 <= i < |Moods| ==> !Render(selected)[i].highlighted
  {
  }

  /** A selection equal to a catalog id highlights exactly that button. */
  lemma SelectingHighlightsOne(i: nat)
    requires i < |Moods|
    ensures forall j :: 0 <= j < |Moods| ==> (Render(Some(Moods[i].id))[j].highlighted <==> j == i)
  {
  }
}
