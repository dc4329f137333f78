/** The MoodIcon component: a mood id rendered as one emoji. */
module MoodIcon {
  import opened Entries

  const HappyEmoji: string := "\U{1F60A}"
  const NeutralEmoji: string := "\U{1F610}"
  const SadEmoji: string := "\U{1F614}"
  const AngryEmoji: string := "\U{1F620}"
  const TiredEmoji: string := "\U{1F922}"

  /** The five mood ids the switch recognises, in the order of its cases. */
  const KnownMoods: seq<string> := ["happy", "neutral", "sad", "angry", "tired"]

  /** Reference table: the emoji of each recognised mood, as an independent map. */
  const EmojiTable: map<string, string> :=
    map["happy" := HappyEmoji, "neutral" := NeutralEmoji, "sad" := SadEmoji,
        "angry" := AngryEmoji, "tired" := TiredEmoji]

  /** The size in pixels when the caller gives none. */
  const DefaultSize: int := 24

  /**
   * The emoji for a mood. Total over all strings: anything that is not one of
   * the five known ids falls back to the happy face.
   */
  function GetMoodEmoji(mood: string): (emoji: string)
    ensures |emoji| == 1  // one code point
    ensures emoji in {HappyEmoji, NeutralEmoji, SadEmoji, AngryEmoji, TiredEmoji}
  {
    match mood
    case "happy" => HappyEmoji
    case "neutral" => NeutralEmoji
    case "sad" => SadEmoji
    case "angry" => AngryEmoji
    case "tired" => TiredEmoji
    case _ => HappyEmoji
  }

  /** The switch agrees with the reference table, and falls back to the happy face off it. */
  lemma EmojiMatchesTable(mood: string)
    ensures mood in EmojiTable ==> GetMoodEmoji(mood) == EmojiTable[mood]
    ensures mood !in EmojiTable ==> GetMoodEmoji(mood) == HappyEmoji
  {
  }

  /** The recognised moods are exactly the keys of the table. */
  lemma KnownMoodsAreTableKeys()
    ensures |KnownMoods| == 5
    ensures forall m :: m in KnownMoods <==> m in EmojiTable
  {
  }

  /** The five recognised moods get five pairwise-distinct emojis. */
  lemma KnownEmojisDistinct()
    ensures forall i, j :: 0 <= i < j < |KnownMoods| ==>
      GetMoodEmoji(KnownMoods[i]) != GetMoodEmoji(KnownMoods[j])
  {
  }

  /** Every unrecognised string (an unknown id, a different case, the empty string) shows the happy face. */
  lemma UnknownMoodIsHappy(mood: string)
    requires mood !in KnownMoods
    ensures GetMoodEmoji(mood) == HappyEmoji
  {
  }

  /** What the component renders: an image-role span sized in pixels. */
  datatype Span = Span(fontSizePx: int, role: string, ariaLabel: string, text: string)

  /**
   * Render a mood icon. `size` is the optional prop; when it is missing the
   * size is 24. The aria-label is the raw mood string, even when the emoji is
   * the fallback one.
   */
  function Render(mood: string, size: Option<int>): (s: Span)
    ensures s.fontSizePx == (if size.Some? then size.value else DefaultSize)
    ensures s.ariaLabel == mood && s.role == "img"
    ensures s.text == GetMoodEmoji(mood)
  {
    Span(if size.Some? then size.value else DefaultSize, "img", mood, GetMoodEmoji(mood))
  }
}
