/** The WeatherDisplay component: a condition icon next to a temperature label. */
module WeatherDisplay {
  import opened Entries

  /** The three icons the component can draw. */
  datatype Icon = Sun | Cloud | CloudRain

  /** An icon together with its size classes. */
  datatype IconElement = IconElement(icon: Icon, className: string)

  /** What the component renders: a wrapper text class, the icon and the label. */
  datatype Badge = Badge(textClass: string, icon: IconElement, text: string)

  /** The icon size classes: 16px when small, 20px otherwise. */
  function IconSizeClass(small: bool): (c: string)
    ensures small ==> c == "h-4 w-4"
    ensures !small ==> c == "h-5 w-5"
  {
    if small then "h-4 w-4" else "h-5 w-5"
  }

  /**
   * The icon for a weather condition. Total over all strings: an unrecognised
   * condition draws the sun, like "sunny".
   */
  function GetWeatherIcon(condition: string, small: bool): (el: IconElement)
    ensures el.className == IconSizeClass(small)
  {
    match condition
    case "sunny" => IconElement(Sun, IconSizeClass(small))
    case "cloudy" => IconElement(Cloud, IconSizeClass(small))
    case "rainy" => IconElement(CloudRain, IconSizeClass(small))
    case _ => IconElement(Sun, IconSizeClass(small))
  }

  /** Which icon each condition draws; every condition outside the three draws the sun. */
  lemma WeatherIconChoice(condition: string, small: bool)
    ensures condition == "cloudy" <==> GetWeatherIcon(condition, small).icon == Cloud
    ensures condition == "rainy" <==> GetWeatherIcon(condition, small).icon == CloudRain
    ensures condition != "cloudy" && condition != "rainy" ==> GetWeatherIcon(condition, small).icon == Sun
  {
  }

  /** The size class depends on `small` alone, never on the condition, and the two sizes differ. */
  lemma IconSizeIndependentOfCondition(c1: string, c2: string, small: bool)
    ensures GetWeatherIcon(c1, small).className == GetWeatherIcon(c2, small).className
    ensures GetWeatherIcon(c1, true).className != GetWeatherIcon(c1, false).className
  {
  }

  // ----- rendering an integer as JavaScript does in a template literal -----

  function DigitChar(d: int): (c: char)
    requires 0 <= d < 10
    ensures '0' <= c <= '9'
  {
    (d + '0' as int) as char
  }

  function DigitValue(c: char): int {
    c as int - '0' as int
  }

  /** The decimal digits of a natural number, most significant first, without leading zeros. */
  function NatToDecimal(n: nat): (s: string)
    ensures |s| >= 1
    ensures forall i :: 0 <= i < |s| ==> '0' <= s[i] <= '9'
    ensures s[0] == '0' <==> n == 0
    ensures n == 0 ==> s == "0"
    decreases n
  {
    if n < 10 then [DigitChar(n)] else NatToDecimal(n / 10) + [DigitChar(n % 10)]
  }

  /** The decimal form of an integer: a minus sign before the digits when negative. */
  function IntToDecimal(n: int): (s: string)
    ensures |s| >= 1
    ensures (n < 0) <==> s[0] == '-'
    ensures n < 0 ==> |s| >= 2 && '1' <= s[1] <= '9'
    ensures n >= 0 ==> (s[0] == '0' <==> s == "0")
  {
    if n < 0 then "-" + NatToDecimal(-n) else NatToDecimal(n)
  }

  /** Reads back a string of digits (most significant first). */
  function ReadNat(s: string): int
    decreases |s|
  {
    if |s| == 0 then 0 else ReadNat(s[..|s| - 1]) * 10 + DigitValue(s[|s| - 1])
  }

  /** Reads back an optionally signed decimal. */
  function ReadInt(s: string): int {
    if |s| > 0 && s[0] == '-' then -ReadNat(s[1..]) else ReadNat(s)
  }

  lemma {:induction false} ReadNatToDecimal(n: nat)
    ensures ReadNat(NatToDecimal(n)) == n
    decreases n
  {
    if n >= 10 {
      var s := NatToDecimal(n);
      assert s[..|s| - 1] == NatToDecimal(n / 10);
      ReadNatToDecimal(n / 10);
    }
  }

  /** The decimal rendering loses nothing: reading it back gives the integer. */
  lemma ReadIntToDecimal(n: int)
    ensures ReadInt(IntToDecimal(n)) == n
  {
    if n < 0 {
      assert IntToDecimal(n)[1..] == NatToDecimal(-n);
      ReadNatToDecimal(-n);
    } else {
      ReadNatToDecimal(n);
    }
  }

  /** The temperature label: the temperature in decimal followed by "°C". */
  function TemperatureLabel(temp: int): (s: string)
    ensures |s| >= 3 && s[|s| - 2..] == "\U{B0}C"
  {
    IntToDecimal(temp) + "\U{B0}C"
  }

  /** The number in front of the unit is the temperature, so distinct temperatures get distinct labels. */
  lemma TemperatureLabelReadsBack(temp: int, other: int)
    ensures ReadInt(TemperatureLabel(temp)[..|TemperatureLabel(temp)| - 2]) == temp
    ensures TemperatureLabel(temp) == TemperatureLabel(other) ==> temp == other
  {
    var shown := TemperatureLabel(temp);
    assert shown[..|shown| - 2] == IntToDecimal(temp);
    ReadIntToDecimal(temp);
    var shown' := TemperatureLabel(other);
    assert shown'[..|shown'| - 2] == IntToDecimal(other);
    ReadIntToDecimal(other);
  }

  /**
   * Render the component. `small` is the optional prop and defaults to false;
   * it picks both the icon size and the wrapper's text size.
   */
  function Render(temp: int, condition: string, small: Option<bool>): (b: Badge)
    ensures b.icon == GetWeatherIcon(condition, small == Some(true))
    ensures b.textClass == (if small == Some(true) then "text-xs" else "text-sm")
    ensures b.text == TemperatureLabel(temp)
  {
    var isSmall := if small.Some? then small.value else false;
    Badge(if isSmall then "text-xs" else "text-sm", GetWeatherIcon(condition, isSmall), TemperatureLabel(temp))
  }

  /** Omitting `small` renders exactly as passing false. */
  lemma SmallDefaultsToFalse(temp: int, condition: string)
    ensures Render(temp, condition, None) == Render(temp, condition, Some(false))
  {
  }
}
