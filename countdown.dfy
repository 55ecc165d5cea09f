/** Countdown formatting, `get_time_to_arrival` (src/main.py:76-103). */
module Countdown {
  import Text

  /** What `get_time_to_arrival` returns: the text, its pixel width, and whether to show it. */
  datatype TimeLabel = TimeLabel(text: string, width: int, shown: bool)

  /** `math.floor(s / 60 + 0.5)`, in whole-number arithmetic: minutes rounded half up. */
  function RoundedMinutes(s: int): (m: int)
    ensures 60 * m <= s + 30 < 60 * m + 60
  {
    (2 * s + 60) / 120
  }

  /**
   * The label for `seconds` to arrival. An entry below `earliest` minutes is not shown (text " ",
   * width 0); more than one minute away reads "<m> min", otherwise "due". `width` stands for
   * the font's bounding-box width of a text.
   */
  function TimeToArrival(seconds: int, earliest: int, width: string -> int): TimeLabel {
    if seconds >= earliest * 60 then
      var text := if seconds > 60 then Text.Decimal(RoundedMinutes(seconds)) + " min" else "due";
      TimeLabel(text, width(text), true)
    else
      TimeLabel(" ", 0, false)
  }

  /** The label is shown exactly when the arrival is at least `earliest` minutes away; a shown
      label more than a minute away reads the rounded minutes followed by " min", one within a
      minute reads "due". */
  lemma TimeToArrivalMeaning(seconds: int, earliest: int, width: string -> int)
    ensures var l := TimeToArrival(seconds, earliest, width);
      && (l.shown <==> seconds >= earliest * 60)
      && (!l.shown ==> l.text == " " && l.width == 0)
      && (l.shown ==> l.width == width(l.text))
      && (l.shown && seconds > 60 ==> exists m: nat :: 60 * m <= seconds + 30 < 60 * m + 60 && l.text == Text.Decimal(m) + " min")
      && (l.shown && seconds <= 60 ==> l.text == "due")
  {
  }

  /** The worked examples: 500 s with a threshold of 8 minutes, 61 s, 600 s and 50 s. */
  lemma TimeToArrivalExamples(width: string -> int)
    ensures TimeToArrival(500, 8, width).text == "8 min"
    ensures TimeToArrival(61, 0, width).text == "1 min"
    ensures TimeToArrival(600, 8, width).text == "10 min"
    ensures TimeToArrival(50, 0, width).text == "due"
    ensures !TimeToArrival(50, 1, width).shown
  {
  }
}
