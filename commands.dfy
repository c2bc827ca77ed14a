/**
 * Literal G-code commands (petrify/machine/commands.py): a stored line that
 * ignores translation, the tool-change and pause lines, and the message a
 * tool pause shows.
 */
module Commands {
  import opened Wrappers
  import PlanePoint
  import StlText

  /** `GCode(line)`. */
  datatype GCode = GCode(line: string)

  /** `'{0}'.format(n)` for an integer. */
  function IntText(n: int): string {
    if n < 0 then "-" + StlText.Digits(-n) else StlText.Digits(n)
  }

  /** The integer an optional minus sign and decimal digits denote. */
  function ReadInt(s: string): Option<int> {
    if s != [] && s[0] == '-' && StlText.AllDigits(s[1..]) then Some(-(StlText.DigitsValue(s[1..]) as int))
    else if StlText.AllDigits(s) then Some(StlText.DigitsValue(s))
    else None
  }

  /**
   * `GCode + v`: the same command for any planar vector (a point is one
   * too); anything else is NotImplemented (None).
   */
  function Translate(g: GCode, v: PlanePoint.Operand): (r: Option<GCode>)
    ensures r.Some? <==> v.Planar?
    ensures r.Some? ==> r.value == g
  {
    if v.Planar? then Some(g) else None
  }

  /** The line `ToolChange.commands` emits for a tool number. */
  function ToolChangeLine(number: int): string {
    "M6 T" + IntText(number)
  }

  /** The line `Pause.commands` emits. */
  function PauseLine(message: string): string {
    "M0 " + message
  }

  /** `ToolPause`'s message. */
  function ToolPauseMessage(number: int): string {
    "Tool to " + IntText(number)
  }

  // ---------------------------------------------------------------------
  // Properties

  /** Reading back the text of n gives n. */
  lemma IntTextRoundTrip(n: int)
    ensures ReadInt(IntText(n)) == Some(n)
  {
    var s := IntText(n);
    if n < 0 {
      var d := StlText.Digits(-n);
      assert s == "-" + d;
      assert s[0] == '-' && s[1..] == d;
      StlText.DigitsRoundTrip(-n);
      assert StlText.AllDigits(s[1..]);
    } else {
      var d := StlText.Digits(n);
      assert StlText.IsDigit(d[0]);
      StlText.DigitsRoundTrip(n);
    }
  }

  /** A tool change is "M6 T" followed by text that reads back as the tool number. */
  lemma ToolChangeNumber(number: int)
    ensures var line := ToolChangeLine(number);
      |line| > 4 && line[..4] == "M6 T" && ReadInt(line[4..]) == Some(number)
  {
    var line := ToolChangeLine(number);
    assert line[4..] == IntText(number);
    IntTextRoundTrip(number);
  }

  /** A pause is "M0 " followed by the message verbatim. */
  lemma PauseMessage(message: string)
    ensures var line := PauseLine(message); line[..3] == "M0 " && line[3..] == message
  {
  }

  /**
   * A tool pause's message is "Tool to " followed by text that reads back as
   * the tool number; the pause line is "M0 " and that message.
   */
  lemma ToolPauseNumber(number: int)
    ensures var msg := ToolPauseMessage(number);
      |msg| > 8 && msg[..8] == "Tool to " && ReadInt(msg[8..]) == Some(number)
  {
    var msg := ToolPauseMessage(number);
    assert msg[8..] == IntText(number);
    IntTextRoundTrip(number);
  }
}
