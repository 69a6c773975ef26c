/** The width a terminal gives a text: escape sequences show nothing, and a text of
    several lines is as wide as the widest. */
module AnsiWidth {
  import opened Text
  import Columns

  /** Where a terminal is while it reads a line: between sequences, after an escape
      character, or among the parameters of a control sequence. */
  datatype Mode = Ground | Escape | Control

  const ESC := '\U{1B}'

  function Next(mode: Mode, c: char): Mode {
    match mode
    case Ground => if c == ESC then Escape else Ground
    case Escape => if c == '[' then Control else Ground
    case Control => if '@' <= c <= '~' then Ground else Control
  }

  /** The mode after a text. */
  function After(mode: Mode, s: string): Mode
    decreases s
  {
    if s == "" then mode else After(Next(mode, s[0]), s[1..])
  }

  /** The cells a line takes; `cell` is the width of one printable character. */
  function LineWidth(cell: char -> nat, mode: Mode, line: string): nat
    decreases line
  {
    if line == "" then 0
    else
      var shown := if mode == Ground && line[0] != ESC then cell(line[0]) else 0;
      shown + LineWidth(cell, Next(mode, line[0]), line[1..])
  }

  function Widest(cell: char -> nat, lines: seq<string>): nat {
    if lines == [] then 0
    else
      var first, rest := LineWidth(cell, Ground, lines[0]), Widest(cell, lines[1..]);
      if first > rest then first else rest
  }

  function TextWidth(cell: char -> nat, s: string): nat {
    Widest(cell, Split(s, '\n'))
  }

  /** The width tables are laid out by. */
  function Width(cell: char -> nat): Columns.Width {
    s => TextWidth(cell, s)
  }

  /** One line whose escape sequences are all complete. */
  predicate OneLine(s: string) {
    '\n' !in s && After(Ground, s) == Ground
  }

  /** On one line the width is the sum over the characters. */
  lemma WidthOfALine(cell: char -> nat, s: string)
    requires '\n' !in s
    ensures TextWidth(cell, s) == LineWidth(cell, Ground, s)
  {
    SplitWhole(s, '\n');
    assert [s][1..] == [];
    assert Widest(cell, [s]) == LineWidth(cell, Ground, s);
  }

  lemma {:induction false} AfterJoin(mode: Mode, a: string, b: string)
    ensures After(mode, a + b) == After(After(mode, a), b)
    decreases a
  {
    if a == "" {
      assert a + b == b;
    } else {
      AfterJoin(Next(mode, a[0]), a[1..], b);
      assert (a + b)[1..] == a[1..] + b;
    }
  }

  lemma {:induction false} LineWidthJoin(cell: char -> nat, mode: Mode, a: string, b: string)
    ensures LineWidth(cell, mode, a + b) == LineWidth(cell, mode, a) + LineWidth(cell, After(mode, a), b)
    decreases a
  {
    if a == "" {
      assert a + b == b;
    } else {
      LineWidthJoin(cell, Next(mode, a[0]), a[1..], b);
      assert (a + b)[1..] == a[1..] + b;
    }
  }

  /** This width is one that tables line up under. */
  lemma EscapesAreDropped(cell: char -> nat)
    requires cell(' ') == 1
    ensures Columns.Additive(Width(cell), OneLine)
  {
    WidthOfALine(cell, " ");
    forall a, b ensures Columns.Joins(Width(cell), OneLine, a, b) {
      if OneLine(a) && OneLine(b) {
        JoinedLines(cell, a, b);
      }
    }
  }

  lemma JoinedLines(cell: char -> nat, a: string, b: string)
    requires OneLine(a) && OneLine(b)
    ensures OneLine(a + b) && TextWidth(cell, a + b) == TextWidth(cell, a) + TextWidth(cell, b)
  {
    hide TextWidth;
    AfterJoin(Ground, a, b);
    LineWidthJoin(cell, Ground, a, b);
    WidthOfALine(cell, a);
    WidthOfALine(cell, b);
    WidthOfALine(cell, a + b);
  }

  /** The sequence that sets a style. */
  function Style(code: string): string {
    [ESC, '['] + code + "m"
  }

  /** The characters of a style's parameters. */
  predicate Parameters(code: string) {
    forall k :: 0 <= k < |code| ==> ' ' <= code[k] < '@'
  }

  lemma {:induction false} ParametersShowNothing(cell: char -> nat, code: string)
    requires Parameters(code)
    ensures '\n' !in code + "m" && After(Control, code + "m") == Ground && LineWidth(cell, Control, code + "m") == 0
  {
    if code == "" {
      assert code + "m" == "m";
    } else {
      ParametersShowNothing(cell, code[1..]);
      assert code + "m" == [code[0]] + (code[1..] + "m");
    }
  }

  lemma IntroducerShowsNothing(cell: char -> nat)
    ensures After(Ground, [ESC, '[']) == Control && LineWidth(cell, Ground, [ESC, '[']) == 0
  {
    assert [ESC, '['][1..] == ['['] && ['['][1..] == "";
    assert After(Escape, ['[']) == Control && LineWidth(cell, Escape, ['[']) == 0;
  }

  lemma StyleShowsNothing(cell: char -> nat, code: string)
    requires Parameters(code)
    ensures OneLine(Style(code)) && TextWidth(cell, Style(code)) == 0
  {
    hide *;
    var intro, rest := [ESC, '['], code + "m";
    StyleIs(code);
    ParametersShowNothing(cell, code);
    IntroducerShowsNothing(cell);
    AfterJoin(Ground, intro, rest);
    LineWidthJoin(cell, Ground, intro, rest);
    assert '\n' !in intro + rest;
    WidthOfALine(cell, intro + rest);
    OneLineIs(intro + rest);
  }

  lemma OneLineIs(s: string)
    requires '\n' !in s && After(Ground, s) == Ground
    ensures OneLine(s)
  {
  }

  lemma StyleIs(code: string)
    ensures Style(code) == [ESC, '['] + (code + "m") && ESC != '\n'
  {
  }

  lemma ResetHasParameters()
    ensures Parameters("0")
  {
  }

  /** A cell put in a style and reset is as wide as the plain cell, so tables line up
      under it alike. */
  lemma StyledCell(cell: char -> nat, code: string, text: string)
    requires OneLine(text)
    requires Parameters(code)
    ensures var styled := Style(code) + text + Style("0");
      OneLine(styled) && TextWidth(cell, styled) == TextWidth(cell, text)
  {
    hide *;
    StyleShowsNothing(cell, code);
    ResetHasParameters();
    StyleShowsNothing(cell, "0");
    JoinedLines(cell, Style(code), text);
    JoinedLines(cell, Style(code) + text, Style("0"));
  }
}
