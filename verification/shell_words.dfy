/** The part of the POSIX Shell Command Language that the generated commands
    and the environment text use: the escape character (section 2.2.1), single
    quotes (2.2.2), token recognition (2.3), `&&` lists (2.9.3) and assignment
    words (2.9.1, 2.10.2).  Text that uses anything else is refused. */
module ShellWords {
  import opened Options

  /** One character of a word, and whether quoting made it literal. */
  datatype Piece = Piece(c: char, quoted: bool)

  type Word = seq<Piece>

  datatype Token = Word(word: Word) | AndIf | Newline

  datatype Mode = Bare | Quoted | Escaped | Ampersand

  /** The tokens read so far, the word being read, and how to read on. */
  datatype State = Reading(tokens: seq<Token>, word: Option<Word>, mode: Mode) | Refused

  const START := Reading([], None, Bare)

  /** Characters that, unquoted, simply join the current word; blanks, quotes,
      the backslash and `&` are handled below, any other one is refused. */
  predicate Plain(c: char) {
    'a' <= c <= 'z' || 'A' <= c <= 'Z' || '-' <= c <= ':' || c == '=' || c == '_' || c == ',' ||
    c == '@' || c == '%' || c == '+'
  }

  predicate AllPlain(s: string) {
    forall i :: 0 <= i < |s| ==> Plain(s[i])
  }

  function Current(st: State): Word
    requires st.Reading?
  {
    if st.word.Some? then st.word.value else []
  }

  function Flush(st: State): (r: State)
    requires st.Reading?
    ensures r.Reading?
  {
    if st.word.Some? then Reading(st.tokens + [Word(st.word.value)], None, st.mode) else st
  }

  function Step(st: State, c: char): State {
    if st.Refused? then Refused
    else match st.mode
      case Quoted =>
        if c == '\'' then st.(mode := Bare) else st.(word := Some(Current(st) + [Piece(c, true)]))
      case Escaped =>
        if c == '\n' then st.(mode := Bare)
        else st.(word := Some(Current(st) + [Piece(c, true)]), mode := Bare)
      case Ampersand =>
        if c == '&' then st.(tokens := st.tokens + [AndIf], mode := Bare) else Refused
      case Bare =>
        if c == '\'' then st.(word := Some(Current(st)), mode := Quoted)
        else if c == '\\' then st.(mode := Escaped)
        else if c == ' ' || c == '\t' then Flush(st)
        else if c == '\n' then var f := Flush(st); f.(tokens := f.tokens + [Newline])
        else if c == '&' then var f := Flush(st); f.(mode := Ampersand)
        else if Plain(c) then st.(word := Some(Current(st) + [Piece(c, false)]))
        else Refused
  }

  function Run(st: State, s: string): State {
    if s == "" then st else Step(Run(st, s[..|s| - 1]), s[|s| - 1])
  }

  /** The tokens of a whole text, when the subset covers it. */
  function Tokens(s: string): Option<seq<Token>> {
    var st := Run(START, s);
    if st.Refused? || st.mode != Bare then None else Some(Flush(st).tokens)
  }

  // ------------------------------------------------------------ reading

  function Text(w: Word): string {
    seq(|w|, i requires 0 <= i < |w| => w[i].c)
  }

  predicate NameChar(c: char) {
    'a' <= c <= 'z' || 'A' <= c <= 'Z' || c == '_' || '0' <= c <= '9'
  }

  /** A name: letters, digits and underscores, not starting with a digit. */
  predicate IsName(s: string) {
    s != "" && !('0' <= s[0] <= '9') && forall i :: 0 <= i < |s| ==> NameChar(s[i])
  }

  /** The index of the first unquoted `=`, or the length. */
  function EqualsAt(w: Word): (n: nat)
    ensures n <= |w|
    ensures forall i :: 0 <= i < n ==> w[i] != Piece('=', false)
    ensures n < |w| ==> w[n] == Piece('=', false)
  {
    if w == [] || w[0] == Piece('=', false) then 0 else 1 + EqualsAt(w[1..])
  }

  /** A word `name=value` whose name is unquoted is an assignment. */
  function AsAssignment(w: Word): (r: Option<(string, string)>)
    ensures r.Some? ==> IsName(r.value.0)
  {
    var n := EqualsAt(w);
    if n < |w| && IsName(Text(w[..n])) && forall i :: 0 <= i < n ==> !w[i].quoted
    then Some((Text(w[..n]), Text(w[n + 1..])))
    else None
  }

  /** What sourcing the tokens assigns; later assignments win.  Anything that
      would run a command is refused. */
  function Assignments(ts: seq<Token>): (r: Option<map<string, string>>)
    ensures r.Some? ==> forall k :: k in r.value ==> IsName(k)
  {
    if ts == [] then Some(map[])
    else
      var rest := Assignments(ts[1..]);
      match ts[0]
      case AndIf => None
      case Newline => rest
      case Word(w) =>
        var a := AsAssignment(w);
        if a.None? || rest.None? then None
        else Some(map[a.value.0 := a.value.1] + rest.value)
  }

  /** The environment a text gives when a shell sources it. */
  function Source(s: string): Option<map<string, string>> {
    var ts := Tokens(s);
    if ts.None? then None else Assignments(ts.value)
  }

  /** One command: leading assignments, then the argument vector. */
  datatype Command = Command(env: seq<(string, string)>, argv: seq<string>)

  function Extend(c: Command, w: Word): Command {
    var a := AsAssignment(w);
    if c.argv == [] && a.Some? then c.(env := c.env + [a.value])
    else c.(argv := c.argv + [Text(w)])
  }

  const NOTHING := Command([], [])

  /** Splits a line into the commands of its `&&` list: `done` is complete and
      `last` is being read. */
  function AndList(done: seq<Command>, last: Command, ts: seq<Token>): Option<seq<Command>>
    decreases |ts|
  {
    if ts == [] then
      if last == NOTHING then None else Some(done + [last])
    else match ts[0]
      case Newline => None
      case AndIf => if last == NOTHING then None else AndList(done + [last], NOTHING, ts[1..])
      case Word(w) => AndList(done, Extend(last, w), ts[1..])
  }

  /** The commands of one line. */
  function Parse(s: string): Option<seq<Command>> {
    var ts := Tokens(s);
    if ts.None? then None else AndList([], NOTHING, ts.value)
  }

  // ------------------------------------------------------------- lemmas

  lemma {:induction false} RunAppend(st: State, a: string, b: string)
    ensures Run(st, a + b) == Run(Run(st, a), b)
  {
    if b == "" {
      assert a + b == a;
    } else {
      var s := a + b;
      assert s[..|s| - 1] == a + b[..|b| - 1];
      RunAppend(st, a, b[..|b| - 1]);
    }
  }

  lemma RunChar(st: State, c: char)
    ensures Run(st, [c]) == Step(st, c)
  {
    assert [c][..0] == "";
    assert Run(st, [c][..0]) == st;
  }

  function Pieces(s: string, quoted: bool): Word {
    seq(|s|, i requires 0 <= i < |s| => Piece(s[i], quoted))
  }

  /** Plain text joins the current word. */
  lemma {:induction false} RunPlain(st: State, s: string)
    requires st.Reading? && st.mode == Bare && AllPlain(s) && s != ""
    ensures Run(st, s) == st.(word := Some(Current(st) + Pieces(s, false)))
  {
    var n := |s| - 1;
    if n == 0 {
      assert s == [s[0]];
      RunChar(st, s[0]);
      assert Pieces(s, false) == [Piece(s[0], false)];
    } else {
      RunPlain(st, s[..n]);
      assert Current(st) + Pieces(s, false)
          == Current(st) + Pieces(s[..n], false) + [Piece(s[n], false)];
    }
  }

  /** Inside single quotes everything but a quote is literal. */
  lemma {:induction false} RunQuoted(st: State, s: string)
    requires st.Reading? && st.mode == Quoted && st.word.Some? && '\'' !in s
    ensures Run(st, s) == st.(word := Some(st.word.value + Pieces(s, true)))
  {
    if s == "" {
      assert st.word.value + Pieces(s, true) == st.word.value;
    } else {
      var n := |s| - 1;
      RunQuoted(st, s[..n]);
      assert st.word.value + Pieces(s, true)
          == st.word.value + Pieces(s[..n], true) + [Piece(s[n], true)];
    }
  }

  lemma TextOfPieces(s: string, quoted: bool)
    ensures Text(Pieces(s, quoted)) == s
  {
  }

  /** A plain unquoted name, an equals sign and any quoted value. */
  lemma ReadAssignment(name: string, value: string)
    requires IsName(name)
    ensures AsAssignment(Pieces(name + "=", false) + Pieces(value, true)) == Some((name, value))
  {
    var w := Pieces(name + "=", false) + Pieces(value, true);
    var n := EqualsAt(w);
    assert w[|name|] == Piece('=', false);
    assert forall i :: 0 <= i < |name| ==> w[i] == Piece(name[i], false) && NameChar(name[i]);
    assert n == |name|;
    assert Text(w[..n]) == name;
    assert Text(w[n + 1..]) == value;
  }

  function BareWord(w: string): Token {
    Word(Pieces(w, false))
  }

  /** A plain run of characters and a blank complete the current word. */
  lemma RunWord(st: State, w: string)
    requires st.Reading? && st.mode == Bare && AllPlain(w) && w != ""
    ensures Run(st, w + " ")
              == Reading(st.tokens + [Word(Current(st) + Pieces(w, false))], None, Bare)
  {
    RunAppend(st, w, " ");
    RunPlain(st, w);
    RunChar(Run(st, w), ' ');
  }

  lemma RunBlank(st: State)
    requires st.Reading? && st.mode == Bare && st.word.Some?
    ensures Run(st, " ") == Reading(st.tokens + [Word(st.word.value)], None, Bare)
  {
    RunChar(st, ' ');
  }

  lemma RunAmpersands(st: State)
    requires st.Reading? && st.mode == Bare && st.word.None?
    ensures Run(st, ['&', '&']) == st.(tokens := st.tokens + [AndIf])
  {
    RunAppend(st, ['&'], ['&']);
    RunChar(st, '&');
    RunChar(st.(mode := Ampersand), '&');
  }

  lemma RunAnd(st: State)
    requires st.Reading? && st.mode == Bare && st.word.None?
    ensures Run(st, "&& ") == st.(tokens := st.tokens + [AndIf])
  {
    assert "&& " == ['&', '&'] + [' '];
    RunAppend(st, ['&', '&'], [' ']);
    RunAmpersands(st);
    RunChar(st.(tokens := st.tokens + [AndIf]), ' ');
  }

  // ------------------------------------- lines of plain words and `&&` signs

  predicate Argument(w: string) {
    w == "&&" || (w != "" && AllPlain(w))
  }

  ghost predicate Arguments(ws: seq<string>) {
    forall i :: 0 <= i < |ws| ==> Argument(ws[i])
  }

  function TokenOf(w: string): Token {
    if w == "&&" then AndIf else BareWord(w)
  }

  function TokensOf(ws: seq<string>): seq<Token> {
    seq(|ws|, i requires 0 <= i < |ws| => TokenOf(ws[i]))
  }

  /** Each word followed by one blank. */
  function Spaced(ws: seq<string>): string {
    if ws == [] then "" else ws[0] + " " + Spaced(ws[1..])
  }

  lemma {:induction false} RunSpaced(st: State, ws: seq<string>)
    requires st.Reading? && st.mode == Bare && st.word.None?
    requires Arguments(ws)
    ensures Run(st, Spaced(ws)) == st.(tokens := st.tokens + TokensOf(ws))
    decreases |ws|
  {
    hide Run, Argument, TokenOf;
    if ws == [] {
      RunNothing(st);
      assert st.tokens + TokensOf(ws) == st.tokens;
    } else {
      var w, rest := ws[0], ws[1..];
      RunAppend(st, w + " ", Spaced(rest));
      RunArgument(st, w);
      RunSpaced(Run(st, w + " "), rest);
      assert st.tokens + TokensOf(ws) == st.tokens + [TokenOf(w)] + TokensOf(rest);
    }
  }

  lemma RunNothing(st: State)
    ensures Run(st, "") == st
  {
  }

  /** One word and the blank after it. */
  lemma RunArgument(st: State, w: string)
    requires st.Reading? && st.mode == Bare && st.word.None? && Argument(w)
    ensures Run(st, w + " ") == st.(tokens := st.tokens + [TokenOf(w)])
  {
    hide Run, AllPlain;
    if w == "&&" {
      RunAnd(st);
      assert w + " " == "&& ";
    } else {
      RunWord(st, w);
      assert [] + Pieces(w, false) == Pieces(w, false);
    }
  }

  /** After the words `ws`, in the middle of the plain word `p`. */
  function At(ws: seq<string>, p: string): State {
    Reading(TokensOf(ws), Some(Pieces(p, false)), Bare)
  }

  lemma TokensOfAppend(a: seq<string>, b: seq<string>)
    ensures TokensOf(a) + TokensOf(b) == TokensOf(a + b)
  {
  }

  lemma TokensOfWord(ws: seq<string>, p: string)
    requires p != "&&"
    ensures TokensOf(ws) + [BareWord(p)] == TokensOf(ws + [p])
  {
  }

  /** Words, then the start of another. */
  lemma RunLead(ws: seq<string>, more: seq<string>, lead: string)
    requires Arguments(more) && lead != "" && AllPlain(lead)
    ensures Run(Reading(TokensOf(ws), None, Bare), Spaced(more) + lead) == At(ws + more, lead)
  {
    hide Run, Spaced, TokensOf, AllPlain;
    var st := Reading(TokensOf(ws), None, Bare);
    RunAppend(st, Spaced(more), lead);
    RunSpaced(st, more);
    TokensOfAppend(ws, more);
    RunPlain(Reading(TokensOf(ws + more), None, Bare), lead);
    assert [] + Pieces(lead, false) == Pieces(lead, false);
  }

  /** A blank ends the current word; more words follow, then the start of one. */
  lemma RunGap(ws: seq<string>, p: string, more: seq<string>, lead: string)
    requires p != "&&" && Arguments(more) && lead != "" && AllPlain(lead)
    ensures Run(At(ws, p), " " + Spaced(more) + lead) == At(ws + [p] + more, lead)
  {
    hide Run, Spaced, TokensOf, AllPlain, Arguments;
    var st := At(ws, p);
    assert " " + Spaced(more) + lead == " " + (Spaced(more) + lead);
    RunAppend(st, " ", Spaced(more) + lead);
    RunBlank(st);
    TokensOfWord(ws, p);
    RunLead(ws + [p], more, lead);
  }

  /** Plain text lengthens the current word. */
  lemma RunValue(ws: seq<string>, p: string, v: string)
    requires AllPlain(v) && v != ""
    ensures Run(At(ws, p), v) == At(ws, p + v)
  {
    RunPlain(At(ws, p), v);
    assert Pieces(p, false) + Pieces(v, false) == Pieces(p + v, false);
  }

  lemma RunEnd(s: string, ws: seq<string>, p: string)
    requires Run(START, s) == At(ws, p) && p != "&&"
    ensures Tokens(s) == Some(TokensOf(ws + [p]))
  {
    TokensOfWord(ws, p);
  }

  /** Fixed words, the start of a word, and a plain value that completes it. */
  lemma RunHead(head: string, files: string, hw: seq<string>, fw: seq<string>, lead: string, v: string)
    requires head == Spaced(hw) && files == Spaced(fw) + lead
    requires Arguments(hw) && Arguments(fw) && lead != "" && AllPlain(lead) && v != "" && AllPlain(v)
    ensures Run(START, head + files + v) == At(hw + fw, lead + v)
  {
    hide Run, Spaced, TokensOf, AllPlain, Arguments;
    RunAppend(START, head + files, v);
    RunAppend(START, head, files);
    RunSpaced(START, hw);
    assert [] + TokensOf(hw) == TokensOf(hw);
    RunLead(hw, fw, lead);
    RunValue(hw + fw, lead, v);
  }

  /** After a text, a fixed gap and a plain value. */
  lemma RunOption(s: string, ws: seq<string>, p: string, gap: string, more: seq<string>, lead: string, v: string)
    requires Run(START, s) == At(ws, p) && p != "&&"
    requires gap == " " + Spaced(more) + lead && Arguments(more)
    requires lead != "" && AllPlain(lead) && v != "" && AllPlain(v)
    ensures Run(START, s + gap + v) == At(ws + [p] + more, lead + v) && lead + v != "&&"
  {
    PlainIsNotAnd(lead, v);
    hide Run, Spaced, TokensOf, AllPlain, Arguments;
    RunAppend(START, s + gap, v);
    RunAppend(START, s, gap);
    RunGap(ws, p, more, lead);
    RunValue(ws + [p] + more, lead, v);
  }

  /** After a text, a last fixed gap. */
  lemma RunTail(s: string, ws: seq<string>, p: string, gap: string, more: seq<string>, last: string)
    requires Run(START, s) == At(ws, p) && p != "&&"
    requires gap == " " + Spaced(more) + last && Arguments(more) && last != "" && AllPlain(last)
    ensures Run(START, s + gap) == At(ws + [p] + more, last) && last != "&&"
    ensures Tokens(s + gap) == Some(TokensOf(ws + [p] + more + [last]))
  {
    PlainIsNotAnd(last, "");
    assert last + "" == last;
    hide Run, Spaced, TokensOf, AllPlain, Arguments;
    RunAppend(START, s, gap);
    RunGap(ws, p, more, last);
    RunEnd(s + gap, ws + [p] + more, last);
  }

  lemma PlainIsNotAnd(a: string, b: string)
    requires a != "" && AllPlain(a)
    ensures a + b != "&&"
  {
    assert (a + b)[0] == a[0];
  }

  lemma NotAssignment(w: string)
    requires '=' !in w
    ensures AsAssignment(Pieces(w, false)).None?
  {
    var p := Pieces(w, false);
    assert forall i :: 0 <= i < |w| ==> w[i] in w && p[i] == Piece(w[i], false);
    assert EqualsAt(p) == |p|;
  }

  /** Words that cannot be leading assignments lengthen the last command. */
  lemma {:induction false} AndListArguments(done: seq<Command>, last: Command, ws: seq<string>, rest: seq<Token>)
    requires forall i :: 0 <= i < |ws| ==> ws[i] != "&&"
    requires ws == [] || last.argv != [] || '=' !in ws[0]
    ensures AndList(done, last, TokensOf(ws) + rest) == AndList(done, last.(argv := last.argv + ws), rest)
    decreases |ws|
  {
    if ws == [] {
      assert TokensOf(ws) + rest == rest && last.argv + ws == last.argv;
    } else {
      var w, tail := ws[0], ws[1..];
      TextOfPieces(w, false);
      if last.argv == [] {
        NotAssignment(w);
      }
      var next := last.(argv := last.argv + [w]);
      assert Extend(last, Pieces(w, false)) == next;
      AndListArguments(done, next, tail, rest);
      assert (TokensOf(ws) + rest)[1..] == TokensOf(tail) + rest;
      assert next.argv + tail == last.argv + ws;
    }
  }

  ghost predicate Runs(argv: seq<string>) {
    argv != [] && '=' !in argv[0] && forall i :: 0 <= i < |argv| ==> argv[i] != "&&"
  }

  lemma FirstCommand(done: seq<Command>, argv: seq<string>, rest: seq<string>)
    requires Runs(argv)
    ensures AndList(done, NOTHING, TokensOf(argv + ["&&"] + rest))
         == AndList(done + [Command([], argv)], NOTHING, TokensOf(rest))
  {
    var tail := [AndIf] + TokensOf(rest);
    assert TokensOf(argv + ["&&"] + rest) == TokensOf(argv) + tail;
    AndListArguments(done, NOTHING, argv, tail);
    assert [] + argv == argv;
    assert tail[1..] == TokensOf(rest);
  }

  lemma LastCommand(done: seq<Command>, argv: seq<string>)
    requires Runs(argv)
    ensures AndList(done, NOTHING, TokensOf(argv)) == Some(done + [Command([], argv)])
  {
    assert TokensOf(argv) + [] == TokensOf(argv);
    AndListArguments(done, NOTHING, argv, []);
    assert [] + argv == argv;
  }

  lemma {:induction false} SpacedAppend(a: seq<string>, b: seq<string>)
    ensures Spaced(a + b) == Spaced(a) + Spaced(b)
    decreases |a|
  {
    if a == [] {
      assert a + b == b;
    } else {
      assert (a + b)[1..] == a[1..] + b;
      SpacedAppend(a[1..], b);
    }
  }

  lemma ArgumentsAppend(a: seq<string>, b: seq<string>)
    requires Arguments(a) && Arguments(b)
    ensures Arguments(a + b)
  {
  }

  /** How the reader of a list takes one token. */
  lemma AndListStep(done: seq<Command>, last: Command, t: Token, rest: seq<Token>)
    ensures t.Word? ==> AndList(done, last, [t] + rest) == AndList(done, Extend(last, t.word), rest)
    ensures t.AndIf? && last != NOTHING ==> AndList(done, last, [t] + rest) == AndList(done + [last], NOTHING, rest)
    ensures last != NOTHING ==> AndList(done, last, []) == Some(done + [last])
  {
    assert ([t] + rest)[1..] == rest;
  }

  // -------------------------------------------------------- quoted values

  /** `name='` opens a quoted value. */
  lemma RunOpenQuote(st: State, name: string)
    requires st.Reading? && st.mode == Bare && st.word.None? && AllPlain(name)
    ensures Run(st, name + "='") == Reading(st.tokens, Some(Pieces(name + "=", false)), Quoted)
  {
    assert name + "='" == (name + "=") + "'";
    RunAppend(st, name + "=", "'");
    RunPlain(st, name + "=");
    assert [] + Pieces(name + "=", false) == Pieces(name + "=", false);
    RunChar(Run(st, name + "="), '\'');
  }

  lemma RunCloseQuote(st: State, after: char)
    requires st.Reading? && st.mode == Quoted && st.word.Some?
    requires after == ' ' || after == '\n'
    ensures Run(st, ['\'', after])
         == Reading(st.tokens + [Word(st.word.value)] + (if after == '\n' then [Newline] else []), None, Bare)
  {
    assert ['\'', after] == ['\''] + [after];
    RunAppend(st, ['\''], [after]);
    RunChar(st, '\'');
    RunChar(st.(mode := Bare), after);
  }
}
