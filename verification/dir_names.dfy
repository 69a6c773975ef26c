/** The charset of bundle and scenario directories, and of session slugs. */
module DirNames {
  import opened Text

  predicate LowerAlnum(c: char) {
    'a' <= c <= 'z' || '0' <= c <= '9'
  }

  /** The automaton of `^[a-z0-9]+(-[a-z0-9]+)*$`; `inWord` once the current
      word has a character. */
  predicate Matches(s: string, inWord: bool) {
    if s == "" then inWord
    else if LowerAlnum(s[0]) then Matches(s[1..], true)
    else s[0] == '-' && inWord && Matches(s[1..], false)
  }

  predicate IsDirName(s: string) {
    Matches(s, false)
  }

  ghost predicate AreWords(words: seq<string>) {
    && words != []
    && (forall i :: 0 <= i < |words| ==> words[i] != "")
    && (forall i, j :: 0 <= i < |words| && 0 <= j < |words[i]| ==> LowerAlnum(words[i][j]))
  }

  lemma {:induction false} MatchesWord(w: string, rest: string, inWord: bool)
    requires forall j :: 0 <= j < |w| ==> LowerAlnum(w[j])
    requires w != "" || inWord
    ensures Matches(w + rest, inWord) == Matches(rest, true)
    decreases |w|
  {
    if w == "" {
      assert w + rest == rest;
    } else {
      assert (w + rest)[1..] == w[1..] + rest;
      MatchesWord(w[1..], rest, true);
    }
  }

  lemma {:induction false} WordsMatch(words: seq<string>)
    requires AreWords(words)
    ensures IsDirName(Join(words, "-"))
    decreases |words|
  {
    if |words| == 1 {
      MatchesWord(words[0], "", false);
      assert words[0] + "" == words[0];
    } else {
      var tail := Join(words[1..], "-");
      WordsMatch(words[1..]);
      MatchesWord(words[0], "-" + tail, false);
      assert Join(words, "-") == words[0] + ("-" + tail);
      assert ("-" + tail)[1..] == tail;
    }
  }

  lemma {:induction false} MatchSplits(s: string, inWord: bool)
    requires Matches(s, inWord)
    ensures var ws := Split(s, '-');
      && (inWord || ws[0] != "")
      && (forall i :: 1 <= i < |ws| ==> ws[i] != "")
      && (forall i, j :: 0 <= i < |ws| && 0 <= j < |ws[i]| ==> LowerAlnum(ws[i][j]))
    decreases |s|
  {
    if s != "" {
      MatchSplits(s[1..], s[0] != '-');
      var rest := Split(s[1..], '-');
      if s[0] != '-' {
        assert Split(s, '-') == [[s[0]] + rest[0]] + rest[1..];
      }
    }
  }

  lemma {:induction false} JoinSplit(s: string, sep: char)
    ensures Join(Split(s, sep), [sep]) == s
    decreases |s|
  {
    if s != "" {
      JoinSplit(s[1..], sep);
      var rest := Split(s[1..], sep);
      JoinAfterEmpty(rest, sep);
      JoinGrown(s[0], rest, sep);
      hide Join;
      assert s == [s[0]] + s[1..] && "" + [sep] + s[1..] == [sep] + s[1..];
    }
  }

  lemma JoinAfterEmpty(rest: seq<string>, sep: char)
    requires rest != []
    ensures Join([""] + rest, [sep]) == "" + [sep] + Join(rest, [sep])
  {
    assert ([""] + rest)[1..] == rest;
  }

  /** Joining after the first part grew by a character in front. */
  lemma JoinGrown(c: char, rest: seq<string>, sep: char)
    requires rest != []
    ensures Join([[c] + rest[0]] + rest[1..], [sep]) == [c] + Join(rest, [sep])
  {
    var ws := [[c] + rest[0]] + rest[1..];
    assert ws[1..] == rest[1..] && ws[0] == [c] + rest[0];
    hide *;
    JoinIs(rest, [sep]);
    JoinIs(ws, [sep]);
    InFront([c], rest[0], [sep], Join(rest[1..], [sep]));
  }

  lemma JoinIs(parts: seq<string>, sep: string)
    requires parts != []
    ensures Join(parts, sep) == if |parts| == 1 then parts[0] else parts[0] + sep + Join(parts[1..], sep)
  {
  }

  lemma InFront(c: string, a: string, sep: string, b: string)
    ensures c + a + sep + b == c + (a + sep + b)
  {
  }

  /** A directory name is exactly a list of words joined by hyphens. */
  lemma DirNameIsHyphenatedWords(s: string)
    ensures IsDirName(s) <==> exists words: seq<string> :: AreWords(words) && s == Join(words, "-")
  {
    if IsDirName(s) {
      MatchSplits(s, false);
      JoinSplit(s, '-');
      assert AreWords(Split(s, '-'));
    }
    forall words: seq<string> | AreWords(words) && s == Join(words, "-") ensures IsDirName(s) {
      WordsMatch(words);
    }
  }

  lemma {:induction false} DirNameChars(s: string, inWord: bool)
    requires Matches(s, inWord)
    ensures forall i :: 0 <= i < |s| ==> LowerAlnum(s[i]) || s[i] == '-'
    ensures !inWord ==> s != ""
    decreases |s|
  {
    if s != "" {
      DirNameChars(s[1..], s[0] != '-');
      assert forall i :: 1 <= i < |s| ==> s[i] == s[1..][i - 1];
    }
  }
}
