/**
  Quoting for the shell.  A lexer for words after sections 2.2.1 to 2.2.3 of the
  POSIX Shell Command Language (IEEE Std 1003.1-2017, XCU chapter 2), and the two
  quoting expressions of the repository: the one of `GetJson`, which puts each
  single quote between double quotes, and the one of `Patch`, whose replacement
  has two backslashes.
 */
module ShellQuoting {
  import opened Wrappers
  import opened Strings

  datatype Mode =
    | Unquoted
    | Escaped          // after an unquoted backslash
    | InSingle
    | InDouble
    | EscapedInDouble  // after a backslash in double quotes

  // Lexing stops at input outside the modelled part of the language: operators,
  // comments and expansions.
  datatype Lexer =
    | Lexing(words: seq<string>, started: bool, word: string, mode: Mode)
    | Outside

  const START := Lexing([], false, "", Unquoted)

  predicate EndsWord(c: char) {
    c == ' ' || c == '\t'
  }

  predicate IsOperatorOrExpansion(c: char) {
    c in "|&;<>()$`\n"
  }

  function Add(l: Lexer, c: char, mode: Mode): Lexer
    requires l.Lexing?
  {
    Lexing(l.words, true, l.word + [c], mode)
  }

  function Step(l: Lexer, c: char): Lexer {
    if l.Outside? then Outside
    else
      match l.mode
      case Unquoted =>
        if c == '\'' then l.(started := true, mode := InSingle)
        else if c == '"' then l.(started := true, mode := InDouble)
        else if c == '\\' then l.(mode := Escaped)
        else if EndsWord(c) then
          if l.started then Lexing(l.words + [l.word], false, "", Unquoted) else l
        // '#' starts a comment only at the start of a word.
        else if IsOperatorOrExpansion(c) || (c == '#' && !l.started) then Outside
        else Add(l, c, Unquoted)
      case Escaped =>
        // A backslash and a newline join lines.
        if c == '\n' then l.(mode := Unquoted) else Add(l, c, Unquoted)
      case InSingle =>
        if c == '\'' then l.(mode := Unquoted) else Add(l, c, InSingle)
      case InDouble =>
        if c == '"' then l.(mode := Unquoted)
        else if c == '\\' then l.(mode := EscapedInDouble)
        else if c == '$' || c == '`' then Outside
        else Add(l, c, InDouble)
      case EscapedInDouble =>
        if c == '\n' then l.(mode := InDouble)
        else if c in "$`\"\\" then Add(l, c, InDouble)
        else Add(Add(l, '\\', InDouble), c, InDouble)
  }

  function Run(l: Lexer, s: string): Lexer
    decreases |s|
  {
    if s == "" then l else Run(Step(l, s[0]), s[1..])
  }

  // The words of a command; none when a quote is left open.
  function Words(s: string): Option<seq<string>> {
    var l := Run(START, s);
    if l.Outside? || l.mode != Unquoted then None
    else Some(if l.started then l.words + [l.word] else l.words)
  }

  lemma {:induction false} RunAppend(l: Lexer, a: string, b: string)
    ensures Run(l, a + b) == Run(Run(l, a), b)
    decreases |a|
  {
    if a == "" {
      assert a + b == b;
    } else {
      RunAppend(Step(l, a[0]), a[1..], b);
      assert (a + b)[1..] == a[1..] + b;
    }
  }

  // strings.ReplaceAll for a single quote.
  function ReplaceQuotes(s: string, replacement: string): string {
    if s == "" then ""
    else (if s[0] == '\'' then replacement else [s[0]]) + ReplaceQuotes(s[1..], replacement)
  }

  const DOUBLE_QUOTED := "'\"'\"'"
  const DOUBLE_BACKSLASH := "'\\\\''"

  // The quoting of GetJson.
  function Quote(s: string): string {
    "'" + ReplaceQuotes(s, DOUBLE_QUOTED) + "'"
  }

  // The quoting of Patch.
  function PatchQuote(s: string): string {
    "'" + ReplaceQuotes(s, DOUBLE_BACKSLASH) + "'"
  }

  // ----- GetJson -----

  lemma DoubleQuotedLexes(words: seq<string>, word: string)
    ensures Run(Lexing(words, true, word, InSingle), DOUBLE_QUOTED) == Lexing(words, true, word + "'", InSingle)
  {
  }

  lemma {:induction false} ReplacedLexes(words: seq<string>, word: string, s: string)
    ensures Run(Lexing(words, true, word, InSingle), ReplaceQuotes(s, DOUBLE_QUOTED))
         == Lexing(words, true, word + s, InSingle)
    decreases |s|
  {
    var l := Lexing(words, true, word, InSingle);
    if s == "" {
      assert word + s == word;
    } else {
      var first := if s[0] == '\'' then DOUBLE_QUOTED else [s[0]];
      RunAppend(l, first, ReplaceQuotes(s[1..], DOUBLE_QUOTED));
      if s[0] == '\'' {
        DoubleQuotedLexes(words, word);
      } else {
        assert [s[0]][1..] == "";
        assert Run(l, [s[0]]) == Run(Step(l, s[0]), "");
      }
      ReplacedLexes(words, word + [s[0]], s[1..]);
      assert word + [s[0]] + s[1..] == word + s;
    }
  }

  // Wherever unquoted text stands, the quoted string adds exactly s to the word.
  lemma QuoteAddsToWord(words: seq<string>, started: bool, word: string, s: string)
    ensures Run(Lexing(words, started, word, Unquoted), Quote(s)) == Lexing(words, true, word + s, Unquoted)
  {
    var l := Lexing(words, started, word, Unquoted);
    var middle := ReplaceQuotes(s, DOUBLE_QUOTED);
    RunAppend(l, "'" + middle, "'");
    assert ("'" + middle)[1..] == middle;
    ReplacedLexes(words, word, s);
    assert "'"[1..] == "";
    assert Run(Lexing(words, true, word + s, InSingle), "'")
      == Run(Step(Lexing(words, true, word + s, InSingle), '\''), "");
  }

  // No character of s is special to the lexer.
  predicate IsPlain(s: string) {
    forall i :: 0 <= i < |s| ==>
      s[i] !in "'\"\\#" && !EndsWord(s[i]) && !IsOperatorOrExpansion(s[i])
  }

  lemma {:induction false} PlainLexes(words: seq<string>, started: bool, word: string, s: string)
    requires IsPlain(s) && s != ""
    ensures Run(Lexing(words, started, word, Unquoted), s) == Lexing(words, true, word + s, Unquoted)
    decreases |s|
  {
    var l := Lexing(words, started, word, Unquoted);
    assert s[0] !in "'\"\\#";
    assert Step(l, s[0]) == Lexing(words, true, word + [s[0]], Unquoted);
    if |s| > 1 {
      PlainLexes(words, true, word + [s[0]], s[1..]);
      assert word + [s[0]] + s[1..] == word + s;
    } else {
      assert s == [s[0]];
    }
  }

  // Between words the lexer holds no part of one.
  ghost predicate HoldsNothing(l: Lexer) {
    l.Lexing? && !l.started ==> l.word == "" && (l.mode == Unquoted || l.mode == Escaped)
  }

  lemma {:induction false} BetweenWords(l: Lexer, s: string)
    requires HoldsNothing(l)
    ensures HoldsNothing(Run(l, s))
    decreases |s|
  {
    if s != "" {
      BetweenWords(Step(l, s[0]), s[1..]);
    }
  }

  // In any command, the argument written jsonpath='...' is the one word
  // jsonpath= followed by the JSON path.
  lemma JsonPathIsOneWord(command: string, words: seq<string>, jsonPath: string)
    requires Words(command) == Some(words) && !Run(START, command).started
    ensures Words(command + ("jsonpath=" + Quote(jsonPath))) == Some(words + ["jsonpath=" + jsonPath])
  {
    hide Step, Quote;
    var l := Run(START, command);
    BetweenWords(START, command);
    assert l == Lexing(words, false, "", Unquoted);
    RunAppend(START, command, "jsonpath=" + Quote(jsonPath));
    RunAppend(l, "jsonpath=", Quote(jsonPath));
    KeyIsPlain();
    PlainLexes(words, false, "", "jsonpath=");
    assert "" + "jsonpath=" == "jsonpath=";
    QuoteAddsToWord(words, true, "jsonpath=", jsonPath);
  }

  lemma KeyIsPlain()
    ensures IsPlain("jsonpath=")
  {
  }

  lemma QuoteRoundTrip(jsonPath: string)
    ensures Words("jsonpath=" + Quote(jsonPath)) == Some(["jsonpath=" + jsonPath])
  {
    JsonPathIsOneWord("", [], jsonPath);
    assert "" + ("jsonpath=" + Quote(jsonPath)) == "jsonpath=" + Quote(jsonPath);
    assert [] + ["jsonpath=" + jsonPath] == ["jsonpath=" + jsonPath];
  }

  // The text of the quoting: single quotes around, and each one inside between double
  // quotes that interrupt them.
  lemma QuoteText(a: string, b: string)
    requires '\'' !in a && '\'' !in b
    ensures Quote(a) == "'" + a + "'"
    ensures Quote(a + "'" + b) == "'" + (a + ("'\"'\"'" + b)) + "'"
  {
    ReplaceFirstQuote(a, b, DOUBLE_QUOTED);
    ReplaceNothing(a, DOUBLE_QUOTED);
    ReplaceNothing(b, DOUBLE_QUOTED);
  }

  // ----- Patch -----

  // What the lexer has of its first word, once one is started.
  ghost predicate FirstWordStarts(l: Lexer, prefix: string) {
    l.Outside? || (if l.words != [] then prefix <= l.words[0] else l.started && prefix <= l.word)
  }

  lemma {:induction false} FirstWordKept(l: Lexer, s: string, prefix: string)
    requires FirstWordStarts(l, prefix)
    ensures FirstWordStarts(Run(l, s), prefix)
    decreases |s|
  {
    if s != "" {
      assert FirstWordStarts(Step(l, s[0]), prefix);
      FirstWordKept(Step(l, s[0]), s[1..], prefix);
    }
  }

  lemma {:induction false} ReplaceNothing(s: string, replacement: string)
    requires '\'' !in s
    ensures ReplaceQuotes(s, replacement) == s
  {
    if s != "" {
      assert s[0] in s;
      ReplaceNothing(s[1..], replacement);
      assert s == [s[0]] + s[1..];
    }
  }

  lemma ReplaceCons(c: char, s: string, replacement: string)
    ensures ReplaceQuotes([c] + s, replacement)
         == (if c == '\'' then replacement else [c]) + ReplaceQuotes(s, replacement)
  {
    assert ([c] + s)[1..] == s;
  }

  lemma {:induction false} ReplaceAppend(a: string, b: string, replacement: string)
    ensures ReplaceQuotes(a + b, replacement) == ReplaceQuotes(a, replacement) + ReplaceQuotes(b, replacement)
    decreases |a|
  {
    if a == "" {
      assert a + b == b;
      assert ReplaceQuotes(a, replacement) == "";
    } else {
      hide ReplaceQuotes;
      var c, rest := a[0], a[1..];
      var first := if c == '\'' then replacement else [c];
      assert a == [c] + rest;
      ReplaceAppend(rest, b, replacement);
      ReplaceCons(c, rest, replacement);
      ReplaceCons(c, rest + b, replacement);
      assert a + b == [c] + (rest + b);
      Associates(first, ReplaceQuotes(rest, replacement), ReplaceQuotes(b, replacement));
    }
  }

  lemma RunCons(l: Lexer, c: char, s: string)
    ensures Run(l, [c] + s) == Run(Step(l, c), s)
  {
  }

  lemma ReplaceFirstQuote(a: string, b: string, replacement: string)
    requires '\'' !in a
    ensures ReplaceQuotes(a + "'" + b, replacement) == a + (replacement + ReplaceQuotes(b, replacement))
  {
    ReplaceNothing(a, replacement);
    ReplaceAppend(a, "'" + b, replacement);
    assert a + "'" + b == a + ("'" + b);
    assert ("'" + b)[1..] == b;
  }

  // Moving parentheses: q and t are pieces of the replacement q + t.
  lemma Regroup(q: string, a: string, t: string, rest: string)
    ensures q + (a + ((q + t) + rest)) + q == (q + a + q) + (t + (rest + q))
  {
  }

  lemma RegroupPair(x: string, t: string, rest: string)
    ensures (x + (x + t)) + rest == x + (x + (t + rest))
  {
  }

  lemma RegroupAll(q: string, a: string, whole: string, x: string, t: string, rest: string)
    requires whole == q + (x + (x + t))
    ensures q + (a + (whole + rest)) + q == (q + a + q) + (x + (x + (t + (rest + q))))
  {
    Regroup(q, a, x + (x + t), rest);
    RegroupPair(x, t, rest + q);
  }

  lemma DoubleBackslashParts()
    ensures DOUBLE_BACKSLASH == "'" + (['\\'] + (['\\'] + "''"))
  {
  }

  lemma PatchQuoteText(a: string, b: string)
    requires '\'' !in a
    ensures PatchQuote(a + "'" + b)
         == Quote(a) + (['\\'] + (['\\'] + ("''" + (ReplaceQuotes(b, DOUBLE_BACKSLASH) + "'"))))
  {
    hide ReplaceQuotes;
    var rest := ReplaceQuotes(b, DOUBLE_BACKSLASH);
    ReplaceFirstQuote(a, b, DOUBLE_BACKSLASH);
    ReplaceNothing(a, DOUBLE_QUOTED);
    DoubleBackslashParts();
    RegroupAll("'", a, DOUBLE_BACKSLASH, ['\\'], "''", rest);
    assert Quote(a) == "'" + a + "'";
    assert PatchQuote(a + "'" + b) == "'" + (a + (DOUBLE_BACKSLASH + rest)) + "'";
  }

  // The first quote ends the quoting and the backslash pair becomes a backslash,
  // where the string has a quote.
  lemma FirstQuoteBecomesBackslash(a: string, b: string)
    requires '\'' !in a
    ensures FirstWordStarts(Run(START, PatchQuote(a + "'" + b)), a + "\\")
  {
    var rest := "''" + (ReplaceQuotes(b, DOUBLE_BACKSLASH) + "'");
    PatchQuoteText(a, b);
    QuoteAddsToWord([], false, "", a);
    assert "" + a == a;
    var l := Lexing([], true, a, Unquoted);
    var l1 := Step(l, '\\');
    var l2 := Step(l1, '\\');
    assert l2 == Lexing([], true, a + ['\\'], Unquoted);
    assert a + ['\\'] == a + "\\";
    hide Step, PatchQuote, Quote, ReplaceQuotes;
    RunAppend(START, Quote(a), ['\\'] + (['\\'] + rest));
    RunCons(l, '\\', ['\\'] + rest);
    RunCons(l1, '\\', rest);
    FirstWordKept(l2, rest, a + "\\");
  }

  lemma FirstQuote(s: string) returns (a: string, b: string)
    requires '\'' in s
    ensures s == a + "'" + b && '\'' !in a
  {
    if s[0] == '\'' {
      a, b := "", s[1..];
    } else {
      a, b := FirstQuote(s[1..]);
      a := [s[0]] + a;
    }
  }

  // The shell passes the patch on unchanged exactly when it has no single quote.
  lemma PatchRoundTripsIffQuoteFree(patch: string)
    ensures Words(PatchQuote(patch)) == Some([patch]) <==> '\'' !in patch
  {
    hide Step;
    if '\'' !in patch {
      ReplaceNothing(patch, DOUBLE_BACKSLASH);
      ReplaceNothing(patch, DOUBLE_QUOTED);
      assert PatchQuote(patch) == Quote(patch);
      QuoteAddsToWord([], false, "", patch);
      assert "" + patch == patch && [] + [patch] == [patch];
    } else {
      var a, b := FirstQuote(patch);
      FirstQuoteBecomesBackslash(a, b);
      if Run(START, PatchQuote(patch)).Lexing? {
        BackslashIsNoQuote(Run(START, PatchQuote(patch)), a, patch);
      }
    }
  }

  lemma BackslashIsNoQuote(l: Lexer, a: string, patch: string)
    requires FirstWordStarts(l, a + "\\") && l.Lexing? && a + "'" <= patch
    ensures (if l.started then l.words + [l.word] else l.words) != [patch]
  {
    var first := if l.words != [] then l.words[0] else l.word;
    assert first[|a|] == (a + "\\")[|a|] == '\\';
    assert patch[|a|] == (a + "'")[|a|] == '\'';
    if l.started {
      assert (l.words + [l.word])[0] == first;
    }
  }

  // An example: of a lone quote the shell sees a quote left open.
  lemma PatchExample()
    ensures Words(PatchQuote("'")) == None
  {
    var pair, rest := "''", "''" + ("" + "'");
    assert PatchQuote("'") == pair + (['\\'] + (['\\'] + rest)) by {
      PatchQuoteText("", "");
      assert "" + "'" + "" == "'";
    }
    RunAppend(START, pair, ['\\'] + (['\\'] + rest));
    RunAppend(Lexing([], true, "\\", Unquoted), pair, "'");
    hide Words, PatchQuote;
    QuotePair([], false, "");
    RunCons(Lexing([], true, "", Unquoted), '\\', ['\\'] + rest);
    RunCons(Lexing([], true, "", Escaped), '\\', rest);
    assert rest == pair + "'";
    QuotePair([], true, "\\");
    RunCons(Lexing([], true, "\\", Unquoted), '\'', "");
    assert Run(START, PatchQuote("'")) == Lexing([], true, "\\", InSingle);
    OpenQuote(PatchQuote("'"));
  }

  lemma QuotePair(words: seq<string>, started: bool, word: string)
    ensures Run(Lexing(words, started, word, Unquoted), "''") == Lexing(words, true, word, Unquoted)
  {
    RunCons(Lexing(words, started, word, Unquoted), '\'', "'");
    RunCons(Lexing(words, true, word, InSingle), '\'', "");
  }

  lemma OpenQuote(s: string)
    requires Run(START, s).Lexing? && Run(START, s).mode == InSingle
    ensures Words(s) == None
  {
  }
}
