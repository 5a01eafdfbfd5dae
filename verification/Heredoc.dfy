/**
  `heredoc.Doc` strips the common indentation of a text; the template function
  `indent` adds indentation to every line but the first.
 */
module Heredoc {
  import opened Strings

  const MAX_INT := 0x7fff_ffff_ffff_ffff // math.MaxInt
  const MAX_WIDTH := 1_000_000 // fmt honours widths up to here

  predicate IsBlank(c: char) {
    c == ' ' || c == '\t'
  }

  // The indentation of a line.
  function Indentation(line: string): (n: nat)
    ensures n <= |line| && (forall k :: 0 <= k < n ==> IsBlank(line[k])) && (n < |line| ==> !IsBlank(line[n]))
  {
    if line == "" || !IsBlank(line[0]) then 0 else 1 + Indentation(line[1..])
  }

  function Min(a: nat, b: nat): nat {
    if a < b then a else b
  }

  // getBaseIndent: the least indentation, math.MaxInt when there is no line.
  function BaseIndent(lines: seq<string>): nat {
    if lines == [] then MAX_INT
    else Min(BaseIndent(lines[..|lines| - 1]), Indentation(lines[|lines| - 1]))
  }

  function CutLine(line: string, base: nat): string {
    if |line| > base then line[base..] else line
  }

  // removeBaseIndent
  function Cut(lines: seq<string>, base: nat): (r: seq<string>)
    ensures |r| == |lines|
  {
    seq(|lines|, i requires 0 <= i < |lines| => CutLine(lines[i], base))
  }

  // The lines Doc works on: an empty first line is dropped.
  function DocLines(text: string): seq<string> {
    var lines := Split('\n', text);
    if lines[0] == "" then lines[1..] else lines
  }

  function Dedent(lines: seq<string>): seq<string> {
    Cut(lines, BaseIndent(lines))
  }

  function DocOf(text: string): string {
    Join('\n', Dedent(DocLines(text)))
  }

  // ----- the loops -----

  method GetBaseIndent(lines: array<string>) returns (baseIndent: nat)
    ensures baseIndent == BaseIndent(lines[..])
  {
    baseIndent := MAX_INT;
    var i := 0;
    while i < lines.Length
      invariant 0 <= i <= lines.Length
      invariant baseIndent == BaseIndent(lines[..i])
    {
      var line := lines[i];
      var indent := 0;
      while indent < |line| && IsBlank(line[indent])
        invariant 0 <= indent <= |line|
        invariant Indentation(line) == indent + Indentation(line[indent..])
      {
        assert line[indent..][1..] == line[indent + 1..];
        indent := indent + 1;
      }
      if indent < baseIndent {
        baseIndent := indent;
      }
      assert lines[..i + 1][..i] == lines[..i];
      i := i + 1;
    }
    assert lines[..i] == lines[..];
  }

  // Overwrites the lines in place.
  method RemoveBaseIndent(lines: array<string>, baseIndent: nat)
    modifies lines
    ensures lines[..] == Cut(old(lines[..]), baseIndent)
  {
    var i := 0;
    while i < lines.Length
      invariant 0 <= i <= lines.Length
      invariant forall k :: 0 <= k < i ==> lines[k] == CutLine(old(lines[k]), baseIndent)
      invariant forall k :: i <= k < lines.Length ==> lines[k] == old(lines[k])
    {
      if |lines[i]| > baseIndent {
        lines[i] := lines[i][baseIndent..];
      }
      i := i + 1;
    }
  }

  method Doc(indented: string) returns (doc: string)
    ensures doc == DocOf(indented)
  {
    var parts := Split('\n', indented);
    if |parts| > 0 && |parts[0]| == 0 {
      parts := parts[1..];
    }
    var lines := new string[|parts|](i requires 0 <= i < |parts| => parts[i]);
    assert lines[..] == parts;
    var baseIndent := GetBaseIndent(lines);
    RemoveBaseIndent(lines, baseIndent);
    doc := Join('\n', lines[..]);
  }

  function Spaces(n: nat): (s: string)
    ensures |s| == n && forall k :: 0 <= k < n ==> s[k] == ' '
  {
    seq(n, _ => ' ')
  }

  function Abs(n: int): nat {
    if n < 0 then -n else n
  }

  function IndentLines(lines: seq<string>, n: nat): (r: seq<string>)
    ensures |r| == |lines|
  {
    seq(|lines|, i requires 0 <= i < |lines| => if i > 0 then Spaces(n) + lines[i] else lines[i])
  }

  // A negative width pads on the other side of an empty string.
  function IndentOf(spaces: int, source: string): string {
    Join('\n', IndentLines(Split('\n', source), Abs(spaces)))
  }

  method Indent(spaces: int, source: string) returns (text: string)
    requires -MAX_WIDTH <= spaces <= MAX_WIDTH
    ensures text == IndentOf(spaces, source)
  {
    var parts := Split('\n', source);
    var res := new string[|parts|](i requires 0 <= i < |parts| => parts[i]);
    var i := 0;
    while i < res.Length
      invariant 0 <= i <= res.Length
      invariant forall k :: 0 <= k < i ==> res[k] == IndentLines(parts, Abs(spaces))[k]
      invariant forall k :: i <= k < res.Length ==> res[k] == parts[k]
    {
      if i > 0 {
        res[i] := Spaces(Abs(spaces)) + res[i];
      }
      i := i + 1;
    }
    assert res[..] == IndentLines(parts, Abs(spaces));
    text := Join('\n', res[..]);
  }

  // ----- the least indentation -----

  lemma {:induction false} BaseIndentIsLeast(lines: seq<string>, i: nat)
    requires i < |lines|
    ensures BaseIndent(lines) <= Indentation(lines[i])
  {
    var n := |lines| - 1;
    if i < n {
      BaseIndentIsLeast(lines[..n], i);
      assert lines[..n][i] == lines[i];
    }
  }

  lemma {:induction false} BaseIndentIsReached(lines: seq<string>)
    requires BaseIndent(lines) < MAX_INT
    ensures exists i :: 0 <= i < |lines| && Indentation(lines[i]) == BaseIndent(lines)
  {
    var n := |lines| - 1;
    if BaseIndent(lines) == Indentation(lines[n]) {
    } else {
      BaseIndentIsReached(lines[..n]);
      var i :| 0 <= i < n && Indentation(lines[..n][i]) == BaseIndent(lines[..n]);
      assert lines[..n][i] == lines[i];
    }
  }

  lemma {:induction false} BaseIndentFrom(lines: seq<string>, b: nat, i: nat)
    requires b <= MAX_INT && i < |lines| && Indentation(lines[i]) == b
    requires forall k :: 0 <= k < |lines| ==> b <= Indentation(lines[k])
    ensures BaseIndent(lines) == b
  {
    BaseIndentIsLeast(lines, i);
    if BaseIndent(lines) < MAX_INT {
      BaseIndentIsReached(lines);
    }
  }

  // ----- laws of Doc -----

  lemma {:induction false} IndentationOfSuffix(line: string, base: nat)
    requires base <= Indentation(line)
    ensures Indentation(line[base..]) == Indentation(line) - base
  {
  }

  // Each line loses the base indentation, which is blank, or is itself no more
  // than that; so indentation differences are kept between the longer lines.
  lemma DedentKeepsRelativeIndentation(lines: seq<string>, i: nat, j: nat)
    requires i < |lines| && j < |lines|
    ensures var base := BaseIndent(lines);
      var r := Dedent(lines);
      && (|lines[i]| > base ==>
            lines[i] == lines[i][..base] + r[i] && (forall k :: 0 <= k < base ==> IsBlank(lines[i][k])))
      && (|lines[i]| <= base ==> r[i] == lines[i] && |lines[i]| == base == Indentation(lines[i]))
      && (|lines[i]| > base && |lines[j]| > base ==>
            Indentation(r[i]) - Indentation(r[j]) == Indentation(lines[i]) - Indentation(lines[j]))
  {
    var base := BaseIndent(lines);
    BaseIndentIsLeast(lines, i);
    BaseIndentIsLeast(lines, j);
    if |lines[i]| > base && |lines[j]| > base {
      IndentationOfSuffix(lines[i], base);
      IndentationOfSuffix(lines[j], base);
    }
  }

  lemma CutKeepsLines(lines: seq<string>, base: nat)
    requires AreParts('\n', lines)
    ensures AreParts('\n', Cut(lines, base))
  {
  }

  // Nothing left to cut.
  ghost predicate Settled(lines: seq<string>) {
    BaseIndent(lines) == 0 || forall i :: 0 <= i < |lines| ==> |lines[i]| <= BaseIndent(lines)
  }

  lemma CutIsIdentity(lines: seq<string>)
    ensures Dedent(lines) == lines <==> Settled(lines)
  {
  }

  lemma {:induction false} JoinLength(a: seq<string>, b: seq<string>)
    requires |a| == |b| && forall i :: 0 <= i < |a| ==> |a[i]| <= |b[i]|
    ensures |Join('\n', a)| <= |Join('\n', b)|
  {
    if |a| > 1 {
      JoinLength(a[1..], b[1..]);
    }
  }

  // Exactly which texts Doc leaves alone: the empty one, and those that neither
  // begin with an empty line nor have anything left to cut.
  lemma DocFixedPoints(text: string)
    ensures DocOf(text) == text <==> text == "" || (Split('\n', text)[0] != "" && Settled(Split('\n', text)))
  {
    var lines := Split('\n', text);
    JoinOfSplit('\n', text);
    SplitGivesParts('\n', text);
    if text != "" && lines[0] == "" {
      EmptyFirstLineIsLost(text);
    } else if text != "" {
      CutKeepsLines(lines, BaseIndent(lines));
      CutIsIdentity(lines);
      if DocOf(text) == text {
        JoinIsInjective('\n', Dedent(lines), lines);
      }
    }
  }

  lemma EmptyFirstLineIsLost(text: string)
    requires text != "" && Split('\n', text)[0] == ""
    ensures |DocOf(text)| < |text|
  {
    var lines := Split('\n', text);
    JoinOfSplit('\n', text);
    assert |lines| > 1;
    JoinLength(Dedent(lines[1..]), lines[1..]);
  }

  // Doc is idempotent when its result does not begin with an empty line and some
  // line of least indentation is longer than that.
  lemma DocIsIdempotent(text: string, i: nat)
    requires var lines := DocLines(text);
      && i < |lines| && Dedent(lines)[0] != ""
      && Indentation(lines[i]) == BaseIndent(lines) < |lines[i]|
    ensures DocOf(DocOf(text)) == DocOf(text)
  {
    var lines := DocLines(text);
    var r := Dedent(lines);
    SplitGivesParts('\n', text);
    assert AreParts('\n', lines) by {
      assert forall k :: 0 <= k < |lines| ==> lines[k] in Split('\n', text);
    }
    CutKeepsLines(lines, BaseIndent(lines));
    SplitOfJoin('\n', r);
    IndentationOfSuffix(lines[i], BaseIndent(lines));
    BaseIndentFrom(r, 0, i);
    DocFixedPoints(Join('\n', r));
  }

  // ----- Doc undoes indent -----

  lemma {:induction false} IndentationOfSpaces(n: nat, line: string)
    ensures Indentation(Spaces(n) + line) == n + Indentation(line)
  {
    var s := Spaces(n) + line;
    if n > 0 {
      assert s[1..] == Spaces(n - 1) + line;
      IndentationOfSpaces(n - 1, line);
    } else {
      assert s == line;
    }
  }

  function IndentAll(lines: seq<string>, n: nat): (r: seq<string>)
    ensures |r| == |lines|
  {
    seq(|lines|, i requires 0 <= i < |lines| => Spaces(n) + lines[i])
  }

  lemma IndentedText(n: nat, text: string)
    ensures Split('\n', Spaces(n) + IndentOf(n, text)) == IndentAll(Split('\n', text), n)
  {
    hide Split, Join;
    var lines := Split('\n', text);
    var res := IndentLines(lines, n);
    SplitGivesParts('\n', text);
    forall i | 0 <= i < |res| ensures IsPart('\n', res[i]) {
      assert IsPart('\n', lines[i]);
      assert IsPart('\n', Spaces(n));
    }
    SplitOfJoin('\n', res);
    SplitPrepend('\n', Spaces(n), Join('\n', res));
    assert [Spaces(n) + res[0]] + res[1..] == IndentAll(lines, n);
  }

  lemma IndentAllIsUndone(lines: seq<string>, n: nat, j: nat)
    requires n <= MAX_INT && j < |lines| && Indentation(lines[j]) == 0
    requires forall k :: 0 <= k < |lines| ==> lines[k] != ""
    ensures Dedent(IndentAll(lines, n)) == lines
  {
    var all := IndentAll(lines, n);
    forall k | 0 <= k < |lines| ensures Indentation(all[k]) == n + Indentation(lines[k]) {
      IndentationOfSpaces(n, lines[k]);
    }
    BaseIndentFrom(all, n, j);
    forall k | 0 <= k < |lines| ensures Dedent(all)[k] == lines[k] {
      assert (Spaces(n) + lines[k])[n..] == lines[k];
    }
  }

  // For every text without empty lines that has an unindented line.
  lemma DocUndoesIndent(n: nat, text: string, j: nat)
    requires n <= MAX_WIDTH
    requires j < |Split('\n', text)| && Indentation(Split('\n', text)[j]) == 0
    requires forall k :: 0 <= k < |Split('\n', text)| ==> Split('\n', text)[k] != ""
    ensures DocOf(Spaces(n) + IndentOf(n, text)) == text
  {
    IndentedText(n, text);
    IndentAllIsUndone(Split('\n', text), n, j);
    JoinOfSplit('\n', text);
    assert IndentAll(Split('\n', text), n)[0] == Spaces(n) + Split('\n', text)[0];
  }

  // ----- Doc, line by line -----

  // The lines of a text, without the one before a newline at its very beginning.
  function TextLines(text: string): seq<string> {
    if text != "" && text[0] == '\n' then Split('\n', text)[1..] else Split('\n', text)
  }

  lemma TextAfterNewline(text: string)
    ensures Split('\n', "\n" + text) == [""] + Split('\n', text)
    ensures TextLines("\n" + text) == Split('\n', text)
  {
    SplitCons('\n', '\n', text);
    assert ([""] + Split('\n', text))[1..] == Split('\n', text);
  }

  lemma FirstLine(text: string)
    ensures Split('\n', text)[0] == "" <==> text == "" || text[0] == '\n'
  {
  }

  // Joined again, nothing else of the text is lost before it is dedented.
  lemma DocDedents(text: string)
    ensures DocOf(text) == Join('\n', Dedent(TextLines(text)))
  {
    FirstLine(text);
    if text == "" {
      assert TextLines(text) == [""];
      assert Dedent([""]) == [""];
    }
  }

  // A newline at the beginning is dropped: of the text, but not of what follows it.
  lemma DocDropsNewline(text: string)
    requires text == "" || text[0] != '\n'
    ensures DocOf("\n" + text) == DocOf(text)
  {
    TextAfterNewline(text);
    DocDedents("\n" + text);
    DocDedents(text);
  }

  lemma DocSplits(text: string)
    ensures Split('\n', DocOf(text)) == Dedent(TextLines(text)) && TextLines(text) != []
  {
    var lines := TextLines(text);
    SplitGivesParts('\n', text);
    if text != "" && text[0] == '\n' {
      assert text == "\n" + text[1..];
      TextAfterNewline(text[1..]);
    }
    DocDedents(text);
    CutKeepsLines(lines, BaseIndent(lines));
    SplitOfJoin('\n', Dedent(lines));
  }

  // The line begins with that many spaces and tabs.
  predicate Leads(line: string, n: nat) {
    n <= |line| && forall k :: 0 <= k < n ==> line[k] == ' ' || line[k] == '\t'
  }

  // And with no more.
  predicate LeadsExactly(line: string, n: nat) {
    Leads(line, n) && (n == |line| || (line[n] != ' ' && line[n] != '\t'))
  }

  lemma {:induction false} IndentationIsExact(line: string, n: nat)
    ensures LeadsExactly(line, n) <==> Indentation(line) == n
    ensures Leads(line, n) ==> n <= Indentation(line)
  {
    if n > 0 && line != "" && IsBlank(line[0]) {
      IndentationIsExact(line[1..], n - 1);
    }
  }

  // With the least indentation n, reached in line i, line k of the result is line k of
  // the text without its first n characters, or all of it when it has no more.
  lemma DocLineByLine(text: string, n: nat, i: nat, k: nat)
    requires var lines := TextLines(text);
      && i < |lines| && k < |lines| && n <= 9223372036854775807
      && LeadsExactly(lines[i], n) && forall m :: 0 <= m < |lines| ==> Leads(lines[m], n)
    ensures var lines, r := TextLines(text), Split('\n', DocOf(text));
      |r| == |lines| && r[k] == if |lines[k]| > n then lines[k][n..] else lines[k]
  {
    var lines := TextLines(text);
    IndentationIsExact(lines[i], n);
    forall m | 0 <= m < |lines| ensures n <= Indentation(lines[m]) {
      IndentationIsExact(lines[m], n);
    }
    BaseIndentFrom(lines, n, i);
    DocSplits(text);
  }

  // ----- a common prefix of blanks -----

  function PrefixAll(ws: string, lines: seq<string>): (r: seq<string>)
    ensures |r| == |lines|
  {
    seq(|lines|, i requires 0 <= i < |lines| => ws + lines[i])
  }

  predicate AreBlanks(ws: string) {
    forall i :: 0 <= i < |ws| ==> ws[i] == ' ' || ws[i] == '\t'
  }

  lemma {:induction false} IndentationOfPrefixed(ws: string, line: string)
    requires AreBlanks(ws)
    ensures Indentation(ws + line) == |ws| + Indentation(line)
  {
    if ws == "" {
      assert ws + line == line;
    } else {
      IndentationOfPrefixed(ws[1..], line);
      assert (ws + line)[1..] == ws[1..] + line;
    }
  }

  // Some line is indented by less than the length of this one, which so is not all
  // blank and of least indentation.
  ghost predicate Sticks(lines: seq<string>, k: nat)
    requires k < |lines|
  {
    exists i :: 0 <= i < |lines| && Indentation(lines[i]) < |lines[k]|
  }

  lemma SticksOut(lines: seq<string>, k: nat)
    requires k < |lines| && BaseIndent(lines) < MAX_INT
    ensures Sticks(lines, k) <==> BaseIndent(lines) < |lines[k]|
  {
    BaseIndentIsReached(lines);
    forall i | 0 <= i < |lines| ensures BaseIndent(lines) <= Indentation(lines[i]) {
      BaseIndentIsLeast(lines, i);
    }
  }

  lemma PrefixedBase(ws: string, lines: seq<string>)
    requires AreBlanks(ws) && lines != [] && forall k :: 0 <= k < |lines| ==> |ws| + |lines[k]| < MAX_INT
    ensures BaseIndent(lines) < MAX_INT && BaseIndent(PrefixAll(ws, lines)) == |ws| + BaseIndent(lines)
  {
    var all := PrefixAll(ws, lines);
    BaseIndentIsLeast(lines, 0);
    BaseIndentIsReached(lines);
    var i :| 0 <= i < |lines| && Indentation(lines[i]) == BaseIndent(lines);
    forall k | 0 <= k < |lines|
      ensures Indentation(all[k]) == |ws| + Indentation(lines[k]) >= |ws| + BaseIndent(lines)
    {
      IndentationOfPrefixed(ws, lines[k]);
      BaseIndentIsLeast(lines, k);
    }
    BaseIndentFrom(all, |ws| + BaseIndent(lines), i);
  }

  lemma PrefixIsCut(ws: string, lines: seq<string>)
    requires AreBlanks(ws) && lines != [] && forall k :: 0 <= k < |lines| ==> |ws| + |lines[k]| < MAX_INT
    ensures Dedent(PrefixAll(ws, lines)) == Dedent(lines)
       <==> ws == "" || forall k :: 0 <= k < |lines| ==> Sticks(lines, k)
  {
    var all, b := PrefixAll(ws, lines), BaseIndent(lines);
    PrefixedBase(ws, lines);
    forall k | 0 <= k < |lines|
      ensures Dedent(all)[k] == Dedent(lines)[k] <==> ws == "" || Sticks(lines, k)
    {
      SticksOut(lines, k);
      if |lines[k]| > b {
        assert (ws + lines[k])[|ws| + b..] == lines[k][b..];
      } else {
        assert |ws + lines[k]| == |ws| + |lines[k]|;
      }
    }
    if Dedent(all) != Dedent(lines) {
      var k :| 0 <= k < |lines| && Dedent(all)[k] != Dedent(lines)[k];
    }
  }

  // The same spaces and tabs before every line of a text without empty lines leave Doc
  // unchanged, exactly when no line is all blank and of least indentation.
  lemma DocIgnoresCommonBlanks(ws: string, text: string)
    requires AreBlanks(ws)
    requires forall k :: 0 <= k < |Split('\n', text)| ==>
      Split('\n', text)[k] != "" && |ws| + |Split('\n', text)[k]| < MAX_INT
    ensures DocOf(Join('\n', PrefixAll(ws, Split('\n', text)))) == DocOf(text)
       <==> ws == "" || forall k :: 0 <= k < |Split('\n', text)| ==> Sticks(Split('\n', text), k)
  {
    hide Split, Join, Dedent;
    var lines := Split('\n', text);
    var all := PrefixAll(ws, lines);
    SplitGivesParts('\n', text);
    forall k | 0 <= k < |all| ensures IsPart('\n', all[k]) {
      assert IsPart('\n', lines[k]);
    }
    SplitOfJoin('\n', all);
    FirstLine(text);
    FirstLine(Join('\n', all));
    DocSplits(text);
    DocSplits(Join('\n', all));
    DocDedents(text);
    DocDedents(Join('\n', all));
    PrefixIsCut(ws, lines);
  }

  // ----- indent, line by line -----

  // A width and its negative indent alike, and the first line is left as it is.
  lemma IndentLineByLine(n: int, text: string, k: nat)
    requires k < |Split('\n', text)|
    ensures var lines, r := Split('\n', text), Split('\n', IndentOf(n, text));
      |r| == |lines| && r[k] == if k == 0 then lines[0] else Spaces(if n < 0 then -n else n) + lines[k]
  {
    hide Split, Join;
    var lines := Split('\n', text);
    var res := IndentLines(lines, Abs(n));
    SplitGivesParts('\n', text);
    forall i | 0 <= i < |res| ensures IsPart('\n', res[i]) {
      assert IsPart('\n', lines[i]);
      assert IsPart('\n', Spaces(Abs(n)));
    }
    SplitOfJoin('\n', res);
  }
}
