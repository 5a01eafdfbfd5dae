/**
  `buildManagedRouteYamlDocument`: the YAML of all routes in name order, with the
  first resourceVersion line of each blanked.
 */
module RouteDocument {
  import opened Strings

  // ----- sort.Strings -----

  // Strings compare by code point, which is their byte order in UTF-8.
  predicate AtMost(a: string, b: string) {
    if a == "" then true
    else if b == "" then false
    else if a[0] != b[0] then a[0] < b[0]
    else AtMost(a[1..], b[1..])
  }

  lemma {:induction false} Total(a: string, b: string)
    ensures AtMost(a, b) || AtMost(b, a)
  {
    if a != "" && b != "" && a[0] == b[0] {
      Total(a[1..], b[1..]);
    }
  }

  lemma {:induction false} Antisymmetric(a: string, b: string)
    requires AtMost(a, b) && AtMost(b, a)
    ensures a == b
  {
    if a != "" && b != "" {
      Antisymmetric(a[1..], b[1..]);
      assert a == [a[0]] + a[1..] && b == [b[0]] + b[1..];
    }
  }

  lemma {:induction false} Transitive(a: string, b: string, c: string)
    requires AtMost(a, b) && AtMost(b, c)
    ensures AtMost(a, c)
  {
    if a != "" && b != "" && c != "" && a[0] == b[0] == c[0] {
      Transitive(a[1..], b[1..], c[1..]);
    }
  }

  predicate Sorted(names: seq<string>) {
    forall i, j :: 0 <= i < j < |names| ==> AtMost(names[i], names[j])
  }

  function Insert(name: string, names: seq<string>): seq<string> {
    if names == [] || AtMost(name, names[0]) then [name] + names
    else [names[0]] + Insert(name, names[1..])
  }

  function Sort(names: seq<string>): seq<string> {
    if names == [] then [] else Insert(names[0], Sort(names[1..]))
  }

  lemma {:induction false} InsertKeepsElements(name: string, names: seq<string>)
    ensures multiset(Insert(name, names)) == multiset(names) + multiset{name}
  {
    if names != [] && !AtMost(name, names[0]) {
      InsertKeepsElements(name, names[1..]);
      assert names == [names[0]] + names[1..];
    }
  }

  lemma {:induction false} InsertKeepsOrder(name: string, names: seq<string>)
    requires Sorted(names)
    ensures Sorted(Insert(name, names))
  {
    if names == [] {
    } else if AtMost(name, names[0]) {
      forall j | 0 <= j < |names| ensures AtMost(name, names[j]) {
        if j > 0 {
          Transitive(name, names[0], names[j]);
        }
      }
    } else {
      var rest := Insert(name, names[1..]);
      InsertKeepsOrder(name, names[1..]);
      InsertKeepsElements(name, names[1..]);
      Total(name, names[0]);
      forall j | 0 <= j < |rest| ensures AtMost(names[0], rest[j]) {
        assert rest[j] in multiset(rest);
        assert rest[j] == name || rest[j] in names[1..];
      }
    }
  }

  lemma {:induction false} SortSorts(names: seq<string>)
    ensures Sorted(Sort(names)) && multiset(Sort(names)) == multiset(names)
  {
    hide Insert, AtMost;
    if names == [] {
      assert Sort(names) == [];
    } else {
      hide Sorted;
      SortSorts(names[1..]);
      InsertKeepsOrder(names[0], Sort(names[1..]));
      InsertKeepsElements(names[0], Sort(names[1..]));
      assert multiset(names) == multiset(names[1..]) + multiset{names[0]} by {
        assert names == [names[0]] + names[1..];
      }
    }
  }

  // A sorted listing is determined by its elements.
  lemma {:induction false} SortedIsUnique(a: seq<string>, b: seq<string>)
    requires Sorted(a) && Sorted(b) && multiset(a) == multiset(b)
    ensures a == b
  {
    SameSize(a, b);
    if a != [] {
      HeadIsLeast(a, b);
      HeadIsLeast(b, a);
      Antisymmetric(a[0], b[0]);
      WithoutHead(a);
      WithoutHead(b);
      hide AtMost;
      SortedIsUnique(a[1..], b[1..]);
      assert a == [a[0]] + a[1..] && b == [b[0]] + b[1..];
    }
  }

  lemma WithoutHead(a: seq<string>)
    requires a != []
    ensures multiset(a[1..]) == multiset(a) - multiset{a[0]}
  {
    assert a == [a[0]] + a[1..];
  }

  lemma SameSize(a: seq<string>, b: seq<string>)
    requires multiset(a) == multiset(b)
    ensures |a| == |b|
  {
    assert |multiset(a)| == |a| && |multiset(b)| == |b|;
  }

  lemma HeadIsLeast(a: seq<string>, b: seq<string>)
    requires Sorted(a) && |a| == |b| > 0 && multiset(a) == multiset(b)
    ensures AtMost(a[0], b[0])
  {
    assert b[0] in multiset(a);
    var i :| 0 <= i < |a| && a[i] == b[0];
    if i == 0 {
      Total(a[0], a[0]);
    }
  }

  // The library's sort, of which only this contract is used.
  method SortStrings(names: array<string>)
    modifies names
    ensures names[..] == Sort(old(names[..]))
  {
    SortSorts(names[..]);
    var sorted := Sort(names[..]);
    assert |sorted| == |multiset(sorted)| == |names[..]|;
    forall i | 0 <= i < names.Length {
      names[i] := sorted[i];
    }
    assert names[..] == sorted;
  }

  // ----- the resourceVersion line -----

  // unicode.IsSpace
  predicate IsSpace(c: char) {
    c == ' ' || '\t' <= c <= '\r' || c == '\U{85}' || c == '\U{A0}' || c == '\U{1680}'
    || '\U{2000}' <= c <= '\U{200A}' || c == '\U{2028}' || c == '\U{2029}' || c == '\U{202F}'
    || c == '\U{205F}' || c == '\U{3000}'
  }

  function TrimLeft(s: string): string {
    if s == "" || !IsSpace(s[0]) then s else TrimLeft(s[1..])
  }

  function TrimRight(s: string): string {
    if s == "" || !IsSpace(s[|s| - 1]) then s else TrimRight(s[..|s| - 1])
  }

  function TrimSpace(s: string): string {
    TrimRight(TrimLeft(s))
  }

  predicate IsVersionLine(line: string) {
    "resourceVersion" <= TrimSpace(line)
  }

  // The first version line, or the number of lines.
  function FirstVersion(lines: seq<string>): (i: nat)
    ensures i <= |lines|
    ensures forall k :: 0 <= k < i ==> !IsVersionLine(lines[k])
    ensures i < |lines| ==> IsVersionLine(lines[i])
  {
    if lines == [] || IsVersionLine(lines[0]) then 0 else 1 + FirstVersion(lines[1..])
  }

  function Blanked(lines: seq<string>): (r: seq<string>)
    ensures |r| == |lines|
  {
    var i := FirstVersion(lines);
    if i < |lines| then lines[i := ""] else lines
  }

  function Section(route: string): string {
    Join('\n', Blanked(Split('\n', route))) + "\n---\n"
  }

  // The cluster answers with the YAML of each route.
  function Sections(names: seq<string>, yaml: string -> string): string {
    if names == [] then "" else Sections(names[..|names| - 1], yaml) + Section(yaml(names[|names| - 1]))
  }

  function Document(names: seq<string>, yaml: string -> string): string {
    Sections(Sort(names), yaml)
  }

  // Blanks a line of the slice in place.
  method BlankFirstVersion(lines: array<string>)
    modifies lines
    ensures lines[..] == Blanked(old(lines[..]))
  {
    ghost var all := lines[..];
    var found := false;
    var i := 0;
    while !found && i < lines.Length
      invariant 0 <= i <= lines.Length
      invariant !found ==> lines[..] == all && FirstVersion(all) == i + FirstVersion(all[i..])
      invariant found ==> lines[..] == Blanked(all)
    {
      if IsVersionLine(lines[i]) {
        found := true;
        lines[i] := "";
      } else {
        assert all[i..][1..] == all[i + 1..];
      }
      i := i + 1;
    }
  }

  method BuildManagedRouteYamlDocument(names: array<string>, yaml: string -> string) returns (doc: string)
    modifies names
    ensures doc == Document(old(names[..]), yaml)
    ensures names[..] == Sort(old(names[..]))
  {
    hide Sort, Blanked, Split, Join;
    SortStrings(names);
    doc := "";
    var n := 0;
    while n < names.Length
      invariant 0 <= n <= names.Length
      invariant names[..] == Sort(old(names[..]))
      invariant doc == Sections(names[..n], yaml)
    {
      var route := yaml(names[n]);
      var parts := Split('\n', route);
      var lines := new string[|parts|](i requires 0 <= i < |parts| => parts[i]);
      assert lines[..] == parts;
      BlankFirstVersion(lines);
      doc := doc + (Join('\n', lines[..]) + "\n---\n");
      assert names[..n + 1][..n] == names[..n];
      n := n + 1;
    }
    assert names[..n] == names[..];
  }

  // ----- the document is canonical -----

  // It does not depend on the order in which the routes are listed.
  lemma ListingOrderDoesNotMatter(a: seq<string>, b: seq<string>, yaml: string -> string)
    requires multiset(a) == multiset(b)
    ensures Document(a, yaml) == Document(b, yaml)
  {
    SortSorts(a);
    SortSorts(b);
    SortedIsUnique(Sort(a), Sort(b));
  }

  // The two texts agree but for the content of their first version line.
  ghost predicate DifferInVersionOnly(x: string, y: string) {
    var a, b := Split('\n', x), Split('\n', y);
    && |a| == |b|
    && FirstVersion(a) == FirstVersion(b)
    && forall k :: 0 <= k < |a| && k != FirstVersion(a) ==> a[k] == b[k]
  }

  lemma VersionDoesNotMatter(x: string, y: string)
    requires DifferInVersionOnly(x, y)
    ensures Section(x) == Section(y)
  {
    assert Blanked(Split('\n', x)) == Blanked(Split('\n', y));
  }

  lemma {:induction false} SectionsAgree(names: seq<string>, yaml: string -> string, yaml': string -> string)
    requires forall n :: n in names ==> Section(yaml(n)) == Section(yaml'(n))
    ensures Sections(names, yaml) == Sections(names, yaml')
  {
    if names != [] {
      SectionsAgree(names[..|names| - 1], yaml, yaml');
    }
  }

  // Nor on the version of any route: two states whose routes differ only there
  // have the same document, in whatever order each lists them.
  lemma DocumentIsCanonical(a: seq<string>, b: seq<string>, yaml: string -> string, yaml': string -> string)
    requires multiset(a) == multiset(b)
    requires forall n :: n in a ==> DifferInVersionOnly(yaml(n), yaml'(n))
    ensures Document(a, yaml) == Document(b, yaml')
  {
    ListingOrderDoesNotMatter(a, b, yaml');
    SortSorts(a);
    forall n | n in Sort(a) ensures Section(yaml(n)) == Section(yaml'(n)) {
      assert n in multiset(Sort(a));
      VersionDoesNotMatter(yaml(n), yaml'(n));
    }
    SectionsAgree(Sort(a), yaml, yaml');
  }

  lemma BlankedAreLines(route: string)
    ensures AreParts('\n', Blanked(Split('\n', route))) && Blanked(Split('\n', route)) != []
  {
    SplitGivesParts('\n', route);
  }

  // And it hides nothing else of a route: equal sections mean equal lines, but
  // for a line that is blank or the first version line on each side.
  lemma SectionShowsTheRest(x: string, y: string)
    ensures Section(x) == Section(y) <==> Blanked(Split('\n', x)) == Blanked(Split('\n', y))
  {
    BlankedAreLines(x);
    BlankedAreLines(y);
    if Section(x) == Section(y) {
      var a, b := Join('\n', Blanked(Split('\n', x))), Join('\n', Blanked(Split('\n', y)));
      assert a == Section(x)[..|Section(x)| - 5] && b == Section(y)[..|Section(y)| - 5];
      JoinIsInjective('\n', Blanked(Split('\n', x)), Blanked(Split('\n', y)));
    }
  }

  // A changed line shows in the section, unless it is the first version line.
  lemma ChangeShows(x: string, y: string, k: nat)
    requires |Split('\n', x)| == |Split('\n', y)| && k < |Split('\n', x)| && Split('\n', x)[k] != Split('\n', y)[k]
    requires k != FirstVersion(Split('\n', x)) && k != FirstVersion(Split('\n', y))
    ensures Section(x) != Section(y)
  {
    SectionShowsTheRest(x, y);
    assert Blanked(Split('\n', x))[k] == Split('\n', x)[k] && Blanked(Split('\n', y))[k] == Split('\n', y)[k];
  }

  // ----- the document shows every section -----

  const SEPARATOR := "---"

  // The lines of a document, but for the empty one after its last newline, from the
  // lines of its sections.
  function Flatten(blocks: seq<seq<string>>): seq<string> {
    if blocks == [] then [] else Flatten(blocks[..|blocks| - 1]) + (blocks[|blocks| - 1] + [SEPARATOR])
  }

  function Block(route: string): seq<string> {
    Blanked(Split('\n', route))
  }

  function Blocks(names: seq<string>, yaml: string -> string): (bs: seq<seq<string>>)
    ensures |bs| == |names|
  {
    seq(|names|, i requires 0 <= i < |names| => Block(yaml(names[i])))
  }

  lemma BlocksPush(names: seq<string>, yaml: string -> string)
    requires names != []
    ensures Blocks(names, yaml) == Blocks(names[..|names| - 1], yaml) + [Block(yaml(names[|names| - 1]))]
  {
  }

  lemma SectionSplits(route: string)
    ensures Split('\n', Section(route)) == (Block(route) + [SEPARATOR]) + [""]
  {
    var lines := Block(route);
    var text := Join('\n', lines);
    BlankedAreLines(route);
    SplitOfJoin('\n', lines);
    SplitAt('\n', text, SEPARATOR + "\n");
    SplitAt('\n', SEPARATOR, "");
    OnePart('\n', SEPARATOR);
    OnePart('\n', "");
    hide Join, Split, Block;
    assert Section(route) == text + (['\n'] + (SEPARATOR + "\n")) by { SectionText(route); }
    assert SEPARATOR + "\n" == SEPARATOR + (['\n'] + "");
    Associates(lines, [SEPARATOR], [""]);
  }

  lemma SectionText(route: string)
    ensures Section(route) == Join('\n', Block(route)) + (['\n'] + (SEPARATOR + "\n"))
  {
  }

  lemma {:induction false} SectionsSplit(names: seq<string>, yaml: string -> string)
    ensures Split('\n', Sections(names, yaml)) == Flatten(Blocks(names, yaml)) + [""]
  {
    if names != [] {
      var front, route := names[..|names| - 1], yaml(names[|names| - 1]);
      var before, lines := Flatten(Blocks(front, yaml)), Block(route) + [SEPARATOR];
      SectionsSplit(front, yaml);
      SectionSplits(route);
      BlocksPush(names, yaml);
      FlattenPush(Blocks(front, yaml), Block(route));
      hide Section, Split, Block, Flatten;
      if front == [] {
        assert Sections(names, yaml) == "" + Section(route) == Section(route);
        assert before == [] by { DropLast(before, []); }
        assert [] + lines == lines;
      } else {
        var text := SectionsEndLine(front, yaml);
        SplitAt('\n', text, "");
        SplitAt('\n', text, Section(route));
        OnePart('\n', "");
        DropLast(Split('\n', text), before);
        Associates(text, "\n", Section(route));
        Associates(before, lines, [""]);
      }
    }
  }

  lemma FlattenPush(blocks: seq<seq<string>>, block: seq<string>)
    ensures Flatten(blocks + [block]) == Flatten(blocks) + (block + [SEPARATOR])
  {
    assert (blocks + [block])[..|blocks|] == blocks;
  }

  lemma SectionsEndLine(names: seq<string>, yaml: string -> string) returns (text: string)
    requires names != []
    ensures Sections(names, yaml) == text + (['\n'] + "") == text + "\n"
  {
    var all := Sections(names, yaml);
    text := all[..|all| - 1];
  }

  lemma DropLast(a: seq<string>, b: seq<string>)
    requires a + [""] == b + [""]
    ensures a == b
  {
    assert a == (a + [""])[..|a|] && b == (b + [""])[..|b|];
  }

  lemma LongerBlock(a: seq<string>, x: seq<string>, b: seq<string>, y: seq<string>)
    requires a + (x + [SEPARATOR]) == b + (y + [SEPARATOR])
    requires |x| < |y| && a != [] && a[|a| - 1] == SEPARATOR
    ensures SEPARATOR in y
  {
    var whole := a + (x + [SEPARATOR]);
    assert whole[|a| - 1] == SEPARATOR;
    assert whole[|a| - 1] == y[|a| - 1 - |b|];
  }

  lemma LastBlock(a: seq<string>, x: seq<string>, b: seq<string>, y: seq<string>)
    requires a + (x + [SEPARATOR]) == b + (y + [SEPARATOR])
    requires SEPARATOR !in y && (a == [] || a[|a| - 1] == SEPARATOR)
    ensures |x| >= |y|
  {
    if |x| < |y| && a != [] {
      LongerBlock(a, x, b, y);
      assert false;
    }
    assert |a + (x + [SEPARATOR])| == |b + (y + [SEPARATOR])|;
  }

  lemma SameBlocks(a: seq<string>, x: seq<string>, b: seq<string>, y: seq<string>)
    requires a + (x + [SEPARATOR]) == b + (y + [SEPARATOR]) && |x| == |y|
    ensures a == b && x == y
  {
    var whole := a + (x + [SEPARATOR]);
    assert a == whole[..|a|] && b == whole[..|b|];
    assert x == whole[|a|..][..|x|] && y == whole[|b|..][..|y|];
  }

  ghost predicate Clean(blocks: seq<seq<string>>) {
    forall i :: 0 <= i < |blocks| ==> SEPARATOR !in blocks[i]
  }

  lemma {:induction false} FlattenIsInjective(p: seq<seq<string>>, q: seq<seq<string>>)
    requires Clean(p) && Clean(q) && Flatten(p) == Flatten(q)
    ensures p == q
    decreases |p|
  {
    if p != [] && q != [] {
      var p', q' := p[..|p| - 1], q[..|q| - 1];
      var x, y := p[|p| - 1], q[|q| - 1];
      LastBlock(Flatten(p'), x, Flatten(q'), y);
      LastBlock(Flatten(q'), y, Flatten(p'), x);
      SameBlocks(Flatten(p'), x, Flatten(q'), y);
      hide Flatten;
      FlattenIsInjective(p', q');
      assert p == p' + [x] && q == q' + [y];
    }
  }

  // Blanked, no route has a line that looks like the end of a section.
  ghost predicate Separable(names: seq<string>, yaml: string -> string) {
    forall n :: n in names ==> SEPARATOR !in Block(yaml(n))
  }

  ghost predicate SameSections(a: seq<string>, b: seq<string>, yaml: string -> string, yaml': string -> string) {
    |a| == |b| && forall i :: 0 <= i < |a| ==> Section(yaml(a[i])) == Section(yaml'(b[i]))
  }

  lemma SameBlocksSameSections(a: seq<string>, b: seq<string>, yaml: string -> string, yaml': string -> string)
    ensures SameSections(a, b, yaml, yaml') <==> Blocks(a, yaml) == Blocks(b, yaml')
  {
    hide Section, Blanked, Split;
    forall i | 0 <= i < |a| && i < |b|
      ensures Section(yaml(a[i])) == Section(yaml'(b[i])) <==> Block(yaml(a[i])) == Block(yaml'(b[i]))
    {
      SectionShowsTheRest(yaml(a[i]), yaml'(b[i]));
    }
    if SameSections(a, b, yaml, yaml') {
      forall i | 0 <= i < |a| ensures Blocks(a, yaml)[i] == Blocks(b, yaml')[i] {
      }
    } else if |a| == |b| {
      var i :| 0 <= i < |a| && Section(yaml(a[i])) != Section(yaml'(b[i]));
      assert Blocks(a, yaml)[i] != Blocks(b, yaml')[i];
    }
  }

  // Two documents are equal exactly when they have the same sections in the same
  // order, provided that no line of a route is the separator.
  lemma DocumentShowsSections(a: seq<string>, b: seq<string>, yaml: string -> string, yaml': string -> string)
    requires Separable(a, yaml) && Separable(b, yaml')
    ensures Document(a, yaml) == Document(b, yaml') <==> SameSections(Sort(a), Sort(b), yaml, yaml')
  {
    hide Sort, Sections, Split, Block, SameSections, Flatten;
    var p, q := Blocks(Sort(a), yaml), Blocks(Sort(b), yaml');
    SectionsSplit(Sort(a), yaml);
    SectionsSplit(Sort(b), yaml');
    SameBlocksSameSections(Sort(a), Sort(b), yaml, yaml');
    if Document(a, yaml) == Document(b, yaml') {
      DropLast(Flatten(p), Flatten(q));
      SortedIsClean(a, yaml);
      SortedIsClean(b, yaml');
      FlattenIsInjective(p, q);
    }
    if p == q {
      JoinOfSplit('\n', Document(a, yaml));
      JoinOfSplit('\n', Document(b, yaml'));
    }
  }

  lemma SortedIsClean(names: seq<string>, yaml: string -> string)
    requires Separable(names, yaml)
    ensures Clean(Blocks(Sort(names), yaml))
  {
    hide Sort, Block;
    SortSorts(names);
    forall i | 0 <= i < |Sort(names)| ensures SEPARATOR !in Blocks(Sort(names), yaml)[i] {
      assert Sort(names)[i] in multiset(Sort(names));
      assert Sort(names)[i] in names;
    }
  }

  // ----- version lines, in their text -----

  predicate AreSpaces(ws: string) {
    forall i :: 0 <= i < |ws| ==> IsSpace(ws[i])
  }

  lemma BlanksAreSpaces()
    ensures IsSpace(' ') && IsSpace('\t') && IsSpace('\r') && !IsSpace('r') && !IsSpace('-') && !IsSpace('#')
  {
  }

  ghost predicate Contains(s: string, part: string) {
    exists i :: 0 <= i <= |s| && part <= s[i..]
  }

  lemma {:induction false} TrimLeftDrops(ws: string, s: string)
    requires AreSpaces(ws) && s != "" && !IsSpace(s[0])
    ensures TrimLeft(ws + s) == s
  {
    if ws == "" {
      assert ws + s == s;
    } else {
      assert (ws + s)[1..] == ws[1..] + s;
      TrimLeftDrops(ws[1..], s);
    }
  }

  lemma {:induction false} TrimRightKeeps(s: string, part: string)
    requires part != "" && !IsSpace(part[|part| - 1]) && part <= s
    ensures part <= TrimRight(s)
  {
    if IsSpace(s[|s| - 1]) {
      assert s[|part| - 1] == part[|part| - 1];
      assert part <= s[..|s| - 1];
      TrimRightKeeps(s[..|s| - 1], part);
    }
  }

  // White space, the key and anything else make a version line.
  lemma KeyMakesVersionLine(ws: string, rest: string)
    requires AreSpaces(ws)
    ensures IsVersionLine(ws + ("resourceVersion" + rest))
  {
    var line := "resourceVersion" + rest;
    assert line[0] == 'r' && "resourceVersion"[14] == 'n' && |"resourceVersion"| == 15;
    TrimLeftDrops(ws, line);
    TrimRightKeeps(line, "resourceVersion");
  }

  lemma {:induction false} TrimLeftIsSuffix(s: string) returns (i: nat)
    ensures i <= |s| && TrimLeft(s) == s[i..]
  {
    if s == "" || !IsSpace(s[0]) {
      i := 0;
    } else {
      i := TrimLeftIsSuffix(s[1..]);
      i := i + 1;
    }
  }

  lemma {:induction false} TrimRightIsPrefix(s: string)
    ensures TrimRight(s) <= s
  {
    if s != "" && IsSpace(s[|s| - 1]) {
      TrimRightIsPrefix(s[..|s| - 1]);
    }
  }

  // A line without the key is none.
  lemma VersionLineHasKey(line: string)
    requires IsVersionLine(line)
    ensures Contains(line, "resourceVersion")
  {
    var i := TrimLeftIsSuffix(line);
    TrimRightIsPrefix(TrimLeft(line));
    assert "resourceVersion" <= TrimSpace(line) <= line[i..];
  }

  ghost predicate WithoutKey(lines: seq<string>) {
    forall i :: 0 <= i < |lines| ==> !Contains(lines[i], "resourceVersion")
  }

  lemma {:induction false} FirstVersionAfter(before: seq<string>, line: string, after: seq<string>)
    requires WithoutKey(before) && IsVersionLine(line)
    ensures FirstVersion(before + ([line] + after)) == |before|
  {
    hide IsVersionLine;
    var lines := before + ([line] + after);
    if before == [] {
      assert lines[0] == line;
    } else {
      assert lines[0] == before[0] && lines[1..] == before[1..] + ([line] + after);
      if IsVersionLine(before[0]) {
        VersionLineHasKey(before[0]);
        assert false;
      }
      FirstVersionAfter(before[1..], line, after);
    }
  }

  lemma FirstVersionNone(lines: seq<string>)
    requires WithoutKey(lines)
    ensures FirstVersion(lines) == |lines|
  {
    hide IsVersionLine;
    if FirstVersion(lines) < |lines| {
      VersionLineHasKey(lines[FirstVersion(lines)]);
      assert false;
    }
  }

  // The line with the version is emptied and nothing else of the route changes: the
  // section has the lines before it, an empty one and the lines after it.
  lemma SectionOfVersioned(before: seq<string>, ws: string, version: string, after: seq<string>, route: string)
    requires AreSpaces(ws) && WithoutKey(before)
    requires Split('\n', route) == before + ([ws + ("resourceVersion" + version)] + after)
    ensures Section(route) == Join('\n', before + ([""] + after)) + "\n---\n"
  {
    hide IsVersionLine, Join, FirstVersion, AreSpaces, WithoutKey;
    KeyMakesVersionLine(ws, version);
    FirstVersionAfter(before, ws + ("resourceVersion" + version), after);
    assert Blanked(Split('\n', route)) == before + ([""] + after);
  }

  // The same, of the text between newlines.
  lemma SectionOfVersionedText(a: string, ws: string, version: string, b: string)
    requires AreSpaces(ws) && WithoutKey(Split('\n', a)) && '\n' !in ws && '\n' !in version
    ensures Section(a + ("\n" + ((ws + ("resourceVersion" + version)) + ("\n" + b))))
         == a + ("\n" + ("\n" + b)) + "\n---\n"
  {
    hide Section, Split, Join, AreSpaces, WithoutKey;
    var line := ws + ("resourceVersion" + version);
    assert '\n' !in line;
    SplitAt('\n', a, line + ("\n" + b));
    SplitAt('\n', line, b);
    OnePart('\n', line);
    SectionOfVersioned(Split('\n', a), ws, version, Split('\n', b), a + ("\n" + (line + ("\n" + b))));
    var blanked := a + ("\n" + ("" + ("\n" + b)));
    SplitAt('\n', a, "" + ("\n" + b));
    SplitAt('\n', "", b);
    OnePart('\n', "");
    JoinOfSplit('\n', blanked);
    assert "" + ("\n" + b) == "\n" + b;
  }

  // A route without the key appears as it is.
  lemma SectionOfPlain(route: string)
    requires WithoutKey(Split('\n', route))
    ensures Section(route) == route + "\n---\n"
  {
    FirstVersionNone(Split('\n', route));
    JoinOfSplit('\n', route);
  }

  // With such a line it is not so: one route can look like two.
  lemma SeparatorLineHidesSections(yaml: string -> string, yaml': string -> string)
    requires yaml("p") == "a" + "\n---\n" + "b" && yaml'("p") == "a" && yaml'("q") == "b"
    ensures Document(["p"], yaml) == Document(["p", "q"], yaml')
  {
    hide Section, Sections, Sort;
    SortShort("p", "q");
    OneSection("p", yaml);
    TwoSections("p", "q", yaml');
    TwoInOne("a", "b");
  }

  lemma TwoInOne(a: string, b: string)
    requires |a| == |b| == 1
    ensures Section(a + "\n---\n" + b) == Section(a) + Section(b)
  {
    hide Section;
    ShortSection(a + "\n---\n" + b);
    ShortSection(a);
    ShortSection(b);
    Associates(a + "\n---\n", b, "\n---\n");
  }

  lemma SortShort(a: string, b: string)
    requires AtMost(a, b)
    ensures Sort([a]) == [a] && Sort([a, b]) == [a, b]
  {
    assert [a, b][1..] == [b];
    assert Sort([b]) == [b];
  }

  lemma OneSection(a: string, yaml: string -> string)
    ensures Sections([a], yaml) == Section(yaml(a))
  {
    hide Section;
    assert [a][..0] == [];
  }

  lemma TwoSections(a: string, b: string, yaml: string -> string)
    ensures Sections([a, b], yaml) == Section(yaml(a)) + Section(yaml(b))
  {
    hide Section;
    OneSection(a, yaml);
    assert [a, b][..1] == [a];
  }

  // A text that is too short for the key.
  lemma ShortSection(route: string)
    requires |route| < |"resourceVersion"|
    ensures Section(route) == route + "\n---\n"
  {
    forall i | 0 <= i < |Split('\n', route)| ensures !Contains(Split('\n', route)[i], "resourceVersion") {
      PartIsShort('\n', route, Split('\n', route)[i]);
    }
    SectionOfPlain(route);
  }

  lemma {:induction false} PartIsShort(sep: char, s: string, part: string)
    requires part in Split(sep, s)
    ensures |part| <= |s|
  {
    if s != "" {
      var rest := Split(sep, s[1..]);
      if part in rest {
        PartIsShort(sep, s[1..], part);
      } else {
        PartIsShort(sep, s[1..], rest[0]);
      }
    }
  }

  // Two texts of a route with versions of their own.
  ghost predicate OtherVersion(x: string, y: string) {
    exists before: seq<string>, ws: string, v: string, w: string, after: seq<string> ::
      IsVersioned(before, ws, v, after, x) && IsVersioned(before, ws, w, after, y)
  }

  ghost predicate IsVersioned(before: seq<string>, ws: string, version: string, after: seq<string>, route: string) {
    && AreSpaces(ws) && WithoutKey(before)
    && Split('\n', route) == before + ([ws + ("resourceVersion" + version)] + after)
  }

  lemma OtherVersionSameSection(x: string, y: string)
    requires OtherVersion(x, y)
    ensures Section(x) == Section(y)
  {
    hide Section, Split, AreSpaces, WithoutKey;
    var before: seq<string>, ws: string, v: string, w: string, after: seq<string> :|
      IsVersioned(before, ws, v, after, x) && IsVersioned(before, ws, w, after, y);
    SectionOfVersioned(before, ws, v, after, x);
    SectionOfVersioned(before, ws, w, after, y);
  }

  // Two states that list the same routes, in any order, and whose routes are the same
  // but for the text after the first resourceVersion, have the same document.
  lemma OtherVersionsSameDocument(a: seq<string>, b: seq<string>, yaml: string -> string, yaml': string -> string)
    requires multiset(a) == multiset(b)
    requires forall n :: n in a ==> yaml(n) == yaml'(n) || OtherVersion(yaml(n), yaml'(n))
    ensures Document(a, yaml) == Document(b, yaml')
  {
    hide Sort, Sections, Section, OtherVersion;
    ListingOrderDoesNotMatter(a, b, yaml');
    SortSorts(a);
    forall n | n in Sort(a) ensures Section(yaml(n)) == Section(yaml'(n)) {
      assert n in multiset(Sort(a));
      if yaml(n) != yaml'(n) {
        OtherVersionSameSection(yaml(n), yaml'(n));
      }
    }
    SectionsAgree(Sort(a), yaml, yaml');
  }

  // ----- the order of the sections -----

  // Strings are ordered by their first difference; a prefix comes first.
  lemma {:induction false} OrderIsExact(a: string, b: string)
    ensures AtMost(a, b) <==> a <= b || exists k: nat :: k < |a| && k < |b| && a[..k] == b[..k] && a[k] < b[k]
  {
    if a != "" && b != "" {
      if a[0] == b[0] {
        OrderIsExact(a[1..], b[1..]);
        LaterDifference(a, b);
      } else if k: nat :| k < |a| && k < |b| && a[..k] == b[..k] && a[k] < b[k] {
        if k > 0 {
          SameStart(a, b, k);
          assert false;
        }
      } else {
        assert a[..0] == b[..0];
      }
    }
  }

  lemma SameStart(a: string, b: string, k: nat)
    requires 0 < k <= |a| && k <= |b| && a[..k] == b[..k]
    ensures a[0] == b[0]
  {
    assert a[..k][0] == b[..k][0];
  }

  lemma LaterDifference(a: string, b: string)
    requires a != "" && b != "" && a[0] == b[0]
    ensures a <= b <==> a[1..] <= b[1..]
    ensures (exists k: nat :: k < |a| && k < |b| && a[..k] == b[..k] && a[k] < b[k])
       <==> exists k: nat :: k < |a[1..]| && k < |b[1..]| && a[1..][..k] == b[1..][..k] && a[1..][k] < b[1..][k]
  {
    assert a == [a[0]] + a[1..] && b == [b[0]] + b[1..];
    if k: nat :| k < |a| && k < |b| && a[..k] == b[..k] && a[k] < b[k] {
      assert a[1..][..k - 1] == a[..k][1..] && b[1..][..k - 1] == b[..k][1..];
    }
    if k: nat :| k < |a[1..]| && k < |b[1..]| && a[1..][..k] == b[1..][..k] && a[1..][k] < b[1..][k] {
      assert a[..k + 1] == [a[0]] + a[1..][..k] && b[..k + 1] == [b[0]] + b[1..][..k];
    }
  }

  // The document is the sections of the routes in the order of their names.
  lemma DocumentIsInNameOrder(names: seq<string>, sorted: seq<string>, yaml: string -> string)
    requires multiset(names) == multiset(sorted) && Sorted(sorted)
    ensures Document(names, yaml) == Sections(sorted, yaml)
  {
    SortSorts(names);
    SortedIsUnique(Sort(names), sorted);
  }

  lemma SectionsFollow(names: seq<string>, name: string, yaml: string -> string)
    ensures Sections([], yaml) == ""
    ensures Sections(names + [name], yaml) == Sections(names, yaml) + Section(yaml(name))
  {
    assert (names + [name])[..|names|] == names;
  }
}
