/**
  `strings.Split` and `strings.Join` with a separator of one character.  Strings
  are sequences of code points.
 */
module Strings {

  function Split(sep: char, s: string): (parts: seq<string>)
    ensures |parts| > 0
  {
    if s == "" then [""]
    else
      var rest := Split(sep, s[1..]);
      if s[0] == sep then [""] + rest
      else [[s[0]] + rest[0]] + rest[1..]
  }

  function Join(sep: char, parts: seq<string>): string {
    if parts == [] then ""
    else if |parts| == 1 then parts[0]
    else parts[0] + [sep] + Join(sep, parts[1..])
  }

  predicate IsPart(sep: char, part: string) {
    sep !in part
  }

  predicate AreParts(sep: char, parts: seq<string>) {
    forall i :: 0 <= i < |parts| ==> IsPart(sep, parts[i])
  }

  lemma {:induction false} SplitGivesParts(sep: char, s: string)
    ensures AreParts(sep, Split(sep, s))
  {
    if s != "" {
      SplitGivesParts(sep, s[1..]);
      var rest := Split(sep, s[1..]);
      assert IsPart(sep, rest[0]);
    }
  }

  // The first part grows at its front.
  lemma JoinPush(sep: char, c: char, parts: seq<string>)
    requires |parts| > 0
    ensures Join(sep, [[c] + parts[0]] + parts[1..]) == [c] + Join(sep, parts)
  {
  }

  lemma {:induction false} JoinOfSplit(sep: char, s: string)
    ensures Join(sep, Split(sep, s)) == s
  {
    if s != "" {
      var rest := Split(sep, s[1..]);
      JoinOfSplit(sep, s[1..]);
      if s[0] == sep {
        assert ([""] + rest)[1..] == rest;
        assert Join(sep, [""] + rest) == "" + [sep] + Join(sep, rest);
      } else {
        JoinPush(sep, s[0], rest);
      }
      assert s == [s[0]] + s[1..];
    }
  }

  // The parts, with a prefix put before the first.
  function Prepend(prefix: string, parts: seq<string>): (r: seq<string>)
    requires |parts| > 0
    ensures |r| > 0
  {
    [prefix + parts[0]] + parts[1..]
  }

  lemma SplitCons(sep: char, c: char, s: string)
    ensures Split(sep, [c] + s) == if c == sep then [""] + Split(sep, s) else Prepend([c], Split(sep, s))
  {
    assert ([c] + s)[1..] == s;
  }

  lemma PrependAppend(prefix: string, a: seq<string>, b: seq<string>)
    requires |a| > 0
    ensures Prepend(prefix, a + b) == Prepend(prefix, a) + b
  {
    assert (a + b)[1..] == a[1..] + b;
  }

  lemma PrependTwice(a: string, b: string, parts: seq<string>)
    requires |parts| > 0
    ensures Prepend(a, Prepend(b, parts)) == Prepend(a + b, parts)
  {
    assert a + (b + parts[0]) == (a + b) + parts[0];
  }

  lemma PrependNothing(parts: seq<string>)
    requires |parts| > 0
    ensures Prepend("", parts) == parts
  {
    assert "" + parts[0] == parts[0];
  }

  // A separator-free prefix joins the first part.
  lemma {:induction false} SplitPrepend(sep: char, part: string, s: string)
    requires IsPart(sep, part)
    ensures Split(sep, part + s) == Prepend(part, Split(sep, s))
  {
    hide Split, Prepend;
    if part == "" {
      assert part + s == s;
      PrependNothing(Split(sep, s));
    } else {
      var c, rest := part[0], part[1..];
      assert c in part && part == [c] + rest;
      SplitPrepend(sep, rest, s);
      SplitCons(sep, c, rest + s);
      Associates([c], rest, s);
      PrependTwice([c], rest, Split(sep, s));
    }
  }

  lemma Associates<T>(a: seq<T>, b: seq<T>, c: seq<T>)
    ensures a + (b + c) == (a + b) + c
  {
  }

  // Splitting distributes over a separator.
  lemma {:induction false} SplitAt(sep: char, a: string, b: string)
    ensures Split(sep, a + ([sep] + b)) == Split(sep, a) + Split(sep, b)
    decreases |a|
  {
    var tail := [sep] + b;
    if a == "" {
      assert a + tail == tail;
      SplitCons(sep, sep, b);
    } else {
      hide Split, Prepend;
      var c, rest := a[0], a[1..];
      assert a == [c] + rest;
      SplitAt(sep, rest, b);
      SplitCons(sep, c, rest);
      SplitCons(sep, c, rest + tail);
      Associates([c], rest, tail);
      if c == sep {
        Associates([""], Split(sep, rest), Split(sep, b));
      } else {
        PrependAppend([c], Split(sep, rest), Split(sep, b));
      }
    }
  }

  lemma {:induction false} OnePart(sep: char, s: string)
    ensures |Split(sep, s)| == 1 <==> sep !in s
    ensures sep !in s ==> Split(sep, s) == [s]
  {
    if s != "" {
      OnePart(sep, s[1..]);
      assert s == [s[0]] + s[1..];
    }
  }

  lemma {:induction false} SplitOfJoin(sep: char, parts: seq<string>)
    requires parts != [] && AreParts(sep, parts)
    ensures Split(sep, Join(sep, parts)) == parts
  {
    if |parts| == 1 {
      SplitPrepend(sep, parts[0], "");
      assert parts[0] + "" == parts[0];
    } else {
      var rest := Join(sep, parts[1..]);
      SplitOfJoin(sep, parts[1..]);
      SplitPrepend(sep, parts[0], [sep] + rest);
      assert ([sep] + rest)[1..] == rest;
      assert Join(sep, parts) == parts[0] + ([sep] + rest);
      assert Split(sep, [sep] + rest) == [""] + parts[1..];
      assert ([""] + parts[1..])[1..] == parts[1..] && parts[0] + "" == parts[0];
    }
  }

  // So joining loses nothing.
  lemma JoinIsInjective(sep: char, a: seq<string>, b: seq<string>)
    requires a != [] && b != [] && AreParts(sep, a) && AreParts(sep, b) && Join(sep, a) == Join(sep, b)
    ensures a == b
  {
    SplitOfJoin(sep, a);
    SplitOfJoin(sep, b);
  }
}
