/**
  `version.ParseVersion` and `Version.String`.  Go's int is 64 bits wide.
 */
module Version {
  import opened Wrappers
  import opened Strings

  const MAX_INT64 := 0x7fff_ffff_ffff_ffff
  const MIN_INT64 := -0x8000_0000_0000_0000

  predicate IsInt64(n: int) {
    MIN_INT64 <= n <= MAX_INT64
  }

  datatype Version = Version(major: int, minor: int) {
    predicate Valid() {
      IsInt64(major) && IsInt64(minor)
    }
  }

  // ----- %d and strconv.Atoi -----

  predicate IsDigit(c: char) {
    '0' <= c <= '9'
  }

  function Digit(d: nat): (c: char)
    requires d < 10
    ensures IsDigit(c)
  {
    '0' + d as char
  }

  function DigitValue(c: char): (d: nat)
    requires IsDigit(c)
    ensures d < 10
  {
    (c - '0') as nat
  }

  predicate AreDigits(s: string) {
    forall i :: 0 <= i < |s| ==> IsDigit(s[i])
  }

  function Digits(n: nat): (s: string)
    ensures s != "" && AreDigits(s)
  {
    if n < 10 then [Digit(n)] else Digits(n / 10) + [Digit(n % 10)]
  }

  function FormatInt(n: int): string {
    if n < 0 then "-" + Digits(-n) else Digits(n)
  }

  function DigitsValue(s: string): nat
    requires AreDigits(s)
  {
    if s == "" then 0 else DigitsValue(s[..|s| - 1]) * 10 + DigitValue(s[|s| - 1])
  }

  // An optional sign and at least one digit, within 64 bits; none for an error.
  function Atoi(s: string): (r: Option<int>)
    ensures r.Some? ==> IsInt64(r.value)
  {
    var signed := s != "" && (s[0] == '+' || s[0] == '-');
    var digits := if signed then s[1..] else s;
    if digits == "" || !AreDigits(digits) then None
    else
      var magnitude: int := DigitsValue(digits);
      var n := if signed && s[0] == '-' then -magnitude else magnitude;
      if IsInt64(n) then Some(n) else None
  }

  lemma {:induction false} DigitsRoundTrip(n: nat)
    ensures DigitsValue(Digits(n)) == n
  {
    if n >= 10 {
      DigitsRoundTrip(n / 10);
      var s := Digits(n);
      assert s[..|s| - 1] == Digits(n / 10);
    } else {
      assert Digits(n)[..0] == "";
    }
  }

  lemma AtoiOfFormat(n: int)
    ensures Atoi(FormatInt(n))
         == if -9223372036854775808 <= n <= 9223372036854775807 then Some(n) else None
  {
    var m := if n < 0 then -n else n;
    DigitsRoundTrip(m);
    hide Digits, DigitsValue;
    assert ("-" + Digits(m))[1..] == Digits(m);
    assert IsDigit(Digits(m)[0]);
  }

  lemma FormatHasNoDot(n: int)
    ensures IsPart('.', FormatInt(n)) && FormatInt(n) != "" && FormatInt(n)[0] != 'v'
  {
  }

  // ----- versions -----

  function WithoutV(s: string): string {
    if s != "" && s[0] == 'v' then s[1..] else s
  }

  function VersionOf(major: string, minor: string): (r: Option<Version>)
    ensures r.Some? ==> r.value.Valid()
  {
    match (Atoi(major), Atoi(minor))
    case (Some(m), Some(n)) => Some(Version(m, n))
    case _ => None
  }

  // None for a panic.
  function ParseVersion(version: string): (r: Option<Version>)
    ensures r.Some? ==> r.value.Valid()
  {
    var majorMinor := Split('.', WithoutV(version));
    if |majorMinor| < 2 then None
    else VersionOf(majorMinor[0], majorMinor[1])
  }

  function Bare(v: Version): string {
    FormatInt(v.major) + "." + FormatInt(v.minor)
  }

  // Version.String
  function ToString(v: Version): string {
    "v" + Bare(v)
  }

  lemma BareSplits(v: Version)
    ensures Split('.', Bare(v)) == [FormatInt(v.major), FormatInt(v.minor)]
    ensures WithoutV(Bare(v)) == Bare(v)
  {
    var parts := [FormatInt(v.major), FormatInt(v.minor)];
    FormatHasNoDot(v.major);
    FormatHasNoDot(v.minor);
    assert Join('.', parts[1..]) == parts[1];
    assert Bare(v) == Join('.', parts);
    SplitOfJoin('.', parts);
  }

  // Parsing undoes printing exactly on versions of 64-bit numbers.
  lemma ParseOfString(v: Version)
    ensures ParseVersion(ToString(v)) == if v.Valid() then Some(v) else None
  {
    assert WithoutV(ToString(v)) == Bare(v);
    BareSplits(v);
    AtoiOfFormat(v.major);
    AtoiOfFormat(v.minor);
  }

  // One leading v is dropped, and only one.
  lemma LeadingVIsOptional(s: string)
    ensures ParseVersion("v" + s) == if s != "" && s[0] == 'v' then None else ParseVersion(s)
  {
    assert ("v" + s)[1..] == s;
    if s != "" && s[0] == 'v' {
      var part := Split('.', s)[0];
      assert part[0] == 'v' && !AreDigits(part);
    }
  }

  // A patch version, or anything else that follows a further dot, is ignored.  After
  // a text without a dot, which is no version, it supplies the minor number.
  lemma RestIsIgnored(s: string, rest: string)
    ensures '.' in s ==> ParseVersion(s + "." + rest) == ParseVersion(s)
    ensures '.' !in s ==>
      && ParseVersion(s) == None
      && ParseVersion(s + "." + rest) == VersionOf(WithoutV(s), Split('.', rest)[0])
  {
    hide VersionOf, WithoutV, Split;
    var text := WithoutV(s);
    WithoutVOfRest(s, rest);
    SplitAt('.', text, rest);
    OnePart('.', text);
  }

  lemma WithoutVOfRest(s: string, rest: string)
    ensures WithoutV(s + "." + rest) == WithoutV(s) + (['.'] + rest)
    ensures '.' in WithoutV(s) <==> '.' in s
  {
    if s == "" {
      assert "" + "." + rest == "" + (['.'] + rest);
    } else {
      assert s == [s[0]] + s[1..];
      assert (s + "." + rest)[1..] == s[1..] + (['.'] + rest);
      assert s + "." + rest == s + (['.'] + rest);
    }
  }

  lemma StringIsInjective(v: Version, w: Version)
    requires v.Valid() && w.Valid() && ToString(v) == ToString(w)
    ensures v == w
  {
    ParseOfString(v);
    ParseOfString(w);
  }

  // The parser accepts nothing but two numbers in the first two parts.
  lemma ParseAcceptsExactly(s: string, v: Version)
    ensures ParseVersion(s) == Some(v) <==>
      exists parts: seq<string> ::
        && |parts| >= 2 && AreParts('.', parts) && WithoutV(s) == Join('.', parts)
        && Atoi(parts[0]) == Some(v.major) && Atoi(parts[1]) == Some(v.minor)
  {
    var split := Split('.', WithoutV(s));
    JoinOfSplit('.', WithoutV(s));
    SplitGivesParts('.', WithoutV(s));
    forall parts: seq<string> | |parts| >= 2 && AreParts('.', parts) && WithoutV(s) == Join('.', parts)
      ensures parts == split
    {
      SplitOfJoin('.', parts);
    }
  }

  // ----- how numbers are printed and read -----

  // Decimal, with a sign only when negative and no leading zero.
  lemma {:induction false} DigitsForm(n: nat)
    ensures AreDigits(Digits(n)) && (Digits(n)[0] == '0' <==> n == 0) && (n == 0 ==> Digits(n) == "0")
  {
    if n >= 10 {
      DigitsForm(n / 10);
    }
  }

  lemma StringForm(v: Version)
    ensures ToString(v) == "v" + (FormatInt(v.major) + "." + FormatInt(v.minor))
    ensures forall n: int :: n >= 0 ==> AreDigits(FormatInt(n)) && (FormatInt(n)[0] == '0' ==> FormatInt(n) == "0")
    ensures forall n: int :: n < 0 ==> FormatInt(n)[0] == '-' && AreDigits(FormatInt(n)[1..]) && FormatInt(n)[1] != '0'
  {
    forall n: int | n >= 0 ensures AreDigits(FormatInt(n)) && (FormatInt(n)[0] == '0' ==> FormatInt(n) == "0") {
      DigitsForm(n);
    }
    forall n: int | n < 0
      ensures FormatInt(n)[0] == '-' && AreDigits(FormatInt(n)[1..]) && FormatInt(n)[1] != '0'
    {
      DigitsForm(-n);
      assert FormatInt(n)[1..] == Digits(-n);
    }
  }

  // A character that is neither a digit nor a sign at the front makes a number unreadable,
  // and so does having no digits.
  lemma AtoiRejects(s: string, i: nat)
    requires s == "" || s == "+" || s == "-"
          || (i < |s| && !('0' <= s[i] <= '9') && !(i == 0 && (s[0] == '+' || s[0] == '-')))
    ensures Atoi(s) == None
  {
    if i < |s| && i > 0 && (s[0] == '+' || s[0] == '-') {
      assert s[1..][i - 1] == s[i];
    }
  }

  // A plus sign and zeros in front change nothing.
  lemma AtoiIgnoresPlusAndZeros(s: string)
    requires s != "" && AreDigits(s)
    ensures Atoi("+" + s) == Atoi(s) && Atoi("0" + s) == Atoi(s) && Atoi("+0" + s) == Atoi(s)
  {
    assert ("+" + s)[1..] == s && ("+0" + s)[1..] == "0" + s;
    ZeroInFront(s);
  }

  lemma {:induction false} ZeroInFront(s: string)
    requires AreDigits(s)
    ensures AreDigits("0" + s) && DigitsValue("0" + s) == DigitsValue(s)
  {
    if s == "" {
      assert "0" + s == "0" && "0"[..0] == "";
    } else {
      ZeroInFront(s[..|s| - 1]);
      assert ("0" + s)[..|s|] == "0" + s[..|s| - 1];
    }
  }
}
