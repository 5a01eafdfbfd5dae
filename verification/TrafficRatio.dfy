/**
  `checkTrafficRatio`: count which of the expected response files each response
  matches, then accept every file that was seen if its share is within tolerance.
  The second loop never looks at a file that no response matched.

  Rates are exact reals; a response is the set of files its body matches.
 */
module TrafficRatio {

  // Go's conversion of a float to int.
  function Trunc(x: real): int {
    if x >= 0.0 then x.Floor else -((-x).Floor)
  }

  predicate IsWithinPercentage(count: int, total: int, rate: real, tolerance: real) {
    Trunc((rate - tolerance) * total as real) <= count <= Trunc((rate + tolerance) * total as real)
  }

  // What truncation accepts: less than one below the lower bound, nothing above
  // the upper one, but for a zero count when that bound is above -1.
  lemma AcceptanceExact(count: nat, total: nat, rate: real, tolerance: real)
    ensures var lo := (rate - tolerance) * total as real;
      var hi := (rate + tolerance) * total as real;
      IsWithinPercentage(count, total, rate, tolerance)
      <==> count as real > lo - 1.0 && (count as real <= hi || (count == 0 && hi > -1.0))
  {
  }

  type Response = set<string>

  // How many of the first n responses matched the file.
  function Count(responses: seq<Response>, file: string, n: nat): nat
    requires n <= |responses|
  {
    if n == 0 then 0 else Count(responses, file, n - 1) + (if file in responses[n - 1] then 1 else 0)
  }

  // The files that one of the first n responses matched.
  ghost function SeenIn(ratios: map<string, real>, responses: seq<Response>, n: nat): set<string>
    requires n <= |responses|
  {
    set f | f in ratios && Count(responses, f, n) > 0
  }

  predicate Matched(ratios: map<string, real>, response: Response) {
    exists file :: file in ratios && file in response
  }

  datatype Outcome =
    | Unmatched              // t.Fatal: a response matched no expected file
    | Checked(errors: nat)   // that many files were out of tolerance

  // The check function of one response: a range over the expected files.
  method CountResponse(ratios: map<string, real>, response: Response, counts: map<string, nat>)
    returns (matched: bool, counts': map<string, nat>)
    requires counts.Keys <= ratios.Keys
    ensures matched == Matched(ratios, response)
    ensures counts'.Keys == counts.Keys + (ratios.Keys * response)
    ensures forall f :: f in counts' ==>
      counts'[f] == (if f in counts then counts[f] else 0) + (if f in response then 1 else 0)
  {
    matched := false;
    counts' := counts;
    var files := ratios.Keys;
    while files != {}
      invariant files <= ratios.Keys
      invariant matched <==> exists f :: f in ratios.Keys - files && f in response
      invariant counts'.Keys == counts.Keys + (ratios.Keys - files) * response
      invariant forall f :: f in counts' ==>
        counts'[f] == (if f in counts then counts[f] else 0) + (if f in response && f !in files then 1 else 0)
      decreases files
    {
      var file :| file in files;
      files := files - {file};
      if file in response {
        matched := true;
        counts' := counts'[file := (if file in counts' then counts'[file] else 0) + 1];
      }
    }
  }

  // The first loop; stops at the first unmatched response.
  method CountMatches(ratios: map<string, real>, responses: seq<Response>) returns (ok: bool, counts: map<string, nat>)
    ensures ok <==> forall i :: 0 <= i < |responses| ==> Matched(ratios, responses[i])
    ensures ok ==> counts.Keys == SeenIn(ratios, responses, |responses|)
    ensures ok ==> forall f :: f in counts ==> counts[f] == Count(responses, f, |responses|)
  {
    hide Matched;
    counts := map[];
    var i := 0;
    while i < |responses|
      invariant 0 <= i <= |responses|
      invariant forall k :: 0 <= k < i ==> Matched(ratios, responses[k])
      invariant counts.Keys == SeenIn(ratios, responses, i)
      invariant forall f :: f in counts ==> counts[f] == Count(responses, f, i)
    {
      var matched;
      matched, counts := CountResponse(ratios, responses[i], counts);
      if !matched {
        return false, counts;
      }
      i := i + 1;
    }
    ok := true;
  }

  method CheckTrafficRatio(ratios: map<string, real>, responses: seq<Response>, tolerance: real)
    returns (outcome: Outcome)
    ensures outcome.Unmatched? <==> exists i :: 0 <= i < |responses| && !Matched(ratios, responses[i])
    ensures outcome.Checked? ==>
      outcome.errors == |set f | f in ratios && OutOfTolerance(ratios, responses, tolerance, f)|
  {
    var ok, counts := CountMatches(ratios, responses);
    if !ok {
      return Unmatched;
    }
    var n := |responses|;
    var errors := 0;
    var files := counts.Keys;
    ghost var bad := {};
    while files != {}
      invariant files <= counts.Keys
      invariant errors == |bad|
      invariant bad == set f | f in counts.Keys - files && OutOfTolerance(ratios, responses, tolerance, f)
      decreases files
    {
      var file :| file in files;
      files := files - {file};
      if !IsWithinPercentage(counts[file], n, ratios[file], tolerance) {
        errors := errors + 1;
        bad := bad + {file};
      }
    }
    assert bad == set f | f in ratios && OutOfTolerance(ratios, responses, tolerance, f);
    outcome := Checked(errors);
  }

  // The file was seen, and its share is rejected.
  predicate OutOfTolerance(ratios: map<string, real>, responses: seq<Response>, tolerance: real, f: string) {
    f in ratios && Count(responses, f, |responses|) > 0
    && !IsWithinPercentage(Count(responses, f, |responses|), |responses|, ratios[f], tolerance)
  }

  // ----- what an accepted check says about files that were never seen -----

  ghost function Sum(fs: set<string>, g: map<string, real>): real
    requires fs <= g.Keys
  {
    if fs == {} then 0.0
    else
      var f :| f in fs;
      g[f] + Sum(fs - {f}, g)
  }

  lemma {:induction false} SumPick(fs: set<string>, g: map<string, real>, x: string)
    requires fs <= g.Keys && x in fs
    ensures Sum(fs, g) == g[x] + Sum(fs - {x}, g)
  {
    var y :| y in fs && Sum(fs, g) == g[y] + Sum(fs - {y}, g);
    if y != x {
      SumPick(fs - {y}, g, x);
      SumPick(fs - {x}, g, y);
      assert fs - {y} - {x} == fs - {x} - {y};
    }
  }

  lemma {:induction false} SumSplit(fs: set<string>, part: set<string>, g: map<string, real>)
    requires part <= fs <= g.Keys
    ensures Sum(fs, g) == Sum(part, g) + Sum(fs - part, g)
    decreases part
  {
    if part == {} {
      assert fs - part == fs;
    } else {
      var x :| x in part;
      SumPick(fs, g, x);
      SumPick(part, g, x);
      SumSplit(fs - {x}, part - {x}, g);
      assert fs - {x} - (part - {x}) == fs - part;
    }
  }

  // m tolerances, added up.
  ghost function Tolerances(m: nat, tolerance: real): real {
    if m == 0 then 0.0 else Tolerances(m - 1, tolerance) + tolerance
  }

  lemma {:induction false} TolerancesMultiply(m: nat, tolerance: real)
    ensures Tolerances(m, tolerance) == m as real * tolerance
  {
    if m > 0 {
      TolerancesMultiply(m - 1, tolerance);
    }
  }

  // Products and quotients by name, so that the solver multiplies only where told.
  ghost function Mul(a: real, b: real): real {
    a * b
  }

  ghost function Div(a: real, b: real): real
    requires b > 0.0
  {
    a / b
  }

  lemma Factor(a: real, b: real, n: real)
    ensures Mul(a, n) + Mul(b, n) == Mul(a + b, n)
  {
  }

  lemma CancelFactor(n: real, x: real)
    requires n > 0.0 && n <= Mul(x, n)
    ensures 1.0 <= x
  {
  }

  lemma Divide(c: real, n: real)
    requires n > 0.0
    ensures Mul(Div(c, n), n) == c
  {
  }

  lemma DivideBound(c: real, n: real, bound: real)
    requires n > 0.0 && c <= bound * n
    ensures Div(c, n) <= bound
  {
    var q := c / n;
    if q > bound {
      assert q * n > bound * n;
    }
  }

  lemma {:induction false} SumMonotone(fs: set<string>, g: map<string, real>, h: map<string, real>)
    requires fs <= g.Keys && fs <= h.Keys
    requires forall f :: f in fs ==> g[f] <= h[f]
    ensures Sum(fs, g) <= Sum(fs, h)
  {
    if fs != {} {
      var x :| x in fs;
      SumPick(fs, g, x);
      SumPick(fs, h, x);
      SumMonotone(fs - {x}, g, h);
    }
  }

  lemma {:induction false} SumScaled(fs: set<string>, g: map<string, real>, h: map<string, real>, n: real)
    requires fs <= g.Keys && fs <= h.Keys
    requires forall f :: f in fs ==> g[f] == Mul(h[f], n)
    ensures Sum(fs, g) == Mul(Sum(fs, h), n)
  {
    if fs == {} {
      assert Mul(0.0, n) == 0.0;
    } else {
      hide Mul;
      var x :| x in fs;
      SumPick(fs, g, x);
      SumPick(fs, h, x);
      SumScaled(fs - {x}, g, h, n);
      Factor(h[x], Sum(fs - {x}, h), n);
    }
  }

  // Within the tolerance pointwise, and so within one tolerance per file in sum.
  lemma {:induction false} SumBound(fs: set<string>, g: map<string, real>, h: map<string, real>, tolerance: real)
    requires fs <= g.Keys && fs <= h.Keys
    requires forall f :: f in fs ==> g[f] <= h[f] + tolerance
    ensures Sum(fs, g) <= Sum(fs, h) + Tolerances(|fs|, tolerance)
  {
    if fs != {} {
      var x :| x in fs;
      SumPick(fs, g, x);
      SumPick(fs, h, x);
      SumBound(fs - {x}, g, h, tolerance);
      assert |fs| == |fs - {x}| + 1;
    }
  }

  ghost function Counts(ratios: map<string, real>, responses: seq<Response>, n: nat): map<string, real>
    requires n <= |responses|
  {
    map f | f in ratios :: Count(responses, f, n) as real
  }

  // n matched responses give at least n matches.
  lemma {:induction false} EveryResponseCounts(ratios: map<string, real>, responses: seq<Response>, n: nat)
    requires n <= |responses| && forall i :: 0 <= i < n ==> Matched(ratios, responses[i])
    ensures Sum(ratios.Keys, Counts(ratios, responses, n)) >= n as real
  {
    var ks := ratios.Keys;
    var now := Counts(ratios, responses, n);
    if n == 0 {
      SumNonNegative(ks, now);
    } else {
      var before := Counts(ratios, responses, n - 1);
      EveryResponseCounts(ratios, responses, n - 1);
      assert Matched(ratios, responses[n - 1]);
      var x :| x in ratios && x in responses[n - 1];
      SumPick(ks, now, x);
      SumPick(ks, before, x);
      SumMonotone(ks - {x}, before, now);
    }
  }

  lemma {:induction false} SumNonNegative(fs: set<string>, g: map<string, real>)
    requires fs <= g.Keys && forall f :: f in fs ==> g[f] >= 0.0
    ensures Sum(fs, g) >= 0.0
  {
    if fs != {} {
      var x :| x in fs;
      SumPick(fs, g, x);
      SumNonNegative(fs - {x}, g);
    }
  }

  lemma {:induction false} SumZero(fs: set<string>, g: map<string, real>)
    requires fs <= g.Keys && forall f :: f in fs ==> g[f] == 0.0
    ensures Sum(fs, g) == 0.0
  {
    if fs != {} {
      var x :| x in fs;
      SumPick(fs, g, x);
      SumZero(fs - {x}, g);
    }
  }

  ghost function Seen(ratios: map<string, real>, responses: seq<Response>): set<string> {
    SeenIn(ratios, responses, |responses|)
  }

  ghost predicate Accepted(ratios: map<string, real>, responses: seq<Response>, tolerance: real) {
    && (forall i :: 0 <= i < |responses| ==> Matched(ratios, responses[i]))
    && (forall f :: f in ratios ==> !OutOfTolerance(ratios, responses, tolerance, f))
  }

  // The shares of the responses.
  ghost function Shares(ratios: map<string, real>, responses: seq<Response>): (m: map<string, real>)
    requires |responses| > 0
    ensures m.Keys == ratios.Keys
  {
    map f | f in ratios :: Div(Count(responses, f, |responses|) as real, |responses| as real)
  }

  lemma CountsAreShares(ratios: map<string, real>, responses: seq<Response>)
    requires |responses| > 0
    ensures var counts := Counts(ratios, responses, |responses|);
      counts.Keys == ratios.Keys
      && forall f :: f in ratios ==> counts[f] == Mul(Shares(ratios, responses)[f], |responses| as real)
  {
    hide Mul, Div;
    forall f | f in ratios {
      Divide(Count(responses, f, |responses|) as real, |responses| as real);
    }
  }

  lemma UnseenCountNothing(ratios: map<string, real>, responses: seq<Response>)
    ensures Sum(ratios.Keys - Seen(ratios, responses), Counts(ratios, responses, |responses|)) == 0.0
  {
    SumZero(ratios.Keys - Seen(ratios, responses), Counts(ratios, responses, |responses|));
  }

  lemma SeenWithinRate(ratios: map<string, real>, responses: seq<Response>, tolerance: real, f: string)
    requires Accepted(ratios, responses, tolerance) && f in Seen(ratios, responses) && |responses| > 0
    ensures f in ratios && Shares(ratios, responses)[f] <= ratios[f] + tolerance
  {
    assert !OutOfTolerance(ratios, responses, tolerance, f);
    hide Accepted, Div, Mul, OutOfTolerance, Trunc;
    ShareBound(Count(responses, f, |responses|), |responses|, ratios[f], tolerance);
  }

  lemma ShareBound(c: nat, n: nat, rate: real, tolerance: real)
    requires 0 < c && 0 < n && IsWithinPercentage(c, n, rate, tolerance)
    ensures Div(c as real, n as real) <= rate + tolerance
  {
    AcceptanceExact(c, n, rate, tolerance);
    hide IsWithinPercentage, Div;
    DivideBound(c as real, n as real, rate + tolerance);
  }

  // The shares of the files seen cover everything.
  lemma SeenSharesCoverAll(ratios: map<string, real>, responses: seq<Response>)
    requires |responses| > 0 && forall i :: 0 <= i < |responses| ==> Matched(ratios, responses[i])
    ensures Seen(ratios, responses) <= ratios.Keys
    ensures Sum(Seen(ratios, responses), Shares(ratios, responses)) >= 1.0
    ensures Seen(ratios, responses) != {}
  {
    var ks, seen := ratios.Keys, Seen(ratios, responses);
    var counts, shares := Counts(ratios, responses, |responses|), Shares(ratios, responses);
    var n := |responses| as real;
    EveryResponseCounts(ratios, responses, |responses|);
    CountsAreShares(ratios, responses);
    hide Sum, Counts, Shares, Matched, Mul;
    SumSplit(ks, seen, counts);
    UnseenCountNothing(ratios, responses);
    SumScaled(seen, counts, shares, n);
    CancelFactor(n, Sum(seen, shares));
    NoFilesNoShare(shares);
  }

  lemma NoFilesNoShare(g: map<string, real>)
    ensures Sum({}, g) == 0.0
  {
  }

  lemma SeenSharesBounded(ratios: map<string, real>, responses: seq<Response>, tolerance: real)
    requires Accepted(ratios, responses, tolerance) && |responses| > 0
    ensures var seen := Seen(ratios, responses);
      seen <= ratios.Keys
      && Sum(seen, Shares(ratios, responses)) <= Sum(seen, ratios) + Tolerances(|seen|, tolerance)
  {
    hide Accepted, Shares, Sum, Tolerances;
    var seen := Seen(ratios, responses);
    forall f | f in seen ensures Shares(ratios, responses)[f] <= ratios[f] + tolerance {
      SeenWithinRate(ratios, responses, tolerance, f);
    }
    SumBound(seen, Shares(ratios, responses), ratios, tolerance);
  }

  // Together, the files that were never seen are expected to get at most the
  // tolerance once for every file that was seen.
  lemma AbsentRatesAreSmall(ratios: map<string, real>, responses: seq<Response>, tolerance: real)
    requires Accepted(ratios, responses, tolerance) && |responses| > 0
    requires Sum(ratios.Keys, ratios) == 1.0
    ensures Seen(ratios, responses) <= ratios.Keys && Seen(ratios, responses) != {}
    ensures Sum(ratios.Keys - Seen(ratios, responses), ratios) <= Tolerances(|Seen(ratios, responses)|, tolerance)
  {
    hide Shares, Tolerances, Sum, IsWithinPercentage;
    SeenSharesCoverAll(ratios, responses);
    SeenSharesBounded(ratios, responses, tolerance);
    SumSplit(ratios.Keys, Seen(ratios, responses), ratios);
  }

  // With non-negative rates, an accepted check bounds each file never seen by the
  // tolerance times the number of the other files.
  lemma AbsentFileBounded(ratios: map<string, real>, responses: seq<Response>, tolerance: real, f: string)
    requires Accepted(ratios, responses, tolerance) && |responses| > 0
    requires Sum(ratios.Keys, ratios) == 1.0 && forall g :: g in ratios ==> ratios[g] >= 0.0
    requires f in ratios && f !in Seen(ratios, responses)
    ensures ratios[f] <= (|ratios| - 1) as real * tolerance
  {
    hide Accepted, Sum;
    var ks, seen := ratios.Keys, Seen(ratios, responses);
    AbsentRatesAreSmall(ratios, responses, tolerance);
    TolerancesMultiply(|seen|, tolerance);
    SumPick(ks - seen, ratios, f);
    SumNonNegative(ks - seen - {f}, ratios);
    Subset(seen, ks - {f});
    hide *;
    assert |ks - {f}| == |ratios| - 1;
    assert |seen| > 0;
    Scale(ratios[f], Sum(ks - seen - {f}, ratios), |seen|, |ratios| - 1, tolerance);
  }

  lemma Scale(rate: real, others: real, m: nat, k: nat, tolerance: real)
    requires 0 < m <= k && rate >= 0.0 && others >= 0.0 && rate + others <= m as real * tolerance
    ensures rate <= k as real * tolerance
  {
  }

  lemma {:induction false} Subset(a: set<string>, b: set<string>)
    requires a <= b
    ensures |a| <= |b|
    decreases a
  {
    if a != {} {
      var x :| x in a;
      Subset(a - {x}, b - {x});
    }
  }

  // The bound is reached: a file expected at exactly the tolerance may be absent.
  lemma BoundIsReached(tolerance: real)
    requires 0.0 <= tolerance <= 1.0
    ensures var ratios := map["seen" := 1.0 - tolerance, "absent" := tolerance];
      var responses := [{"seen"}];
      Accepted(ratios, responses, tolerance) && "absent" !in Seen(ratios, responses)
      && ratios["absent"] == (|ratios| - 1) as real * tolerance
  {
    var ratios := map["seen" := 1.0 - tolerance, "absent" := tolerance];
    var responses: seq<Response> := [{"seen"}];
    assert Count(responses, "seen", 1) == 1 && Count(responses, "absent", 1) == 0 by {
      assert Count(responses, "seen", 0) == 0 && Count(responses, "absent", 0) == 0;
    }
    assert "seen" in ratios && "seen" in responses[0];
    assert Matched(ratios, responses[0]);
    AcceptanceExact(1, 1, 1.0 - tolerance, tolerance);
  }

  // Without a request nothing bounds them: everything is accepted.
  lemma NoRequestsAcceptEverything(ratios: map<string, real>, tolerance: real)
    ensures Accepted(ratios, [], tolerance) && Seen(ratios, []) == {}
  {
  }

  // Exactly what is accepted of the files that were seen: their counts lie between the
  // two bounds, where the lower one is missed by less than one.
  lemma AcceptedExactly(ratios: map<string, real>, responses: seq<Response>, tolerance: real)
    ensures Accepted(ratios, responses, tolerance) <==>
      && (forall i :: 0 <= i < |responses| ==> Matched(ratios, responses[i]))
      && forall f :: f in ratios && Count(responses, f, |responses|) > 0 ==>
           var c, n := Count(responses, f, |responses|) as real, |responses| as real;
           (ratios[f] - tolerance) * n - 1.0 < c <= (ratios[f] + tolerance) * n
  {
    hide IsWithinPercentage, Matched;
    forall f | f in ratios && Count(responses, f, |responses|) > 0
      ensures OutOfTolerance(ratios, responses, tolerance, f) <==>
        var c, n := Count(responses, f, |responses|) as real, |responses| as real;
        !((ratios[f] - tolerance) * n - 1.0 < c <= (ratios[f] + tolerance) * n)
    {
      AcceptanceExact(Count(responses, f, |responses|), |responses|, ratios[f], tolerance);
    }
  }
}
