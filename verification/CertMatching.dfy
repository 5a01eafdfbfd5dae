/**
  `verifyContainsCerts`: greedy matching of the expected certificates against the
  actual ones, removing each match from a working copy by overwriting it with the
  last element.  Certificates are compared by `Equal`, an equivalence.
 */
module CertMatching {
  import opened Wrappers

  lemma RemovedBySwap<T>(s: seq<T>, i: nat)
    requires i < |s|
    ensures multiset(s[i := s[|s| - 1]][..|s| - 1]) == multiset(s) - multiset{s[i]}
  {
    var n := |s| - 1;
    var u := s[i := s[n]];
    var rest, last := multiset(s) - multiset{s[i]}, multiset{s[n]};
    assert u == u[..n] + [s[n]];
    assert multiset(u[..n]) + last == multiset(u) == rest + last;
    assert multiset(u[..n]) == multiset(u[..n]) + last - last;
    assert rest == rest + last - last;
  }

  // Taking x away once more.
  lemma DifferenceStep<T>(e: multiset<T>, a: multiset<T>, x: T)
    ensures e - (a + multiset{x}) == e - a - multiset{x}
  {
  }

  lemma PrefixStep<T>(s: seq<T>, i: nat)
    requires i < |s|
    ensures multiset(s[..i + 1]) == multiset(s[..i]) + multiset{s[i]}
  {
    assert s[..i + 1] == s[..i] + [s[i]];
  }

  lemma PrefixContained<T>(s: seq<T>, i: nat)
    requires i <= |s|
    ensures multiset(s[..i]) <= multiset(s)
  {
    assert s == s[..i] + s[i..];
  }

  // The slice: the first |rem| elements of the working copy.
  ghost predicate Holds<Cert>(certsToFind: array<Option<Cert>>, rem: seq<Cert>)
    reads certsToFind
  {
    |rem| <= certsToFind.Length && forall k :: 0 <= k < |rem| ==> certsToFind[k] == Some(rem[k])
  }

  // The first match, or the length of the slice.
  method Find<Cert(==)>(certsToFind: array<Option<Cert>>, n: nat, certA: Cert, ghost rem: seq<Cert>) returns (idxB: nat)
    requires Holds(certsToFind, rem) && n == |rem|
    ensures idxB <= n && (idxB < n ==> rem[idxB] == certA) && certA !in rem[..idxB]
  {
    idxB := 0;
    while idxB < n && certsToFind[idxB] != Some(certA)
      invariant idxB <= n && certA !in rem[..idxB]
    {
      idxB := idxB + 1;
    }
  }

  // Overwrite with the last element, clear the stale reference and shrink the slice.
  method Remove<Cert>(certsToFind: array<Option<Cert>>, n: nat, idxB: nat, ghost rem: seq<Cert>)
    returns (m: nat, ghost rest: seq<Cert>)
    requires Holds(certsToFind, rem) && idxB < n == |rem|
    modifies certsToFind
    ensures Holds(certsToFind, rest) && m == |rest| == n - 1
    ensures multiset(rest) == multiset(rem) - multiset{rem[idxB]}
  {
    RemovedBySwap(rem, idxB);
    certsToFind[idxB] := certsToFind[n - 1];
    certsToFind[n - 1] := None;
    m := n - 1;
    rest := rem[idxB := rem[n - 1]][..n - 1];
  }

  method Copy<Cert>(certs: array<Cert>) returns (copy: array<Option<Cert>>)
    ensures fresh(copy) && copy.Length == certs.Length && Holds(copy, certs[..])
  {
    copy := new Option<Cert>[certs.Length](i => None);
    var i := 0;
    while i < certs.Length
      invariant 0 <= i <= certs.Length
      invariant forall k :: 0 <= k < i ==> copy[k] == Some(certs[k])
    {
      copy[i] := Some(certs[i]);
      i := i + 1;
    }
  }

  // Going on to the next actual certificate leaves e minus those seen so far.
  lemma NextActual<T>(e: multiset<T>, actual: seq<T>, i: nat)
    requires i < |actual|
    ensures e - multiset(actual[..i + 1]) == e - multiset(actual[..i]) - multiset{actual[i]}
  {
    PrefixStep(actual, i);
    DifferenceStep(e, multiset(actual[..i]), actual[i]);
  }

  // What is left of e once each of the first i actual elements took its match.
  ghost predicate Remaining<T>(rem: seq<T>, e: seq<T>, actual: seq<T>, i: nat)
    requires i <= |actual|
  {
    multiset(rem) == multiset(e) - multiset(actual[..i])
  }

  lemma NothingTaken<T>(e: seq<T>, actual: seq<T>)
    ensures Remaining(e, e, actual, 0)
  {
  }

  lemma MatchTaken<T>(rem: seq<T>, rest: seq<T>, e: seq<T>, actual: seq<T>, i: nat)
    requires i < |actual| && Remaining(rem, e, actual, i)
    requires multiset(rest) == multiset(rem) - multiset{actual[i]}
    ensures Remaining(rest, e, actual, i + 1)
  {
    NextActual(multiset(e), actual, i);
  }

  lemma NoMatch<T>(rem: seq<T>, e: seq<T>, actual: seq<T>, i: nat)
    requires i < |actual| && Remaining(rem, e, actual, i) && actual[i] !in rem
    ensures Remaining(rem, e, actual, i + 1)
  {
    assert actual[i] !in multiset(rem);
    MatchTaken(rem, rem, e, actual, i);
  }

  lemma AllMatched<T>(e: seq<T>, actual: seq<T>, i: nat)
    requires i <= |actual| && Remaining([], e, actual, i)
    ensures multiset(e) <= multiset(actual)
  {
    var p := multiset(actual[..i]);
    PrefixContained(actual, i);
    forall x ensures multiset(e)[x] <= multiset(actual)[x] {
      assert multiset([])[x] == (multiset(e) - p)[x];
    }
  }

  lemma LastTaken<T>(rem: seq<T>, e: seq<T>, actual: seq<T>, i: nat)
    requires i < |actual| && |rem| == 1 && rem[0] == actual[i] && Remaining(rem, e, actual, i)
    ensures multiset(e) <= multiset(actual)
  {
    var none: seq<T> := [];
    assert rem == [actual[i]];
    assert multiset(none) == multiset(rem) - multiset{actual[i]};
    MatchTaken(rem, none, e, actual, i);
    AllMatched(e, actual, i + 1);
  }

  lemma SomeUnmatched<T>(rem: seq<T>, e: seq<T>, actual: seq<T>)
    requires Remaining(rem, e, actual, |actual|) && rem != []
    ensures !(multiset(e) <= multiset(actual))
  {
    assert actual[..|actual|] == actual;
    assert rem[0] in multiset(rem);
  }

  // True when success is logged, false when the failure is.  Success is logged
  // exactly when something is expected and, with multiplicity, all of it is there.
  method VerifyContainsCerts<Cert(==)>(actualCerts: array<Cert>, expectedCerts: array<Cert>) returns (success: bool)
    ensures success <==> expectedCerts.Length > 0 && multiset(expectedCerts[..]) <= multiset(actualCerts[..])
  {
    hide Remaining;
    var certsToFind := Copy(expectedCerts);
    var n := certsToFind.Length;
    ghost var actual, e := actualCerts[..], expectedCerts[..];
    ghost var rem := e;
    NothingTaken(e, actual);
    var i := 0;
    while i < actualCerts.Length
      invariant 0 <= i <= actualCerts.Length
      invariant fresh(certsToFind) && Holds(certsToFind, rem) && |rem| == n && (n == 0 ==> expectedCerts.Length == 0)
      invariant Remaining(rem, e, actual, i)
    {
      var certA := actualCerts[i];
      var idxB := Find(certsToFind, n, certA, rem);
      if idxB < n {
        if n == 1 {
          LastTaken(rem, e, actual, i);
          return true;
        }
        ghost var rest;
        n, rest := Remove(certsToFind, n, idxB, rem);
        MatchTaken(rem, rest, e, actual, i);
        rem := rest;
      } else {
        assert rem[..idxB] == rem;
        NoMatch(rem, e, actual, i);
      }
      i := i + 1;
    }
    if n > 0 {
      SomeUnmatched(rem, e, actual);
    }
    success := false;
  }
}
