/**
  `ensureResourceStable`: watch a resource in 5-second windows until its version is
  the same at both ends of one, or until 30 seconds have passed.

  The n-th query returns rv(n) and takes latency(n) seconds.  A fresh timer is not
  ready when the select is entered; when the window and the limit end at the same
  instant, limitFirst says which one the select takes.
 */
module StableResource {

  const STABLE_PERIOD := 5.0
  const MAX_TIMEOUT := 30.0

  // When the select of window w is entered.
  ghost function Start(latency: nat -> real, w: nat): real {
    if w == 0 then latency(0)
    else Start(latency, w - 1) + STABLE_PERIOD + latency(2 * w - 1) + latency(2 * w)
  }

  // Window w ends before the limit cuts it off.
  ghost predicate Completes(latency: nat -> real, limitFirst: nat -> bool, w: nat) {
    var end := Start(latency, w) + STABLE_PERIOD;
    end < MAX_TIMEOUT || (end == MAX_TIMEOUT && !limitFirst(w))
  }

  ghost predicate Settled(rv: nat -> string, w: nat) {
    rv(2 * w) == rv(2 * w + 1)
  }

  lemma {:induction false} StartGrows(latency: nat -> real, v: nat, w: nat)
    requires forall n :: latency(n) >= 0.0
    requires v <= w
    ensures Start(latency, w) >= Start(latency, v) + (w - v) as real * STABLE_PERIOD
    ensures Start(latency, v) >= 0.0
    decreases w
  {
    if v < w {
      StartGrows(latency, v, w - 1);
    } else if v > 0 {
      StartGrows(latency, v - 1, v - 1);
    }
  }

  // At most six windows fit before the limit.
  lemma AtMostSixWindows(latency: nat -> real, limitFirst: nat -> bool, w: nat)
    requires forall n :: latency(n) >= 0.0
    requires Completes(latency, limitFirst, w)
    ensures w < 6
  {
    StartGrows(latency, 0, w);
  }

  lemma EarlierCompletes(latency: nat -> real, limitFirst: nat -> bool, v: nat, w: nat)
    requires forall n :: latency(n) >= 0.0
    requires v <= w && Completes(latency, limitFirst, w)
    ensures Completes(latency, limitFirst, v)
  {
    StartGrows(latency, v, w);
  }

  // No window from w on completes when w does not.
  lemma NoneLater(latency: nat -> real, limitFirst: nat -> bool, w: nat)
    requires forall n :: latency(n) >= 0.0
    requires !Completes(latency, limitFirst, w)
    ensures forall v: nat :: Completes(latency, limitFirst, v) ==> v < w
  {
    forall v: nat | Completes(latency, limitFirst, v) ensures v < w {
      if v >= w {
        EarlierCompletes(latency, limitFirst, w, v);
      }
    }
  }

  lemma FirstStart(latency: nat -> real)
    ensures Start(latency, 0) == latency(0)
  {
  }

  // When the select of the next window is entered.
  lemma NextStart(latency: nat -> real, w: nat)
    ensures Start(latency, w + 1) == Start(latency, w) + STABLE_PERIOD + latency(2 * w + 1) + latency(2 * (w + 1))
  {
    assert 2 * (w + 1) - 1 == 2 * w + 1;
  }

  // The time that the first n queries take.
  ghost function Total(latency: nat -> real, n: nat): real {
    if n == 0 then 0.0 else Total(latency, n - 1) + latency(n - 1)
  }

  // The select of window w is entered after w periods of five seconds and 2w + 1 queries.
  lemma {:induction false} StartIsSum(latency: nat -> real, w: nat)
    ensures Start(latency, w) == w as real * 5.0 + Total(latency, 2 * w + 1)
  {
    if w == 0 {
      assert Total(latency, 1) == Total(latency, 0) + latency(0);
    } else {
      StartIsSum(latency, w - 1);
      assert Total(latency, 2 * w + 1) == Total(latency, 2 * w) + latency(2 * w);
      assert Total(latency, 2 * w) == Total(latency, 2 * w - 1) + latency(2 * w - 1);
    }
  }

  // A window completes when it ends before thirty seconds have passed, or on the instant
  // if the select then takes the window.
  lemma CompletesExactly(latency: nat -> real, limitFirst: nat -> bool, w: nat)
    ensures var end := (w + 1) as real * 5.0 + Total(latency, 2 * w + 1);
      Completes(latency, limitFirst, w) <==> end < 30.0 || (end == 30.0 && !limitFirst(w))
  {
    StartIsSum(latency, w);
  }

  // So when queries take no time five windows always complete, and the sixth if it wins
  // the tie.
  lemma WindowsWithoutLatency(limitFirst: nat -> bool, w: nat)
    ensures Completes((n: nat) => 0.0, limitFirst, w) <==> w < 5 || (w == 5 && !limitFirst(5))
  {
    var none := (n: nat) => 0.0;
    CompletesExactly(none, limitFirst, w);
    NoTime(none, 2 * w + 1);
  }

  lemma {:induction false} NoTime(latency: nat -> real, n: nat)
    requires forall k :: latency(k) == 0.0
    ensures Total(latency, n) == 0.0
  {
    if n > 0 {
      NoTime(latency, n - 1);
    }
  }

  // Succeeds exactly when some window that completes before the limit shows the
  // same version at both ends; stops after the first such window.
  method EnsureResourceStable(rv: nat -> string, latency: nat -> real, limitFirst: nat -> bool)
    returns (stable: bool, windows: nat)
    requires forall n :: latency(n) >= 0.0
    ensures stable <==> exists w: nat :: Completes(latency, limitFirst, w) && Settled(rv, w)
    ensures windows <= 6
    ensures forall w :: 0 <= w < windows ==>
      Completes(latency, limitFirst, w) && (Settled(rv, w) <==> stable && w == windows - 1)
    ensures stable ==> windows > 0
    ensures !stable ==> !Completes(latency, limitFirst, windows)
  {
    hide Start;
    var now := 0.0;
    windows := 0;
    FirstStart(latency);
    while true
      invariant windows <= 6
      invariant now + latency(2 * windows) == Start(latency, windows)
      invariant forall w :: 0 <= w < windows ==> Completes(latency, limitFirst, w) && !Settled(rv, w)
      decreases 6 - windows
    {
      var currentRV := rv(2 * windows);
      now := now + latency(2 * windows);
      if now >= MAX_TIMEOUT || now + STABLE_PERIOD > MAX_TIMEOUT
         || (now + STABLE_PERIOD == MAX_TIMEOUT && limitFirst(windows)) {
        assert !Completes(latency, limitFirst, windows);
        NoneLater(latency, limitFirst, windows);
        return false, windows;
      }
      AtMostSixWindows(latency, limitFirst, windows);
      NextStart(latency, windows);
      now := now + STABLE_PERIOD;
      var newRV := rv(2 * windows + 1);
      now := now + latency(2 * windows + 1);
      windows := windows + 1;
      if currentRV == newRV {
        assert Settled(rv, windows - 1);
        return true, windows;
      }
    }
  }
}
