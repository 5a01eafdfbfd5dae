/**
  Log suppression.  With LOG_FAILED_RETRY_ATTEMPTS=false an unnested call prints
  the messages of one attempt only: the first successful one, or else the last.
 */
module RetryLogs {
  import opened Wrappers
  import opened RetryModel
  import opened RetryIsolation

  // No retrying inside, and every message goes through the helper in hand by a
  // method that RetryTestHelper overrides.
  predicate Flat(c: Command, own: Var) {
    match c
    case Nop => true
    case Do(t, act) => t == own && !act.LogStep?
    case Panic(_) => true
    case Seq(first, second) => Flat(first, own) && Flat(second, own)
    case If(_, thn, els) => Flat(thn, own) && Flat(els, own)
    case With(t, _, body) => t == own && Flat(body, own)
    case UntilSuccess(_, _, _) => false
    case Attempt(_, _, _) => false
    case RetryFunction(_, _, _) => false
  }

  // The messages sent at path p since the trace had this length.
  function Spoken(tr: seq<Event>, from: nat, p: Path): seq<Message> {
    if |tr| <= from then
      []
    else
      var e := tr[|tr| - 1];
      Spoken(tr[..|tr| - 1], from, p) + (if e.Said? && e.path == p then [e.message] else [])
  }

  lemma SpokenAppend(tr: seq<Event>, e: Event, from: nat, p: Path)
    requires from <= |tr|
    ensures Spoken(tr + [e], from, p) == Spoken(tr, from, p) + (if e.Said? && e.path == p then [e.message] else [])
  {
  }

  lemma {:induction false} SpokenSplits(a: seq<Event>, b: seq<Event>, from: nat, p: Path)
    requires from <= |a| && a <= b
    ensures Spoken(b, from, p) == Spoken(a, from, p) + Spoken(b, |a|, p)
  {
    if |a| < |b| {
      assert a <= b[..|b| - 1];
      SpokenSplits(a, b[..|b| - 1], from, p);
    } else {
      assert a == b;
    }
  }

  lemma {:induction false} SilentElsewhere(tr: seq<Event>, from: nat, p: Path, q: Path)
    requires p != q && forall i :: from <= i < |tr| && tr[i].Said? ==> tr[i].path == q
    ensures Spoken(tr, from, p) == []
  {
    if from < |tr| {
      SilentElsewhere(tr[..|tr| - 1], from, p, q);
    }
  }

  // Since s, the messages ms were sent through h.  When failed attempts are not logged
  // a retry helper buffers them; in all other cases they are printed.  Nothing else was
  // sent or printed.
  ghost predicate Sent(cfg: Config, s: State, h: Handle, ms: seq<Message>, s': State) {
    && |s'.live| == |s.live| && s'.step == s.step && OthersKept(s, h, s')
    && (IsRetry(s, h) ==> s'.live[h - 1].step == s.live[h - 1].step)
    && (if IsRetry(s, h) && !cfg.logFailed then
          s'.log == s.log && s'.live[h - 1].buffer == s.live[h - 1].buffer + ms
        else
          && s'.log == s.log + Lines(if IsRetry(s, h) then s.live[h - 1].step > 0 else s.step > 0, ms)
          && (IsRetry(s, h) ==> s'.live[h - 1].buffer == s.live[h - 1].buffer))
  }

  // No other retry helper has changed at all.
  ghost predicate OthersKept(s: State, h: Handle, s': State)
    requires |s'.live| == |s.live|
  {
    forall j :: 0 <= j < |s.live| && j != h - 1 ==> s'.live[j] == s.live[j]
  }

  ghost predicate SpokeAt(cfg: Config, s: State, h: Handle, path: Path, s': State) {
    && s.trace <= s'.trace
    && (forall i :: |s.trace| <= i < |s'.trace| && s'.trace[i].Said? ==> s'.trace[i].path == path)
    && Sent(cfg, s, h, Spoken(s'.trace, |s.trace|, path), s')
  }

  lemma SentThen(cfg: Config, a: State, b: State, c: State, h: Handle, ms: seq<Message>, ns: seq<Message>)
    requires h <= |a.live| && Sent(cfg, a, h, ms, b) && Sent(cfg, b, h, ns, c)
    ensures Sent(cfg, a, h, ms + ns, c)
  {
  }

  lemma SpokeThen(cfg: Config, a: State, b: State, c: State, h: Handle, path: Path)
    requires h <= |a.live| && SpokeAt(cfg, a, h, path, b) && SpokeAt(cfg, b, h, path, c)
    ensures SpokeAt(cfg, a, h, path, c)
  {
    SpokenSplits(b.trace, c.trace, |a.trace|, path);
    hide Sent;
    SentThen(cfg, a, b, c, h, Spoken(b.trace, |a.trace|, path), Spoken(c.trace, |b.trace|, path));
    forall i | |a.trace| <= i < |c.trace| && c.trace[i].Said? ensures c.trace[i].path == path {
      if i < |b.trace| {
        assert c.trace[i] == b.trace[i];
      }
    }
  }

  // Whatever the message: one of a callback, a note or a warning.
  lemma EmitSends(cfg: Config, s: State, h: Handle, m: Message)
    requires h <= |s.live|
    ensures Sent(cfg, s, h, [m], Emit(cfg, s, h, m)) && Emit(cfg, s, h, m).trace == s.trace
  {
  }

  lemma SaySpeaks(cfg: Config, s: State, h: Handle, path: Path, m: Message)
    requires h <= |s.live|
    ensures SpokeAt(cfg, s, h, path, Say(cfg, s, h, path, m))
  {
  }

  lemma FailIsSilent(cfg: Config, s: State, h: Handle, path: Path)
    requires h <= |s.live|
    ensures SpokeAt(cfg, s, h, path, Fail(s, h))
  {
  }

  lemma RecordIsSilent(cfg: Config, s: State, h: Handle, path: Path, e: Event)
    requires h <= |s.live| && !e.Said?
    ensures SpokeAt(cfg, s, h, path, Record(s, e))
  {
  }

  lemma SetKubeconfigIsSilent(cfg: Config, s: State, h: Handle, path: Path, k: Option<string>)
    requires h <= |s.live|
    ensures SpokeAt(cfg, s, h, path, s.(kubeconfig := k))
  {
  }

  lemma FailNowSpeaks(cfg: Config, s: State, h: Handle, path: Path)
    requires h <= |s.live|
    ensures SpokeAt(cfg, s, h, path, FailNowOn(s, h, path).state)
  {
  }

  lemma FailKeepsLength(s: State, h: Handle)
    ensures |Fail(s, h).live| == |s.live|
  {
  }

  lemma SayKeepsLength(cfg: Config, s: State, h: Handle, path: Path, m: Message)
    ensures |Say(cfg, s, h, path, m).live| == |s.live|
  {
  }

  lemma FatalSpeaks(cfg: Config, s: State, h: Handle, path: Path, text: string)
    requires h <= |s.live|
    ensures SpokeAt(cfg, s, h, path, FatalOn(cfg, s, h, path, text).state)
  {
    hide Say, FailNowOn, SpokeAt;
    var m := Text((if IsRetry(s, h) then FAILURE_PREFIX else FATAL_PREFIX) + text);
    SaySpeaks(cfg, s, h, path, m);
    SayKeepsLength(cfg, s, h, path, m);
    FailNowSpeaks(cfg, Say(cfg, s, h, path, m), h, path);
    SpokeThen(cfg, s, Say(cfg, s, h, path, m), FatalOn(cfg, s, h, path, text).state, h, path);
  }

  lemma ActSpeaks(cfg: Config, act: Act, h: Handle, path: Path, s: State)
    requires h <= |s.live| && !act.LogStep?
    ensures SpokeAt(cfg, s, h, path, Act1(cfg, act, h, path, s).state)
  {
    hide Say, Fail, FatalOn, FailNowOn, SpokeAt, Record;
    match act
    case Shell =>
      var e := Shelled(GetKubeconfig(s));
      RecordIsSilent(cfg, s, h, path, e);
      RecordKeepsLength(s, e);
      FatalSpeaks(cfg, Record(s, e), h, path, "Command failed");
      SpokeThen(cfg, s, Record(s, e), FatalOn(cfg, Record(s, e), h, path, "Command failed").state, h, path);
    case Log(text) => SaySpeaks(cfg, s, h, path, Text(text));
    case Error(text) =>
      var m := Text(FAILURE_PREFIX + text);
      SaySpeaks(cfg, s, h, path, m);
      SayKeepsLength(cfg, s, h, path, m);
      FailIsSilent(cfg, Say(cfg, s, h, path, m), h, path);
      SpokeThen(cfg, s, Say(cfg, s, h, path, m), Fail(Say(cfg, s, h, path, m), h), h, path);
    case Fatal(text) => FatalSpeaks(cfg, s, h, path, text);
    case FailNow => FailNowSpeaks(cfg, s, h, path);
  }

  lemma RecordKeepsLength(s: State, e: Event)
    ensures |Record(s, e).live| == |s.live|
  {
  }

  lemma Silent(cfg: Config, s: State, h: Handle, path: Path)
    requires h <= |s.live|
    ensures SpokeAt(cfg, s, h, path, s)
  {
  }

  lemma {:induction false} FlatSpeaks(cfg: Config, c: Command, own: Var, sc: Scope, s: State)
    requires own < |sc.vars| && sc.vars[own] <= |s.live| && Flat(c, own)
    ensures SpokeAt(cfg, s, sc.vars[own], sc.path, Eval(cfg, c, sc, s).state)
    decreases c, 0
  {
    hide Act1, SpokeAt, FatalOn;
    var h := sc.vars[own];
    match c
    case Nop => Silent(cfg, s, h, sc.path);
    case Do(t, act) => ActSpeaks(cfg, act, h, sc.path, s);
    case Panic(value) => Silent(cfg, s, h, sc.path);
    case Seq(first, second) =>
      FlatSpeaks(cfg, first, own, sc, s);
      var r := Eval(cfg, first, sc, s);
      if r.outcome == Returned {
        FlatSpeaks(cfg, second, own, sc, r.state);
        SpokeThen(cfg, s, r.state, Eval(cfg, second, sc, r.state).state, h, sc.path);
      }
    case If(query, thn, els) =>
      var (answer, s1) := Ask(cfg, query, sc, s);
      Silent(cfg, s, h, sc.path);
      RecordIsSilent(cfg, s, h, sc.path, Asked);
      var c1 := if answer then thn else els;
      FlatSpeaks(cfg, c1, own, sc, s1);
      SpokeThen(cfg, s, s1, Eval(cfg, c1, sc, s1).state, h, sc.path);
    case With(t, k, body) =>
      if k == "" {
        FlatSpeaks(cfg, body, own, sc, s);
      } else {
        FlatWithSpeaks(cfg, k, body, own, sc, s);
      }
  }

  lemma {:induction false} FlatWithSpeaks(cfg: Config, k: string, body: Command, own: Var, sc: Scope, s: State)
    requires own < |sc.vars| && sc.vars[own] <= |s.live| && Flat(body, own) && k != ""
    ensures SpokeAt(cfg, s, sc.vars[own], sc.path, EvalWith(cfg, sc.vars[own], k, body, sc, s).state)
    decreases body, 1
  {
    hide Eval, SpokeAt, FatalOn;
    var h := sc.vars[own];
    var s1 := s.(kubeconfig := Some(k));
    FatalSpeaks(cfg, s, h, sc.path, "could not set KUBECONFIG");
    SetKubeconfigIsSilent(cfg, s, h, sc.path, Some(k));
    FlatSpeaks(cfg, body, own, sc, s1);
    var r := Eval(cfg, body, sc, s1);
    SpokeThen(cfg, s, s1, r.state, h, sc.path);
    FatalSpeaks(cfg, r.state, h, sc.path, "could not set KUBECONFIG");
    SpokeThen(cfg, s, r.state, FatalOn(cfg, r.state, h, sc.path, "could not set KUBECONFIG").state, h, sc.path);
    var old_ := Some(GetKubeconfig(s));
    SetKubeconfigIsSilent(cfg, r.state, h, sc.path, old_);
    SpokeThen(cfg, s, r.state, r.state.(kubeconfig := old_), h, sc.path);
  }

  // ----- the loop, called on the top-level helper -----

  // After a non-last attempt at path p nothing is printed, and the newest helper
  // holds what the attempt said.
  ghost predicate Held(s: State, p: Path, r: Result) {
    && |r.state.live| == |s.live| + 1 && s.trace <= r.state.trace
    && r.state.log == s.log && r.state.step == s.step
    && r.state.live[|s.live|].step == s.step
    && r.state.live[|s.live|].buffer == Spoken(r.state.trace, |s.trace|, p)
    && (forall i :: |s.trace| <= i < |r.state.trace| && r.state.trace[i].Said? ==> r.state.trace[i].path == p)
  }

  // The start of the callback is no message.
  lemma SpokenSinceStart(cfg: Config, s: State, s1: State, p: Path, h: Handle, s': State)
    requires s1.trace == s.trace + [Ran(p)] && SpokeAt(cfg, s1, h, p, s')
    ensures s.trace <= s'.trace && Sent(cfg, s1, h, Spoken(s'.trace, |s.trace|, p), s')
    ensures forall i :: |s.trace| <= i < |s'.trace| && s'.trace[i].Said? ==> s'.trace[i].path == p
  {
    SpokenSplits(s1.trace, s'.trace, |s.trace|, p);
    SpokenAppend(s.trace, Ran(p), |s.trace|, p);
    assert Spoken(s.trace, |s.trace|, p) == [];
    hide Sent;
    forall i | |s.trace| <= i < |s'.trace| && s'.trace[i].Said? ensures s'.trace[i].path == p {
      assert s1.trace[|s.trace|] == Ran(p);
    }
  }

  lemma AttemptHolds(cfg: Config, o: Options, body: Command, i: nat, sc: Scope, s: State)
    requires !cfg.logFailed && Flat(body, |sc.vars|)
    ensures Held(s, sc.path + [i], RunAttempt(cfg, "", body, 0, i, o.maxAttempts, i, sc, s))
  {
    hide Eval, Spoken, SpokeAt;
    var h := |s.live| + 1;
    var sc1 := Bind(sc, h, i);
    var s1 := Enter(s, 0, i, o.maxAttempts, sc1.path);
    FlatSpeaks(cfg, body, |sc.vars|, sc1, s1);
    var r := Eval(cfg, body, sc1, s1);
    assert EvalWith(cfg, h, "", body, sc1, s1) == r;
    SpokenSinceStart(cfg, s, s1, sc1.path, h, r.state);
  }

  lemma PercentAtLeast(i: nat, n: nat, p: nat)
    requires n > 0
    ensures i * 100 / n >= p <==> i * 100 >= p * n
  {
    var q := i * 100 / n;
    assert q * n <= i * 100 < q * n + n;
    if q >= p {
      Monotonic(p, q, n);
    } else {
      Monotonic(q + 1, p, n);
    }
  }

  lemma Monotonic(a: nat, b: nat, n: nat)
    requires a <= b
    ensures a * n <= b * n
  {
  }

  // The flakiness warnings of a call that succeeds after i of at most n attempts have
  // failed: truncation does not blur the limits of nine tenths and three quarters, so
  // that a call of fewer than four attempts never warns.
  lemma WarningsExact(cfg: Config, s: State, h: Handle, i: nat, n: nat)
    requires i < n
    ensures Warn(cfg, s, h, i, n)
         == if 10 * i >= 9 * n then Emit(cfg, s, h, AlmostCertainlyFlaky)
            else if 4 * i >= 3 * n then Emit(cfg, s, h, MayBeFlaky)
            else s
    ensures n < 4 ==> Warn(cfg, s, h, i, n) == s
  {
    hide Emit;
    PercentAtLeast(i, n, 90);
    PercentAtLeast(i, n, 75);
  }

  // The notes about failed attempts go straight to the test log, whichever helper the
  // call was made on, and only when attempts are logged.
  lemma NotesAreNeverBuffered(cfg: Config, s: State, h: Handle, i: nat, o: Options)
    ensures var s1 := NoteFailedAttempt(cfg, s, h, i, o);
      && s1 == s.(log := s1.log) && s.log <= s1.log
      && |s1.log| == |s.log| + (if o.logAttempts && cfg.logFailed then 1 else 0)
    ensures var s1 := Exhausted(cfg, s, h, i, o).state;
      && s1 == s.(log := s1.log, failed := true) && s.log <= s1.log
      && |s1.log| == |s.log| + (if o.logAttempts && cfg.logFailed then 1 else 0)
  {
  }

  // The warning, if any, of a call that succeeded in this attempt.
  function Warnings(indented: bool, attempt: nat, maxAttempts: int): seq<Line> {
    if maxAttempts <= 1 then []
    else if attempt * 100 / maxAttempts >= 90 then [Line(indented, AlmostCertainlyFlaky)]
    else if attempt * 100 / maxAttempts >= 75 then [Line(indented, MayBeFlaky)]
    else []
  }

  // The log shows attempt j alone, started in the loop that began at s.
  ghost predicate Shows(s: State, path: Path, o: Options, j: nat, r: Result) {
    && j < o.maxAttempts
    && s.trace <= r.state.trace
    && r.state.log
       == s.log
        + (if r.outcome.Panicked? && j < o.maxAttempts - 1 then []
           else Lines(s.step > 0, Spoken(r.state.trace, |s.trace|, path + [j])))
        + (if r.outcome == Returned then Warnings(s.step > 0, j, o.maxAttempts) else [])
    && (r.outcome == Exited ==> j == o.maxAttempts - 1)
  }

  lemma SucceedPrintsBuffer(cfg: Config, s: State, i: nat, o: Options, ms: seq<Message>)
    requires !cfg.logFailed && |s.live| > 0
    requires s.live[|s.live| - 1].step == s.step && s.live[|s.live| - 1].buffer == ms
    ensures var s1 := Succeed(cfg, s, 0, |s.live|, i, o);
      s1.trace == s.trace && s1.log == s.log + Lines(s.step > 0, ms) + Warnings(s.step > 0, i, o.maxAttempts)
  {
  }

  lemma SucceedOnTop(cfg: Config, s: State, i: nat, o: Options)
    requires !cfg.logFailed
    ensures var s1 := Succeed(cfg, s, 0, 0, i, o);
      s1.trace == s.trace && s1.log == s.log + Warnings(s.step > 0, i, o.maxAttempts)
  {
  }

  lemma {:induction false} LastAttemptShows(cfg: Config, o: Options, body: Command, i: nat, sc: Scope, s: State)
    requires !cfg.logFailed && Flat(body, |sc.vars|) && i == o.maxAttempts - 1
    ensures Shows(s, sc.path, o, i, UntilFrom(cfg, 0, o, body, i, sc, s))
  {
    hide Eval, Succeed, RunAttempt, Spoken, SpokeAt, Warnings;
    var sc1 := Bind(sc, 0, i);
    var s1 := Record(s, Ran(sc1.path));
    FlatSpeaks(cfg, body, |sc.vars|, sc1, s1);
    var r := Eval(cfg, body, sc1, s1);
    SpokenSinceStart(cfg, s, s1, sc1.path, 0, r.state);
    SucceedOnTop(cfg, r.state, i, o);
  }

  // A failed attempt leaves no mark on what the log will show of a later one.
  lemma ShowsAfterFailedAttempt(cfg: Config, s: State, s2: State, path: Path, o: Options, i: nat, j: nat, r: Result)
    requires s.trace <= s2.trace && s2.log == s.log && s2.step == s.step && i < j
    requires forall k :: |s.trace| <= k < |s2.trace| && s2.trace[k].Said? ==> s2.trace[k].path == path + [i]
    requires Shows(s2, path, o, j, r)
    ensures Shows(s, path, o, j, r)
  {
    hide Spoken, Warnings;
    assert (path + [i])[|path|] != (path + [j])[|path|];
    SpokenSplits(s2.trace, r.state.trace, |s.trace|, path + [j]);
    SilentElsewhere(s2.trace, |s.trace|, path + [j], path + [i]);
  }

  // The loop that began at s makes attempt j, every earlier one having failed,
  // and makes no later one.
  ghost predicate EndsWith(cfg: Config, o: Options, body: Command, j: nat, sc: Scope, s: State) {
    && StateBefore(cfg, 0, o, body, j, sc, s).Some?
    && (j + 1 < o.maxAttempts ==> StateBefore(cfg, 0, o, body, j + 1, sc, s).None?)
  }

  lemma {:induction false} LoopShowsOneAttempt(cfg: Config, o: Options, body: Command, i: nat, sc: Scope, s0: State,
                                               s: State)
    requires !cfg.logFailed && Flat(body, |sc.vars|) && i < o.maxAttempts
    requires StateBefore(cfg, 0, o, body, i, sc, s0) == Some(s)
    ensures exists j :: i <= j && EndsWith(cfg, o, body, j, sc, s0)
                     && Shows(s, sc.path, o, j, UntilFrom(cfg, 0, o, body, i, sc, s))
    decreases o.maxAttempts - i
  {
    hide Eval, Succeed, RunAttempt, Shows, HasFailed, NoteFailedAttempt;
    if i == o.maxAttempts - 1 {
      LastAttemptShows(cfg, o, body, i, sc, s);
      assert EndsWith(cfg, o, body, i, sc, s0);
    } else {
      AttemptHolds(cfg, o, body, i, sc, s);
      var r := RunAttempt(cfg, "", body, 0, i, o.maxAttempts, i, sc, s);
      if r.outcome == Returned && HasFailed(r.state, |r.state.live|) {
        var s2 := NoteFailedAttempt(cfg, Pop(r.state), 0, i, o);
        NoNoteWhenSuppressed(cfg, Pop(r.state), i, o);
        assert StateBefore(cfg, 0, o, body, i + 1, sc, s0) == Some(s2);
        LoopShowsOneAttempt(cfg, o, body, i + 1, sc, s0, s2);
        var j :| i + 1 <= j && EndsWith(cfg, o, body, j, sc, s0)
              && Shows(s2, sc.path, o, j, UntilFrom(cfg, 0, o, body, i + 1, sc, s2));
        ShowsAfterFailedAttempt(cfg, s, s2, sc.path, o, i, j, UntilFrom(cfg, 0, o, body, i + 1, sc, s2));
      } else {
        DecidedAttemptShows(cfg, o, body, i, sc, s);
        assert EndsWith(cfg, o, body, i, sc, s0);
      }
    }
  }

  lemma NoNoteWhenSuppressed(cfg: Config, s: State, i: nat, o: Options)
    requires !cfg.logFailed
    ensures NoteFailedAttempt(cfg, s, 0, i, o) == s
  {
  }

  lemma DecidedAttemptShows(cfg: Config, o: Options, body: Command, i: nat, sc: Scope, s: State)
    requires !cfg.logFailed && Flat(body, |sc.vars|) && i < o.maxAttempts - 1
    requires var r := RunAttempt(cfg, "", body, 0, i, o.maxAttempts, i, sc, s);
      !(r.outcome == Returned && HasFailed(r.state, |r.state.live|))
    ensures Shows(s, sc.path, o, i, UntilFrom(cfg, 0, o, body, i, sc, s))
  {
    hide Eval, Succeed, HasFailed, RunAttempt;
    AttemptHolds(cfg, o, body, i, sc, s);
    var r := RunAttempt(cfg, "", body, 0, i, o.maxAttempts, i, sc, s);
    SucceedPrintsBuffer(cfg, r.state, i, o, Spoken(r.state.trace, |s.trace|, sc.path + [i]));
    FlatNeverExits(cfg, body, i, o, sc, s);
  }

  // A flat callback on a retry helper never ends the goroutine.
  lemma {:induction false} FlatOnRetryNeverExits(cfg: Config, c: Command, own: Var, sc: Scope, s: State)
    requires own < |sc.vars| && IsRetry(s, sc.vars[own]) && Flat(c, own)
    ensures Eval(cfg, c, sc, s).outcome != Exited
  {
    match c
    case Nop =>
    case Do(t, act) =>
    case Panic(value) =>
    case Seq(first, second) =>
      hide Act1;
      FlatOnRetryNeverExits(cfg, first, own, sc, s);
      var r := Eval(cfg, first, sc, s);
      if r.outcome == Returned { FlatOnRetryNeverExits(cfg, second, own, sc, r.state); }
    case If(query, thn, els) =>
      hide Act1;
      var (answer, s1) := Ask(cfg, query, sc, s);
      FlatOnRetryNeverExits(cfg, if answer then thn else els, own, sc, s1);
    case With(t, k, body) =>
      hide Act1, Say;
      FlatOnRetryNeverExits(cfg, body, own, sc, Entered(k, s));
      SayKeepsLength(cfg, s, sc.vars[own], sc.path, Text(FAILURE_PREFIX + "could not set KUBECONFIG"));
      var r := Eval(cfg, body, sc, Entered(k, s));
      SayKeepsLength(cfg, r.state, sc.vars[own], sc.path, Text(FAILURE_PREFIX + "could not set KUBECONFIG"));
  }

  lemma FlatNeverExits(cfg: Config, body: Command, i: nat, o: Options, sc: Scope, s: State)
    requires Flat(body, |sc.vars|)
    ensures RunAttempt(cfg, "", body, 0, i, o.maxAttempts, i, sc, s).outcome != Exited
  {
    hide Eval;
    var h := |s.live| + 1;
    var sc1 := Bind(sc, h, i);
    var s1 := Enter(s, 0, i, o.maxAttempts, sc1.path);
    FlatOnRetryNeverExits(cfg, body, |sc.vars|, sc1, s1);
    assert EvalWith(cfg, h, "", body, sc1, s1) == Eval(cfg, body, sc1, s1);
  }

  // The log of an unnested call: all attempts before j have failed, the call ends
  // with attempt j, and the log gains the messages of attempt j, in order and
  // once, followed by at most a flakiness warning.
  lemma OneAttemptIsLogged(cfg: Config, o: Options, body: Command, sc: Scope, s: State)
    requires !cfg.logFailed && Flat(body, |sc.vars|) && o.maxAttempts > 0
    ensures exists j :: 0 <= j && EndsWith(cfg, o, body, j, sc, s)
                     && Shows(s, sc.path, o, j, UntilFrom(cfg, 0, o, body, 0, sc, s))
  {
    LoopShowsOneAttempt(cfg, o, body, 0, sc, s, s);
  }

  // Why unnested: the success of a nested call is printed at once, even when the
  // enclosing attempt then fails.
  lemma NestedSuccessIsPrintedAtOnce(cfg: Config, text: string, n: Options, m: Options, sc: Scope, s: State)
    requires !cfg.logFailed && sc.vars == [0] && n.maxAttempts > 1 && m.maxAttempts > 1
    ensures var body := Seq(UntilSuccess(1, m, Do(2, Log(text))), Do(1, FailNow));
      var r := RunAttempt(cfg, "", body, 0, 0, n.maxAttempts, 0, sc, s);
      && r.outcome == Returned && HasFailed(r.state, |r.state.live|)
      && r.state.log == s.log + [Line(s.step > 0, Text(text))]
  {
    var h := |s.live| + 1;
    var sc1 := Bind(sc, h, 0);
    var s1 := Enter(s, 0, 0, n.maxAttempts, sc1.path);
    InnerSuccess(cfg, text, h, m, sc1, s1);
    hide UntilFrom, RunAttempt;
    var call := UntilSuccess(1, m, Do(2, Log(text)));
    var body := Seq(call, Do(1, FailNow));
    var r := UntilFrom(cfg, h, m, Do(2, Log(text)), 0, sc1, s1);
    assert Eval(cfg, call, sc1, s1) == r;
    assert Eval(cfg, Do(1, FailNow), sc1, r.state) == FailNowOn(r.state, h, sc1.path);
    assert Eval(cfg, body, sc1, s1) == FailNowOn(r.state, h, sc1.path);
    UnreturnedAttempt(cfg, "", body, 0, 0, n.maxAttempts, 0, sc, s);
  }

  lemma InnerSuccess(cfg: Config, text: string, h: Handle, m: Options, sc: Scope, s: State)
    requires !cfg.logFailed && |sc.vars| == 2 && h == |s.live| > 0 && m.maxAttempts > 1
    ensures var r := UntilFrom(cfg, h, m, Do(2, Log(text)), 0, sc, s);
      r.outcome == Returned && r.state.log == s.log + [Line(s.live[h - 1].step > 0, Text(text))]
  {
    hide Eval, RunAttempt, Succeed, Say, Lines;
    var path := sc.path + [0];
    var s1 := Enter(s, h, 0, m.maxAttempts, path);
    InnerAttempt(cfg, text, h, m, sc, s);
    BufferedMessage(cfg, s1, h + 1, path, Text(text));
    FirstSuccessFlushes(cfg, Say(cfg, s1, h + 1, path, Text(text)), h, m);
    SayKeepsLength(cfg, s1, h + 1, path, Text(text));
    assert Lines(s.live[h - 1].step > 0, [Text(text)]) == [Line(s.live[h - 1].step > 0, Text(text))];
  }

  lemma InnerAttempt(cfg: Config, text: string, h: Handle, m: Options, sc: Scope, s: State)
    requires |sc.vars| == 2 && h == |s.live|
    ensures RunAttempt(cfg, "", Do(2, Log(text)), h, 0, m.maxAttempts, 0, sc, s)
         == Result(Returned, Say(cfg, Enter(s, h, 0, m.maxAttempts, sc.path + [0]), h + 1, sc.path + [0], Text(text)))
  {
    hide Say, Enter;
    var sc1 := Bind(sc, h + 1, 0);
    var s1 := Enter(s, h, 0, m.maxAttempts, sc1.path);
    assert Eval(cfg, Do(2, Log(text)), sc1, s1) == Act1(cfg, Log(text), h + 1, sc1.path, s1);
    hide Eval;
    assert EvalWith(cfg, h + 1, "", Do(2, Log(text)), sc1, s1) == Eval(cfg, Do(2, Log(text)), sc1, s1);
    hide EvalWith;
    assert |s1.live| == h + 1 by { EnterPushes(s, h, 0, m.maxAttempts, sc1.path); }
  }

  lemma EnterPushes(s: State, h: Handle, attempt: nat, maxAttempts: int, path: Path)
    ensures |Enter(s, h, attempt, maxAttempts, path).live| == |s.live| + 1
  {
  }

  lemma BufferedMessage(cfg: Config, s: State, h: Handle, path: Path, m: Message)
    requires !cfg.logFailed && IsRetry(s, h) && s.live[h - 1].buffer == []
    ensures var s1 := Say(cfg, s, h, path, m);
      s1.log == s.log && |s1.live| == |s.live| && s1.live[h - 1] == s.live[h - 1].(buffer := [m])
  {
  }

  // The first attempt succeeded: no warning.
  lemma FirstSuccessFlushes(cfg: Config, s: State, h: Handle, m: Options)
    requires !cfg.logFailed && |s.live| > 0 && m.maxAttempts > 1
    ensures var used := s.live[|s.live| - 1];
      Succeed(cfg, s, h, |s.live|, 0, m).log == s.log + Lines(used.step > 0, used.buffer)
  {
    hide Lines;
  }
}
