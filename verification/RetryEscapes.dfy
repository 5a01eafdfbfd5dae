/**
  Error against Fatal in nested calls.  Both fail an attempt, but a nested call that
  is exhausted by Error ends the whole test in the first enclosing attempt, while one
  exhausted by Fatal unwinds to that attempt, so that all others are made.
 */
module RetryEscapes {
  import opened Wrappers
  import opened RetryModel
  import opened RetryIsolation
  import opened RetryLogs
  import opened RetryExhaustion

  // ----- exhausted nested calls: Error against Fatal -----

  // Starts of callbacks at nesting depth d.
  function Starts(tr: seq<Event>, d: nat): nat {
    if tr == [] then 0
    else Starts(tr[..|tr| - 1], d) + (if tr[|tr| - 1].Ran? && |tr[|tr| - 1].path| == d then 1 else 0)
  }

  lemma StartsAppend(tr: seq<Event>, e: Event, d: nat)
    ensures Starts(tr + [e], d) == Starts(tr, d) + (if e.Ran? && |e.path| == d then 1 else 0)
  {
  }

  lemma NotesKeepShape(cfg: Config, s: State, h: Handle, used: Handle, attempt: nat, o: Options)
    ensures var s1 := NoteFailedAttempt(cfg, s, h, attempt, o); s1.trace == s.trace && |s1.live| == |s.live|
    ensures var s1 := Succeed(cfg, s, h, used, attempt, o); s1.trace == s.trace
    ensures var s1 := Exhausted(cfg, s, h, attempt, o).state; s1.trace == s.trace && |s1.live| == |s.live| && s1.failed
  {
  }

  // An exhausted call fails the test through the testing.T: no helper takes part.
  lemma ExhaustedExits(cfg: Config, s: State, h: Handle, attempt: nat, o: Options)
    ensures var r := Exhausted(cfg, s, h, attempt, o);
      r.outcome == Exited && r.state.failed && r.state.live == s.live && r.state.trace == s.trace
  {
  }

  // Acts start no callback.
  lemma ActStarts(cfg: Config, act: Act, h: Handle, path: Path, s: State, d: nat)
    ensures Starts(Act1(cfg, act, h, path, s).state.trace, d) == Starts(s.trace, d)
  {
    hide Starts;
    match act
    case Shell =>
      var e := Shelled(GetKubeconfig(s));
      StartsAppend(s.trace, e, d);
      FatalStarts(cfg, h, path, Record(s, e), "Command failed", d);
    case Log(text) => StartsAppend(s.trace, Said(path, Text(text)), d);
    case LogStep(_) =>
    case Error(text) => StartsAppend(s.trace, Said(path, Text(FAILURE_PREFIX + text)), d);
    case Fatal(text) => FatalStarts(cfg, h, path, s, text, d);
    case FailNow => StartsAppend(s.trace, Raised(path, AnswersWillRetry(s, h)), d);
  }

  lemma FatalStarts(cfg: Config, h: Handle, path: Path, s: State, text: string, d: nat)
    ensures Starts(FatalOn(cfg, s, h, path, text).state.trace, d) == Starts(s.trace, d)
  {
    hide Starts;
    var e := Said(path, Text((if IsRetry(s, h) then FAILURE_PREFIX else FATAL_PREFIX) + text));
    StartsAppend(s.trace, e, d);
    StartsAppend(s.trace + [e], Raised(path, AnswersWillRetry(s, h)), d);
  }

  lemma {:induction false} FlatStarts(cfg: Config, c: Command, own: Var, sc: Scope, s: State, d: nat)
    requires Flat(c, own)
    ensures Starts(Eval(cfg, c, sc, s).state.trace, d) == Starts(s.trace, d)
    decreases c
  {
    hide Act1, Starts, FatalOn;
    match c
    case Nop =>
    case Do(t, act) => ActStarts(cfg, act, HandleOf(sc, t), sc.path, s, d);
    case Panic(_) =>
    case Seq(first, second) =>
      FlatStarts(cfg, first, own, sc, s, d);
      FlatStarts(cfg, second, own, sc, Eval(cfg, first, sc, s).state, d);
    case If(query, thn, els) =>
      StartsAppend(s.trace, Asked, d);
      var s1 := Ask(cfg, query, sc, s).1;
      FlatStarts(cfg, thn, own, sc, s1, d);
      FlatStarts(cfg, els, own, sc, s1, d);
    case With(t, kubeconfig, body) =>
      var s1 := Entered(kubeconfig, s);
      FlatStarts(cfg, body, own, sc, s1, d);
      FatalStarts(cfg, HandleOf(sc, t), sc.path, s, "could not set KUBECONFIG", d);
      FatalStarts(cfg, HandleOf(sc, t), sc.path, Eval(cfg, body, sc, s1).state, "could not set KUBECONFIG", d);
  }

  // An attempt of a call around a flat callback is one start.
  lemma FlatAttemptStarts(cfg: Config, h: Handle, o: Options, body: Command, i: nat, sc: Scope, s: State)
    requires Flat(body, |sc.vars|)
    ensures Starts(AttemptResult(cfg, h, o, body, i, sc, s).state.trace, |sc.path| + 1)
         == Starts(s.trace, |sc.path| + 1) + 1
  {
    hide Eval, Starts;
    StartsAppend(s.trace, Ran(sc.path + [i]), |sc.path| + 1);
    FlatStarts(cfg, body, |sc.vars|, AttemptScope(h, o, i, sc, s), AttemptStart(h, o, i, sc, s), |sc.path| + 1);
  }

  lemma {:induction false} StartsBefore(cfg: Config, h: Handle, o: Options, body: Command, i: nat, sc: Scope, s: State)
    requires Flat(body, |sc.vars|) && i < o.maxAttempts && StateBefore(cfg, h, o, body, i, sc, s).Some?
    ensures Starts(StateBefore(cfg, h, o, body, i, sc, s).value.trace, |sc.path| + 1)
      == Starts(s.trace, |sc.path| + 1) + i
  {
    hide Starts, RunAttempt, NoteFailedAttempt, HasFailed, AttemptResult, Recover;
    if i > 0 {
      StartsBefore(cfg, h, o, body, i - 1, sc, s);
      var si := StateBefore(cfg, h, o, body, i - 1, sc, s).value;
      AttemptIsCallback(cfg, h, o, body, i - 1, sc, si);
      FlatAttemptStarts(cfg, h, o, body, i - 1, sc, si);
      NotesKeepShape(cfg, Pop(RunAttempt(cfg, "", body, h, i - 1, o.maxAttempts, i - 1, sc, si).state), h, h, i - 1, o);
    }
  }

  // A call whose attempts before the last all fail makes them all.  If the callback
  // then returns with the helper failed, the test ends, whatever the helper; if it
  // leaves in any other way than by returning, so does the call.
  lemma ExhaustedCall(cfg: Config, h: Handle, o: Options, body: Command, sc: Scope, s: State)
    requires Flat(body, |sc.vars|) && o.maxAttempts > 0
    requires StateBefore(cfg, h, o, body, o.maxAttempts - 1, sc, s).Some?
    ensures var n := o.maxAttempts - 1;
      var last := AttemptResult(cfg, h, o, body, n, sc, StateBefore(cfg, h, o, body, n, sc, s).value);
      var r := UntilFrom(cfg, h, o, body, 0, sc, s);
      && Starts(r.state.trace, |sc.path| + 1) == Starts(s.trace, |sc.path| + 1) + o.maxAttempts
      && (last.outcome == Returned && HasFailed(last.state, h) ==> r.outcome == Exited && r.state.failed)
      && (last.outcome != Returned ==> r == last)
  {
    hide Eval, Starts, RunAttempt, Succeed, Exhausted, StateBefore, HasFailed;
    var n := o.maxAttempts - 1;
    var sn := StateBefore(cfg, h, o, body, n, sc, s).value;
    StartsBefore(cfg, h, o, body, n, sc, s);
    FlatAttemptStarts(cfg, h, o, body, n, sc, sn);
    LoopReaches(cfg, h, o, body, n, sc, s);
    var last := AttemptResult(cfg, h, o, body, n, sc, sn);
    NotesKeepShape(cfg, last.state, h, h, n, o);
    ExhaustedExits(cfg, last.state, h, n, o);
  }

  // ----- callbacks that always fail in the same way -----

  // Whatever happens, the callback is left by the FailNow of the helper in hand.
  ghost predicate LeavesByFatal(cfg: Config, body: Command, own: Var) {
    forall sc: Scope, s: State :: |sc.vars| == own + 1 && sc.vars[own] <= |s.live| ==>
      var r := Eval(cfg, body, sc, s);
      r.outcome == FailExit(s, sc.vars[own]) && HasFailed(r.state, sc.vars[own])
  }

  // Whatever happens, it returns after the helper in hand has failed.
  ghost predicate ReturnsFailed(cfg: Config, body: Command, own: Var) {
    forall sc: Scope, s: State :: |sc.vars| == own + 1 && sc.vars[own] <= |s.live| ==>
      var r := Eval(cfg, body, sc, s);
      r.outcome == Returned && HasFailed(r.state, sc.vars[own])
  }

  lemma NotBoth(cfg: Config, body: Command, own: Var)
    requires LeavesByFatal(cfg, body, own)
    ensures !ReturnsFailed(cfg, body, own)
  {
    hide Eval;
    var sc := Scope(seq(own + 1, v => 0), []);
    var r := Eval(cfg, body, sc, InitialState(None));
    assert r.outcome == FailExit(InitialState(None), sc.vars[own]);
  }

  lemma FailingAttempt(cfg: Config, h: Handle, o: Options, body: Command, i: nat, sc: Scope, s: State)
    requires LeavesByFatal(cfg, body, |sc.vars|) || ReturnsFailed(cfg, body, |sc.vars|)
    requires i < o.maxAttempts - 1
    ensures var r := RunAttempt(cfg, "", body, h, i, o.maxAttempts, i, sc, s);
      r.outcome == Returned && HasFailed(r.state, |r.state.live|)
  {
    hide Eval, RunAttempt;
    AttemptIsCallback(cfg, h, o, body, i, sc, s);
    var r := Eval(cfg, body, AttemptScope(h, o, i, sc, s), AttemptStart(h, o, i, sc, s));
  }

  lemma {:induction false} ReachesLast(cfg: Config, h: Handle, o: Options, body: Command, i: nat, sc: Scope, s: State)
    requires LeavesByFatal(cfg, body, |sc.vars|) || ReturnsFailed(cfg, body, |sc.vars|)
    requires i < o.maxAttempts
    ensures StateBefore(cfg, h, o, body, i, sc, s).Some?
  {
    hide LeavesByFatal, ReturnsFailed, RunAttempt, NoteFailedAttempt, HasFailed;
    if i > 0 {
      ReachesLast(cfg, h, o, body, i - 1, sc, s);
      FailingAttempt(cfg, h, o, body, i - 1, sc, StateBefore(cfg, h, o, body, i - 1, sc, s).value);
    }
  }

  // Such a call makes all its attempts and fails in the way of its callback.
  lemma FailingCall(cfg: Config, h: Handle, o: Options, body: Command, sc: Scope, s: State)
    requires Flat(body, |sc.vars|) && o.maxAttempts > 0 && h <= |s.live|
    requires LeavesByFatal(cfg, body, |sc.vars|) || ReturnsFailed(cfg, body, |sc.vars|)
    ensures var r := UntilFrom(cfg, h, o, body, 0, sc, s);
      && r.outcome == (if ReturnsFailed(cfg, body, |sc.vars|) then Exited else FailExit(s, h))
      && (r.outcome == Exited ==> r.state.failed)
      && (r.outcome != Exited ==> HasFailed(r.state, h))
      && Starts(r.state.trace, |sc.path| + 1) == Starts(s.trace, |sc.path| + 1) + o.maxAttempts
  {
    hide Eval, UntilFrom, StateBefore, Starts;
    var n := o.maxAttempts - 1;
    ReachesLast(cfg, h, o, body, n, sc, s);
    ExhaustedCall(cfg, h, o, body, sc, s);
    var sn := StateBefore(cfg, h, o, body, n, sc, s).value;
    var last := Eval(cfg, body, AttemptScope(h, o, n, sc, sn), AttemptStart(h, o, n, sc, sn));
    assert AttemptResult(cfg, h, o, body, n, sc, sn) == last;
  }

  // The attempt of an outer call around a nested call that is exhausted by Fatal.
  lemma OuterAttemptFails(cfg: Config, body: Command, m: Options, i: nat, n: int, sc: Scope, s: State)
    requires m.maxAttempts > 0 && |sc.vars| == 1 && Flat(body, 2)
    requires LeavesByFatal(cfg, body, 2)
    ensures var r := RunAttempt(cfg, "", UntilSuccess(1, m, body), 0, i, n, i, sc, s);
      && r.outcome == Returned && HasFailed(r.state, |r.state.live|)
      && Starts(r.state.trace, |sc.path| + 2) == Starts(s.trace, |sc.path| + 2) + m.maxAttempts
  {
    hide Starts, UntilFrom, RunAttempt, LeavesByFatal, ReturnsFailed;
    var h := |s.live| + 1;
    var sc1 := Bind(sc, h, i);
    var s1 := Enter(s, 0, i, n, sc1.path);
    StartsAppend(s.trace, Ran(sc1.path), |sc.path| + 2);
    NotBoth(cfg, body, 2);
    FailingCall(cfg, h, m, body, sc1, s1);
    assert Eval(cfg, UntilSuccess(1, m, body), sc1, s1) == UntilFrom(cfg, h, m, body, 0, sc1, s1);
    UnreturnedAttempt(cfg, "", UntilSuccess(1, m, body), 0, i, n, i, sc, s);
  }

  lemma {:induction false} OuterLoopRetries(cfg: Config, body: Command, m: Options, n: Options, i: nat, sc: Scope,
                                            s: State)
    requires sc.vars == [0] && m.maxAttempts > 0 && i < n.maxAttempts && Flat(body, 2)
    requires LeavesByFatal(cfg, body, 2)
    ensures var r := UntilFrom(cfg, 0, n, UntilSuccess(1, m, body), i, sc, s);
      && r.outcome == Exited && r.state.failed
      && Starts(r.state.trace, |sc.path| + 2) == Starts(s.trace, |sc.path| + 2) + (n.maxAttempts - i) * m.maxAttempts
    decreases n.maxAttempts - i
  {
    hide Starts, RunAttempt, NoteFailedAttempt, Succeed, Exhausted, LeavesByFatal, ReturnsFailed, Flat;
    var call := UntilSuccess(1, m, body);
    var d := |sc.path| + 2;
    if i == n.maxAttempts - 1 {
      var sc1 := Bind(sc, 0, i);
      var s1 := Record(s, Ran(sc1.path));
      StartsAppend(s.trace, Ran(sc1.path), d);
      NotBoth(cfg, body, 2);
      FailingCall(cfg, 0, m, body, sc1, s1);
      assert Eval(cfg, call, sc1, s1) == UntilFrom(cfg, 0, m, body, 0, sc1, s1);
    } else {
      OuterAttemptFails(cfg, body, m, i, n.maxAttempts, sc, s);
      var r := RunAttempt(cfg, "", call, 0, i, n.maxAttempts, i, sc, s);
      var s2 := NoteFailedAttempt(cfg, Pop(r.state), 0, i, n);
      NotesKeepShape(cfg, Pop(r.state), 0, 0, i, n);
      OuterLoopRetries(cfg, body, m, n, i + 1, sc, s2);
      Distribute(n.maxAttempts - i, m.maxAttempts);
    }
  }

  lemma Distribute(n: int, m: int)
    ensures n * m == m + (n - 1) * m
  {
  }

  // A nested call exhausted by Fatal unwinds to the enclosing attempt: every
  // attempt of both calls is made before the test fails.
  lemma FatalUnwindsToEnclosingAttempt(cfg: Config, body: Command, n: Options, m: Options, sc: Scope, s: State)
    requires sc.vars == [0] && n.maxAttempts > 0 && m.maxAttempts > 0
    requires Flat(body, 2) && LeavesByFatal(cfg, body, 2)
    ensures var r := Eval(cfg, UntilSuccess(0, n, UntilSuccess(1, m, body)), sc, s);
      && r.outcome == Exited && r.state.failed
      && Starts(r.state.trace, |sc.path| + 2) == Starts(s.trace, |sc.path| + 2) + n.maxAttempts * m.maxAttempts
  {
    hide UntilFrom, Starts, LeavesByFatal, ReturnsFailed, Flat;
    OuterLoopRetries(cfg, body, m, n, 0, sc, s);
  }

  // A program of the same form that fails by Error ends the whole test inside the
  // first attempt of the enclosing call, whatever its limit.
  lemma ErrorEndsWholeTest(cfg: Config, body: Command, n: Options, m: Options, sc: Scope, s: State)
    requires sc.vars == [0] && n.maxAttempts > 0 && m.maxAttempts > 0
    requires Flat(body, 2) && ReturnsFailed(cfg, body, 2)
    ensures var r := Eval(cfg, UntilSuccess(0, n, UntilSuccess(1, m, body)), sc, s);
      && r.outcome == Exited && r.state.failed
      && Starts(r.state.trace, |sc.path| + 2) == Starts(s.trace, |sc.path| + 2) + m.maxAttempts
  {
    hide Starts, NoteFailedAttempt, Succeed, Exhausted, RunAttempt, ReturnsFailed, LeavesByFatal, Flat;
    var call := UntilSuccess(1, m, body);
    var last := n.maxAttempts == 1;
    var h := if last then 0 else |s.live| + 1;
    var sc1 := Bind(sc, h, 0);
    var s1 := if last then Record(s, Ran(sc1.path)) else Enter(s, 0, 0, n.maxAttempts, sc1.path);
    StartsAppend(s.trace, Ran(sc1.path), |sc.path| + 2);
    FailingCall(cfg, h, m, body, sc1, s1);
    assert Eval(cfg, call, sc1, s1) == UntilFrom(cfg, h, m, body, 0, sc1, s1);
    if !last {
      UnreturnedAttempt(cfg, "", call, 0, 0, n.maxAttempts, 0, sc, s);
    }
  }

  // The two theorems are about callbacks there are: a single Fatal and a single Error.
  lemma SingleActs(cfg: Config, text: string, own: Var)
    ensures Flat(Do(own, Fatal(text)), own) && LeavesByFatal(cfg, Do(own, Fatal(text)), own)
    ensures Flat(Do(own, Error(text)), own) && ReturnsFailed(cfg, Do(own, Error(text)), own)
  {
  }
}
