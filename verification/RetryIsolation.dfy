/**
  Failure isolation.  A callback is `Local` when it fails only through the helper
  it was handed, and only by Fatal or FailNow.  Running one touches the failed
  flag of no other helper, at any nesting depth.
 */
module RetryIsolation {
  import opened Wrappers
  import opened RetryModel

  // own is the variable of the helper in hand, depth the number of bound variables.
  predicate Local(c: Command, own: Var, depth: nat) {
    match c
    case Nop => true
    case Do(t, act) => act.Log? || act.LogStep? || (t == own && !act.Error?)
    case Panic(value) => value != RETRY_PANIC_KEY
    case Seq(first, second) => Local(first, own, depth) && Local(second, own, depth)
    case If(_, thn, els) => Local(thn, own, depth) && Local(els, own, depth)
    case With(t, _, body) => t == own && Local(body, own, depth)
    case UntilSuccess(t, _, body) => t == own && Local(body, depth, depth + 1)
    case Attempt(_, body, after) => Local(body, depth, depth + 1) && Local(after, own, depth + 1)
    case RetryFunction(_, _, _) => false // its callback uses the helper of the caller
  }

  // The variables in scope hold live helpers.
  ghost predicate Handed(sc: Scope, s: State) {
    forall v :: 0 <= v < |sc.vars| ==> sc.vars[v] <= |s.live|
  }

  // How FailNow on h leaves the callback.
  function FailExit(s: State, h: Handle): Outcome {
    if IsRetry(s, h) then Panicked(RETRY_PANIC_KEY) else Exited
  }

  ghost predicate SameFlagsExcept(s: State, s': State, h: int) {
    |s.live| <= |s'.live| &&
    forall j: Handle :: j <= |s.live| && j != h ==> HasFailed(s', j) == HasFailed(s, j)
  }

  ghost predicate SameFlags(s: State, s': State) {
    SameFlagsExcept(s, s', -1)
  }

  // h is the only helper that may have failed, and it has failed exactly when
  // the callback was left through its FailNow.
  ghost predicate Isolated(s: State, h: Handle, r: Result) {
    && SameFlagsExcept(s, r.state, h)
    && (HasFailed(r.state, h) <==> r.outcome == FailExit(s, h))
    && (r.outcome == Exited || r.outcome == Panicked(RETRY_PANIC_KEY) ==> r.outcome == FailExit(s, h))
  }

  // An attempt keeps every older flag and absorbs the failures of its own helper.
  ghost predicate Contained(s: State, r: Result) {
    && |r.state.live| == |s.live| + 1
    && SameFlags(s, r.state)
    && r.outcome != Exited
    && r.outcome != Panicked(RETRY_PANIC_KEY)
  }

  lemma NoteKeepsFlags(cfg: Config, s: State, h: Handle, attempt: nat, o: Options)
    ensures SameFlags(s, NoteFailedAttempt(cfg, s, h, attempt, o))
      && |NoteFailedAttempt(cfg, s, h, attempt, o).live| == |s.live|
  {
  }

  lemma SucceedKeepsFlags(cfg: Config, s: State, h: Handle, used: Handle, attempt: nat, o: Options)
    ensures SameFlags(s, Succeed(cfg, s, h, used, attempt, o))
      && |Succeed(cfg, s, h, used, attempt, o).live| == |s.live|
  {
  }

  lemma SameFlagsCompose(a: State, b: State, c: State)
    requires SameFlags(a, b) && SameFlags(b, c)
    ensures SameFlags(a, c)
  {
  }

  lemma PopKeepsFlags(s: State, s': State)
    requires SameFlags(s, s') && |s.live| < |s'.live|
    ensures SameFlags(s, Pop(s'))
  {
  }

  lemma IsolatedAfter(s: State, s1: State, h: Handle, r: Result)
    requires SameFlags(s, s1) && |s1.live| == |s.live| && h <= |s.live| && Isolated(s1, h, r)
    ensures Isolated(s, h, r)
  {
  }

  lemma IsolatedThen(s: State, s1: State, h: Handle, r: Result)
    requires |s1.live| == |s.live| && h <= |s.live| && Isolated(s, h, Result(Returned, s1)) && Isolated(s1, h, r)
    ensures Isolated(s, h, r)
  {
  }

  lemma IsolatedReturn(s: State, s1: State, h: Handle)
    requires SameFlags(s, s1) && h <= |s.live| && !HasFailed(s, h)
    ensures Isolated(s, h, Result(Returned, s1))
  {
  }

  lemma SayKeepsFlags(cfg: Config, s: State, h: Handle, path: Path, m: Message)
    ensures SameFlags(s, Say(cfg, s, h, path, m)) && |Say(cfg, s, h, path, m).live| == |s.live|
  {
  }

  lemma FailNowIsolated(s: State, h: Handle, path: Path)
    requires h <= |s.live| && !HasFailed(s, h)
    ensures Isolated(s, h, FailNowOn(s, h, path))
  {
  }

  lemma FatalIsolated(cfg: Config, s: State, h: Handle, path: Path, text: string)
    requires h <= |s.live| && !HasFailed(s, h)
    ensures Isolated(s, h, FatalOn(cfg, s, h, path, text))
  {
    hide Say, FailNowOn, Isolated, SameFlagsExcept;
    var m := Text((if IsRetry(s, h) then FAILURE_PREFIX else FATAL_PREFIX) + text);
    SayKeepsFlags(cfg, s, h, path, m);
    SameFlag(s, Say(cfg, s, h, path, m), h);
    FailNowIsolated(Say(cfg, s, h, path, m), h, path);
    IsolatedAfter(s, Say(cfg, s, h, path, m), h, FailNowOn(Say(cfg, s, h, path, m), h, path));
  }

  // Fatal sends its message once, before anything else, and then fails the helper it
  // is called on, that one alone, and leaves through it.
  lemma FatalReports(cfg: Config, s: State, h: Handle, path: Path, text: string)
    requires h <= |s.live|
    ensures var r := FatalOn(cfg, s, h, path, text);
      && r.outcome == FailExit(s, h)
      && HasFailed(r.state, h) && SameFlagsExcept(s, r.state, h)
      && r.state.trace == s.trace
         + [Said(path, Text((if IsRetry(s, h) then "FAILURE: " else "FATAL: ") + text)),
            Raised(path, AnswersWillRetry(s, h))]
  {
    hide Emit;
    var m := Text((if IsRetry(s, h) then FAILURE_PREFIX else FATAL_PREFIX) + text);
    var s1 := Say(cfg, s, h, path, m);
    SayKeepsFlags(cfg, s, h, path, m);
    SayKeepsAnswer(cfg, s, h, path, m);
    FailFails(s1, h);
    assert s.trace + [Said(path, m)] + [Raised(path, AnswersWillRetry(s, h))]
        == s.trace + [Said(path, m), Raised(path, AnswersWillRetry(s, h))];
  }

  // What the other acts record, which helper they fail, and how they are left.
  lemma ActReports(cfg: Config, act: Act, h: Handle, path: Path, s: State)
    requires h <= |s.live|
    ensures var r := Act1(cfg, act, h, path, s);
      match act
      case Log(text) =>
        && r.outcome == Returned && SameFlags(s, r.state)
        && r.state.trace == s.trace + [Said(path, Text(text))]
      case LogStep(text) =>
        && r.outcome == Returned && SameFlags(s, r.state) && r.state.trace == s.trace
        && CurrentStep(r.state, h) == CurrentStep(s, h) + 1
        && r.state.log == s.log + [Line(true, Text("")), Line(false, Step(CurrentStep(s, h) + 1, text))]
      case Error(text) =>
        && r.outcome == Returned && HasFailed(r.state, h) && SameFlagsExcept(s, r.state, h)
        && r.state.trace == s.trace + [Said(path, Text("FAILURE: " + text))]
      case Fatal(text) =>
        r == FatalOn(cfg, s, h, path, text)
      case FailNow =>
        && r.outcome == FailExit(s, h) && HasFailed(r.state, h) && SameFlagsExcept(s, r.state, h)
        && r.state.trace == s.trace + [Raised(path, AnswersWillRetry(s, h))]
      case Shell =>
        var s1 := s.(trace := s.trace + [Shelled(match s.kubeconfig case None => "" case Some(k) => k)]);
        if cfg.oracle(|s.trace|) then r == Result(Returned, s1)
        else r == FatalOn(cfg, s1, h, path, "Command failed")
  {
    hide Emit, FatalOn;
    match act
    case Log(text) =>
      SayKeepsFlags(cfg, s, h, path, Text(text));
      SayKeepsAnswer(cfg, s, h, path, Text(text));
    case LogStep(text) => LogStepKeepsFlags(s, h, text);
    case Error(text) =>
      SayKeepsFlags(cfg, s, h, path, Text("FAILURE: " + text));
      SayKeepsAnswer(cfg, s, h, path, Text("FAILURE: " + text));
      FailFails(Say(cfg, s, h, path, Text("FAILURE: " + text)), h);
    case FailNow => FailFails(s, h);
    case _ =>
  }

  lemma SayKeepsAnswer(cfg: Config, s: State, h: Handle, path: Path, m: Message)
    ensures var s1 := Say(cfg, s, h, path, m);
      AnswersWillRetry(s1, h) == AnswersWillRetry(s, h) && s1.trace == s.trace + [Said(path, m)]
  {
  }

  lemma FailFails(s: State, h: Handle)
    requires h <= |s.live|
    ensures var s1 := Fail(s, h);
      HasFailed(s1, h) && SameFlagsExcept(s, s1, h) && |s1.live| == |s.live| && s1.trace == s.trace
  {
  }

  lemma LogStepKeepsFlags(s: State, h: Handle, text: string)
    ensures SameFlags(s, LogStepOn(s, h, text)) && |LogStepOn(s, h, text).live| == |s.live|
  {
  }

  lemma ActIsolated(cfg: Config, act: Act, h: Handle, own: Handle, path: Path, s: State)
    requires h <= |s.live| && own <= |s.live| && !HasFailed(s, own)
    requires act.Log? || act.LogStep? || (h == own && !act.Error?)
    ensures Isolated(s, own, Act1(cfg, act, h, path, s))
  {
    hide Say, FatalOn, FailNowOn, LogStepOn, Isolated, SameFlagsExcept;
    match act
    case Shell =>
      var s1 := Record(s, Shelled(GetKubeconfig(s)));
      RecordKeepsFlags(s, Shelled(GetKubeconfig(s)));
      IsolatedReturn(s, s1, own);
      FatalIsolated(cfg, s1, h, path, "Command failed");
      IsolatedAfter(s, s1, own, FatalOn(cfg, s1, h, path, "Command failed"));
    case Log(text) =>
      SayKeepsFlags(cfg, s, h, path, Text(text));
      IsolatedReturn(s, Say(cfg, s, h, path, Text(text)), own);
    case LogStep(text) =>
      LogStepKeepsFlags(s, h, text);
      IsolatedReturn(s, LogStepOn(s, h, text), own);
    case Fatal(text) => FatalIsolated(cfg, s, h, path, text);
    case FailNow => FailNowIsolated(s, h, path);
  }

  lemma RecordKeepsFlags(s: State, e: Event)
    ensures SameFlags(s, Record(s, e))
  {
  }

  // ----- the induction -----

  lemma {:induction false} EvalIsolated(cfg: Config, c: Command, own: Var, sc: Scope, s: State)
    requires own < |sc.vars| && sc.vars[own] <= |s.live| && !HasFailed(s, sc.vars[own])
    requires Local(c, own, |sc.vars|)
    requires Handed(sc, s)
    ensures Isolated(s, sc.vars[own], Eval(cfg, c, sc, s))
    decreases c, 0
  {
    hide Act1, EvalWith, UntilFrom, RunAttempt, RetryFrom;
    var h := sc.vars[own];
    match c
    case Nop =>
    case Do(t, act) => ActIsolated(cfg, act, HandleOf(sc, t), h, sc.path, s);
    case Panic(value) =>
    case Seq(first, second) =>
      EvalIsolated(cfg, first, own, sc, s);
      var r := Eval(cfg, first, sc, s);
      if r.outcome == Returned {
        EvalIsolated(cfg, second, own, sc, r.state);
      }
    case If(query, thn, els) =>
      var s1 := Ask(cfg, query, sc, s).1;
      EvalIsolated(cfg, thn, own, sc, s1);
      EvalIsolated(cfg, els, own, sc, s1);
    case With(t, kubeconfig, body) =>
      EvalWithIsolated(cfg, kubeconfig, body, own, sc, s);
    case UntilSuccess(t, options, body) =>
      UntilFromIsolated(cfg, options, body, 0, own, sc, s);
    case Attempt(t, body, after) =>
      var p := HandleOf(sc, t);
      RunAttemptContained(cfg, body, p, 0, 1, 0, sc, s);
      var r := RunAttempt(cfg, "", body, p, 0, 1, 0, sc, s);
      if r.outcome == Returned {
        var sc1 := Bind(sc, |r.state.live|, 0);
        EvalIsolated(cfg, after, own, sc1, r.state);
        var r1 := Eval(cfg, after, sc1, r.state);
        AfterIsolated(s, r.state, h, r1);
      } else {
        PopKeepsFlags(s, r.state);
      }
  }

  lemma AfterIsolated(s: State, s1: State, h: Handle, r: Result)
    requires SameFlags(s, s1) && |s1.live| == |s.live| + 1 && h <= |s.live|
    requires Isolated(s1, h, r) && |r.state.live| == |s1.live|
    ensures Isolated(s, h, Result(r.outcome, Pop(r.state)))
  {
  }

  lemma {:induction false} EvalWithIsolated(cfg: Config, kubeconfig: string, body: Command, own: Var, sc: Scope,
                                            s: State)
    requires own < |sc.vars| && sc.vars[own] <= |s.live| && !HasFailed(s, sc.vars[own])
    requires Local(body, own, |sc.vars|)
    requires Handed(sc, s)
    ensures Isolated(s, sc.vars[own], EvalWith(cfg, sc.vars[own], kubeconfig, body, sc, s))
    decreases body, 1
  {
    hide FatalOn, Eval;
    var h := sc.vars[own];
    if kubeconfig == "" {
      EvalIsolated(cfg, body, own, sc, s);
    } else if !CanSet(kubeconfig) {
      ActIsolated(cfg, Fatal("could not set KUBECONFIG"), h, h, sc.path, s);
    } else {
      var s1 := s.(kubeconfig := Some(kubeconfig));
      EvalIsolated(cfg, body, own, sc, s1);
      var r := Eval(cfg, body, sc, s1);
      IsolatedAfter(s, s1, h, r);
      if r.outcome == Returned {
        ActIsolated(cfg, Fatal("could not set KUBECONFIG"), h, h, sc.path, r.state);
        IsolatedThen(s, r.state, h, FatalOn(cfg, r.state, h, sc.path, "could not set KUBECONFIG"));
      }
    }
  }

  lemma {:induction false} RunAttemptContained(cfg: Config, body: Command, parent: Handle,
                                               attempt: nat, maxAttempts: int, run: nat, sc: Scope, s: State)
    requires Local(body, |sc.vars|, |sc.vars| + 1)
    requires Handed(sc, s)
    ensures Contained(s, RunAttempt(cfg, "", body, parent, attempt, maxAttempts, run, sc, s))
    decreases body, 2
  {
    hide EvalWith;
    var sc1 := Bind(sc, |s.live| + 1, run);
    var s1 := Enter(s, parent, attempt, maxAttempts, sc1.path);
    EvalWithIsolated(cfg, "", body, |sc.vars|, sc1, s1);
    var r := EvalWith(cfg, |s1.live|, "", body, sc1, s1);
    RecoverContains(s, s1, r);
  }

  lemma RecoverContains(s: State, s1: State, r: Result)
    requires |s1.live| == |s.live| + 1 && SameFlags(s, s1)
    requires Isolated(s1, |s1.live|, r) && |r.state.live| == |s1.live|
    ensures Contained(s, Recover(r))
  {
  }

  lemma {:induction false} UntilFromIsolated(cfg: Config, o: Options, body: Command, i: nat, own: Var, sc: Scope,
                                             s: State)
    requires own < |sc.vars| && sc.vars[own] <= |s.live| && !HasFailed(s, sc.vars[own])
    requires Local(body, |sc.vars|, |sc.vars| + 1)
    requires Handed(sc, s)
    ensures Isolated(s, sc.vars[own], UntilFrom(cfg, sc.vars[own], o, body, i, sc, s))
    decreases body, 3, o.maxAttempts - i
  {
    hide Succeed, NoteFailedAttempt, Exhausted, Eval, RunAttempt;
    var h := sc.vars[own];
    if i >= o.maxAttempts {
    } else if i == o.maxAttempts - 1 {
      var sc1 := Bind(sc, h, i);
      var s1 := Record(s, Ran(sc1.path));
      EvalIsolated(cfg, body, |sc.vars|, sc1, s1);
      var r := Eval(cfg, body, sc1, s1);
      IsolatedAfter(s, s1, h, r);
      if r.outcome == Returned {
        SucceedKeepsFlags(cfg, r.state, h, h, i, o);
      }
    } else {
      RunAttemptContained(cfg, body, h, i, o.maxAttempts, i, sc, s);
      hide Isolated, SameFlagsExcept;
      var r := RunAttempt(cfg, "", body, h, i, o.maxAttempts, i, sc, s);
      if r.outcome != Returned {
        ContainedLeave(s, h, r);
      } else {
        PopKeepsFlags(s, r.state);
        if HasFailed(r.state, |r.state.live|) {
          var s2 := NoteFailedAttempt(cfg, Pop(r.state), h, i, o);
          NoteKeepsFlags(cfg, Pop(r.state), h, i, o);
          SameFlagsCompose(s, Pop(r.state), s2);
          SameFlag(s, s2, h);
          UntilFromIsolated(cfg, o, body, i + 1, own, sc, s2);
          IsolatedAfter(s, s2, h, UntilFrom(cfg, h, o, body, i + 1, sc, s2));
        } else {
          var s2 := Succeed(cfg, r.state, h, |r.state.live|, i, o);
          SucceedKeepsFlags(cfg, r.state, h, |r.state.live|, i, o);
          SameFlagsCompose(s, r.state, s2);
          PopKeepsFlags(s, s2);
          IsolatedReturn(s, Pop(s2), h);
        }
      }
    }
  }

  lemma SameFlag(s: State, s': State, h: Handle)
    requires SameFlags(s, s') && h <= |s.live|
    ensures HasFailed(s', h) == HasFailed(s, h)
  {
  }

  lemma ContainedLeave(s: State, h: Handle, r: Result)
    requires h <= |s.live| && !HasFailed(s, h) && Contained(s, r) && r.outcome != Returned
    ensures Isolated(s, h, Result(r.outcome, Pop(r.state)))
  {
  }

  // ----- the outermost call -----

  // The state in which the loop starts attempt i: every earlier attempt has
  // returned with its helper failed.
  ghost function StateBefore(cfg: Config, h: Handle, o: Options, body: Command, i: nat, sc: Scope,
                             s: State): (r: Option<State>)
    ensures r.Some? ==> |r.value.live| == |s.live|
  {
    if i == 0 then Some(s)
    else
      match StateBefore(cfg, h, o, body, i - 1, sc, s)
      case None => None
      case Some(si) =>
        var r := RunAttempt(cfg, "", body, h, i - 1, o.maxAttempts, i - 1, sc, si);
        if r.outcome == Returned && HasFailed(r.state, |r.state.live|)
        then Some(NoteFailedAttempt(cfg, Pop(r.state), h, i - 1, o))
        else None
  }

  ghost predicate LastAttemptFails(cfg: Config, o: Options, body: Command, sc: Scope, s: State)
    requires o.maxAttempts > 0
  {
    var n := o.maxAttempts - 1;
    var before := StateBefore(cfg, 0, o, body, n, sc, s);
    before.Some? &&
    Eval(cfg, body, Bind(sc, 0, n), Record(before.value, Ran(sc.path + [n]))).outcome == Exited
  }

  lemma {:induction false} LoopReaches(cfg: Config, h: Handle, o: Options, body: Command, i: nat, sc: Scope, s: State)
    requires i < o.maxAttempts && StateBefore(cfg, h, o, body, i, sc, s).Some?
    ensures UntilFrom(cfg, h, o, body, 0, sc, s)
         == UntilFrom(cfg, h, o, body, i, sc, StateBefore(cfg, h, o, body, i, sc, s).value)
  {
    hide Eval, RunAttempt, NoteFailedAttempt, Succeed, Exhausted, HasFailed;
    if i > 0 {
      LoopReaches(cfg, h, o, body, i - 1, sc, s);
    }
  }

  lemma {:induction false} BeforeIsClean(cfg: Config, o: Options, body: Command, i: nat, sc: Scope, s: State)
    requires Local(body, |sc.vars|, |sc.vars| + 1) && Handed(sc, s) && !s.failed
    requires StateBefore(cfg, 0, o, body, i, sc, s).Some?
    ensures !StateBefore(cfg, 0, o, body, i, sc, s).value.failed
  {
    hide RunAttempt, NoteFailedAttempt;
    if i > 0 {
      BeforeIsClean(cfg, o, body, i - 1, sc, s);
      var si := StateBefore(cfg, 0, o, body, i - 1, sc, s).value;
      RunAttemptContained(cfg, body, 0, i - 1, o.maxAttempts, i - 1, sc, si);
      var r := RunAttempt(cfg, "", body, 0, i - 1, o.maxAttempts, i - 1, sc, si);
      NoteKeepsFlags(cfg, Pop(r.state), 0, i - 1, o);
      PopKeepsFlags(si, r.state);
      SameFlagsCompose(si, Pop(r.state), NoteFailedAttempt(cfg, Pop(r.state), 0, i - 1, o));
      SameFlag(si, NoteFailedAttempt(cfg, Pop(r.state), 0, i - 1, o), 0);
    }
  }

  lemma {:induction false} ExitNeedsLastAttempt(cfg: Config, o: Options, body: Command, i: nat, sc: Scope, s: State)
    requires Local(body, |sc.vars|, |sc.vars| + 1) && Handed(sc, s) && i < o.maxAttempts
    requires StateBefore(cfg, 0, o, body, i, sc, s).Some?
    requires UntilFrom(cfg, 0, o, body, i, sc, StateBefore(cfg, 0, o, body, i, sc, s).value).outcome == Exited
    ensures StateBefore(cfg, 0, o, body, o.maxAttempts - 1, sc, s).Some?
    decreases o.maxAttempts - i
  {
    hide Eval, RunAttempt, NoteFailedAttempt, Succeed, Exhausted, HasFailed;
    if i < o.maxAttempts - 1 {
      var si := StateBefore(cfg, 0, o, body, i, sc, s).value;
      RunAttemptContained(cfg, body, 0, i, o.maxAttempts, i, sc, si);
      ExitNeedsLastAttempt(cfg, o, body, i + 1, sc, s);
    }
  }

  // The test fails exactly when the outermost call reaches its last attempt and
  // that attempt fails.
  lemma TestFailsExactlyWhenLastAttemptFails(cfg: Config, o: Options, body: Command, sc: Scope, s: State)
    requires sc.vars == [0] && !s.failed && o.maxAttempts > 0
    requires Local(body, 1, 2)
    ensures UntilFrom(cfg, 0, o, body, 0, sc, s).state.failed <==> LastAttemptFails(cfg, o, body, sc, s)
  {
    hide RunAttempt, NoteFailedAttempt, Succeed, Exhausted, Eval, UntilFrom;
    var n := o.maxAttempts - 1;
    var r := UntilFrom(cfg, 0, o, body, 0, sc, s);
    UntilFromIsolated(cfg, o, body, 0, 0, sc, s);
    assert r.state.failed <==> r.outcome == Exited;
    if r.outcome == Exited {
      ExitNeedsLastAttempt(cfg, o, body, 0, sc, s);
    }
    if StateBefore(cfg, 0, o, body, n, sc, s).Some? {
      var sn := StateBefore(cfg, 0, o, body, n, sc, s).value;
      LoopReaches(cfg, 0, o, body, n, sc, s);
      BeforeIsClean(cfg, o, body, n, sc, s);
      LastAttemptDecides(cfg, o, body, sc, sn);
    }
  }

  lemma LastAttemptDecides(cfg: Config, o: Options, body: Command, sc: Scope, s: State)
    requires sc.vars == [0] && !s.failed && o.maxAttempts > 0
    requires Local(body, 1, 2)
    ensures UntilFrom(cfg, 0, o, body, o.maxAttempts - 1, sc, s).outcome == Exited
       <==> var n := o.maxAttempts - 1;
            Eval(cfg, body, Bind(sc, 0, n), Record(s, Ran(sc.path + [n]))).outcome == Exited
  {
    hide Eval, RunAttempt, Succeed;
    var n := o.maxAttempts - 1;
    EvalIsolated(cfg, body, 1, Bind(sc, 0, n), Record(s, Ran(sc.path + [n])));
  }

  // No failure inside a non-last attempt of the outermost call, however deeply
  // nested, marks the test or ends it.
  lemma NonLastAttemptNeverFailsTest(cfg: Config, o: Options, body: Command, i: nat, sc: Scope, s: State)
    requires sc.vars == [0] && !s.failed && i < o.maxAttempts - 1
    requires Local(body, 1, 2)
    requires StateBefore(cfg, 0, o, body, i, sc, s).Some?
    ensures var si := StateBefore(cfg, 0, o, body, i, sc, s).value;
            var r := RunAttempt(cfg, "", body, 0, i, o.maxAttempts, i, sc, si);
            !r.state.failed && r.outcome != Exited && r.outcome != Panicked(RETRY_PANIC_KEY)
  {
    hide RunAttempt;
    var si := StateBefore(cfg, 0, o, body, i, sc, s).value;
    BeforeIsClean(cfg, o, body, i, sc, s);
    RunAttemptContained(cfg, body, 0, i, o.maxAttempts, i, sc, si);
    SameFlag(si, RunAttempt(cfg, "", body, 0, i, o.maxAttempts, i, sc, si).state, 0);
  }

  // A test whose callbacks are all local is failed exactly when its goroutine ends by
  // Goexit.  The closing line says so too; of a test that panics it says that it has
  // completed, and the panic goes on to the testing package.
  lemma TestFailsExactlyWhenItExits(cfg: Config, c: Command, kubeconfig: Option<string>)
    requires Local(c, 0, 1)
    ensures var r := RunTest(cfg, c, kubeconfig);
      && (r.state.failed <==> r.outcome == Exited)
      && r.outcome != Panicked(RETRY_PANIC_KEY)
      && r.state.log[|r.state.log| - 1] == Line(false, TestEnded(r.outcome == Exited))
  {
    hide Eval;
    EvalIsolated(cfg, c, 0, TEST_SCOPE, InitialState(kubeconfig));
  }

  // Of every test, whatever its callbacks do, the closing line tells the failed flag,
  // and closing changes neither the flag nor how the goroutine goes on.
  lemma ClosingLineTellsFlag(cfg: Config, c: Command, kubeconfig: Option<string>)
    ensures var e, r := Eval(cfg, c, TEST_SCOPE, InitialState(kubeconfig)), RunTest(cfg, c, kubeconfig);
      && r.outcome == e.outcome && r.state.failed == e.state.failed
      && r.state.log == e.state.log + [Line(false, Text("")), Line(false, TestEnded(r.state.failed))]
  {
    hide Eval;
  }
}
