/**
  What no callback can undo: the history and the test log only grow, failed flags
  are sticky, and a live helper keeps its attempt number.
 */
module RetryHistory {
  import opened Wrappers
  import opened RetryModel

  ghost predicate Older(a: RetryHelper, b: RetryHelper) {
    (a.failed ==> b.failed) && a.attempt == b.attempt && a.maxAttempts == b.maxAttempts && a.step <= b.step
  }

  ghost predicate Extends(s: State, s': State) {
    && s.trace <= s'.trace
    && s.log <= s'.log
    && (s.failed ==> s'.failed)
    && s.step <= s'.step
    && |s.live| <= |s'.live|
    && forall j :: 0 <= j < |s.live| ==> Older(s.live[j], s'.live[j])
  }

  lemma ExtendsTransitive(a: State, b: State, c: State)
    requires Extends(a, b) && Extends(b, c)
    ensures Extends(a, c)
  {
  }

  lemma ExtendsReflexive(s: State)
    ensures Extends(s, s)
  {
  }

  lemma SayExtends(cfg: Config, s: State, h: Handle, path: Path, m: Message)
    ensures Extends(s, Say(cfg, s, h, path, m))
  {
  }

  lemma FailExtends(s: State, h: Handle)
    ensures Extends(s, Fail(s, h))
  {
  }

  lemma FailNowExtends(s: State, h: Handle, path: Path)
    ensures Extends(s, FailNowOn(s, h, path).state)
  {
  }

  lemma FatalExtends(cfg: Config, s: State, h: Handle, path: Path, text: string)
    ensures Extends(s, FatalOn(cfg, s, h, path, text).state)
  {
    hide Say, FailNowOn, Extends;
    var s1 := Say(cfg, s, h, path, Text((if IsRetry(s, h) then FAILURE_PREFIX else FATAL_PREFIX) + text));
    SayExtends(cfg, s, h, path, Text((if IsRetry(s, h) then FAILURE_PREFIX else FATAL_PREFIX) + text));
    FailNowExtends(s1, h, path);
    ExtendsTransitive(s, s1, FailNowOn(s1, h, path).state);
  }

  lemma LogStepExtends(s: State, h: Handle, text: string)
    ensures Extends(s, LogStepOn(s, h, text))
  {
  }

  lemma RecordExtends(s: State, e: Event)
    ensures Extends(s, Record(s, e))
  {
  }

  lemma ActExtends(cfg: Config, act: Act, h: Handle, path: Path, s: State)
    ensures Extends(s, Act1(cfg, act, h, path, s).state)
  {
    hide Say, Fail, FatalOn, FailNowOn, LogStepOn, Extends, Record;
    match act
    case Shell =>
      var s1 := Record(s, Shelled(GetKubeconfig(s)));
      RecordExtends(s, Shelled(GetKubeconfig(s)));
      FatalExtends(cfg, s1, h, path, "Command failed");
      ExtendsTransitive(s, s1, FatalOn(cfg, s1, h, path, "Command failed").state);
    case Log(text) => SayExtends(cfg, s, h, path, Text(text));
    case LogStep(text) => LogStepExtends(s, h, text);
    case Error(text) =>
      var s1 := Say(cfg, s, h, path, Text(FAILURE_PREFIX + text));
      SayExtends(cfg, s, h, path, Text(FAILURE_PREFIX + text));
      FailExtends(s1, h);
      ExtendsTransitive(s, s1, Fail(s1, h));
    case Fatal(text) => FatalExtends(cfg, s, h, path, text);
    case FailNow => FailNowExtends(s, h, path);
  }

  lemma LoopStepsExtend(cfg: Config, s: State, e: Event, h: Handle, attempt: nat, o: Options)
    ensures Extends(s, Record(s, e))
    ensures Extends(s, NoteFailedAttempt(cfg, s, h, attempt, o))
    ensures Extends(s, Flush(cfg, s, h)) && |Flush(cfg, s, h).live| == |s.live|
    ensures Extends(s, Exhausted(cfg, s, h, attempt, o).state)
  {
  }

  // A state whose newest helper is not among those of s may drop it.
  lemma PopExtends(s: State, s': State)
    requires Extends(s, s') && |s.live| < |s'.live|
    ensures Extends(s, Pop(s'))
  {
  }

  lemma EmitExtends(cfg: Config, s: State, h: Handle, m: Message)
    ensures Extends(s, Emit(cfg, s, h, m)) && |Emit(cfg, s, h, m).live| == |s.live|
  {
  }

  lemma WarnExtends(cfg: Config, s: State, h: Handle, attempt: nat, maxAttempts: int)
    ensures Extends(s, Warn(cfg, s, h, attempt, maxAttempts))
    ensures |Warn(cfg, s, h, attempt, maxAttempts).live| == |s.live|
  {
    hide Emit, Extends;
    ExtendsReflexive(s);
    EmitExtends(cfg, s, h, AlmostCertainlyFlaky);
    EmitExtends(cfg, s, h, MayBeFlaky);
  }

  lemma SucceedExtends(cfg: Config, s: State, h: Handle, used: Handle, attempt: nat, o: Options)
    ensures Extends(s, Succeed(cfg, s, h, used, attempt, o))
    ensures |Succeed(cfg, s, h, used, attempt, o).live| == |s.live|
  {
    hide Emit, Flush, Warn, Extends;
    ExtendsReflexive(s);
    EmitExtends(cfg, s, h, AttemptSuccessful(attempt + 1, o.maxAttempts));
    LoopStepsExtend(cfg, s, Asked, used, attempt, o);
    var s1 :=
      if !cfg.logFailed then Flush(cfg, s, used)
      else if attempt > 0 && o.logAttempts then Emit(cfg, s, h, AttemptSuccessful(attempt + 1, o.maxAttempts))
      else s;
    WarnExtends(cfg, s1, h, attempt, o.maxAttempts);
    ExtendsTransitive(s, s1, Warn(cfg, s1, h, attempt, o.maxAttempts));
  }

  lemma {:induction false} EvalExtends(cfg: Config, c: Command, sc: Scope, s: State)
    ensures Extends(s, Eval(cfg, c, sc, s).state)
    decreases c, 0
  {
    hide Act1, EvalWith, UntilFrom, RunAttempt, RetryFrom;
    match c
    case Nop =>
    case Do(t, act) => ActExtends(cfg, act, HandleOf(sc, t), sc.path, s);
    case Panic(value) =>
    case Seq(first, second) =>
      var r := Eval(cfg, first, sc, s);
      EvalExtends(cfg, first, sc, s);
      if r.outcome == Returned {
        EvalExtends(cfg, second, sc, r.state);
        ExtendsTransitive(s, r.state, Eval(cfg, second, sc, r.state).state);
      }
    case If(query, thn, els) =>
      var s1 := Ask(cfg, query, sc, s).1;
      EvalExtends(cfg, thn, sc, s1);
      EvalExtends(cfg, els, sc, s1);
    case With(t, kubeconfig, body) =>
      EvalWithExtends(cfg, HandleOf(sc, t), kubeconfig, body, sc, s);
    case UntilSuccess(t, options, body) =>
      UntilFromExtends(cfg, HandleOf(sc, t), options, body, 0, sc, s);
    case Attempt(t, body, after) =>
      var r := RunAttempt(cfg, "", body, HandleOf(sc, t), 0, 1, 0, sc, s);
      RunAttemptExtends(cfg, "", body, HandleOf(sc, t), 0, 1, 0, sc, s);
      if r.outcome == Returned {
        var r1 := Eval(cfg, after, Bind(sc, |r.state.live|, 0), r.state);
        EvalExtends(cfg, after, Bind(sc, |r.state.live|, 0), r.state);
        ExtendsTransitive(s, r.state, r1.state);
      }
    case RetryFunction(t, kubeconfig, body) =>
      RetryFromExtends(cfg, HandleOf(sc, t), kubeconfig, body, 0, sc, s);
  }

  lemma SetKubeconfigExtends(s: State, kubeconfig: string)
    ensures Extends(s, s.(kubeconfig := Some(kubeconfig)))
  {
  }

  lemma {:induction false} EvalWithExtends(cfg: Config, h: Handle, kubeconfig: string, body: Command, sc: Scope,
                                           s: State)
    ensures Extends(s, EvalWith(cfg, h, kubeconfig, body, sc, s).state)
    decreases body, 1
  {
    hide Eval, FatalOn, Extends;
    EvalExtends(cfg, body, sc, s);
    EvalExtends(cfg, body, sc, s.(kubeconfig := Some(kubeconfig)));
    FatalExtends(cfg, s, h, sc.path, "could not set KUBECONFIG");
    var r := Eval(cfg, body, sc, Entered(kubeconfig, s));
    if kubeconfig != "" {
      var s1 := s.(kubeconfig := Some(kubeconfig));
      SetKubeconfigExtends(s, kubeconfig);
      ExtendsTransitive(s, s1, r.state);
      SetKubeconfigExtends(r.state, GetKubeconfig(s));
      ExtendsTransitive(s, r.state, r.state.(kubeconfig := Some(GetKubeconfig(s))));
    }
    FatalExtends(cfg, r.state, h, sc.path, "could not set KUBECONFIG");
    ExtendsTransitive(s, r.state, FatalOn(cfg, r.state, h, sc.path, "could not set KUBECONFIG").state);
  }

  lemma {:induction false} RunAttemptExtends(cfg: Config, kubeconfig: string, body: Command, parent: Handle,
                                             attempt: nat, maxAttempts: int, run: nat, sc: Scope, s: State)
    ensures var s1 := RunAttempt(cfg, kubeconfig, body, parent, attempt, maxAttempts, run, sc, s).state;
            Extends(s, s1) && Extends(s, Pop(s1))
            && s1.live[|s.live|].attempt == attempt && s1.live[|s.live|].maxAttempts == maxAttempts
    decreases body, 2
  {
    hide EvalWith, Fail;
    var sc1 := Bind(sc, |s.live| + 1, run);
    var s1 := Enter(s, parent, attempt, maxAttempts, sc1.path);
    assert Extends(s, s1);
    EvalWithExtends(cfg, |s1.live|, kubeconfig, body, sc1, s1);
    var r := EvalWith(cfg, |s1.live|, kubeconfig, body, sc1, s1);
    ExtendsTransitive(s, s1, r.state);
    FailExtends(r.state, |r.state.live|);
    ExtendsTransitive(s, r.state, Fail(r.state, |r.state.live|));
    ExtendsTransitive(s1, r.state, Fail(r.state, |r.state.live|));
    FailKeepsLength(r.state, |r.state.live|);
    PopExtends(s, r.state);
    PopExtends(s, Fail(r.state, |r.state.live|));
    NewestKeepsNumbers(s1, Recover(r).state);
  }

  lemma FailKeepsLength(s: State, h: Handle)
    ensures |Fail(s, h).live| == |s.live|
  {
  }

  lemma NewestKeepsNumbers(s: State, s': State)
    requires Extends(s, s') && |s'.live| == |s.live| > 0
    ensures s'.live[|s.live| - 1].attempt == s.live[|s.live| - 1].attempt
    ensures s'.live[|s.live| - 1].maxAttempts == s.live[|s.live| - 1].maxAttempts
  {
  }

  lemma {:induction false} UntilFromExtends(cfg: Config, h: Handle, o: Options, body: Command, i: nat, sc: Scope,
                                            s: State)
    ensures Extends(s, UntilFrom(cfg, h, o, body, i, sc, s).state)
    decreases body, 3, o.maxAttempts - i
  {
    hide Succeed, Extends, NoteFailedAttempt, RunAttempt, HasFailed, Eval, Exhausted;
    ExtendsReflexive(s);
    if i < o.maxAttempts {
      if i == o.maxAttempts - 1 {
        LastAttemptExtends(cfg, h, o, body, i, sc, s);
      } else {
        RunAttemptExtends(cfg, "", body, h, i, o.maxAttempts, i, sc, s);
        var r := RunAttempt(cfg, "", body, h, i, o.maxAttempts, i, sc, s);
        if r.outcome == Returned {
          if HasFailed(r.state, |r.state.live|) {
            var s2 := NoteFailedAttempt(cfg, Pop(r.state), h, i, o);
            LoopStepsExtend(cfg, Pop(r.state), Asked, h, i, o);
            ExtendsTransitive(s, Pop(r.state), s2);
            UntilFromExtends(cfg, h, o, body, i + 1, sc, s2);
            ExtendsTransitive(s, s2, UntilFrom(cfg, h, o, body, i + 1, sc, s2).state);
          } else {
            var s2 := Succeed(cfg, r.state, h, |r.state.live|, i, o);
            SucceedExtends(cfg, r.state, h, |r.state.live|, i, o);
            ExtendsTransitive(s, r.state, s2);
            PopExtends(s, s2);
          }
        }
      }
    }
  }

  lemma {:induction false} LastAttemptExtends(cfg: Config, h: Handle, o: Options, body: Command, i: nat, sc: Scope,
                                              s: State)
    requires i == o.maxAttempts - 1
    ensures Extends(s, UntilFrom(cfg, h, o, body, i, sc, s).state)
    decreases body, 3, 0
  {
    hide Succeed, Extends, Exhausted, RunAttempt, Eval, HasFailed;
    var sc1 := Bind(sc, h, i);
    var s1 := Record(s, Ran(sc1.path));
    EvalExtends(cfg, body, sc1, s1);
    var r := Eval(cfg, body, sc1, s1);
    LoopStepsExtend(cfg, s, Ran(sc1.path), h, i, o);
    ExtendsTransitive(s, s1, r.state);
    LoopStepsExtend(cfg, r.state, Asked, h, i, o);
    SucceedExtends(cfg, r.state, h, h, i, o);
    ExtendsTransitive(s, r.state, Succeed(cfg, r.state, h, h, i, o));
    ExtendsTransitive(s, r.state, Exhausted(cfg, r.state, h, i, o).state);
  }

  lemma GiveUpExtends(cfg: Config, s: State, s': State, h: Handle, path: Path)
    requires Extends(s, s') && |s.live| < |s'.live|
    ensures Extends(s, GiveUp(cfg, s', h, path).state)
  {
  }

  lemma RescuedExtends(cfg: Config, s: State, s': State, h: Handle, i: nat)
    requires Extends(s, s') && |s.live| < |s'.live|
    ensures Extends(s, Rescued(cfg, s', h, i).state)
  {
  }

  lemma {:induction false} RetryFromExtends(cfg: Config, h: Handle, kubeconfig: string, body: Command, i: nat,
                                            sc: Scope, s: State)
    requires i < RETRY_FUNCTION_ATTEMPTS
    ensures Extends(s, RetryFrom(cfg, h, kubeconfig, body, i, sc, s).state)
    decreases body, 3, RETRY_FUNCTION_ATTEMPTS - i
  {
    hide Extends, Rescued, GiveUp, RunAttempt, HasFailed;
    RunAttemptExtends(cfg, kubeconfig, body, h, 0, 1, i, sc, s);
    var r := RunAttempt(cfg, kubeconfig, body, h, 0, 1, i, sc, s);
    if r.outcome == Returned {
      if !HasFailed(r.state, |r.state.live|) {
        RescuedExtends(cfg, s, r.state, h, i);
      } else if i + 1 < RETRY_FUNCTION_ATTEMPTS {
        RetryFromExtends(cfg, h, kubeconfig, body, i + 1, sc, Pop(r.state));
        ExtendsTransitive(s, Pop(r.state), RetryFrom(cfg, h, kubeconfig, body, i + 1, sc, Pop(r.state)).state);
      } else {
        GiveUpExtends(cfg, s, r.state, h, sc.path);
      }
    }
  }
}
