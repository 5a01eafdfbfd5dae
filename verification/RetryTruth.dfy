/**
  `WillRetry` tells the truth.  In a program built from nested UntilSuccess calls
  whose callbacks call FailNow on the helper in hand, and Error on any helper, every
  FailNow called while the helper answers true is at once followed by another run of
  an enclosing callback, and one called while it answers false is the last thing
  that happens.
 */
module RetryTruth {
  import opened Wrappers
  import opened RetryModel
  import opened RetryHistory
  import opened RetryIsolation

  // own is the variable of the helper in hand, depth the number of bound variables.
  predicate OnlyUntilSuccess(c: Command, own: Var, depth: nat) {
    match c
    case Nop => true
    case Do(t, act) => act.Log? || act.LogStep? || act.Error? || t == own
    case Panic(value) => value != RETRY_PANIC_KEY
    case Seq(first, second) => OnlyUntilSuccess(first, own, depth) && OnlyUntilSuccess(second, own, depth)
    case If(_, thn, els) => OnlyUntilSuccess(thn, own, depth) && OnlyUntilSuccess(els, own, depth)
    case With(t, _, body) => t == own && OnlyUntilSuccess(body, own, depth)
    case UntilSuccess(t, _, body) => t == own && OnlyUntilSuccess(body, depth, depth + 1)
    case Attempt(_, _, _) => false
    case RetryFunction(_, _, _) => false
  }

  // Some callback enclosing p is started for its next attempt.
  ghost predicate Restarts(p: Path, q: Path) {
    exists j :: 0 <= j < |p| && q == p[..j] + [p[j] + 1]
  }

  ghost predicate FollowedByRun(tr: seq<Event>, i: nat)
    requires i < |tr| && tr[i].Raised?
  {
    i + 1 < |tr| && tr[i + 1].Ran? && Restarts(tr[i].path, tr[i + 1].path)
  }

  // The helper in hand is the top-level one, or one that answers true.
  ghost predicate Hopeful(s: State, h: Handle) {
    IsRetry(s, h) ==> AnswersWillRetry(s, h)
  }

  ghost predicate AllFollowed(tr: seq<Event>, from: nat) {
    forall i :: from <= i < |tr| - 1 && tr[i].Raised? ==> tr[i].willRetry && FollowedByRun(tr, i)
  }

  // Every failure raised since s is followed by a run, except for one that is
  // still on its way out: it is the last event, and the outcome shows its answer.
  ghost predicate Honest(s: State, path: Path, r: Result) {
    var tr := r.state.trace;
    && s.trace <= tr
    && AllFollowed(tr, |s.trace|)
    && (if |s.trace| < |tr| && tr[|tr| - 1].Raised? then
          if tr[|tr| - 1].willRetry
          then r.outcome == Panicked(RETRY_PANIC_KEY) && path <= tr[|tr| - 1].path
          else r.outcome == Exited
        else
          r.outcome != Panicked(RETRY_PANIC_KEY))
  }

  // One failure, raised after steps that raise none.
  lemma FailNowHonest(s: State, s1: State, h: Handle, path: Path)
    requires h <= |s.live| && |s1.live| == |s.live| && Hopeful(s1, h)
    requires s.trace <= s1.trace && forall i :: |s.trace| <= i < |s1.trace| ==> !s1.trace[i].Raised?
    ensures Honest(s, path, FailNowOn(s1, h, path))
  {
  }

  lemma FailKeepsTrace(s: State, h: Handle)
    ensures Fail(s, h).trace == s.trace
  {
  }

  lemma SayKeepsHelpers(cfg: Config, s: State, h: Handle, path: Path, m: Message, own: Handle)
    ensures var s1 := Say(cfg, s, h, path, m);
      s1.trace == s.trace + [Said(path, m)] && |s1.live| == |s.live| && (Hopeful(s, own) ==> Hopeful(s1, own))
  {
  }

  lemma FatalHonest(cfg: Config, s: State, s0: State, h: Handle, path: Path, text: string)
    requires h <= |s.live| && |s0.live| == |s.live| && Hopeful(s0, h)
    requires s.trace <= s0.trace && forall i :: |s.trace| <= i < |s0.trace| ==> !s0.trace[i].Raised?
    ensures Honest(s, path, FatalOn(cfg, s0, h, path, text))
  {
    hide Say, FailNowOn, Honest;
    var m := Text((if IsRetry(s0, h) then FAILURE_PREFIX else FATAL_PREFIX) + text);
    SayKeepsHelpers(cfg, s0, h, path, m, h);
    FailNowHonest(s, Say(cfg, s0, h, path, m), h, path);
  }

  lemma ActHonest(cfg: Config, act: Act, h: Handle, path: Path, s: State)
    requires act.Fatal? || act.FailNow? || act.Shell? ==> Hopeful(s, h) && h <= |s.live|
    ensures Honest(s, path, Act1(cfg, act, h, path, s))
  {
    hide Say, FatalOn, FailNowOn, Fail;
    match act
    case Shell =>
      var s1 := Record(s, Shelled(GetKubeconfig(s)));
      FatalHonest(cfg, s, s1, h, path, "Command failed");
      QuietlyHonest(s, s1, path);
    case Log(text) => SayKeepsHelpers(cfg, s, h, path, Text(text), h);
    case LogStep(text) => QuietlyHonest(s, LogStepOn(s, h, text), path);
    case Error(text) =>
      SayKeepsHelpers(cfg, s, h, path, Text(FAILURE_PREFIX + text), h);
      FailKeepsTrace(Say(cfg, s, h, path, Text(FAILURE_PREFIX + text)), h);
    case Fatal(text) => FatalHonest(cfg, s, s, h, path, text);
    case FailNow => FailNowHonest(s, s, h, path);
  }

  lemma HonestThen(a: State, b: State, path: Path, r: Result)
    requires Honest(a, path, Result(Returned, b)) && Honest(b, path, r)
    ensures Honest(a, path, r)
  {
  }

  // Steps that add at most events of other kinds.
  lemma QuietlyHonest(a: State, b: State, path: Path)
    requires b.trace == a.trace || (exists e: Event :: !e.Raised? && b.trace == a.trace + [e])
    ensures Honest(a, path, Result(Returned, b))
  {
  }

  lemma HopefulLater(s: State, s': State, h: Handle)
    requires Hopeful(s, h) && Extends(s, s') && h <= |s.live|
    ensures Hopeful(s', h)
  {
  }

  // ----- the induction -----

  ghost predicate Ready(c: Command, own: Var, sc: Scope, s: State) {
    && own < |sc.vars| && Handed(sc, s) && Hopeful(s, sc.vars[own])
    && OnlyUntilSuccess(c, own, |sc.vars|)
  }

  lemma ReadyLater(c: Command, own: Var, sc: Scope, s: State, s': State)
    requires own < |sc.vars| && Handed(sc, s) && Hopeful(s, sc.vars[own]) && OnlyUntilSuccess(c, own, |sc.vars|)
    requires Extends(s, s') && |s'.live| == |s.live|
    ensures Ready(c, own, sc, s')
  {
  }

  lemma {:induction false} EvalHonest(cfg: Config, c: Command, own: Var, sc: Scope, s: State)
    requires Ready(c, own, sc, s)
    ensures Honest(s, sc.path, Eval(cfg, c, sc, s))
    decreases c, 0
  {
    hide Act1, EvalWith, UntilFrom, RunAttempt, RetryFrom, Honest, Extends;
    var h := sc.vars[own];
    match c
    case Nop => QuietlyHonest(s, s, sc.path);
    case Do(t, act) => ActHonest(cfg, act, HandleOf(sc, t), sc.path, s);
    case Panic(value) => QuietlyHonest(s, s, sc.path); OtherPanic(s, sc.path, value);
    case Seq(first, second) =>
      EvalHonest(cfg, first, own, sc, s);
      var r := Eval(cfg, first, sc, s);
      if r.outcome == Returned {
        EvalExtends(cfg, first, sc, s);
        ReadyLater(second, own, sc, s, r.state);
        EvalHonest(cfg, second, own, sc, r.state);
        HonestThen(s, r.state, sc.path, Eval(cfg, second, sc, r.state));
      }
    case If(query, thn, els) =>
      var (answer, s1) := Ask(cfg, query, sc, s);
      QuietlyHonest(s, s1, sc.path);
      EvalHonest(cfg, if answer then thn else els, own, sc, s1);
      HonestThen(s, s1, sc.path, Eval(cfg, if answer then thn else els, sc, s1));
    case With(t, kubeconfig, body) =>
      EvalWithHonest(cfg, kubeconfig, body, own, sc, s);
    case UntilSuccess(t, options, body) =>
      UntilFromHonest(cfg, options, body, 0, own, sc, s);
  }

  lemma OtherPanic(s: State, path: Path, value: string)
    requires value != RETRY_PANIC_KEY
    ensures Honest(s, path, Result(Panicked(value), s))
  {
  }

  lemma {:induction false} EvalWithHonest(cfg: Config, kubeconfig: string, body: Command, own: Var, sc: Scope, s: State)
    requires Ready(body, own, sc, s)
    ensures Honest(s, sc.path, EvalWith(cfg, sc.vars[own], kubeconfig, body, sc, s))
    decreases body, 1
  {
    hide FatalOn, Eval, Honest, Extends;
    var h := sc.vars[own];
    if kubeconfig == "" {
      EvalHonest(cfg, body, own, sc, s);
    } else {
      ActHonest(cfg, Fatal("could not set KUBECONFIG"), h, sc.path, s);
      var s1 := s.(kubeconfig := Some(kubeconfig));
      EvalHonest(cfg, body, own, sc, s1);
      var r := Eval(cfg, body, sc, s1);
      QuietlyHonest(s, s1, sc.path);
      HonestThen(s, s1, sc.path, r);
      if r.outcome == Returned {
        EvalExtends(cfg, body, sc, s1);
        HopefulLater(s1, r.state, h);
        ActHonest(cfg, Fatal("could not set KUBECONFIG"), h, sc.path, r.state);
        HonestThen(s, r.state, sc.path, FatalOn(cfg, r.state, h, sc.path, "could not set KUBECONFIG"));
        var s2 := r.state.(kubeconfig := Some(GetKubeconfig(s)));
        QuietlyHonest(r.state, s2, sc.path);
        HonestThen(s, r.state, sc.path, Result(Returned, s2));
      }
    }
  }

  lemma NotesLeaveTrace(cfg: Config, s: State, h: Handle, used: Handle, attempt: nat, o: Options)
    ensures NoteFailedAttempt(cfg, s, h, attempt, o).trace == s.trace
    ensures |NoteFailedAttempt(cfg, s, h, attempt, o).live| == |s.live|
    ensures Succeed(cfg, s, h, used, attempt, o).trace == s.trace
    ensures |Succeed(cfg, s, h, used, attempt, o).live| == |s.live|
    ensures Exhausted(cfg, s, h, attempt, o).outcome == Exited
    ensures Exhausted(cfg, s, h, attempt, o).state.trace == s.trace
  {
  }

  // Dropping the last part of the path weakens what is said of a pending failure.
  lemma HonestOutside(s: State, sc: Scope, h: Handle, attempt: nat, s1: State, r: Result)
    requires s1.trace == s.trace + [Ran(sc.path + [attempt])]
    requires Honest(s1, Bind(sc, h, attempt).path, r)
    ensures Honest(s, sc.path, r)
    ensures |s.trace| < |r.state.trace| && r.state.trace[|s.trace|] == Ran(sc.path + [attempt])
  {
  }

  // Attempt i failed: a failure that is still pending is the last event, and was
  // raised inside the attempt while its helper answered true.
  ghost predicate AttemptFailed(s: State, path: Path, attempt: nat, b: State) {
    var tr := b.trace;
    && |s.trace| < |tr| && s.trace <= tr && AllFollowed(tr, |s.trace|)
    && (tr[|tr| - 1].Raised? ==> tr[|tr| - 1].willRetry && path + [attempt] <= tr[|tr| - 1].path)
  }

  // The pending failure of attempt i meets the start of attempt i + 1.
  lemma RestartIsHonest(s: State, b: State, path: Path, attempt: nat, r: Result)
    requires AttemptFailed(s, path, attempt, b)
    requires Honest(b, path, r)
    requires |b.trace| < |r.state.trace| && r.state.trace[|b.trace|] == Ran(path + [attempt + 1])
    ensures Honest(s, path, r)
    ensures r.state.trace[|s.trace|] == b.trace[|s.trace|]
  {
    var tr := r.state.trace;
    var m := |b.trace| - 1;
    assert tr[m] == b.trace[m];
    if tr[m].Raised? {
      var p := b.trace[m].path;
      assert p[..|path|] == path && p[|path|] == attempt;
      assert path + [attempt + 1] == p[..|path|] + [p[|path|] + 1];
      assert FollowedByRun(tr, m);
    }
    forall i | |s.trace| <= i < |tr| - 1 && tr[i].Raised?
      ensures tr[i].willRetry && FollowedByRun(tr, i)
    {
      if i < m {
        assert tr[i] == b.trace[i] && FollowedByRun(b.trace, i);
        assert tr[i + 1] == b.trace[i + 1];
      }
    }
  }

  lemma {:induction false} UntilFromHonest(cfg: Config, o: Options, body: Command, i: nat, own: Var, sc: Scope,
                                           s: State)
    requires own < |sc.vars| && Handed(sc, s) && Hopeful(s, sc.vars[own])
    requires OnlyUntilSuccess(body, |sc.vars|, |sc.vars| + 1)
    ensures Honest(s, sc.path, UntilFrom(cfg, sc.vars[own], o, body, i, sc, s))
    ensures i < o.maxAttempts ==>
      var tr := UntilFrom(cfg, sc.vars[own], o, body, i, sc, s).state.trace;
      |s.trace| < |tr| && tr[|s.trace|] == Ran(sc.path + [i])
    decreases body, 3, o.maxAttempts - i
  {
    hide Eval, RunAttempt, Honest, Extends, NoteFailedAttempt, Succeed, Exhausted, AttemptFailed, HasFailed;
    var h := sc.vars[own];
    if i >= o.maxAttempts {
      QuietlyHonest(s, s, sc.path);
    } else if i == o.maxAttempts - 1 {
      var sc1 := Bind(sc, h, i);
      var s1 := Record(s, Ran(sc1.path));
      var r := Eval(cfg, body, sc1, s1);
      EvalHonest(cfg, body, |sc.vars|, sc1, s1);
      HonestOutside(s, sc, h, i, s1, r);
      if r.outcome == Returned {
        NotesLeaveTrace(cfg, r.state, h, h, i, o);
        SameTraceHonest(s, sc.path, r, Result(Returned, Succeed(cfg, r.state, h, h, i, o)));
        ExhaustedHonest(s, sc.path, r, Exhausted(cfg, r.state, h, i, o));
      }
    } else {
      AttemptHonest(cfg, o, body, i, own, sc, s);
      var r := RunAttempt(cfg, "", body, h, i, o.maxAttempts, i, sc, s);
      if r.outcome != Returned {
        SameTraceHonest(s, sc.path, r, Result(r.outcome, Pop(r.state)));
      } else if HasFailed(r.state, |r.state.live|) {
        var s2 := NoteFailedAttempt(cfg, Pop(r.state), h, i, o);
        NotesLeaveTrace(cfg, Pop(r.state), h, h, i, o);
        HelperSurvivesAttempt(cfg, o, body, i, own, sc, s);
        UntilFromHonest(cfg, o, body, i + 1, own, sc, s2);
        SameTraceFailed(s, sc.path, i, r.state, s2);
        RestartIsHonest(s, s2, sc.path, i, UntilFrom(cfg, h, o, body, i + 1, sc, s2));
      } else {
        var s2 := Succeed(cfg, r.state, h, |r.state.live|, i, o);
        NotesLeaveTrace(cfg, r.state, h, |r.state.live|, i, o);
        SameTraceHonest(s, sc.path, r, Result(Returned, Pop(s2)));
      }
    }
  }

  // A failed attempt leaves the helper in hand with its answer.
  lemma HelperSurvivesAttempt(cfg: Config, o: Options, body: Command, i: nat, own: Var, sc: Scope, s: State)
    requires own < |sc.vars| && Handed(sc, s) && Hopeful(s, sc.vars[own])
    ensures var r := RunAttempt(cfg, "", body, sc.vars[own], i, o.maxAttempts, i, sc, s);
      var s2 := NoteFailedAttempt(cfg, Pop(r.state), sc.vars[own], i, o);
      |s2.live| == |s.live| && Hopeful(s2, sc.vars[own])
  {
    hide RunAttempt, NoteFailedAttempt, Extends;
    var h := sc.vars[own];
    var r := RunAttempt(cfg, "", body, h, i, o.maxAttempts, i, sc, s);
    var s2 := NoteFailedAttempt(cfg, Pop(r.state), h, i, o);
    RunAttemptExtends(cfg, "", body, h, i, o.maxAttempts, i, sc, s);
    NotesLeaveTrace(cfg, Pop(r.state), h, h, i, o);
    LoopStepsExtend(cfg, Pop(r.state), Asked, h, i, o);
    ExtendsTransitive(s, Pop(r.state), s2);
    HopefulLater(s, s2, h);
  }

  // An exhausted call ends the test without a failure of its own.
  lemma ExhaustedHonest(s: State, path: Path, r: Result, r': Result)
    requires Honest(s, path, r) && r.outcome == Returned && r'.outcome == Exited && r'.state.trace == r.state.trace
    ensures Honest(s, path, r')
  {
  }

  lemma SameTraceFailed(s: State, path: Path, attempt: nat, b: State, b': State)
    requires AttemptFailed(s, path, attempt, b) && b'.trace == b.trace
    ensures AttemptFailed(s, path, attempt, b')
  {
  }

  lemma SameTraceHonest(s: State, path: Path, r: Result, r': Result)
    requires Honest(s, path, r) && r'.outcome == r.outcome && r'.state.trace == r.state.trace
    ensures Honest(s, path, r')
  {
  }

  // After a non-last attempt the trace ends in its failure or shows none pending.
  lemma {:induction false} AttemptHonest(cfg: Config, o: Options, body: Command, i: nat, own: Var, sc: Scope, s: State)
    requires own < |sc.vars| && Handed(sc, s) && i < o.maxAttempts - 1
    requires OnlyUntilSuccess(body, |sc.vars|, |sc.vars| + 1)
    ensures var r := RunAttempt(cfg, "", body, sc.vars[own], i, o.maxAttempts, i, sc, s);
      var tr := r.state.trace;
      && |s.trace| < |tr| && tr[|s.trace|] == Ran(sc.path + [i])
      && (if r.outcome == Returned && HasFailed(r.state, |r.state.live|)
          then AttemptFailed(s, sc.path, i, r.state)
          else Honest(s, sc.path, r))
    decreases body, 2
  {
    hide EvalWith, AllFollowed;
    var h := |s.live| + 1;
    var sc1 := Bind(sc, h, i);
    var s1 := Enter(s, sc.vars[own], i, o.maxAttempts, sc1.path);
    assert Ready(body, |sc.vars|, sc1, s1);
    EvalWithHonest(cfg, "", body, |sc.vars|, sc1, s1);
    var r := EvalWith(cfg, h, "", body, sc1, s1);
    HonestOutside(s, sc, h, i, s1, r);
    FailKeepsTrace(r.state, h);
  }

  // ----- the whole test -----

  // No panic of a retry helper reaches the top-level helper: it is always recovered
  // by the attempt whose callback it leaves.
  lemma {:induction false} NoRetryPanicOnTop(cfg: Config, c: Command, own: Var, sc: Scope, s: State)
    requires own < |sc.vars| && sc.vars[own] == 0 && OnlyUntilSuccess(c, own, |sc.vars|)
    ensures Eval(cfg, c, sc, s).outcome != Panicked(RETRY_PANIC_KEY)
    decreases c, 0
  {
    hide RunAttempt, Say, Fail, LogStepOn, Succeed, NoteFailedAttempt, HasFailed;
    match c
    case Nop =>
    case Do(t, act) =>
    case Panic(value) =>
    case Seq(first, second) =>
      NoRetryPanicOnTop(cfg, first, own, sc, s);
      NoRetryPanicOnTop(cfg, second, own, sc, Eval(cfg, first, sc, s).state);
    case If(query, thn, els) =>
      var s1 := Ask(cfg, query, sc, s).1;
      NoRetryPanicOnTop(cfg, thn, own, sc, s1);
      NoRetryPanicOnTop(cfg, els, own, sc, s1);
    case With(t, kubeconfig, body) =>
      NoRetryPanicOnTop(cfg, body, own, sc, Entered(kubeconfig, s));
    case UntilSuccess(t, options, body) =>
      NoRetryPanicFromLoop(cfg, options, body, 0, sc, s);
  }

  lemma {:induction false} NoRetryPanicFromLoop(cfg: Config, o: Options, body: Command, i: nat, sc: Scope, s: State)
    requires OnlyUntilSuccess(body, |sc.vars|, |sc.vars| + 1)
    ensures UntilFrom(cfg, 0, o, body, i, sc, s).outcome != Panicked(RETRY_PANIC_KEY)
    decreases body, 3, o.maxAttempts - i
  {
    hide Eval, EvalWith, Succeed, NoteFailedAttempt, HasFailed;
    if i == o.maxAttempts - 1 {
      var sc1 := Bind(sc, 0, i);
      NoRetryPanicOnTop(cfg, body, |sc.vars|, sc1, Record(s, Ran(sc1.path)));
    } else if i < o.maxAttempts {
      var r := RunAttempt(cfg, "", body, 0, i, o.maxAttempts, i, sc, s);
      NoRetryPanicFromLoop(cfg, o, body, i + 1, sc, NoteFailedAttempt(cfg, Pop(r.state), 0, i, o));
    }
  }

  // Each failure raised from this point of the history on is followed by another run
  // of an enclosing callback if the helper answered true, and by nothing if false.
  ghost predicate Truthful(tr: seq<Event>, from: nat) {
    forall i :: from <= i < |tr| && tr[i].Raised? ==>
      if tr[i].willRetry then FollowedByRun(tr, i) else i == |tr| - 1
  }

  // A callback with the top-level helper in hand, such as a test function.
  lemma WillRetryTellsTheTruth(cfg: Config, c: Command, sc: Scope, s: State)
    requires sc.vars == [0] && OnlyUntilSuccess(c, 0, 1)
    ensures Truthful(Eval(cfg, c, sc, s).state.trace, |s.trace|)
  {
    hide Eval;
    EvalHonest(cfg, c, 0, sc, s);
    NoRetryPanicOnTop(cfg, c, 0, sc, s);
  }

  // What a callback learns by asking.
  lemma AnswersAreExact(cfg: Config, t: Var, sc: Scope, s: State)
    requires t < |sc.vars| && sc.vars[t] <= |s.live|
    ensures Ask(cfg, Failed(t), sc, s)
         == (if sc.vars[t] == 0 then s.failed else s.live[sc.vars[t] - 1].failed, s)
    ensures Ask(cfg, WillRetry(t), sc, s)
         == (sc.vars[t] > 0 && s.live[sc.vars[t] - 1].attempt + 1 < s.live[sc.vars[t] - 1].maxAttempts, s)
    ensures Ask(cfg, Foreign, sc, s) == (cfg.oracle(|s.trace|), s.(trace := s.trace + [Asked]))
  {
  }

  // The helper of retry.Attempt, and so of retryFunction, never promises a retry.
  lemma AttemptPromisesNothing(cfg: Config, t: Var, sc: Scope, s: State)
    ensures Eval(cfg, Attempt(t, Do(|sc.vars|, FailNow), Nop), sc, s).state.trace
         == s.trace + [Ran(sc.path + [0]), Raised(sc.path + [0], false)]
  {
    var body := Do(|sc.vars|, FailNow);
    var h := |s.live| + 1;
    var sc1 := Bind(sc, h, 0);
    var s1 := Enter(s, HandleOf(sc, t), 0, 1, sc1.path);
    assert Eval(cfg, body, sc1, s1) == FailNowOn(s1, h, sc1.path);
    UnreturnedAttempt(cfg, "", body, HandleOf(sc, t), 0, 1, 0, sc, s);
    hide RunAttempt;
    FailKeepsTrace(s1, h);
    FailKeepsTrace(FailNowOn(s1, h, sc1.path).state, h);
    assert s.trace + [Ran(sc1.path)] + [Raised(sc1.path, false)] == s.trace + [Ran(sc1.path), Raised(sc1.path, false)];
  }

  lemma RetryFunctionPromisesNothing(cfg: Config, t: Var, sc: Scope, s: State)
    ensures var tr := Eval(cfg, RetryFunction(t, "", Do(|sc.vars|, FailNow)), sc, s).state.trace;
      s.trace + [Ran(sc.path + [0]), Raised(sc.path + [0], false)] <= tr
  {
    var body := Do(|sc.vars|, FailNow);
    var h := |s.live| + 1;
    var sc1 := Bind(sc, h, 0);
    var s1 := Enter(s, HandleOf(sc, t), 0, 1, sc1.path);
    var r := RunAttempt(cfg, "", body, HandleOf(sc, t), 0, 1, 0, sc, s);
    assert Eval(cfg, body, sc1, s1) == FailNowOn(s1, h, sc1.path);
    UnreturnedAttempt(cfg, "", body, HandleOf(sc, t), 0, 1, 0, sc, s);
    FailKeepsTrace(s1, h);
    FailKeepsTrace(FailNowOn(s1, h, sc1.path).state, h);
    assert s.trace + [Ran(sc1.path)] + [Raised(sc1.path, false)] == s.trace + [Ran(sc1.path), Raised(sc1.path, false)];
    assert r.state.trace == s.trace + [Ran(sc1.path), Raised(sc1.path, false)];
    hide RunAttempt, Rescued, GiveUp, Extends;
    RetryFromExtends(cfg, HandleOf(sc, t), "", body, 1, sc, Pop(r.state));
    ExtendsTrace(Pop(r.state), RetryFrom(cfg, HandleOf(sc, t), "", body, 1, sc, Pop(r.state)).state);
  }

  lemma ExtendsTrace(s: State, s': State)
    requires Extends(s, s')
    ensures s.trace <= s'.trace
  {
  }
}
