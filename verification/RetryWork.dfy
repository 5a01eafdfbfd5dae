/**
  How much work retrying can do: an upper bound that is the product of the attempt
  limits along the nesting path, and the nestings of `retryFunction` that reach it.
 */
module RetryWork {
  import opened Wrappers
  import opened RetryModel
  import opened RetryHistory

  // Shell commands run so far.
  function Shells(tr: seq<Event>): nat {
    if tr == [] then 0
    else Shells(tr[..|tr| - 1]) + (if tr[|tr| - 1].Shelled? then 1 else 0)
  }

  lemma ShellsAppend(tr: seq<Event>, e: Event)
    ensures Shells(tr + [e]) == Shells(tr) + (if e.Shelled? then 1 else 0)
  {
  }

  function Work(s: State): nat {
    Shells(s.trace)
  }

  function Max(a: nat, b: nat): nat {
    if a < b then b else a
  }

  // Attempts left when attempt i is next.
  function Left(maxAttempts: int, i: nat): nat {
    if i < maxAttempts then maxAttempts - i else 0
  }

  // Limits multiply along nesting, and add up along sequences.
  function Bound(c: Command): nat {
    match c
    case Nop => 0
    case Do(_, act) => if act.Shell? then 1 else 0
    case Panic(_) => 0
    case Seq(first, second) => Bound(first) + Bound(second)
    case If(_, thn, els) => Max(Bound(thn), Bound(els))
    case With(_, _, body) => Bound(body)
    case UntilSuccess(_, o, body) => Left(o.maxAttempts, 0) * Bound(body)
    case Attempt(_, body, after) => Bound(body) + Bound(after)
    case RetryFunction(_, _, body) => RETRY_FUNCTION_ATTEMPTS * Bound(body)
  }

  lemma ActWork(cfg: Config, act: Act, h: Handle, path: Path, s: State)
    ensures Work(Act1(cfg, act, h, path, s).state) == Work(s) + (if act.Shell? then 1 else 0)
  {
    hide Shells;
    match act
    case Shell =>
      var e := Shelled(GetKubeconfig(s));
      ShellsAppend(s.trace, e);
      FatalWork(cfg, h, path, Record(s, e), "Command failed");
    case Log(text) => ShellsAppend(s.trace, Said(path, Text(text)));
    case LogStep(_) =>
    case Error(text) => ShellsAppend(s.trace, Said(path, Text(FAILURE_PREFIX + text)));
    case Fatal(text) => FatalWork(cfg, h, path, s, text);
    case FailNow => ShellsAppend(s.trace, Raised(path, AnswersWillRetry(s, h)));
  }

  lemma FatalWork(cfg: Config, h: Handle, path: Path, s: State, text: string)
    ensures Work(FatalOn(cfg, s, h, path, text).state) == Work(s)
  {
    hide Shells;
    var e := Said(path, Text((if IsRetry(s, h) then FAILURE_PREFIX else FATAL_PREFIX) + text));
    ShellsAppend(s.trace, e);
    ShellsAppend(s.trace + [e], Raised(path, AnswersWillRetry(s, h)));
  }

  lemma AskWork(cfg: Config, q: Query, sc: Scope, s: State)
    ensures Work(Ask(cfg, q, sc, s).1) == Work(s)
  {
  }

  lemma NotesDoNoWork(cfg: Config, s: State, h: Handle, used: Handle, attempt: nat, o: Options, m: Message)
    ensures Work(NoteFailedAttempt(cfg, s, h, attempt, o)) == Work(s)
    ensures Work(Succeed(cfg, s, h, used, attempt, o)) == Work(s)
    ensures Work(Exhausted(cfg, s, h, attempt, o).state) == Work(s)
    ensures Work(Emit(cfg, s, h, m)) == Work(s)
    ensures Work(Flush(cfg, s, h)) == Work(s)
  {
  }

  lemma FlushKeepsLength(cfg: Config, s: State, h: Handle)
    ensures |Flush(cfg, s, h).live| == |s.live|
  {
  }

  lemma RanWork(s: State, p: Path)
    ensures Work(Record(s, Ran(p))) == Work(s)
  {
  }

  lemma {:induction false} EvalBound(cfg: Config, c: Command, sc: Scope, s: State)
    ensures Work(Eval(cfg, c, sc, s).state) <= Work(s) + Bound(c)
    decreases c, 0
  {
    hide Act1, Ask, EvalWith, UntilFrom, RunAttempt, RetryFrom, Shells;
    match c
    case Nop =>
    case Do(t, act) => ActWork(cfg, act, HandleOf(sc, t), sc.path, s);
    case Panic(value) =>
    case Seq(first, second) =>
      EvalBound(cfg, first, sc, s);
      var r := Eval(cfg, first, sc, s);
      if r.outcome == Returned {
        EvalBound(cfg, second, sc, r.state);
      }
    case If(query, thn, els) =>
      AskWork(cfg, query, sc, s);
      var s1 := Ask(cfg, query, sc, s).1;
      EvalBound(cfg, thn, sc, s1);
      EvalBound(cfg, els, sc, s1);
    case With(t, kubeconfig, body) =>
      EvalWithBound(cfg, HandleOf(sc, t), kubeconfig, body, sc, s);
    case UntilSuccess(t, options, body) =>
      UntilFromBound(cfg, HandleOf(sc, t), options, body, 0, sc, s);
    case Attempt(t, body, after) =>
      RunAttemptBound(cfg, "", body, HandleOf(sc, t), 0, 1, 0, sc, s);
      var r := RunAttempt(cfg, "", body, HandleOf(sc, t), 0, 1, 0, sc, s);
      if r.outcome == Returned {
        EvalBound(cfg, after, Bind(sc, |r.state.live|, 0), r.state);
      }
    case RetryFunction(t, kubeconfig, body) =>
      RetryFromBound(cfg, HandleOf(sc, t), kubeconfig, body, 0, sc, s);
  }

  lemma {:induction false} EvalWithBound(cfg: Config, h: Handle, kubeconfig: string, body: Command, sc: Scope, s: State)
    ensures Work(EvalWith(cfg, h, kubeconfig, body, sc, s).state) <= Work(s) + Bound(body)
    decreases body, 1
  {
    hide Eval, FatalOn, Shells, Bound;
    var s1 := s.(kubeconfig := Some(kubeconfig));
    EvalBound(cfg, body, sc, s);
    EvalBound(cfg, body, sc, s1);
    FatalWork(cfg, h, sc.path, s, "could not set KUBECONFIG");
    FatalWork(cfg, h, sc.path, Eval(cfg, body, sc, s1).state, "could not set KUBECONFIG");
  }

  lemma {:induction false} RunAttemptBound(cfg: Config, kubeconfig: string, body: Command, parent: Handle,
                                           attempt: nat, maxAttempts: int, run: nat, sc: Scope, s: State)
    ensures Work(RunAttempt(cfg, kubeconfig, body, parent, attempt, maxAttempts, run, sc, s).state)
      <= Work(s) + Bound(body)
    decreases body, 2
  {
    hide EvalWith, Shells, Bound;
    var sc1 := Bind(sc, |s.live| + 1, run);
    var s0 := Push(s, NewHelper(s, parent, attempt, maxAttempts));
    RanWork(s0, sc1.path);
    EvalWithBound(cfg, |s.live| + 1, kubeconfig, body, sc1, Record(s0, Ran(sc1.path)));
  }

  lemma {:induction false} UntilFromBound(cfg: Config, h: Handle, o: Options, body: Command, i: nat, sc: Scope,
                                          s: State)
    ensures Work(UntilFrom(cfg, h, o, body, i, sc, s).state) <= Work(s) + Left(o.maxAttempts, i) * Bound(body)
    decreases body, 3, o.maxAttempts - i
  {
    hide Eval, RunAttempt, NoteFailedAttempt, Succeed, Exhausted, Shells, Bound, HasFailed;
    if i >= o.maxAttempts {
    } else if i == o.maxAttempts - 1 {
      var sc1 := Bind(sc, h, i);
      var s1 := Record(s, Ran(sc1.path));
      RanWork(s, sc1.path);
      EvalBound(cfg, body, sc1, s1);
      NotesDoNoWork(cfg, Eval(cfg, body, sc1, s1).state, h, h, i, o, MayBeFlaky);
    } else {
      RunAttemptBound(cfg, "", body, h, i, o.maxAttempts, i, sc, s);
      var r := RunAttempt(cfg, "", body, h, i, o.maxAttempts, i, sc, s);
      var b := Bound(body);
      MoreAttempts(o.maxAttempts - i, b);
      NotesDoNoWork(cfg, r.state, h, |r.state.live|, i, o, MayBeFlaky);
      NotesDoNoWork(cfg, Pop(r.state), h, h, i, o, MayBeFlaky);
      UntilFromBound(cfg, h, o, body, i + 1, sc, NoteFailedAttempt(cfg, Pop(r.state), h, i, o));
    }
  }

  lemma MoreAttempts(n: nat, b: nat)
    requires n > 1
    ensures n * b == b + (n - 1) * b && n * b >= b
  {
  }

  lemma {:induction false} RetryFromBound(cfg: Config, h: Handle, kubeconfig: string, body: Command, i: nat,
                                          sc: Scope, s: State)
    requires i < RETRY_FUNCTION_ATTEMPTS
    ensures Work(RetryFrom(cfg, h, kubeconfig, body, i, sc, s).state)
      <= Work(s) + (RETRY_FUNCTION_ATTEMPTS - i) * Bound(body)
    decreases body, 3, RETRY_FUNCTION_ATTEMPTS - i
  {
    hide RunAttempt, Rescued, GiveUp, Shells, Bound, HasFailed;
    RunAttemptBound(cfg, kubeconfig, body, h, 0, 1, i, sc, s);
    var r := RunAttempt(cfg, kubeconfig, body, h, 0, 1, i, sc, s);
    RescuedDoesNoWork(cfg, r.state, h, i);
    GiveUpDoesNoWork(cfg, r.state, h, sc.path);
    if i + 1 < RETRY_FUNCTION_ATTEMPTS {
      MoreAttempts(RETRY_FUNCTION_ATTEMPTS - i, Bound(body));
      RetryFromBound(cfg, h, kubeconfig, body, i + 1, sc, Pop(r.state));
    }
  }

  lemma RescuedDoesNoWork(cfg: Config, s: State, h: Handle, i: nat)
    requires |s.live| > 0
    ensures Work(Rescued(cfg, s, h, i).state) == Work(s)
  {
  }

  lemma GiveUpDoesNoWork(cfg: Config, s: State, h: Handle, path: Path)
    requires |s.live| > 0
    ensures Work(GiveUp(cfg, s, h, path).state) == Work(s)
  {
    hide Flush, Shells;
    FlushKeepsLength(cfg, s, |s.live|);
    NotesDoNoWork(cfg, s, |s.live|, h, 0, Options(0, 0, false), MayBeFlaky);
    FatalWork(cfg, h, path, Pop(Flush(cfg, s, |s.live|)), "Command failed after 5 attempts.");
  }

  // ----- ApplyString, ApplyTemplateString, ApplyTemplateFile -----

  // depth nested retryFunction calls around one shell command, all on the
  // helper of the caller: ApplyString is depth 1, ApplyTemplateString depth 2 and
  // ApplyTemplateFile depth 3.
  function Nested(t: Var, kubeconfig: string, depth: nat): Command {
    if depth == 0 then Do(t, Shell) else RetryFunction(t, kubeconfig, Nested(t, kubeconfig, depth - 1))
  }

  function Power5(n: nat): nat {
    if n == 0 then 1 else RETRY_FUNCTION_ATTEMPTS * Power5(n - 1)
  }

  lemma {:induction false} NestedBound(t: Var, kubeconfig: string, depth: nat)
    ensures Bound(Nested(t, kubeconfig, depth)) == Power5(depth)
  {
    if depth > 0 {
      NestedBound(t, kubeconfig, depth - 1);
    }
  }

  lemma ApplyTemplateFileRunsAtMost125(cfg: Config, t: Var, kubeconfig: string, sc: Scope, s: State)
    ensures Work(Eval(cfg, Nested(t, kubeconfig, 3), sc, s).state) <= Work(s) + 125
  {
    hide Eval;
    NestedBound(t, kubeconfig, 3);
    assert Power5(3) == 125;
    EvalBound(cfg, Nested(t, kubeconfig, 3), sc, s);
  }

  ghost predicate AllFail(cfg: Config) {
    forall n :: !cfg.oracle(n)
  }

  // Failures on a retry helper are absorbed at every level of retryFunction, so
  // the bound is reached and the call itself fails on that helper.
  lemma {:induction false} NestedReachesBound(cfg: Config, t: Var, kubeconfig: string, depth: nat, sc: Scope, s: State)
    requires AllFail(cfg) && CanSet(kubeconfig)
    requires t < |sc.vars| && IsRetry(s, sc.vars[t])
    ensures var r := Eval(cfg, Nested(t, kubeconfig, depth), sc, s);
      r.outcome == Panicked(RETRY_PANIC_KEY) && Work(r.state) == Work(s) + Power5(depth)
    decreases depth, 0
  {
    if depth == 0 {
      ActWork(cfg, Shell, sc.vars[t], sc.path, s);
    } else {
      NestedLoopReachesBound(cfg, t, kubeconfig, depth, 0, sc, s);
    }
  }

  // In numbers: 5, 25 and 125 commands.
  lemma FailingCallsRunExactly(cfg: Config, t: Var, kubeconfig: string, sc: Scope, s: State)
    requires AllFail(cfg) && CanSet(kubeconfig)
    requires t < |sc.vars| && IsRetry(s, sc.vars[t])
    ensures Work(Eval(cfg, RetryFunction(t, kubeconfig, Do(t, Shell)), sc, s).state) == Work(s) + 5
    ensures Work(Eval(cfg, RetryFunction(t, kubeconfig, RetryFunction(t, kubeconfig, Do(t, Shell))), sc, s).state)
         == Work(s) + 25
    ensures var twice := RetryFunction(t, kubeconfig, RetryFunction(t, kubeconfig, Do(t, Shell)));
      Work(Eval(cfg, RetryFunction(t, kubeconfig, twice), sc, s).state) == Work(s) + 125
  {
    hide Eval, Shells;
    NestedReachesBound(cfg, t, kubeconfig, 1, sc, s);
    NestedReachesBound(cfg, t, kubeconfig, 2, sc, s);
    NestedReachesBound(cfg, t, kubeconfig, 3, sc, s);
    assert Nested(t, kubeconfig, 0) == Do(t, Shell);
    assert Nested(t, kubeconfig, 1) == RetryFunction(t, kubeconfig, Do(t, Shell));
    assert Nested(t, kubeconfig, 2) == RetryFunction(t, kubeconfig, Nested(t, kubeconfig, 1));
    assert Nested(t, kubeconfig, 3) == RetryFunction(t, kubeconfig, Nested(t, kubeconfig, 2));
    assert Power5(1) == 5 && Power5(2) == 25 && Power5(3) == 125;
  }

  lemma {:induction false} NestedLoopReachesBound(cfg: Config, t: Var, kubeconfig: string, depth: nat, i: nat,
                                                  sc: Scope, s: State)
    requires AllFail(cfg) && CanSet(kubeconfig)
    requires t < |sc.vars| && IsRetry(s, sc.vars[t]) && depth > 0 && i < RETRY_FUNCTION_ATTEMPTS
    ensures var r := RetryFrom(cfg, sc.vars[t], kubeconfig, Nested(t, kubeconfig, depth - 1), i, sc, s);
      && r.outcome == Panicked(RETRY_PANIC_KEY)
      && Work(r.state) == Work(s) + (RETRY_FUNCTION_ATTEMPTS - i) * Power5(depth - 1)
    decreases depth - 1, 1, RETRY_FUNCTION_ATTEMPTS - i
  {
    hide Eval, Emit, Shells, Power5, GiveUp, Rescued, RunAttempt;
    var h := sc.vars[t];
    var body := Nested(t, kubeconfig, depth - 1);
    var sc1 := Bind(sc, |s.live| + 1, i);
    var s1 := Enter(s, h, 0, 1, sc1.path);
    RanWork(Push(s, NewHelper(s, h, 0, 1)), sc1.path);
    NestedReachesBound(cfg, t, kubeconfig, depth - 1, sc1, Entered(kubeconfig, s1));
    UnreturnedAttempt(cfg, kubeconfig, body, h, 0, 1, i, sc, s);
    var r := RunAttempt(cfg, kubeconfig, body, h, 0, 1, i, sc, s);
    assert Work(r.state) == Work(s) + Power5(depth - 1);
    if i + 1 < RETRY_FUNCTION_ATTEMPTS {
      MoreAttempts(RETRY_FUNCTION_ATTEMPTS - i, Power5(depth - 1));
      NestedLoopReachesBound(cfg, t, kubeconfig, depth, i + 1, sc, Pop(r.state));
    } else {
      assert i == RETRY_FUNCTION_ATTEMPTS - 1;
      GivingUpFails(cfg, r.state, h, sc.path);
    }
  }

  lemma GivingUpFails(cfg: Config, s: State, h: Handle, path: Path)
    requires 0 < h < |s.live|
    ensures var r := GiveUp(cfg, s, h, path); r.outcome == Panicked(RETRY_PANIC_KEY) && Work(r.state) == Work(s)
  {
    hide Shells, Emit;
    FlushKeepsLength(cfg, s, |s.live|);
    EmitKeepsHelpers(cfg, h);
    FatalWork(cfg, h, path, Pop(Flush(cfg, s, |s.live|)), "Command failed after 5 attempts.");
  }

  lemma EmitKeepsHelpers(cfg: Config, h: Handle)
    ensures forall s, m :: |Emit(cfg, s, h, m).live| == |s.live|
  {
  }

  // On the top-level helper nothing is repeated: the one command decides.  If it
  // succeeds the call returns and leaves helpers, test log and KUBECONFIG as they
  // were; if it fails the test ends, also when a repetition would have succeeded.
  lemma {:induction false} NestedOnTopRunsOnce(cfg: Config, t: Var, kubeconfig: string, depth: nat, sc: Scope, s: State)
    requires CanSet(kubeconfig) && CanSet(GetKubeconfig(s))
    requires t < |sc.vars| && sc.vars[t] == 0
    ensures var r := Eval(cfg, Nested(t, kubeconfig, depth), sc, s);
      && Work(r.state) == Work(s) + 1
      && if cfg.oracle(|s.trace| + depth) then
           && r.outcome == Returned
           && r.state.failed == s.failed && r.state.live == s.live && r.state.log == s.log
           && GetKubeconfig(r.state) == GetKubeconfig(s)
         else
           r.outcome == Exited && r.state.failed
  {
    hide Shells, RunAttempt, Rescued, GiveUp;
    if depth == 0 {
      ActWork(cfg, Shell, 0, sc.path, s);
    } else {
      var body := Nested(t, kubeconfig, depth - 1);
      var sc1 := Bind(sc, |s.live| + 1, 0);
      var s1 := Entered(kubeconfig, Enter(s, 0, 0, 1, sc1.path));
      RanWork(Push(s, NewHelper(s, 0, 0, 1)), sc1.path);
      NestedOnTopRunsOnce(cfg, t, kubeconfig, depth - 1, sc1, s1);
      var r := RunAttempt(cfg, kubeconfig, body, 0, 0, 1, 0, sc, s);
      if cfg.oracle(|s.trace| + depth) {
        ReturnedAttempt(cfg, kubeconfig, body, 0, 0, 1, 0, sc, s);
        QuietRescue(cfg, s, r.state);
        RescuedDoesNoWork(cfg, r.state, 0, 0);
      } else {
        UnreturnedAttempt(cfg, kubeconfig, body, 0, 0, 1, 0, sc, s);
      }
      assert Eval(cfg, Nested(t, kubeconfig, depth), sc, s) == RetryFrom(cfg, 0, kubeconfig, body, 0, sc, s);
    }
  }

  // A first attempt that succeeded without a message leaves no mark.
  lemma QuietRescue(cfg: Config, s: State, s1: State)
    requires s1.live == s.live + [NewHelper(s, 0, 0, 1)] && s1.log == s.log
    ensures var r := Rescued(cfg, s1, 0, 0);
      && r.outcome == Returned && r.state.failed == s1.failed && r.state.kubeconfig == s1.kubeconfig
      && r.state.live == s.live && r.state.log == s.log
  {
    assert Lines(s.step > 0, []) == [];
  }
}
