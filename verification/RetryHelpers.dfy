/**
  The helpers and the retry loops as Go has them: objects that callbacks update
  in place.  Every method is proved against the semantics in RetryModel: running
  it takes the heap from one snapshot to the one the semantics gives.
 */
module RetryHelpers {
  import opened Wrappers
  import opened RetryModel
  import RetryIsolation
  import RetryTruth
  import RetryKubeconfig

  // os.Environ's KUBECONFIG, and the history that the oracle is indexed by.
  class World {
    var kubeconfig: Option<string>
    var trace: seq<Event>

    constructor (kubeconfig: Option<string>)
      ensures this.kubeconfig == kubeconfig && trace == []
    {
      this.kubeconfig, trace := kubeconfig, [];
    }
  }

  class TestingT {
    var failed: bool
    var log: seq<Line>

    constructor ()
      ensures !failed && log == []
    {
      failed, log := false, [];
    }

    method FailNow() returns (outcome: Outcome)
      modifies this
      ensures failed && log == old(log) && outcome == Exited
    {
      failed := true;
      outcome := Exited;
    }

    method Log(line: Line)
      modifies this
      ensures log == old(log) + [line] && failed == old(failed)
    {
      log := log + [line];
    }
  }

  // The top-level helper.
  class TestHelper {
    const t: TestingT
    var currentStep: nat

    constructor (t: TestingT)
      ensures this.t == t && currentStep == 0
    {
      this.t := t;
      currentStep := 0;
    }

    method Log(m: Message)
      modifies t
      ensures t.log == old(t.log) + [Line(currentStep > 0, m)] && t.failed == old(t.failed)
    {
      t.Log(Line(currentStep > 0, m));
    }

    method LogStep(text: string)
      modifies this, t
      ensures currentStep == old(currentStep) + 1 && t.failed == old(t.failed)
      ensures t.log == old(t.log) + [Line(true, Text("")), Line(false, Step(currentStep, text))]
    {
      currentStep := currentStep + 1;
      t.Log(Line(currentStep > 0, Text("")));
      t.Log(Line(false, Step(currentStep, text)));
    }
  }

  class RetryTestHelper {
    const t: TestingT
    var currentStep: nat
    var failed: bool
    const attempt: int
    const maxAttempts: int
    var logBuffer: seq<Message>

    ghost function View(): RetryHelper
      reads this
    {
      RetryHelper(failed, attempt, maxAttempts, currentStep, logBuffer)
    }

    constructor (t: TestingT, currentStep: nat, attempt: int, maxAttempts: int)
      ensures this.t == t && View() == RetryHelper(false, attempt, maxAttempts, currentStep, [])
    {
      this.t, this.currentStep, this.failed := t, currentStep, false;
      this.attempt, this.maxAttempts, this.logBuffer := attempt, maxAttempts, [];
    }

    method LogOrAppendToBuffer(logFailed: bool, m: Message)
      modifies this, t
      ensures t.failed == old(t.failed)
      ensures if logFailed
              then t.log == old(t.log) + [Line(currentStep > 0, m)] && View() == old(View())
              else t.log == old(t.log) && View() == old(View()).(buffer := old(View()).buffer + [m])
    {
      if logFailed {
        t.Log(Line(currentStep > 0, m));
      } else {
        logBuffer := logBuffer + [m];
      }
    }

    method FlushLogBuffer(logFailed: bool)
      modifies this, t
      ensures t.failed == old(t.failed)
      ensures if logFailed
              then t.log == old(t.log) && View() == old(View())
              else t.log == old(t.log) + Lines(currentStep > 0, old(logBuffer)) && View() == old(View()).(buffer := [])
    {
      if !logFailed {
        var i := 0;
        while i < |logBuffer|
          invariant 0 <= i <= |logBuffer|
          invariant View() == old(View()) && t.failed == old(t.failed)
          invariant t.log == old(t.log) + Lines(currentStep > 0, logBuffer)[..i]
        {
          t.Log(Line(currentStep > 0, logBuffer[i]));
          i := i + 1;
        }
        logBuffer := [];
      }
    }

    method LogStep(text: string)
      modifies this, t
      ensures View() == old(View()).(step := old(currentStep) + 1) && t.failed == old(t.failed)
      ensures t.log == old(t.log) + [Line(true, Text("")), Line(false, Step(currentStep, text))]
    {
      currentStep := currentStep + 1;
      t.Log(Line(currentStep > 0, Text("")));
      t.Log(Line(false, Step(currentStep, text)));
    }

    method Fail()
      modifies this
      ensures View() == old(View()).(failed := true)
    {
      failed := true;
    }

    method FailNow() returns (outcome: Outcome)
      modifies this
      ensures View() == old(View()).(failed := true) && outcome == Panicked(RETRY_PANIC_KEY)
    {
      Fail();
      outcome := Panicked(RETRY_PANIC_KEY);
    }

    predicate WillRetry() {
      attempt < maxAttempts - 1
    }
  }

  // The TestHelper interface.
  datatype Helper = Top(top: TestHelper) | Retry(retry: RetryTestHelper)

  // One running test: its testing.T, its top-level helper and the process.
  class Test {
    const t: TestingT
    const top: TestHelper
    const world: World

    constructor (top: TestHelper, world: World)
      ensures this.t == top.t && this.top == top && this.world == world
    {
      this.t, this.top, this.world := top.t, top, world;
    }

    // ----- the abstraction -----

    // live lists the retry helpers in use, oldest first.
    ghost predicate Valid(live: seq<RetryTestHelper>) {
      && top.t == t
      && (forall i :: 0 <= i < |live| ==> live[i].t == t)
      && (forall i, j :: 0 <= i < j < |live| ==> live[i] != live[j])
    }

    ghost function Snapshot(live: seq<RetryTestHelper>): (s: State)
      reads t, top, world, live
      ensures |s.live| == |live|
    {
      State(t.failed, top.currentStep, Views(live), world.kubeconfig, t.log, world.trace)
    }

    static ghost function Views(live: seq<RetryTestHelper>): (vs: seq<RetryHelper>)
      reads live
      ensures |vs| == |live| && forall i :: 0 <= i < |vs| ==> vs[i] == live[i].View()
    {
      if live == [] then [] else Views(live[..|live| - 1]) + [live[|live| - 1].View()]
    }

    // The object that handle k stands for.
    ghost predicate Is(live: seq<RetryTestHelper>, h: Helper, k: Handle) {
      match h
      case Top(p) => k == 0 && p == top
      case Retry(p) => 0 < k <= |live| && p == live[k - 1]
    }

    ghost predicate Binds(live: seq<RetryTestHelper>, env: seq<Helper>, vars: seq<Handle>) {
      |env| == |vars| && forall v :: 0 <= v < |env| ==> Is(live, env[v], vars[v])
    }

    function Lookup(env: seq<Helper>, v: Var): Helper {
      if v < |env| then env[v] else Top(top)
    }

    // ----- the interface methods -----

    method Record(e: Event, ghost live: seq<RetryTestHelper>)
      requires Valid(live)
      modifies world
      ensures Snapshot(live) == RetryModel.Record(old(Snapshot(live)), e)
    {
      world.trace := world.trace + [e];
    }

    method Log(cfg: Config, h: Helper, m: Message, ghost k: Handle, ghost live: seq<RetryTestHelper>)
      requires Valid(live) && Is(live, h, k)
      modifies t, live
      ensures Snapshot(live) == Emit(cfg, old(Snapshot(live)), k, m)
    {
      match h
      case Top(p) => p.Log(m);
      case Retry(p) => p.LogOrAppendToBuffer(cfg.logFailed, m);
    }

    method LogStep(h: Helper, text: string, ghost k: Handle, ghost live: seq<RetryTestHelper>)
      requires Valid(live) && Is(live, h, k)
      modifies t, top, live
      ensures Snapshot(live) == LogStepOn(old(Snapshot(live)), k, text)
    {
      match h
      case Top(p) => p.LogStep(text);
      case Retry(p) => p.LogStep(text);
    }

    method Fail(h: Helper, ghost k: Handle, ghost live: seq<RetryTestHelper>)
      requires Valid(live) && Is(live, h, k)
      modifies t, live
      ensures Snapshot(live) == RetryModel.Fail(old(Snapshot(live)), k)
    {
      match h
      case Top(p) => p.t.failed := true;
      case Retry(p) => p.Fail();
    }

    method Failed(h: Helper, ghost k: Handle, ghost live: seq<RetryTestHelper>) returns (b: bool)
      requires Valid(live) && Is(live, h, k)
      ensures b == HasFailed(Snapshot(live), k)
    {
      match h
      case Top(p) => b := p.t.failed;
      case Retry(p) => b := p.failed;
    }

    method WillRetry(h: Helper, ghost k: Handle, ghost live: seq<RetryTestHelper>) returns (b: bool)
      requires Valid(live) && Is(live, h, k)
      ensures b == AnswersWillRetry(Snapshot(live), k)
    {
      match h
      case Top(p) => b := false;
      case Retry(p) => b := p.WillRetry();
    }

    method CurrentStep(h: Helper, ghost k: Handle, ghost live: seq<RetryTestHelper>) returns (n: nat)
      requires Valid(live) && Is(live, h, k)
      ensures n == RetryModel.CurrentStep(Snapshot(live), k)
    {
      match h
      case Top(p) => n := p.currentStep;
      case Retry(p) => n := p.currentStep;
    }

    // Only a RetryTestHelper has a buffer to flush.
    method Flush(cfg: Config, h: Helper, ghost k: Handle, ghost live: seq<RetryTestHelper>)
      requires Valid(live) && Is(live, h, k)
      modifies t, live
      ensures Snapshot(live) == RetryModel.Flush(cfg, old(Snapshot(live)), k)
    {
      match h
      case Top(p) =>
      case Retry(p) => p.FlushLogBuffer(cfg.logFailed);
    }

    method FailNow(h: Helper, path: Path, ghost k: Handle, ghost live: seq<RetryTestHelper>) returns (outcome: Outcome)
      requires Valid(live) && Is(live, h, k)
      modifies t, world, live
      ensures Result(outcome, Snapshot(live)) == FailNowOn(old(Snapshot(live)), k, path)
    {
      var answer := WillRetry(h, k, live);
      match h {
        case Top(p) => outcome := p.t.FailNow();
        case Retry(p) => outcome := p.FailNow();
      }
      assert Snapshot(live) == RetryModel.Fail(old(Snapshot(live)), k);
      Record(Raised(path, answer), live);
    }

    // A message sent by the callback itself.
    method Say(cfg: Config, h: Helper, path: Path, m: Message, ghost k: Handle, ghost live: seq<RetryTestHelper>)
      requires Valid(live) && Is(live, h, k)
      modifies t, world, live
      ensures Snapshot(live) == RetryModel.Say(cfg, old(Snapshot(live)), k, path, m)
    {
      Log(cfg, h, m, k, live);
      Record(Said(path, m), live);
    }

    method Fatal(cfg: Config, h: Helper, path: Path, text: string, ghost k: Handle, ghost live: seq<RetryTestHelper>)
      returns (outcome: Outcome)
      requires Valid(live) && Is(live, h, k)
      modifies t, world, live
      ensures Result(outcome, Snapshot(live)) == FatalOn(cfg, old(Snapshot(live)), k, path, text)
    {
      hide Emit, RetryModel.Fail;
      var prefix := if h.Retry? then FAILURE_PREFIX else FATAL_PREFIX;
      Say(cfg, h, path, Text(prefix + text), k, live);
      outcome := FailNow(h, path, k, live);
    }

    method Act(cfg: Config, act: Act, h: Helper, path: Path, ghost k: Handle, ghost live: seq<RetryTestHelper>)
      returns (outcome: Outcome)
      requires Valid(live) && Is(live, h, k)
      modifies t, top, world, live
      ensures Result(outcome, Snapshot(live)) == Act1(cfg, act, k, path, old(Snapshot(live)))
    {
      hide Emit, RetryModel.Fail, FatalOn, FailNowOn, LogStepOn;
      outcome := Returned;
      match act
      case Shell =>
        var ok := cfg.oracle(|world.trace|);
        Record(Shelled(match world.kubeconfig case None => "" case Some(v) => v), live);
        if !ok {
          outcome := Fatal(cfg, h, path, "Command failed", k, live);
        }
      case Log(text) => Say(cfg, h, path, Text(text), k, live);
      case LogStep(text) => LogStep(h, text, k, live);
      case Error(text) =>
        Say(cfg, h, path, Text(FAILURE_PREFIX + text), k, live);
        Fail(h, k, live);
      case Fatal(text) => outcome := Fatal(cfg, h, path, text, k, live);
      case FailNow => outcome := FailNow(h, path, k, live);
    }

    method Ask(cfg: Config, q: Query, env: seq<Helper>, ghost sc: Scope, ghost live: seq<RetryTestHelper>)
      returns (answer: bool)
      requires Valid(live) && Binds(live, env, sc.vars)
      modifies world
      ensures (answer, Snapshot(live)) == RetryModel.Ask(cfg, q, sc, old(Snapshot(live)))
    {
      match q
      case Foreign =>
        answer := cfg.oracle(|world.trace|);
        Record(Asked, live);
      case WillRetry(t) => answer := WillRetry(Lookup(env, t), HandleOf(sc, t), live);
      case Failed(t) => answer := Failed(Lookup(env, t), HandleOf(sc, t), live);
    }

    // t.T().FailNow(), which no retry helper can intercept.
    method FailTest(ghost live: seq<RetryTestHelper>) returns (outcome: Outcome)
      requires Valid(live)
      modifies t
      ensures Snapshot(live) == old(Snapshot(live)).(failed := true) && outcome == Exited
    {
      outcome := t.FailNow();
    }

    method Getenv(ghost live: seq<RetryTestHelper>) returns (value: string)
      requires Valid(live)
      ensures value == GetKubeconfig(Snapshot(live))
    {
      value := match world.kubeconfig case None => "" case Some(v) => v;
    }

    method Setenv(value: string, ghost live: seq<RetryTestHelper>)
      requires Valid(live)
      modifies world
      ensures Snapshot(live) == old(Snapshot(live)).(kubeconfig := Some(value))
    {
      world.kubeconfig := Some(value);
    }

    // NewRetryTestHelper
    method NewHelper(parent: Helper, attempt: nat, maxAttempts: int, ghost k: Handle, ghost live: seq<RetryTestHelper>)
      returns (helper: RetryTestHelper)
      requires Valid(live) && Is(live, parent, k)
      ensures fresh(helper) && Valid(live + [helper])
      ensures Snapshot(live + [helper])
           == Push(old(Snapshot(live)), RetryModel.NewHelper(old(Snapshot(live)), k, attempt, maxAttempts))
    {
      var step := CurrentStep(parent, k, live);
      helper := new RetryTestHelper(t, step, attempt, maxAttempts);
      assert (live + [helper])[..|live|] == live;
    }

    // ----- retry.UntilSuccess, its warnings and messages -----

    method Warn(cfg: Config, h: Helper, attempt: nat, maxAttempts: int, ghost k: Handle,
                ghost live: seq<RetryTestHelper>)
      requires Valid(live) && Is(live, h, k)
      modifies t, live
      ensures Snapshot(live) == RetryModel.Warn(cfg, old(Snapshot(live)), k, attempt, maxAttempts)
    {
      hide Emit;
      if maxAttempts > 1 {
        var percentage := attempt * 100 / maxAttempts;
        if percentage >= 90 {
          Log(cfg, h, AlmostCertainlyFlaky, k, live);
        } else if percentage >= 75 {
          Log(cfg, h, MayBeFlaky, k, live);
        }
      }
    }

    method Succeed(cfg: Config, h: Helper, used: Helper, attempt: nat, o: Options,
                   ghost k: Handle, ghost kUsed: Handle, ghost live: seq<RetryTestHelper>)
      requires Valid(live) && Is(live, h, k) && Is(live, used, kUsed)
      modifies t, live
      ensures Snapshot(live) == RetryModel.Succeed(cfg, old(Snapshot(live)), k, kUsed, attempt, o)
    {
      hide Emit, RetryModel.Flush, RetryModel.Warn;
      if cfg.logFailed {
        if attempt > 0 && o.logAttempts {
          Log(cfg, h, AttemptSuccessful(attempt + 1, o.maxAttempts), k, live);
        }
      } else {
        Flush(cfg, used, kUsed, live);
      }
      Warn(cfg, h, attempt, o.maxAttempts, k, live);
    }

    method NoteFailedAttempt(cfg: Config, h: Helper, attempt: nat, o: Options, ghost k: Handle,
                             ghost live: seq<RetryTestHelper>)
      requires Valid(live) && Is(live, h, k)
      modifies t, live
      ensures Snapshot(live) == RetryModel.NoteFailedAttempt(cfg, old(Snapshot(live)), k, attempt, o)
    {
      if o.logAttempts && cfg.logFailed {
        if o.delay == DEFAULT_DELAY {
          Log(cfg, h, Retrying(attempt + 1, o.maxAttempts), k, live);
        } else {
          Log(cfg, h, RetryingIn(attempt + 1, o.maxAttempts, o.delay), k, live);
        }
      }
    }

    method Exhaust(cfg: Config, h: Helper, attempt: nat, o: Options, ghost k: Handle, ghost live: seq<RetryTestHelper>)
      returns (outcome: Outcome)
      requires Valid(live) && Is(live, h, k)
      modifies t, live
      ensures Result(outcome, Snapshot(live)) == Exhausted(cfg, old(Snapshot(live)), k, attempt, o)
    {
      if o.logAttempts && cfg.logFailed {
        Log(cfg, h, LastAttemptFailed(attempt + 1, o.maxAttempts), k, live);
      }
      outcome := FailTest(live);
    }

    // The newest helper goes out of use: the rest of the heap is unchanged.
    lemma Dropped(live: seq<RetryTestHelper>, p: RetryTestHelper)
      requires Valid(live + [p])
      ensures Snapshot(live) == Pop(Snapshot(live + [p]))
    {
    }

    lemma StillBinds(live: seq<RetryTestHelper>, p: RetryTestHelper, env: seq<Helper>, vars: seq<Handle>, h: Helper,
                     k: Handle)
      requires Binds(live, env, vars) && Is(live, h, k)
      ensures Is(live + [p], h, k)
      ensures Binds(live + [p], env, vars)
      ensures Binds(live + [p], env + [Retry(p)], vars + [|live| + 1])
    {
    }

    // attemptInternal: the callback runs on a helper of its own, and the deferred
    // function turns the panic of that helper's FailNow into a failed attempt.
    method Attempt(cfg: Config, kubeconfig: string, body: Command, parent: Helper, attempt: nat, maxAttempts: int,
                   run: nat, env: seq<Helper>, path: Path, ghost k: Handle, ghost sc: Scope,
                   ghost live: seq<RetryTestHelper>)
      returns (outcome: Outcome, helper: RetryTestHelper)
      requires Valid(live) && Is(live, parent, k) && Binds(live, env, sc.vars) && sc.path == path
      modifies t, top, world, live
      ensures fresh(helper) && Valid(live + [helper])
      ensures Result(outcome, Snapshot(live + [helper]))
           == RunAttempt(cfg, kubeconfig, body, k, attempt, maxAttempts, run, sc, old(Snapshot(live)))
      decreases body, 3
    {
      hide EvalWith, Snapshot, RetryModel.Fail;
      helper := NewHelper(parent, attempt, maxAttempts, k, live);
      ghost var live1 := live + [helper];
      StillBinds(live, helper, env, sc.vars, parent, k);
      Record(Ran(path + [run]), live1);
      ghost var sc1 := Bind(sc, |live1|, run);
      outcome := With(cfg, Retry(helper), kubeconfig, body, env + [Retry(helper)], path + [run], |live1|, sc1, live1);
      if outcome == Panicked(RETRY_PANIC_KEY) {
        Fail(Retry(helper), |live1|, live1);
        outcome := Returned;
      }
    }

    // withKubeconfig
    method With(cfg: Config, h: Helper, kubeconfig: string, body: Command,
                env: seq<Helper>, path: Path, ghost k: Handle, ghost sc: Scope, ghost live: seq<RetryTestHelper>)
      returns (outcome: Outcome)
      requires Valid(live) && Is(live, h, k) && Binds(live, env, sc.vars) && sc.path == path
      modifies t, top, world, live
      ensures Result(outcome, Snapshot(live)) == EvalWith(cfg, k, kubeconfig, body, sc, old(Snapshot(live)))
      decreases body, 2
    {
      hide RetryModel.Eval, FatalOn, Snapshot;
      if kubeconfig == "" {
        outcome := Eval(cfg, body, env, path, sc, live);
      } else if !CanSet(kubeconfig) {
        outcome := Fatal(cfg, h, path, "could not set KUBECONFIG", k, live);
      } else {
        var oldValue := Getenv(live);
        Setenv(kubeconfig, live);
        outcome := Eval(cfg, body, env, path, sc, live);
        if outcome == Returned {
          if !CanSet(oldValue) {
            outcome := Fatal(cfg, h, path, "could not set KUBECONFIG", k, live);
          } else {
            Setenv(oldValue, live);
          }
        }
      }
    }

    // The last attempt runs on the caller's own helper.
    method LastAttempt(cfg: Config, h: Helper, o: Options, body: Command, i: nat,
                       env: seq<Helper>, path: Path, ghost k: Handle, ghost sc: Scope, ghost live: seq<RetryTestHelper>)
      returns (outcome: Outcome)
      requires Valid(live) && Is(live, h, k) && Binds(live, env, sc.vars) && sc.path == path && i == o.maxAttempts - 1
      modifies t, top, world, live
      ensures Result(outcome, Snapshot(live)) == UntilFrom(cfg, k, o, body, i, sc, old(Snapshot(live)))
      decreases body, 3
    {
      hide RetryModel.Eval, RunAttempt, RetryModel.Succeed, Exhausted, Snapshot, HasFailed;
      Record(Ran(path + [i]), live);
      outcome := Eval(cfg, body, env + [h], path + [i], Bind(sc, k, i), live);
      if outcome == Returned {
        var failed := Failed(h, k, live);
        if failed {
          outcome := Exhaust(cfg, h, i, o, k, live);
        } else {
          Succeed(cfg, h, h, i, o, k, k, live);
        }
      }
    }

    // UntilSuccessWithOptions
    method UntilSuccess(cfg: Config, h: Helper, o: Options, body: Command,
                        env: seq<Helper>, path: Path, ghost k: Handle, ghost sc: Scope,
                        ghost live: seq<RetryTestHelper>)
      returns (outcome: Outcome)
      requires Valid(live) && Is(live, h, k) && Binds(live, env, sc.vars) && sc.path == path
      modifies t, top, world, live
      ensures Result(outcome, Snapshot(live)) == UntilFrom(cfg, k, o, body, 0, sc, old(Snapshot(live)))
      decreases body, 4
    {
      hide RetryModel.Eval, RunAttempt, RetryModel.Succeed, RetryModel.NoteFailedAttempt, Exhausted, Snapshot,
           HasFailed;
      outcome := Returned;
      var i := 0;
      while i < o.maxAttempts
        invariant outcome == Returned
        invariant UntilFrom(cfg, k, o, body, 0, sc, old(Snapshot(live)))
          == UntilFrom(cfg, k, o, body, i, sc, Snapshot(live))
      {
        var lastAttempt := i == o.maxAttempts - 1;
        if lastAttempt {
          outcome := LastAttempt(cfg, h, o, body, i, env, path, k, sc, live);
          return;
        } else {
          var helper;
          outcome, helper := Attempt(cfg, "", body, h, i, o.maxAttempts, i, env, path, k, sc, live);
          ghost var live1 := live + [helper];
          StillBinds(live, helper, env, sc.vars, h, k);
          Dropped(live, helper);
          if outcome != Returned {
            return;
          }
          var failed := Failed(Retry(helper), |live1|, live1);
          if failed {
            NoteFailedAttempt(cfg, h, i, o, k, live);
          } else {
            Succeed(cfg, h, Retry(helper), i, o, k, |live1|, live1);
            Dropped(live, helper);
            return;
          }
        }
        i := i + 1;
      }
    }

    // OC.retryFunction
    method RetryFunction(cfg: Config, h: Helper, kubeconfig: string, body: Command,
                         env: seq<Helper>, path: Path, ghost k: Handle, ghost sc: Scope,
                         ghost live: seq<RetryTestHelper>)
      returns (outcome: Outcome)
      requires Valid(live) && Is(live, h, k) && Binds(live, env, sc.vars) && sc.path == path
      modifies t, top, world, live
      ensures Result(outcome, Snapshot(live)) == RetryFrom(cfg, k, kubeconfig, body, 0, sc, old(Snapshot(live)))
      decreases body, 4
    {
      hide RunAttempt, Emit, RetryModel.Flush, FatalOn, Snapshot, HasFailed;
      var attemptT: RetryTestHelper? := null;
      var warning := false;
      var i := 0;
      while i < RETRY_FUNCTION_ATTEMPTS
        invariant i <= RETRY_FUNCTION_ATTEMPTS && warning == (i > 0)
        invariant i > 0 ==> attemptT != null && fresh(attemptT) && Valid(live + [attemptT])
        invariant i < RETRY_FUNCTION_ATTEMPTS ==>
          RetryFrom(cfg, k, kubeconfig, body, 0, sc, old(Snapshot(live)))
          == RetryFrom(cfg, k, kubeconfig, body, i, sc, Snapshot(live))
        invariant i == RETRY_FUNCTION_ATTEMPTS ==>
          RetryFrom(cfg, k, kubeconfig, body, 0, sc, old(Snapshot(live)))
          == GiveUp(cfg, Snapshot(live + [attemptT]), k, path)
      {
        outcome, attemptT := Attempt(cfg, kubeconfig, body, h, 0, 1, i, env, path, k, sc, live);
        ghost var live1 := live + [attemptT];
        StillBinds(live, attemptT, env, sc.vars, h, k);
        Dropped(live, attemptT);
        if outcome != Returned {
          return;
        }
        var failed := Failed(Retry(attemptT), |live1|, live1);
        if !failed {
          if warning {
            Log(cfg, h, SucceededAfterFailures(i + 1, RETRY_FUNCTION_ATTEMPTS), k, live1);
          }
          Flush(cfg, Retry(attemptT), |live1|, live1);
          Dropped(live, attemptT);
          return;
        }
        warning := true;
        i := i + 1;
      }
      Flush(cfg, Retry(attemptT), |live| + 1, live + [attemptT]);
      Dropped(live, attemptT);
      outcome := Fatal(cfg, h, path, "Command failed after 5 attempts.", k, live);
    }

    // retry.Attempt, and what its caller does with the helper it returns.
    method AttemptThen(cfg: Config, c: Command, env: seq<Helper>, path: Path, ghost sc: Scope,
                       ghost live: seq<RetryTestHelper>)
      returns (outcome: Outcome)
      requires Valid(live) && Binds(live, env, sc.vars) && sc.path == path && c.Attempt?
      modifies t, top, world, live
      ensures Result(outcome, Snapshot(live)) == RetryModel.Eval(cfg, c, sc, old(Snapshot(live)))
      decreases c, 0
    {
      hide RunAttempt, Snapshot;
      var parent := Lookup(env, c.t);
      ghost var k := HandleOf(sc, c.t);
      var helper;
      outcome, helper := Attempt(cfg, "", c.body, parent, 0, 1, 0, env, path, k, sc, live);
      ghost var live1 := live + [helper];
      StillBinds(live, helper, env, sc.vars, parent, k);
      if outcome == Returned {
        outcome := Eval(cfg, c.after, env + [Retry(helper)], path + [0], Bind(sc, |live1|, 0), live1);
      }
      Dropped(live, helper);
    }

    // A callback, run on the heap.
    method Eval(cfg: Config, c: Command, env: seq<Helper>, path: Path, ghost sc: Scope,
                ghost live: seq<RetryTestHelper>)
      returns (outcome: Outcome)
      requires Valid(live) && Binds(live, env, sc.vars) && sc.path == path
      modifies t, top, world, live
      ensures Result(outcome, Snapshot(live)) == RetryModel.Eval(cfg, c, sc, old(Snapshot(live)))
      decreases c, 1
    {
      hide Act1, EvalWith, UntilFrom, RetryFrom, RunAttempt, Snapshot;
      outcome := Returned;
      match c
      case Nop =>
      case Do(t, act) => outcome := Act(cfg, act, Lookup(env, t), path, HandleOf(sc, t), live);
      case Panic(value) => outcome := Panicked(value);
      case Seq(first, second) =>
        outcome := Eval(cfg, first, env, path, sc, live);
        if outcome == Returned {
          outcome := Eval(cfg, second, env, path, sc, live);
        }
      case If(query, thn, els) =>
        var answer := Ask(cfg, query, env, sc, live);
        outcome := Eval(cfg, if answer then thn else els, env, path, sc, live);
      case With(t, kubeconfig, body) =>
        outcome := With(cfg, Lookup(env, t), kubeconfig, body, env, path, HandleOf(sc, t), sc, live);
      case UntilSuccess(t, options, body) =>
        outcome := UntilSuccess(cfg, Lookup(env, t), options, body, env, path, HandleOf(sc, t), sc, live);
      case Attempt(_, _, _) =>
        outcome := AttemptThen(cfg, c, env, path, sc, live);
      case RetryFunction(t, kubeconfig, body) =>
        outcome := RetryFunction(cfg, Lookup(env, t), kubeconfig, body, env, path, HandleOf(sc, t), sc, live);
    }
  }

  // topLevelTest.Run, with its deferred function.  What the semantics is proved to
  // guarantee holds of the objects that the test leaves.
  method RunTest(cfg: Config, c: Command, kubeconfig: Option<string>) returns (test: Test, outcome: Outcome)
    ensures fresh(test) && Result(outcome, test.Snapshot([])) == RetryModel.RunTest(cfg, c, kubeconfig)
    ensures |test.t.log| > 0 && test.t.log[|test.t.log| - 1] == Line(false, TestEnded(test.t.failed))
    ensures RetryIsolation.Local(c, 0, 1) ==> (test.t.failed <==> outcome == Exited)
    ensures RetryTruth.OnlyUntilSuccess(c, 0, 1) ==> RetryTruth.Truthful(test.world.trace, 0)
    ensures RetryKubeconfig.Bracketed(c) && outcome == Returned ==>
      GetKubeconfig(test.Snapshot([])) == GetKubeconfig(InitialState(kubeconfig))
  {
    hide RetryModel.Eval;
    var t := new TestingT();
    var top := new TestHelper(t);
    var world := new World(kubeconfig);
    test := new Test(top, world);
    outcome := test.Eval(cfg, c, [Top(top)], [], TEST_SCOPE, []);
    t.Log(Line(false, Text("")));
    t.Log(Line(false, TestEnded(t.failed)));
    Guarantees(cfg, c, kubeconfig);
  }

  lemma Guarantees(cfg: Config, c: Command, kubeconfig: Option<string>)
    ensures var r := RetryModel.RunTest(cfg, c, kubeconfig);
      && (RetryIsolation.Local(c, 0, 1) ==> (r.state.failed <==> r.outcome == Exited))
      && (RetryTruth.OnlyUntilSuccess(c, 0, 1) ==> RetryTruth.Truthful(r.state.trace, 0))
      && (RetryKubeconfig.Bracketed(c) && r.outcome == Returned ==>
            GetKubeconfig(r.state) == GetKubeconfig(InitialState(kubeconfig)))
  {
    hide Eval, RetryTruth.Truthful;
    if RetryIsolation.Local(c, 0, 1) {
      RetryIsolation.TestFailsExactlyWhenItExits(cfg, c, kubeconfig);
    }
    if RetryTruth.OnlyUntilSuccess(c, 0, 1) {
      RetryTruth.WillRetryTellsTheTruth(cfg, c, TEST_SCOPE, InitialState(kubeconfig));
    }
    if RetryKubeconfig.Bracketed(c) && RetryModel.RunTest(cfg, c, kubeconfig).outcome == Returned {
      RetryKubeconfig.BracketedRestores(cfg, c, TEST_SCOPE, InitialState(kubeconfig));
    }
  }
}
