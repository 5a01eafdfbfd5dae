/**
  The control-effect engine behind `retry.UntilSuccess`, `retry.Attempt`,
  `OC.withKubeconfig` and `OC.retryFunction`, as a big-step semantics.

  A callback is a `Command`.  Running it ends in one of the exits Go offers: it
  returns, it panics with a value, or `runtime.Goexit` ends the goroutine.
  Everything a callback can reach is in `State`: the sticky failed flag and the
  log of the underlying `testing.T`, the retry helpers that are still live, and
  the KUBECONFIG variable.  `State.trace` is a history of what happened; no
  behaviour of the program depends on it other than through the oracle, which
  may answer differently at every consultation.
 */
module RetryModel {
  import opened Wrappers

  // A helper variable, numbered from the outermost binder: 0 is the parameter of
  // the test function, and every callback binds the next number.  Closures may
  // use the variables of the enclosing callbacks, as Go closures do.
  type Var = nat

  // What a helper variable holds: 0 is the top-level `testHelper`, and h > 0 is
  // the retry helper `live[h - 1]`.
  type Handle = nat

  const RETRY_PANIC_KEY := "RetryTestHelper.FailNow"
  const FAILURE_PREFIX := "FAILURE: "
  const FATAL_PREFIX := "FATAL: "
  const RETRY_FUNCTION_ATTEMPTS := 5
  const DEFAULT_DELAY := 1 // seconds

  // ----- callbacks -----

  datatype Act =
    | Shell                // shell.Execute: a command that succeeds or fails
    | Log(text: string)
    | LogStep(text: string)
    | Error(text: string)
    | Fatal(text: string)
    | FailNow

  datatype Query =
    | Foreign              // a branch on something the model does not see
    | WillRetry(t: Var)
    | Failed(t: Var)

  datatype Options = Options(maxAttempts: int, delay: int, logAttempts: bool)

  datatype Command =
    | Nop
    | Do(t: Var, act: Act)
    | Panic(value: string)
    | Seq(first: Command, second: Command)
    | If(query: Query, thn: Command, els: Command)
    | With(t: Var, kubeconfig: string, body: Command)
    | UntilSuccess(t: Var, options: Options, body: Command)
    | Attempt(t: Var, body: Command, after: Command)
    | RetryFunction(t: Var, kubeconfig: string, body: Command)

  // ----- state -----

  datatype Message =
    | Text(text: string)
    | Step(number: nat, text: string)
    | LastAttemptFailed(attempt: int, maxAttempts: int)
    | Retrying(attempt: int, maxAttempts: int)
    | RetryingIn(attempt: int, maxAttempts: int, delay: int)
    | AttemptSuccessful(attempt: int, maxAttempts: int)
    | AlmostCertainlyFlaky
    | MayBeFlaky
    | SucceededAfterFailures(attempt: int, maxAttempts: int)
    | TestEnded(failed: bool)

  datatype Line = Line(indented: bool, message: Message)

  // Where a step happened is a path: the attempt numbers of the enclosing
  // callbacks, outermost first.
  type Path = seq<nat>

  datatype Event =
    | Ran(path: Path)                        // a callback was started
    | Raised(path: Path, willRetry: bool)    // FailNow was called on a helper that gives this answer
    | Shelled(kubeconfig: string)            // a shell command was run under this KUBECONFIG
    | Said(path: Path, message: Message)     // a message was sent through an overridden method
    | Asked                                  // a foreign condition was consulted

  datatype RetryHelper = RetryHelper(
    failed: bool, attempt: int, maxAttempts: int, step: nat, buffer: seq<Message>)

  datatype State = State(
    failed: bool,                 // testing.T
    step: nat,                    // step counter of the top-level helper
    live: seq<RetryHelper>,       // oldest first
    kubeconfig: Option<string>,   // None when the variable is unset
    log: seq<Line>,               // testing.T
    trace: seq<Event>)

  datatype Outcome = Returned | Panicked(value: string) | Exited

  datatype Result = Result(outcome: Outcome, state: State)

  datatype Scope = Scope(vars: seq<Handle>, path: Path)

  // oracle(n) answers the consultation made when n events have happened;
  // logFailed is LOG_FAILED_RETRY_ATTEMPTS.
  datatype Config = Config(oracle: nat -> bool, logFailed: bool)

  // ----- helpers -----

  // Go has no unbound variables; the model reads one as the test's own helper.
  function HandleOf(sc: Scope, v: Var): Handle {
    if v < |sc.vars| then sc.vars[v] else 0
  }

  function Bind(sc: Scope, h: Handle, attempt: nat): Scope {
    Scope(sc.vars + [h], sc.path + [attempt])
  }

  predicate IsRetry(s: State, h: Handle) {
    0 < h <= |s.live|
  }

  predicate HasFailed(s: State, h: Handle) {
    if IsRetry(s, h) then s.live[h - 1].failed else s.failed
  }

  predicate AnswersWillRetry(s: State, h: Handle) {
    IsRetry(s, h) && s.live[h - 1].attempt < s.live[h - 1].maxAttempts - 1
  }

  function CurrentStep(s: State, h: Handle): nat {
    if IsRetry(s, h) then s.live[h - 1].step else s.step
  }

  function Record(s: State, e: Event): State {
    s.(trace := s.trace + [e])
  }

  function Print(s: State, line: Line): State {
    s.(log := s.log + [line])
  }

  function Fail(s: State, h: Handle): State {
    if IsRetry(s, h) then s.(live := s.live[h - 1 := s.live[h - 1].(failed := true)])
    else s.(failed := true)
  }

  // Log and Logf: the top-level helper prints; a retry helper prints or buffers.
  function Emit(cfg: Config, s: State, h: Handle, m: Message): State {
    if IsRetry(s, h) && !cfg.logFailed then
      s.(live := s.live[h - 1 := s.live[h - 1].(buffer := s.live[h - 1].buffer + [m])])
    else
      Print(s, Line(CurrentStep(s, h) > 0, m))
  }

  function Lines(indented: bool, ms: seq<Message>): (ls: seq<Line>)
    ensures |ls| == |ms| && forall i :: 0 <= i < |ls| ==> ls[i] == Line(indented, ms[i])
  {
    seq(|ms|, i requires 0 <= i < |ms| => Line(indented, ms[i]))
  }

  // FlushLogBuffer; a no-op on anything but a retry helper.
  function Flush(cfg: Config, s: State, h: Handle): State {
    if IsRetry(s, h) && !cfg.logFailed then
      s.(log := s.log + Lines(s.live[h - 1].step > 0, s.live[h - 1].buffer),
         live := s.live[h - 1 := s.live[h - 1].(buffer := [])])
    else
      s
  }

  // LogStep is promoted from the embedded helper, so it prints in every case.
  function LogStepOn(s: State, h: Handle, text: string): State {
    var n := CurrentStep(s, h) + 1;
    var s1 := if IsRetry(s, h) then s.(live := s.live[h - 1 := s.live[h - 1].(step := n)]) else s.(step := n);
    Print(Print(s1, Line(true, Text(""))), Line(false, Step(n, text)))
  }

  // FailNow: the top-level helper ends the goroutine, a retry helper panics.
  function FailNowOn(s: State, h: Handle, path: Path): Result {
    Result(if IsRetry(s, h) then Panicked(RETRY_PANIC_KEY) else Exited,
           Record(Fail(s, h), Raised(path, AnswersWillRetry(s, h))))
  }

  // A message sent by the callback itself.
  function Say(cfg: Config, s: State, h: Handle, path: Path, m: Message): State {
    Record(Emit(cfg, s, h, m), Said(path, m))
  }

  // Fatal and Fatalf: the prefix depends on the kind of helper.
  function FatalOn(cfg: Config, s: State, h: Handle, path: Path, text: string): Result {
    var prefix := if IsRetry(s, h) then FAILURE_PREFIX else FATAL_PREFIX;
    FailNowOn(Say(cfg, s, h, path, Text(prefix + text)), h, path)
  }

  function GetKubeconfig(s: State): string {
    match s.kubeconfig case None => "" case Some(v) => v
  }

  // os.Setenv refuses a value with a NUL byte.
  predicate CanSet(value: string) {
    '\0' !in value
  }

  function Act1(cfg: Config, act: Act, h: Handle, path: Path, s: State): Result {
    match act
    case Shell =>
      var s1 := Record(s, Shelled(GetKubeconfig(s)));
      if cfg.oracle(|s.trace|) then Result(Returned, s1)
      else FatalOn(cfg, s1, h, path, "Command failed")
    case Log(text) => Result(Returned, Say(cfg, s, h, path, Text(text)))
    case LogStep(text) => Result(Returned, LogStepOn(s, h, text))
    case Error(text) => Result(Returned, Fail(Say(cfg, s, h, path, Text(FAILURE_PREFIX + text)), h))
    case Fatal(text) => FatalOn(cfg, s, h, path, text)
    case FailNow => FailNowOn(s, h, path)
  }

  function Ask(cfg: Config, q: Query, sc: Scope, s: State): (bool, State) {
    match q
    case Foreign => (cfg.oracle(|s.trace|), Record(s, Asked))
    case WillRetry(t) => (AnswersWillRetry(s, HandleOf(sc, t)), s)
    case Failed(t) => (HasFailed(s, HandleOf(sc, t)), s)
  }

  function Push(s: State, h: RetryHelper): State {
    s.(live := s.live + [h])
  }

  function Pop(s: State): State
    requires |s.live| > 0
  {
    s.(live := s.live[..|s.live| - 1])
  }

  // The deferred function of RetryTestHelper.Attempt, run on the newest helper.
  function Recover(r: Result): Result {
    if r.outcome == Panicked(RETRY_PANIC_KEY) then
      Result(Returned, Fail(r.state, |r.state.live|))
    else
      r
  }

  // The flakiness warnings of a successful call.
  function Warn(cfg: Config, s: State, h: Handle, attempt: nat, maxAttempts: int): State {
    if maxAttempts <= 1 then s
    else
      var percentage := attempt * 100 / maxAttempts;
      if percentage >= 90 then Emit(cfg, s, h, AlmostCertainlyFlaky)
      else if percentage >= 75 then Emit(cfg, s, h, MayBeFlaky)
      else s
  }

  // What UntilSuccess does after a successful attempt that ran on helper `used`.
  function Succeed(cfg: Config, s: State, h: Handle, used: Handle, attempt: nat, o: Options): State {
    var s1 :=
      if cfg.logFailed then
        if attempt > 0 && o.logAttempts then Emit(cfg, s, h, AttemptSuccessful(attempt + 1, o.maxAttempts)) else s
      else
        Flush(cfg, s, used);
    Warn(cfg, s1, h, attempt, o.maxAttempts)
  }

  function NoteFailedAttempt(cfg: Config, s: State, h: Handle, attempt: nat, o: Options): State {
    if o.logAttempts && cfg.logFailed then
      Emit(cfg, s, h, if o.delay == DEFAULT_DELAY then Retrying(attempt + 1, o.maxAttempts)
                      else RetryingIn(attempt + 1, o.maxAttempts, o.delay))
    else
      s
  }

  // t.T().FailNow() after the last attempt returned with its helper failed.
  function Exhausted(cfg: Config, s: State, h: Handle, attempt: nat, o: Options): Result {
    var s1 :=
      if o.logAttempts && cfg.logFailed then Emit(cfg, s, h, LastAttemptFailed(attempt + 1, o.maxAttempts)) else s;
    Result(Exited, s1.(failed := true))
  }

  // After attempt i of retryFunction succeeded; its helper is the newest.
  function Rescued(cfg: Config, s: State, h: Handle, i: nat): (r: Result)
    requires |s.live| > 0
    ensures |r.state.live| == |s.live| - 1
  {
    var s1 := if i > 0 then Emit(cfg, s, h, SucceededAfterFailures(i + 1, RETRY_FUNCTION_ATTEMPTS)) else s;
    Result(Returned, Pop(Flush(cfg, s1, |s1.live|)))
  }

  // After the last failed attempt of retryFunction, whose helper is the newest.
  function GiveUp(cfg: Config, s: State, h: Handle, path: Path): (r: Result)
    requires |s.live| > 0
    ensures |r.state.live| == |s.live| - 1
  {
    FatalOn(cfg, Pop(Flush(cfg, s, |s.live|)), h, path, "Command failed after 5 attempts.")
  }

  function NewHelper(s: State, parent: Handle, attempt: nat, maxAttempts: int): RetryHelper {
    RetryHelper(false, attempt, maxAttempts, CurrentStep(s, parent), [])
  }

  // The state in which an attempt's callback starts: its helper is the newest.
  function Enter(s: State, parent: Handle, attempt: nat, maxAttempts: int, path: Path): State {
    Record(Push(s, NewHelper(s, parent, attempt, maxAttempts)), Ran(path))
  }

  // ----- the semantics -----

  function Eval(cfg: Config, c: Command, sc: Scope, s: State): (r: Result)
    ensures |r.state.live| == |s.live|
    decreases c, 0
  {
    match c
    case Nop => Result(Returned, s)
    case Do(t, act) => Act1(cfg, act, HandleOf(sc, t), sc.path, s)
    case Panic(value) => Result(Panicked(value), s)
    case Seq(first, second) =>
      var r := Eval(cfg, first, sc, s);
      if r.outcome == Returned then Eval(cfg, second, sc, r.state) else r
    case If(query, thn, els) =>
      var (answer, s1) := Ask(cfg, query, sc, s);
      if answer then Eval(cfg, thn, sc, s1) else Eval(cfg, els, sc, s1)
    case With(t, kubeconfig, body) =>
      EvalWith(cfg, HandleOf(sc, t), kubeconfig, body, sc, s)
    case UntilSuccess(t, options, body) =>
      UntilFrom(cfg, HandleOf(sc, t), options, body, 0, sc, s)
    case Attempt(t, body, after) =>
      var r := RunAttempt(cfg, "", body, HandleOf(sc, t), 0, 1, 0, sc, s);
      if r.outcome == Returned then
        var r1 := Eval(cfg, after, Bind(sc, |r.state.live|, 0), r.state);
        Result(r1.outcome, Pop(r1.state))
      else
        Result(r.outcome, Pop(r.state))
    case RetryFunction(t, kubeconfig, body) =>
      RetryFrom(cfg, HandleOf(sc, t), kubeconfig, body, 0, sc, s)
  }

  // withKubeconfig: no deferred restore, so only a normal return restores.
  function EvalWith(cfg: Config, h: Handle, kubeconfig: string, body: Command, sc: Scope, s: State): (r: Result)
    ensures |r.state.live| == |s.live|
    decreases body, 1
  {
    if kubeconfig == "" then
      Eval(cfg, body, sc, s)
    else if !CanSet(kubeconfig) then
      FatalOn(cfg, s, h, sc.path, "could not set KUBECONFIG")
    else
      var r := Eval(cfg, body, sc, s.(kubeconfig := Some(kubeconfig)));
      if r.outcome != Returned then r
      else if !CanSet(GetKubeconfig(s)) then FatalOn(cfg, r.state, h, sc.path, "could not set KUBECONFIG")
      else Result(Returned, r.state.(kubeconfig := Some(GetKubeconfig(s))))
  }

  // attemptInternal.  The new helper is still the newest live one in the result.
  // retryFunction wraps the callback in withKubeconfig; for the other callers the
  // kubeconfig is empty, for which withKubeconfig just runs the callback.
  function RunAttempt(cfg: Config, kubeconfig: string, body: Command, parent: Handle,
                      attempt: nat, maxAttempts: int, run: nat, sc: Scope, s: State): (r: Result)
    ensures |r.state.live| == |s.live| + 1
    decreases body, 2
  {
    var sc1 := Bind(sc, |s.live| + 1, run);
    var s1 := Enter(s, parent, attempt, maxAttempts, sc1.path);
    Recover(EvalWith(cfg, |s1.live|, kubeconfig, body, sc1, s1))
  }

  // UntilSuccessWithOptions from attempt i on; the last attempt uses the caller's helper.
  function UntilFrom(cfg: Config, h: Handle, o: Options, body: Command, i: nat, sc: Scope, s: State): (r: Result)
    ensures |r.state.live| == |s.live|
    decreases body, 3, o.maxAttempts - i
  {
    if i >= o.maxAttempts then
      Result(Returned, s)
    else if i == o.maxAttempts - 1 then
      var sc1 := Bind(sc, h, i);
      var r := Eval(cfg, body, sc1, Record(s, Ran(sc1.path)));
      if r.outcome != Returned then r
      else if HasFailed(r.state, h) then Exhausted(cfg, r.state, h, i, o)
      else Result(Returned, Succeed(cfg, r.state, h, h, i, o))
    else
      var r := RunAttempt(cfg, "", body, h, i, o.maxAttempts, i, sc, s);
      if r.outcome != Returned then
        Result(r.outcome, Pop(r.state))
      else if HasFailed(r.state, |r.state.live|) then
        UntilFrom(cfg, h, o, body, i + 1, sc, NoteFailedAttempt(cfg, Pop(r.state), h, i, o))
      else
        Result(Returned, Pop(Succeed(cfg, r.state, h, |r.state.live|, i, o)))
  }

  // retryFunction from attempt i on.
  function RetryFrom(cfg: Config, h: Handle, kubeconfig: string, body: Command, i: nat, sc: Scope,
                     s: State): (r: Result)
    requires i < RETRY_FUNCTION_ATTEMPTS
    ensures |r.state.live| == |s.live|
    decreases body, 3, RETRY_FUNCTION_ATTEMPTS - i
  {
    var r := RunAttempt(cfg, kubeconfig, body, h, 0, 1, i, sc, s);
    if r.outcome != Returned then
      Result(r.outcome, Pop(r.state))
    else if !HasFailed(r.state, |r.state.live|) then
      Rescued(cfg, r.state, h, i)
    else if i + 1 < RETRY_FUNCTION_ATTEMPTS then
      RetryFrom(cfg, h, kubeconfig, body, i + 1, sc, Pop(r.state))
    else
      GiveUp(cfg, r.state, h, sc.path)
  }

  // A test starts with a fresh testing.T and its top-level helper in hand.
  function InitialState(kubeconfig: Option<string>): State {
    State(false, 0, [], kubeconfig, [], [])
  }

  const TEST_SCOPE := Scope([0], [])

  // topLevelTest.Run, whose deferred function logs how the test went.  It calls
  // recoverPanic too, but recover has an effect only in the deferred function itself,
  // not in one that it calls: a panic passes through, after the closing lines.
  function RunTest(cfg: Config, c: Command, kubeconfig: Option<string>): Result {
    var r := Eval(cfg, c, TEST_SCOPE, InitialState(kubeconfig));
    Result(r.outcome, Print(Print(r.state, Line(false, Text(""))), Line(false, TestEnded(r.state.failed))))
  }

  // What withKubeconfig hands to its callback.
  function Entered(kubeconfig: string, s: State): State {
    if kubeconfig == "" then s else s.(kubeconfig := Some(kubeconfig))
  }

  // An attempt whose callback does not return normally.
  lemma UnreturnedAttempt(cfg: Config, kubeconfig: string, body: Command, parent: Handle,
                          attempt: nat, maxAttempts: int, run: nat, sc: Scope, s: State)
    requires CanSet(kubeconfig)
    requires var sc1 := Bind(sc, |s.live| + 1, run);
      Eval(cfg, body, sc1, Entered(kubeconfig, Enter(s, parent, attempt, maxAttempts, sc1.path))).outcome != Returned
    ensures var sc1 := Bind(sc, |s.live| + 1, run);
      RunAttempt(cfg, kubeconfig, body, parent, attempt, maxAttempts, run, sc, s)
      == Recover(Eval(cfg, body, sc1, Entered(kubeconfig, Enter(s, parent, attempt, maxAttempts, sc1.path))))
  {
  }

  // What withKubeconfig leaves after its callback returned.
  function Restored(kubeconfig: string, entry: State, s: State): State {
    if kubeconfig == "" then s else s.(kubeconfig := Some(GetKubeconfig(entry)))
  }

  // An attempt whose callback returns normally.
  lemma ReturnedAttempt(cfg: Config, kubeconfig: string, body: Command, parent: Handle,
                        attempt: nat, maxAttempts: int, run: nat, sc: Scope, s: State)
    requires CanSet(kubeconfig) && CanSet(GetKubeconfig(s))
    requires var sc1 := Bind(sc, |s.live| + 1, run);
      Eval(cfg, body, sc1, Entered(kubeconfig, Enter(s, parent, attempt, maxAttempts, sc1.path))).outcome == Returned
    ensures var sc1 := Bind(sc, |s.live| + 1, run);
      var r := Eval(cfg, body, sc1, Entered(kubeconfig, Enter(s, parent, attempt, maxAttempts, sc1.path)));
      RunAttempt(cfg, kubeconfig, body, parent, attempt, maxAttempts, run, sc, s)
      == Result(Returned, Restored(kubeconfig, s, r.state))
  {
  }
}
