/**
  When a nested call ends the whole test.  Inside an attempt every Fatal unwinds to
  the enclosing attempt, so that runtime.Goexit has one source: a call of
  UntilSuccess that is exhausted, because its last attempt returned with its helper
  failed by Error.
 */
module RetryExhaustion {
  import opened Wrappers
  import opened RetryModel
  import opened RetryIsolation
  import opened RetryLogs

  // ----- attempts of UntilSuccess and of retryFunction -----

  // The last attempt has the caller's own helper in hand, the others a new one.
  function AttemptScope(h: Handle, o: Options, i: nat, sc: Scope, s: State): Scope {
    Bind(sc, if i == o.maxAttempts - 1 then h else |s.live| + 1, i)
  }

  function AttemptStart(h: Handle, o: Options, i: nat, sc: Scope, s: State): State {
    if i == o.maxAttempts - 1 then Record(s, Ran(sc.path + [i]))
    else Enter(s, h, i, o.maxAttempts, sc.path + [i])
  }

  // The callback of attempt i of a call, started in this state.
  function AttemptResult(cfg: Config, h: Handle, o: Options, body: Command, i: nat, sc: Scope, s: State): Result {
    Eval(cfg, body, AttemptScope(h, o, i, sc, s), AttemptStart(h, o, i, sc, s))
  }

  // Where the callback of attempt i of retryFunction starts.
  function RetryScope(i: nat, sc: Scope, s: State): Scope {
    Bind(sc, |s.live| + 1, i)
  }

  function RetryStart(h: Handle, kubeconfig: string, i: nat, sc: Scope, s: State): State {
    Entered(kubeconfig, Enter(s, h, 0, 1, sc.path + [i]))
  }

  // The state in which retryFunction starts attempt i: every earlier one has
  // returned with its helper failed.
  ghost function RetryStateBefore(cfg: Config, h: Handle, kubeconfig: string, body: Command, i: nat, sc: Scope,
                                  s: State)
    : (r: Option<State>)
    ensures r.Some? ==> |r.value.live| == |s.live|
  {
    if i == 0 then Some(s)
    else
      match RetryStateBefore(cfg, h, kubeconfig, body, i - 1, sc, s)
      case None => None
      case Some(si) =>
        var r := RunAttempt(cfg, kubeconfig, body, h, 0, 1, i - 1, sc, si);
        if r.outcome == Returned && HasFailed(r.state, |r.state.live|) then Some(Pop(r.state)) else None
  }

  // ----- exhausted calls -----

  // The call on h reaches its last attempt, which returns with h failed.
  ghost predicate IsExhausted(cfg: Config, h: Handle, o: Options, body: Command, sc: Scope, s: State) {
    o.maxAttempts > 0 &&
    var n := o.maxAttempts - 1;
    var before := StateBefore(cfg, h, o, body, n, sc, s);
    before.Some? &&
    var r := AttemptResult(cfg, h, o, body, n, sc, before.value);
    r.outcome == Returned && HasFailed(r.state, h)
  }

  // Some call of UntilSuccess that running c from s makes is exhausted.
  ghost predicate SomeCallExhausted(cfg: Config, c: Command, sc: Scope, s: State) {
    match c
    case Nop => false
    case Do(_, _) => false
    case Panic(_) => false
    case Seq(first, second) =>
      || SomeCallExhausted(cfg, first, sc, s)
      || (var r := Eval(cfg, first, sc, s);
          r.outcome == Returned && SomeCallExhausted(cfg, second, sc, r.state))
    case If(query, thn, els) =>
      var (answer, s1) := Ask(cfg, query, sc, s);
      if answer then SomeCallExhausted(cfg, thn, sc, s1) else SomeCallExhausted(cfg, els, sc, s1)
    case With(t, kubeconfig, body) =>
      CanSet(kubeconfig) && SomeCallExhausted(cfg, body, sc, Entered(kubeconfig, s))
    case UntilSuccess(t, o, body) =>
      var h := HandleOf(sc, t);
      || IsExhausted(cfg, h, o, body, sc, s)
      || exists i: nat ::
           && i < o.maxAttempts
           && StateBefore(cfg, h, o, body, i, sc, s).Some?
           && var si := StateBefore(cfg, h, o, body, i, sc, s).value;
              SomeCallExhausted(cfg, body, AttemptScope(h, o, i, sc, si), AttemptStart(h, o, i, sc, si))
    case Attempt(t, body, after) =>
      var h := HandleOf(sc, t);
      || SomeCallExhausted(cfg, body, RetryScope(0, sc, s), RetryStart(h, "", 0, sc, s))
      || (var r := RunAttempt(cfg, "", body, h, 0, 1, 0, sc, s);
          r.outcome == Returned && SomeCallExhausted(cfg, after, Bind(sc, |r.state.live|, 0), r.state))
    case RetryFunction(t, kubeconfig, body) =>
      var h := HandleOf(sc, t);
      exists i: nat ::
        && i < RETRY_FUNCTION_ATTEMPTS
        && CanSet(kubeconfig)
        && RetryStateBefore(cfg, h, kubeconfig, body, i, sc, s).Some?
        && var si := RetryStateBefore(cfg, h, kubeconfig, body, i, sc, s).value;
           SomeCallExhausted(cfg, body, RetryScope(i, sc, si), RetryStart(h, kubeconfig, i, sc, si))
  }

  // In attempt i, if it is made, some call is exhausted.
  ghost predicate ExhaustedInAttempt(cfg: Config, h: Handle, o: Options, body: Command, i: nat, sc: Scope, s: State) {
    && i < o.maxAttempts
    && StateBefore(cfg, h, o, body, i, sc, s).Some?
    && var si := StateBefore(cfg, h, o, body, i, sc, s).value;
       SomeCallExhausted(cfg, body, AttemptScope(h, o, i, sc, si), AttemptStart(h, o, i, sc, si))
  }

  ghost predicate ExhaustedInRetry(cfg: Config, h: Handle, kubeconfig: string, body: Command, i: nat, sc: Scope,
                                   s: State) {
    && i < RETRY_FUNCTION_ATTEMPTS
    && CanSet(kubeconfig)
    && RetryStateBefore(cfg, h, kubeconfig, body, i, sc, s).Some?
    && var si := RetryStateBefore(cfg, h, kubeconfig, body, i, sc, s).value;
       SomeCallExhausted(cfg, body, RetryScope(i, sc, si), RetryStart(h, kubeconfig, i, sc, si))
  }

  // ----- callbacks inside an attempt -----

  // FailNow is called, by the callback or on its behalf, only on helpers in
  // variables from low on; Error may be called on any.
  predicate InAttempt(c: Command, low: Var, depth: nat) {
    match c
    case Nop => true
    case Do(t, act) => act.Log? || act.LogStep? || act.Error? || low <= t < depth
    case Panic(_) => true
    case Seq(first, second) => InAttempt(first, low, depth) && InAttempt(second, low, depth)
    case If(_, thn, els) => InAttempt(thn, low, depth) && InAttempt(els, low, depth)
    case With(t, _, body) => low <= t < depth && InAttempt(body, low, depth)
    case UntilSuccess(t, _, body) => low <= t < depth && InAttempt(body, low, depth + 1)
    case Attempt(_, body, after) => InAttempt(body, low, depth + 1) && InAttempt(after, low, depth + 1)
    case RetryFunction(t, _, body) => low <= t < depth && InAttempt(body, low, depth + 1)
  }

  ghost predicate RetryHelpersFrom(low: Var, sc: Scope, s: State) {
    forall v :: low <= v < |sc.vars| ==> IsRetry(s, sc.vars[v])
  }

  lemma FatalNeverExits(cfg: Config, s: State, h: Handle, path: Path, text: string)
    requires IsRetry(s, h)
    ensures FatalOn(cfg, s, h, path, text).outcome == Panicked(RETRY_PANIC_KEY)
  {
    EmitKeepsLive(cfg, s, h, Text(FAILURE_PREFIX + text));
  }

  lemma EmitKeepsLive(cfg: Config, s: State, h: Handle, m: Message)
    ensures |Emit(cfg, s, h, m).live| == |s.live|
  {
  }

  lemma ActNeverExits(cfg: Config, act: Act, h: Handle, path: Path, s: State)
    requires act.Log? || act.LogStep? || act.Error? || IsRetry(s, h)
    ensures Act1(cfg, act, h, path, s).outcome != Exited
  {
    hide FatalOn;
    match act
    case Shell => FatalNeverExits(cfg, Record(s, Shelled(GetKubeconfig(s))), h, path, "Command failed");
    case Fatal(text) => FatalNeverExits(cfg, s, h, path, text);
    case _ =>
  }

  // withKubeconfig exits exactly when its callback does.
  lemma WithExits(cfg: Config, h: Handle, kubeconfig: string, body: Command, sc: Scope, s: State)
    requires IsRetry(s, h)
    ensures EvalWith(cfg, h, kubeconfig, body, sc, s).outcome == Exited
       <==> CanSet(kubeconfig) && Eval(cfg, body, sc, Entered(kubeconfig, s)).outcome == Exited
  {
    hide Eval, FatalOn;
    FatalNeverExits(cfg, s, h, sc.path, "could not set KUBECONFIG");
    FatalNeverExits(cfg, Eval(cfg, body, sc, Entered(kubeconfig, s)).state, h, sc.path, "could not set KUBECONFIG");
  }

  // So does an attempt.
  lemma AttemptExits(cfg: Config, kubeconfig: string, body: Command, parent: Handle,
                     attempt: nat, maxAttempts: int, run: nat, sc: Scope, s: State)
    ensures RunAttempt(cfg, kubeconfig, body, parent, attempt, maxAttempts, run, sc, s).outcome == Exited
       <==> CanSet(kubeconfig)
            && var s1 := Entered(kubeconfig, Enter(s, parent, attempt, maxAttempts, sc.path + [run]));
               Eval(cfg, body, RetryScope(run, sc, s), s1).outcome == Exited
  {
    hide Eval, EvalWith;
    WithExits(cfg, |s.live| + 1, kubeconfig, body, RetryScope(run, sc, s),
              Enter(s, parent, attempt, maxAttempts, sc.path + [run]));
  }

  // A non-last attempt is its callback, run on a new helper and recovered.
  lemma AttemptIsCallback(cfg: Config, h: Handle, o: Options, body: Command, i: nat, sc: Scope, s: State)
    requires i < o.maxAttempts - 1
    ensures RunAttempt(cfg, "", body, h, i, o.maxAttempts, i, sc, s)
      == Recover(AttemptResult(cfg, h, o, body, i, sc, s))
    ensures var r := AttemptResult(cfg, h, o, body, i, sc, s); Recover(r).state.trace == r.state.trace
  {
    hide Eval;
  }

  // ----- the loops -----

  // The call made from s reaches attempt i and ends the goroutine there.
  ghost predicate ExitsAt(cfg: Config, h: Handle, o: Options, body: Command, i: nat, sc: Scope, s: State) {
    && i < o.maxAttempts
    && StateBefore(cfg, h, o, body, i, sc, s).Some?
    && var r := AttemptResult(cfg, h, o, body, i, sc, StateBefore(cfg, h, o, body, i, sc, s).value);
       r.outcome == Exited || (i == o.maxAttempts - 1 && r.outcome == Returned && HasFailed(r.state, h))
  }

  // Whatever the callback: a call exits exactly when one of the attempts it makes does.
  lemma {:induction false} LoopExits(cfg: Config, h: Handle, o: Options, body: Command, i: nat, sc: Scope, s: State)
    requires i < o.maxAttempts && StateBefore(cfg, h, o, body, i, sc, s).Some?
    ensures UntilFrom(cfg, h, o, body, i, sc, StateBefore(cfg, h, o, body, i, sc, s).value).outcome == Exited
       <==> exists j: nat :: i <= j && ExitsAt(cfg, h, o, body, j, sc, s)
    decreases o.maxAttempts - i
  {
    hide ExitsAt, Eval, RunAttempt, NoteFailedAttempt, Succeed, Exhausted, HasFailed, AttemptResult, StateBefore;
    AttemptDecides(cfg, h, o, body, i, sc, s);
    if i < o.maxAttempts - 1 {
      if StateBefore(cfg, h, o, body, i + 1, sc, s).Some? {
        LoopExits(cfg, h, o, body, i + 1, sc, s);
      } else {
        NoneLater(cfg, h, o, body, i + 1, sc, s);
      }
    } else {
      AfterLast(cfg, h, o, body, sc, s);
    }
  }

  // One turn of the loop: it exits here, or there is a next attempt and it exits later.
  lemma AttemptDecides(cfg: Config, h: Handle, o: Options, body: Command, i: nat, sc: Scope, s: State)
    requires i < o.maxAttempts && StateBefore(cfg, h, o, body, i, sc, s).Some?
    ensures var r := UntilFrom(cfg, h, o, body, i, sc, StateBefore(cfg, h, o, body, i, sc, s).value);
      var next := StateBefore(cfg, h, o, body, i + 1, sc, s);
      r.outcome == Exited
      <==> ExitsAt(cfg, h, o, body, i, sc, s)
           || (i < o.maxAttempts - 1 && next.Some?
               && UntilFrom(cfg, h, o, body, i + 1, sc, next.value).outcome == Exited)
  {
    hide Eval, RunAttempt, NoteFailedAttempt, Succeed, HasFailed, Enter;
    if i < o.maxAttempts - 1 {
      AttemptExits(cfg, "", body, h, i, o.maxAttempts, i, sc, StateBefore(cfg, h, o, body, i, sc, s).value);
    }
  }

  lemma AfterLast(cfg: Config, h: Handle, o: Options, body: Command, sc: Scope, s: State)
    ensures forall j: nat :: o.maxAttempts <= j ==> !ExitsAt(cfg, h, o, body, j, sc, s)
  {
  }

  // After an attempt that is not reached there are no others.
  lemma {:induction false} NoneLater(cfg: Config, h: Handle, o: Options, body: Command, i: nat, sc: Scope, s: State)
    requires StateBefore(cfg, h, o, body, i, sc, s).None?
    ensures forall j: nat :: i <= j ==> !ExitsAt(cfg, h, o, body, j, sc, s)
    decreases o.maxAttempts - i
  {
    hide RunAttempt, NoteFailedAttempt, HasFailed, AttemptResult;
    if i < o.maxAttempts {
      NoneLater(cfg, h, o, body, i + 1, sc, s);
      assert !ExitsAt(cfg, h, o, body, i, sc, s);
    }
  }

  ghost predicate RetryExitsAt(cfg: Config, h: Handle, kubeconfig: string, body: Command, i: nat, sc: Scope, s: State) {
    && i < RETRY_FUNCTION_ATTEMPTS
    && RetryStateBefore(cfg, h, kubeconfig, body, i, sc, s).Some?
    && var si := RetryStateBefore(cfg, h, kubeconfig, body, i, sc, s).value;
       RunAttempt(cfg, kubeconfig, body, h, 0, 1, i, sc, si).outcome == Exited
  }

  lemma {:induction false} RetryLoopExits(cfg: Config, h: Handle, kubeconfig: string, body: Command, i: nat,
                                          sc: Scope, s: State)
    requires i < RETRY_FUNCTION_ATTEMPTS && RetryStateBefore(cfg, h, kubeconfig, body, i, sc, s).Some? && IsRetry(s, h)
    ensures var si := RetryStateBefore(cfg, h, kubeconfig, body, i, sc, s).value;
      RetryFrom(cfg, h, kubeconfig, body, i, sc, si).outcome == Exited
      <==> exists j: nat :: i <= j && RetryExitsAt(cfg, h, kubeconfig, body, j, sc, s)
    decreases RETRY_FUNCTION_ATTEMPTS - i
  {
    hide RetryExitsAt, RunAttempt, Rescued, GiveUp, HasFailed, RetryStateBefore;
    RetryAttemptDecides(cfg, h, kubeconfig, body, i, sc, s);
    if i + 1 < RETRY_FUNCTION_ATTEMPTS {
      if RetryStateBefore(cfg, h, kubeconfig, body, i + 1, sc, s).Some? {
        RetryLoopExits(cfg, h, kubeconfig, body, i + 1, sc, s);
      } else {
        NoRetryLater(cfg, h, kubeconfig, body, i + 1, sc, s);
      }
    } else {
      AfterLastRetry(cfg, h, kubeconfig, body, sc, s);
    }
  }

  lemma RetryAttemptDecides(cfg: Config, h: Handle, kubeconfig: string, body: Command, i: nat, sc: Scope, s: State)
    requires i < RETRY_FUNCTION_ATTEMPTS && RetryStateBefore(cfg, h, kubeconfig, body, i, sc, s).Some? && IsRetry(s, h)
    ensures var si := RetryStateBefore(cfg, h, kubeconfig, body, i, sc, s).value;
      var r := RetryFrom(cfg, h, kubeconfig, body, i, sc, si);
      var next := RetryStateBefore(cfg, h, kubeconfig, body, i + 1, sc, s);
      r.outcome == Exited
      <==> RetryExitsAt(cfg, h, kubeconfig, body, i, sc, s)
           || (i + 1 < RETRY_FUNCTION_ATTEMPTS && next.Some?
               && RetryFrom(cfg, h, kubeconfig, body, i + 1, sc, next.value).outcome == Exited)
  {
    hide RunAttempt, Rescued, GiveUp, HasFailed;
    var si := RetryStateBefore(cfg, h, kubeconfig, body, i, sc, s).value;
    var r := RunAttempt(cfg, kubeconfig, body, h, 0, 1, i, sc, si);
    RescuedNeverExits(cfg, r.state, h, i);
    GiveUpNeverExits(cfg, r.state, h, sc.path);
  }

  lemma AfterLastRetry(cfg: Config, h: Handle, kubeconfig: string, body: Command, sc: Scope, s: State)
    ensures forall j: nat :: RETRY_FUNCTION_ATTEMPTS <= j ==> !RetryExitsAt(cfg, h, kubeconfig, body, j, sc, s)
  {
  }

  lemma {:induction false} NoRetryLater(cfg: Config, h: Handle, kubeconfig: string, body: Command, i: nat,
                                        sc: Scope, s: State)
    requires RetryStateBefore(cfg, h, kubeconfig, body, i, sc, s).None?
    ensures forall j: nat :: i <= j ==> !RetryExitsAt(cfg, h, kubeconfig, body, j, sc, s)
    decreases RETRY_FUNCTION_ATTEMPTS - i
  {
    hide RunAttempt, HasFailed;
    if i < RETRY_FUNCTION_ATTEMPTS {
      NoRetryLater(cfg, h, kubeconfig, body, i + 1, sc, s);
      assert !RetryExitsAt(cfg, h, kubeconfig, body, i, sc, s);
    }
  }

  lemma RescuedNeverExits(cfg: Config, s: State, h: Handle, i: nat)
    requires |s.live| > 0
    ensures Rescued(cfg, s, h, i).outcome == Returned
  {
  }

  lemma GiveUpNeverExits(cfg: Config, s: State, h: Handle, path: Path)
    requires 0 < h < |s.live|
    ensures GiveUp(cfg, s, h, path).outcome != Exited
  {
    hide FatalOn;
    FatalNeverExits(cfg, Pop(Flush(cfg, s, |s.live|)), h, path, "Command failed after 5 attempts.");
  }

  // ----- the induction -----

  // Inside an attempt the test is ended by exhausted calls, and by nothing else.
  lemma {:induction false} EndsExactlyWhenExhausted(cfg: Config, c: Command, low: Var, sc: Scope, s: State)
    requires InAttempt(c, low, |sc.vars|) && RetryHelpersFrom(low, sc, s)
    ensures Eval(cfg, c, sc, s).outcome == Exited <==> SomeCallExhausted(cfg, c, sc, s)
    decreases c, 0
  {
    hide Act1, EvalWith, UntilFrom, RunAttempt, RetryFrom, StateBefore, RetryStateBefore;
    match c
    case Nop =>
    case Do(t, act) => ActNeverExits(cfg, act, HandleOf(sc, t), sc.path, s);
    case Panic(value) =>
    case Seq(first, second) =>
      EndsExactlyWhenExhausted(cfg, first, low, sc, s);
      var r := Eval(cfg, first, sc, s);
      if r.outcome == Returned {
        EndsExactlyWhenExhausted(cfg, second, low, sc, r.state);
      }
    case If(query, thn, els) =>
      var (answer, s1) := Ask(cfg, query, sc, s);
      EndsExactlyWhenExhausted(cfg, if answer then thn else els, low, sc, s1);
    case With(t, kubeconfig, body) =>
      WithExits(cfg, HandleOf(sc, t), kubeconfig, body, sc, s);
      EndsExactlyWhenExhausted(cfg, body, low, sc, Entered(kubeconfig, s));
    case UntilSuccess(t, o, body) =>
      CallEndsTest(cfg, HandleOf(sc, t), o, body, low, sc, s);
      CallOutcome(cfg, t, o, body, sc, s);
    case Attempt(t, body, after) =>
      var h := HandleOf(sc, t);
      AttemptExits(cfg, "", body, h, 0, 1, 0, sc, s);
      EndsExactlyWhenExhausted(cfg, body, low, RetryScope(0, sc, s), RetryStart(h, "", 0, sc, s));
      var r := RunAttempt(cfg, "", body, h, 0, 1, 0, sc, s);
      if r.outcome == Returned {
        EndsExactlyWhenExhausted(cfg, after, low, Bind(sc, |r.state.live|, 0), r.state);
      }
    case RetryFunction(t, kubeconfig, body) =>
      RetryFunctionEndsTest(cfg, t, kubeconfig, body, low, sc, s);
  }

  // A call on a retry helper, whose callback uses that helper and those from low on.
  lemma {:induction false} CallEndsTest(cfg: Config, h: Handle, o: Options, body: Command, low: Var, sc: Scope,
                                        s: State)
    requires IsRetry(s, h) && low <= |sc.vars| && InAttempt(body, low, |sc.vars| + 1) && RetryHelpersFrom(low, sc, s)
    ensures UntilFrom(cfg, h, o, body, 0, sc, s).outcome == Exited
       <==> IsExhausted(cfg, h, o, body, sc, s) || exists i: nat :: ExhaustedInAttempt(cfg, h, o, body, i, sc, s)
    decreases body, 2
  {
    hide Eval, UntilFrom, HasFailed, ExitsAt, ExhaustedInAttempt, IsExhausted, RetryHelpersFrom, SomeCallExhausted;
    forall i: nat
      ensures ExitsAt(cfg, h, o, body, i, sc, s)
        <==> ExhaustedInAttempt(cfg, h, o, body, i, sc, s)
             || (i == o.maxAttempts - 1 && IsExhausted(cfg, h, o, body, sc, s))
    {
      AttemptEndsTest(cfg, h, o, body, i, low, sc, s);
    }
    if o.maxAttempts > 0 {
      LoopExits(cfg, h, o, body, 0, sc, s);
      assert IsExhausted(cfg, h, o, body, sc, s) ==> ExitsAt(cfg, h, o, body, o.maxAttempts - 1, sc, s);
      if i: nat :| ExhaustedInAttempt(cfg, h, o, body, i, sc, s) {
        assert ExitsAt(cfg, h, o, body, i, sc, s);
      } else if i: nat :| ExitsAt(cfg, h, o, body, i, sc, s) {
        assert IsExhausted(cfg, h, o, body, sc, s) || ExhaustedInAttempt(cfg, h, o, body, i, sc, s);
      }
    } else {
      NoAttempts(cfg, h, o, body, sc, s);
    }
  }

  lemma SomeAttemptExhausted(cfg: Config, t: Var, o: Options, body: Command, sc: Scope, s: State)
    requires SomeCallExhausted(cfg, UntilSuccess(t, o, body), sc, s)
    requires !IsExhausted(cfg, HandleOf(sc, t), o, body, sc, s)
    ensures exists i: nat :: ExhaustedInAttempt(cfg, HandleOf(sc, t), o, body, i, sc, s)
  {
    hide IsExhausted;
    var h := HandleOf(sc, t);
    var i: nat :|
      && i < o.maxAttempts
      && StateBefore(cfg, h, o, body, i, sc, s).Some?
      && var si := StateBefore(cfg, h, o, body, i, sc, s).value;
         SomeCallExhausted(cfg, body, AttemptScope(h, o, i, sc, si), AttemptStart(h, o, i, sc, si));
    assert ExhaustedInAttempt(cfg, h, o, body, i, sc, s);
  }

  lemma AttemptExhausts(cfg: Config, t: Var, o: Options, body: Command, i: nat, sc: Scope, s: State)
    requires IsExhausted(cfg, HandleOf(sc, t), o, body, sc, s)
          || ExhaustedInAttempt(cfg, HandleOf(sc, t), o, body, i, sc, s)
    ensures SomeCallExhausted(cfg, UntilSuccess(t, o, body), sc, s)
  {
    hide IsExhausted;
  }

  lemma CallOutcome(cfg: Config, t: Var, o: Options, body: Command, sc: Scope, s: State)
    ensures SomeCallExhausted(cfg, UntilSuccess(t, o, body), sc, s)
       <==> IsExhausted(cfg, HandleOf(sc, t), o, body, sc, s)
            || exists i: nat :: ExhaustedInAttempt(cfg, HandleOf(sc, t), o, body, i, sc, s)
  {
    hide IsExhausted, SomeCallExhausted, ExhaustedInAttempt;
    var h := HandleOf(sc, t);
    if IsExhausted(cfg, h, o, body, sc, s) {
      AttemptExhausts(cfg, t, o, body, 0, sc, s);
    } else if SomeCallExhausted(cfg, UntilSuccess(t, o, body), sc, s) {
      SomeAttemptExhausted(cfg, t, o, body, sc, s);
    } else if i: nat :| ExhaustedInAttempt(cfg, h, o, body, i, sc, s) {
      AttemptExhausts(cfg, t, o, body, i, sc, s);
    }
  }

  lemma NoAttempts(cfg: Config, h: Handle, o: Options, body: Command, sc: Scope, s: State)
    requires o.maxAttempts <= 0
    ensures UntilFrom(cfg, h, o, body, 0, sc, s).outcome == Returned
    ensures !IsExhausted(cfg, h, o, body, sc, s) && forall i: nat :: !ExhaustedInAttempt(cfg, h, o, body, i, sc, s)
  {
  }

  lemma {:induction false} AttemptEndsTest(cfg: Config, h: Handle, o: Options, body: Command, i: nat,
                                           low: Var, sc: Scope, s: State)
    requires IsRetry(s, h) && low <= |sc.vars| && InAttempt(body, low, |sc.vars| + 1) && RetryHelpersFrom(low, sc, s)
    ensures ExitsAt(cfg, h, o, body, i, sc, s)
       <==> ExhaustedInAttempt(cfg, h, o, body, i, sc, s)
            || (i == o.maxAttempts - 1 && IsExhausted(cfg, h, o, body, sc, s))
    decreases body, 1
  {
    hide Eval, HasFailed, StateBefore;
    if i < o.maxAttempts && StateBefore(cfg, h, o, body, i, sc, s).Some? {
      var si := StateBefore(cfg, h, o, body, i, sc, s).value;
      EndsExactlyWhenExhausted(cfg, body, low, AttemptScope(h, o, i, sc, si), AttemptStart(h, o, i, sc, si));
    }
  }

  lemma {:induction false} RetryFunctionEndsTest(cfg: Config, t: Var, kubeconfig: string, body: Command,
                                                 low: Var, sc: Scope, s: State)
    requires low <= t < |sc.vars| && InAttempt(body, low, |sc.vars| + 1) && RetryHelpersFrom(low, sc, s)
    ensures RetryFrom(cfg, sc.vars[t], kubeconfig, body, 0, sc, s).outcome == Exited
       <==> SomeCallExhausted(cfg, RetryFunction(t, kubeconfig, body), sc, s)
    decreases body, 2
  {
    hide Eval, RetryFrom, RunAttempt, HasFailed, RetryExitsAt, ExhaustedInRetry, SomeCallExhausted;
    var h := sc.vars[t];
    RetryLoopExits(cfg, h, kubeconfig, body, 0, sc, s);
    forall i: nat
      ensures RetryExitsAt(cfg, h, kubeconfig, body, i, sc, s)
        <==> ExhaustedInRetry(cfg, h, kubeconfig, body, i, sc, s)
    {
      RetryAttemptEndsTest(cfg, t, kubeconfig, body, i, low, sc, s);
    }
    if SomeCallExhausted(cfg, RetryFunction(t, kubeconfig, body), sc, s) {
      SomeRetryExhausted(cfg, t, kubeconfig, body, sc, s);
      var i: nat :| ExhaustedInRetry(cfg, h, kubeconfig, body, i, sc, s);
      assert RetryExitsAt(cfg, h, kubeconfig, body, i, sc, s);
    }
    if i: nat :| RetryExitsAt(cfg, h, kubeconfig, body, i, sc, s) {
      RetryExhausts(cfg, t, kubeconfig, body, i, sc, s);
    }
  }

  lemma SomeRetryExhausted(cfg: Config, t: Var, kubeconfig: string, body: Command, sc: Scope, s: State)
    requires SomeCallExhausted(cfg, RetryFunction(t, kubeconfig, body), sc, s)
    ensures exists i: nat :: ExhaustedInRetry(cfg, HandleOf(sc, t), kubeconfig, body, i, sc, s)
  {
    var h := HandleOf(sc, t);
    var i: nat :|
      && i < RETRY_FUNCTION_ATTEMPTS
      && CanSet(kubeconfig)
      && RetryStateBefore(cfg, h, kubeconfig, body, i, sc, s).Some?
      && var si := RetryStateBefore(cfg, h, kubeconfig, body, i, sc, s).value;
         SomeCallExhausted(cfg, body, RetryScope(i, sc, si), RetryStart(h, kubeconfig, i, sc, si));
    assert ExhaustedInRetry(cfg, h, kubeconfig, body, i, sc, s);
  }

  lemma RetryExhausts(cfg: Config, t: Var, kubeconfig: string, body: Command, i: nat, sc: Scope, s: State)
    requires ExhaustedInRetry(cfg, HandleOf(sc, t), kubeconfig, body, i, sc, s)
    ensures SomeCallExhausted(cfg, RetryFunction(t, kubeconfig, body), sc, s)
  {
  }

  lemma {:induction false} RetryAttemptEndsTest(cfg: Config, t: Var, kubeconfig: string, body: Command, i: nat,
                                                low: Var, sc: Scope, s: State)
    requires low <= t < |sc.vars| && InAttempt(body, low, |sc.vars| + 1) && RetryHelpersFrom(low, sc, s)
    ensures RetryExitsAt(cfg, sc.vars[t], kubeconfig, body, i, sc, s)
       <==> ExhaustedInRetry(cfg, sc.vars[t], kubeconfig, body, i, sc, s)
    decreases body, 1
  {
    hide Eval, RunAttempt, HasFailed, RetryStateBefore;
    var h := sc.vars[t];
    if i < RETRY_FUNCTION_ATTEMPTS && RetryStateBefore(cfg, h, kubeconfig, body, i, sc, s).Some? {
      var si := RetryStateBefore(cfg, h, kubeconfig, body, i, sc, s).value;
      AttemptExits(cfg, kubeconfig, body, h, 0, 1, i, sc, si);
      EndsExactlyWhenExhausted(cfg, body, low, RetryScope(i, sc, si), RetryStart(h, kubeconfig, i, sc, si));
    }
  }

  // ----- consequences -----

  // No call of UntilSuccess inside.
  predicate CallFree(c: Command) {
    match c
    case Nop => true
    case Do(_, _) => true
    case Panic(_) => true
    case Seq(first, second) => CallFree(first) && CallFree(second)
    case If(_, thn, els) => CallFree(thn) && CallFree(els)
    case With(_, _, body) => CallFree(body)
    case UntilSuccess(_, _, _) => false
    case Attempt(_, body, after) => CallFree(body) && CallFree(after)
    case RetryFunction(_, _, body) => CallFree(body)
  }

  lemma {:induction false} CallFreeExhaustsNothing(cfg: Config, c: Command, sc: Scope, s: State)
    requires CallFree(c)
    ensures !SomeCallExhausted(cfg, c, sc, s)
    decreases c
  {
    hide Eval, Ask, RunAttempt, RetryStateBefore;
    match c
    case Seq(first, second) =>
      CallFreeExhaustsNothing(cfg, first, sc, s);
      CallFreeExhaustsNothing(cfg, second, sc, Eval(cfg, first, sc, s).state);
    case If(query, thn, els) =>
      var s1 := Ask(cfg, query, sc, s).1;
      CallFreeExhaustsNothing(cfg, thn, sc, s1);
      CallFreeExhaustsNothing(cfg, els, sc, s1);
    case With(t, kubeconfig, body) =>
      CallFreeExhaustsNothing(cfg, body, sc, Entered(kubeconfig, s));
    case Attempt(t, body, after) =>
      CallFreeExhaustsNothing(cfg, body, RetryScope(0, sc, s), RetryStart(HandleOf(sc, t), "", 0, sc, s));
      var r := RunAttempt(cfg, "", body, HandleOf(sc, t), 0, 1, 0, sc, s);
      CallFreeExhaustsNothing(cfg, after, Bind(sc, |r.state.live|, 0), r.state);
    case RetryFunction(t, kubeconfig, body) =>
      if SomeCallExhausted(cfg, c, sc, s) {
        SomeRetryExhausted(cfg, t, kubeconfig, body, sc, s);
        var h := HandleOf(sc, t);
        var i: nat :| ExhaustedInRetry(cfg, h, kubeconfig, body, i, sc, s);
        var si := RetryStateBefore(cfg, h, kubeconfig, body, i, sc, s).value;
        CallFreeExhaustsNothing(cfg, body, RetryScope(i, sc, si), RetryStart(h, kubeconfig, i, sc, si));
      }
    case _ =>
  }

  // A nested call without further calls in it ends the test exactly when it is
  // exhausted; in every other case it returns or unwinds to the enclosing attempt.
  lemma NestedCallEndsTest(cfg: Config, h: Handle, o: Options, body: Command, low: Var, sc: Scope, s: State)
    requires IsRetry(s, h) && low <= |sc.vars| && InAttempt(body, low, |sc.vars| + 1) && RetryHelpersFrom(low, sc, s)
    requires CallFree(body)
    ensures UntilFrom(cfg, h, o, body, 0, sc, s).outcome == Exited <==> IsExhausted(cfg, h, o, body, sc, s)
  {
    hide UntilFrom, IsExhausted, StateBefore, InAttempt, RetryHelpersFrom;
    CallEndsTest(cfg, h, o, body, low, sc, s);
    if i: nat :| ExhaustedInAttempt(cfg, h, o, body, i, sc, s) {
      var si := StateBefore(cfg, h, o, body, i, sc, s).value;
      CallFreeExhaustsNothing(cfg, body, AttemptScope(h, o, i, sc, si), AttemptStart(h, o, i, sc, si));
    }
  }

  lemma {:induction false} FlatIsInAttempt(c: Command, own: Var, depth: nat)
    requires Flat(c, own) && own < depth
    ensures InAttempt(c, own, depth) && CallFree(c)
  {
    match c
    case Seq(first, second) =>
      FlatIsInAttempt(first, own, depth);
      FlatIsInAttempt(second, own, depth);
    case If(_, thn, els) =>
      FlatIsInAttempt(thn, own, depth);
      FlatIsInAttempt(els, own, depth);
    case With(_, _, body) => FlatIsInAttempt(body, own, depth);
    case _ =>
  }

  // In particular, when the callback uses nothing but the helper in hand.
  lemma FlatCallEndsTest(cfg: Config, h: Handle, o: Options, body: Command, sc: Scope, s: State)
    requires IsRetry(s, h) && Flat(body, |sc.vars|)
    ensures UntilFrom(cfg, h, o, body, 0, sc, s).outcome == Exited <==> IsExhausted(cfg, h, o, body, sc, s)
  {
    FlatIsInAttempt(body, |sc.vars|, |sc.vars| + 1);
    NestedCallEndsTest(cfg, h, o, body, |sc.vars|, sc, s);
  }

  // Whatever ends the goroutine has failed the test.
  lemma {:induction false} ExitMeansFailed(cfg: Config, c: Command, sc: Scope, s: State)
    ensures Eval(cfg, c, sc, s).outcome == Exited ==> Eval(cfg, c, sc, s).state.failed
    decreases c, 0
  {
    hide Act1, EvalWith, UntilFrom, RunAttempt, RetryFrom;
    match c
    case Nop =>
    case Do(t, act) => ActExitFails(cfg, act, HandleOf(sc, t), sc.path, s);
    case Panic(_) =>
    case Seq(first, second) =>
      ExitMeansFailed(cfg, first, sc, s);
      ExitMeansFailed(cfg, second, sc, Eval(cfg, first, sc, s).state);
    case If(query, thn, els) =>
      var s1 := Ask(cfg, query, sc, s).1;
      ExitMeansFailed(cfg, thn, sc, s1);
      ExitMeansFailed(cfg, els, sc, s1);
    case With(t, kubeconfig, body) =>
      WithExitFails(cfg, HandleOf(sc, t), kubeconfig, body, sc, s);
    case UntilSuccess(t, o, body) =>
      LoopExitFails(cfg, HandleOf(sc, t), o, body, 0, sc, s);
    case Attempt(t, body, after) =>
      AttemptExitFails(cfg, "", body, HandleOf(sc, t), 0, 1, 0, sc, s);
      var r := RunAttempt(cfg, "", body, HandleOf(sc, t), 0, 1, 0, sc, s);
      ExitMeansFailed(cfg, after, Bind(sc, |r.state.live|, 0), r.state);
    case RetryFunction(t, kubeconfig, body) =>
      RetryExitFails(cfg, HandleOf(sc, t), kubeconfig, body, 0, sc, s);
  }

  lemma FatalExitFails(cfg: Config, s: State, h: Handle, path: Path, text: string)
    ensures var r := FatalOn(cfg, s, h, path, text); r.outcome == Exited ==> r.state.failed
  {
  }

  lemma ActExitFails(cfg: Config, act: Act, h: Handle, path: Path, s: State)
    ensures var r := Act1(cfg, act, h, path, s); r.outcome == Exited ==> r.state.failed
  {
    hide FatalOn;
    FatalExitFails(cfg, Record(s, Shelled(GetKubeconfig(s))), h, path, "Command failed");
    if act.Fatal? {
      FatalExitFails(cfg, s, h, path, act.text);
    }
  }

  lemma {:induction false} WithExitFails(cfg: Config, h: Handle, kubeconfig: string, body: Command, sc: Scope, s: State)
    ensures var r := EvalWith(cfg, h, kubeconfig, body, sc, s); r.outcome == Exited ==> r.state.failed
    decreases body, 1
  {
    hide Eval, FatalOn;
    ExitMeansFailed(cfg, body, sc, Entered(kubeconfig, s));
    FatalExitFails(cfg, s, h, sc.path, "could not set KUBECONFIG");
    FatalExitFails(cfg, Eval(cfg, body, sc, Entered(kubeconfig, s)).state, h, sc.path, "could not set KUBECONFIG");
  }

  lemma {:induction false} AttemptExitFails(cfg: Config, kubeconfig: string, body: Command, parent: Handle,
                                            attempt: nat, maxAttempts: int, run: nat, sc: Scope, s: State)
    ensures var r := RunAttempt(cfg, kubeconfig, body, parent, attempt, maxAttempts, run, sc, s);
      r.outcome == Exited ==> r.state.failed
    decreases body, 2
  {
    hide EvalWith;
    WithExitFails(cfg, |s.live| + 1, kubeconfig, body, RetryScope(run, sc, s),
                  Enter(s, parent, attempt, maxAttempts, sc.path + [run]));
  }

  lemma {:induction false} LoopExitFails(cfg: Config, h: Handle, o: Options, body: Command, i: nat, sc: Scope, s: State)
    ensures var r := UntilFrom(cfg, h, o, body, i, sc, s); r.outcome == Exited ==> r.state.failed
    decreases body, 3, o.maxAttempts - i
  {
    hide Eval, RunAttempt, NoteFailedAttempt, Succeed, HasFailed;
    if i == o.maxAttempts - 1 {
      ExitMeansFailed(cfg, body, Bind(sc, h, i), Record(s, Ran(sc.path + [i])));
    } else if i < o.maxAttempts {
      AttemptExitFails(cfg, "", body, h, i, o.maxAttempts, i, sc, s);
      var r := RunAttempt(cfg, "", body, h, i, o.maxAttempts, i, sc, s);
      LoopExitFails(cfg, h, o, body, i + 1, sc, NoteFailedAttempt(cfg, Pop(r.state), h, i, o));
    }
  }

  lemma {:induction false} RetryExitFails(cfg: Config, h: Handle, kubeconfig: string, body: Command, i: nat,
                                          sc: Scope, s: State)
    requires i < RETRY_FUNCTION_ATTEMPTS
    ensures var r := RetryFrom(cfg, h, kubeconfig, body, i, sc, s); r.outcome == Exited ==> r.state.failed
    decreases body, 3, RETRY_FUNCTION_ATTEMPTS - i
  {
    hide RunAttempt, Rescued, FatalOn, HasFailed;
    AttemptExitFails(cfg, kubeconfig, body, h, 0, 1, i, sc, s);
    var r := RunAttempt(cfg, kubeconfig, body, h, 0, 1, i, sc, s);
    RescuedNeverExits(cfg, r.state, h, i);
    FatalExitFails(cfg, Pop(Flush(cfg, r.state, |r.state.live|)), h, sc.path, "Command failed after 5 attempts.");
    if i + 1 < RETRY_FUNCTION_ATTEMPTS {
      RetryExitFails(cfg, h, kubeconfig, body, i + 1, sc, Pop(r.state));
    }
  }

  // A non-last attempt ends the test exactly when some call made in it is exhausted,
  // at any depth; then it is the last thing the call does.
  lemma NonLastAttemptEndsTest(cfg: Config, h: Handle, o: Options, body: Command, i: nat, sc: Scope, s: State)
    requires i < o.maxAttempts - 1 && InAttempt(body, |sc.vars|, |sc.vars| + 1)
    requires StateBefore(cfg, h, o, body, i, sc, s).Some?
    ensures var si := StateBefore(cfg, h, o, body, i, sc, s).value;
      var r := RunAttempt(cfg, "", body, h, i, o.maxAttempts, i, sc, si);
      && (r.outcome == Exited <==> ExhaustedInAttempt(cfg, h, o, body, i, sc, s))
      && (r.outcome == Exited ==> UntilFrom(cfg, h, o, body, 0, sc, s) == Result(Exited, Pop(r.state)))
  {
    hide Eval, RunAttempt, StateBefore, Enter;
    var si := StateBefore(cfg, h, o, body, i, sc, s).value;
    AttemptExits(cfg, "", body, h, i, o.maxAttempts, i, sc, si);
    StartHoldsNewHelper(h, o, i, sc, si);
    EndsExactlyWhenExhausted(cfg, body, |sc.vars|, AttemptScope(h, o, i, sc, si), AttemptStart(h, o, i, sc, si));
    LoopReaches(cfg, h, o, body, i, sc, s);
  }

  lemma StartHoldsNewHelper(h: Handle, o: Options, i: nat, sc: Scope, s: State)
    requires i < o.maxAttempts - 1
    ensures RetryHelpersFrom(|sc.vars|, AttemptScope(h, o, i, sc, s), AttemptStart(h, o, i, sc, s))
    ensures AttemptStart(h, o, i, sc, s) == Entered("", Enter(s, h, i, o.maxAttempts, sc.path + [i]))
  {
  }
}
