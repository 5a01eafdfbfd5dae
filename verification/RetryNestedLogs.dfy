/**
  What a failed attempt leaves in the test log when failed attempts are not logged.
  Nothing, if there is no retrying inside; but a nested call that succeeds flushes the
  buffer of the helper it used at once, whatever happens to the enclosing attempt.
 */
module RetryNestedLogs {
  import opened Wrappers
  import opened RetryModel
  import opened RetryHistory
  import opened RetryIsolation
  import opened RetryLogs
  import opened RetryExhaustion

  // Messages are sent through overridden methods only, by the callback or on its
  // behalf, and only on helpers in variables from low on.
  predicate Buffered(c: Command, low: Var, depth: nat) {
    match c
    case Nop => true
    case Do(t, act) => low <= t < depth && !act.LogStep?
    case Panic(_) => true
    case Seq(first, second) => Buffered(first, low, depth) && Buffered(second, low, depth)
    case If(_, thn, els) => Buffered(thn, low, depth) && Buffered(els, low, depth)
    case With(t, _, body) => low <= t < depth && Buffered(body, low, depth)
    case UntilSuccess(t, _, body) => low <= t < depth && Buffered(body, low, depth + 1)
    case Attempt(_, body, after) => Buffered(body, low, depth + 1) && Buffered(after, low, depth + 1)
    case RetryFunction(_, _, _) => false
  }

  // The call made from s is decided by attempt i, which succeeds on a helper whose
  // buffer is not empty.
  ghost predicate FlushesAt(cfg: Config, h: Handle, o: Options, body: Command, i: nat, sc: Scope, s: State) {
    && i < o.maxAttempts
    && StateBefore(cfg, h, o, body, i, sc, s).Some?
    && var si := StateBefore(cfg, h, o, body, i, sc, s).value;
       var r := AttemptResult(cfg, h, o, body, i, sc, si);
       var used := if i == o.maxAttempts - 1 then h else |si.live| + 1;
       && r.outcome == Returned && IsRetry(r.state, used) && !HasFailed(r.state, used)
       && r.state.live[used - 1].buffer != []
  }

  // Some call that running c from s makes succeeds with messages in the buffer.
  ghost predicate SomeCallFlushes(cfg: Config, c: Command, sc: Scope, s: State) {
    match c
    case Nop => false
    case Do(_, _) => false
    case Panic(_) => false
    case Seq(first, second) =>
      || SomeCallFlushes(cfg, first, sc, s)
      || (var r := Eval(cfg, first, sc, s);
          r.outcome == Returned && SomeCallFlushes(cfg, second, sc, r.state))
    case If(query, thn, els) =>
      var (answer, s1) := Ask(cfg, query, sc, s);
      if answer then SomeCallFlushes(cfg, thn, sc, s1) else SomeCallFlushes(cfg, els, sc, s1)
    case With(t, kubeconfig, body) =>
      CanSet(kubeconfig) && SomeCallFlushes(cfg, body, sc, Entered(kubeconfig, s))
    case UntilSuccess(t, o, body) =>
      var h := HandleOf(sc, t);
      exists i: nat ::
        && i < o.maxAttempts
        && StateBefore(cfg, h, o, body, i, sc, s).Some?
        && var si := StateBefore(cfg, h, o, body, i, sc, s).value;
           || FlushesAt(cfg, h, o, body, i, sc, s)
           || SomeCallFlushes(cfg, body, AttemptScope(h, o, i, sc, si), AttemptStart(h, o, i, sc, si))
    case Attempt(t, body, after) =>
      || SomeCallFlushes(cfg, body, RetryScope(0, sc, s), RetryStart(HandleOf(sc, t), "", 0, sc, s))
      || (var r := RunAttempt(cfg, "", body, HandleOf(sc, t), 0, 1, 0, sc, s);
          r.outcome == Returned && SomeCallFlushes(cfg, after, Bind(sc, |r.state.live|, 0), r.state))
    case RetryFunction(_, _, _) => false
  }

  // In attempt i, if it is made.
  ghost predicate LoudAt(cfg: Config, h: Handle, o: Options, body: Command, i: nat, sc: Scope, s: State) {
    && i < o.maxAttempts
    && StateBefore(cfg, h, o, body, i, sc, s).Some?
    && var si := StateBefore(cfg, h, o, body, i, sc, s).value;
       || FlushesAt(cfg, h, o, body, i, sc, s)
       || SomeCallFlushes(cfg, body, AttemptScope(h, o, i, sc, si), AttemptStart(h, o, i, sc, si))
  }

  lemma SomeAttemptIsLoud(cfg: Config, t: Var, o: Options, body: Command, sc: Scope, s: State)
    requires SomeCallFlushes(cfg, UntilSuccess(t, o, body), sc, s)
    ensures exists i: nat :: LoudAt(cfg, HandleOf(sc, t), o, body, i, sc, s)
  {
    hide FlushesAt;
    var h := HandleOf(sc, t);
    var i: nat :|
      && i < o.maxAttempts
      && StateBefore(cfg, h, o, body, i, sc, s).Some?
      && var si := StateBefore(cfg, h, o, body, i, sc, s).value;
         || FlushesAt(cfg, h, o, body, i, sc, s)
         || SomeCallFlushes(cfg, body, AttemptScope(h, o, i, sc, si), AttemptStart(h, o, i, sc, si));
    assert LoudAt(cfg, h, o, body, i, sc, s);
  }

  lemma LoudAttempt(cfg: Config, t: Var, o: Options, body: Command, i: nat, sc: Scope, s: State)
    requires LoudAt(cfg, HandleOf(sc, t), o, body, i, sc, s)
    ensures SomeCallFlushes(cfg, UntilSuccess(t, o, body), sc, s)
  {
    hide FlushesAt;
  }

  // ----- the steps of the callback -----

  lemma FatalIsBuffered(cfg: Config, s: State, h: Handle, path: Path, text: string)
    requires !cfg.logFailed && IsRetry(s, h)
    ensures FatalOn(cfg, s, h, path, text).state.log == s.log
  {
  }

  lemma ActIsBuffered(cfg: Config, act: Act, h: Handle, path: Path, s: State)
    requires !cfg.logFailed && IsRetry(s, h) && !act.LogStep?
    ensures Act1(cfg, act, h, path, s).state.log == s.log
  {
    hide FatalOn;
    FatalIsBuffered(cfg, Record(s, Shelled(GetKubeconfig(s))), h, path, "Command failed");
    if act.Fatal? {
      FatalIsBuffered(cfg, s, h, path, act.text);
    }
  }

  // withKubeconfig adds nothing to what its callback prints.
  lemma WithIsBuffered(cfg: Config, h: Handle, kubeconfig: string, body: Command, sc: Scope, s: State)
    requires !cfg.logFailed && IsRetry(s, h)
    ensures EvalWith(cfg, h, kubeconfig, body, sc, s).state.log
         == if CanSet(kubeconfig) then Eval(cfg, body, sc, Entered(kubeconfig, s)).state.log else s.log
  {
    hide Eval, FatalOn;
    FatalIsBuffered(cfg, s, h, sc.path, "could not set KUBECONFIG");
    FatalIsBuffered(cfg, Eval(cfg, body, sc, Entered(kubeconfig, s)).state, h, sc.path, "could not set KUBECONFIG");
  }

  lemma RecoverIsSilent(r: Result)
    ensures Recover(r).state.log == r.state.log
  {
  }

  // After the attempt that decides the call, only the buffer of the helper used is
  // printed: warnings go to the buffer of the enclosing attempt.
  lemma SucceedFlushes(cfg: Config, s: State, h: Handle, used: Handle, i: nat, o: Options)
    requires !cfg.logFailed && IsRetry(s, h) && IsRetry(s, used)
    ensures Succeed(cfg, s, h, used, i, o).log == s.log + Lines(s.live[used - 1].step > 0, s.live[used - 1].buffer)
  {
  }

  lemma ExhaustedIsSilent(cfg: Config, s: State, h: Handle, i: nat, o: Options)
    requires !cfg.logFailed
    ensures NoteFailedAttempt(cfg, s, h, i, o) == s
    ensures Exhausted(cfg, s, h, i, o).state.log == s.log
  {
  }

  // ----- the loop -----

  // Something is printed in attempt i, if it is made.
  ghost predicate PrintsAt(cfg: Config, h: Handle, o: Options, body: Command, i: nat, sc: Scope, s: State) {
    && i < o.maxAttempts
    && StateBefore(cfg, h, o, body, i, sc, s).Some?
    && var si := StateBefore(cfg, h, o, body, i, sc, s).value;
       || FlushesAt(cfg, h, o, body, i, sc, s)
       || AttemptResult(cfg, h, o, body, i, sc, si).state.log != si.log
  }

  // The log of one turn: what the attempt prints, and what a success flushes.
  ghost function TurnLog(cfg: Config, h: Handle, o: Options, body: Command, i: nat, sc: Scope, s: State): seq<Line> {
    var r := AttemptResult(cfg, h, o, body, i, sc, s);
    var used := if i == o.maxAttempts - 1 then h else |s.live| + 1;
    if r.outcome == Returned && IsRetry(r.state, used) && !HasFailed(r.state, used)
    then r.state.log + Lines(r.state.live[used - 1].step > 0, r.state.live[used - 1].buffer)
    else r.state.log
  }

  lemma TurnPrints(cfg: Config, h: Handle, o: Options, body: Command, i: nat, sc: Scope, s: State)
    requires i < o.maxAttempts && StateBefore(cfg, h, o, body, i, sc, s).Some?
    ensures var si := StateBefore(cfg, h, o, body, i, sc, s).value;
      && si.log <= TurnLog(cfg, h, o, body, i, sc, si)
      && (TurnLog(cfg, h, o, body, i, sc, si) != si.log <==> PrintsAt(cfg, h, o, body, i, sc, s))
  {
    hide Eval, StateBefore, Extends, Lines;
    var si := StateBefore(cfg, h, o, body, i, sc, s).value;
    AttemptExtends(cfg, h, o, body, i, sc, si);
    var r := AttemptResult(cfg, h, o, body, i, sc, si);
    LongerLog(si.log, r.state.log, TurnLog(cfg, h, o, body, i, sc, si));
  }

  lemma AttemptExtends(cfg: Config, h: Handle, o: Options, body: Command, i: nat, sc: Scope, s: State)
    ensures s.log <= AttemptResult(cfg, h, o, body, i, sc, s).state.log
  {
    hide Eval;
    EvalExtends(cfg, body, AttemptScope(h, o, i, sc, s), AttemptStart(h, o, i, sc, s));
  }

  lemma LongerLog(a: seq<Line>, b: seq<Line>, c: seq<Line>)
    requires a <= b <= c
    ensures a <= c && (a == c <==> a == b && b == c)
  {
  }

  // The rest of a call on a retry helper, from attempt i on.
  lemma TurnOfLoop(cfg: Config, h: Handle, o: Options, body: Command, i: nat, sc: Scope, s: State)
    requires !cfg.logFailed && IsRetry(s, h) && i < o.maxAttempts && StateBefore(cfg, h, o, body, i, sc, s).Some?
    ensures var si := StateBefore(cfg, h, o, body, i, sc, s).value;
      var next := StateBefore(cfg, h, o, body, i + 1, sc, s);
      var r := UntilFrom(cfg, h, o, body, i, sc, si);
      if i < o.maxAttempts - 1 && next.Some?
      then next.value.log == TurnLog(cfg, h, o, body, i, sc, si)
           && r == UntilFrom(cfg, h, o, body, i + 1, sc, next.value)
      else r.state.log == TurnLog(cfg, h, o, body, i, sc, si)
  {
    hide Eval, RunAttempt, NoteFailedAttempt, Succeed, Exhausted, Lines;
    var si := StateBefore(cfg, h, o, body, i, sc, s).value;
    var r := AttemptResult(cfg, h, o, body, i, sc, si);
    if i < o.maxAttempts - 1 {
      AttemptIsCallback(cfg, h, o, body, i, sc, si);
      RecoverIsSilent(r);
      var r1 := RunAttempt(cfg, "", body, h, i, o.maxAttempts, i, sc, si);
      ExhaustedIsSilent(cfg, Pop(r1.state), h, i, o);
      SucceedFlushes(cfg, r1.state, h, |si.live| + 1, i, o);
    } else {
      ExhaustedIsSilent(cfg, r.state, h, i, o);
      SucceedFlushes(cfg, r.state, h, h, i, o);
    }
  }

  lemma {:induction false} LoopPrints(cfg: Config, h: Handle, o: Options, body: Command, i: nat, sc: Scope, s: State)
    requires !cfg.logFailed && IsRetry(s, h) && i < o.maxAttempts && StateBefore(cfg, h, o, body, i, sc, s).Some?
    ensures var si := StateBefore(cfg, h, o, body, i, sc, s).value;
      var r := UntilFrom(cfg, h, o, body, i, sc, si);
      && si.log <= r.state.log
      && (r.state.log != si.log <==> exists j: nat :: i <= j && PrintsAt(cfg, h, o, body, j, sc, s))
    decreases o.maxAttempts - i
  {
    hide StateBefore, UntilFrom, TurnLog, PrintsAt;
    var si := StateBefore(cfg, h, o, body, i, sc, s).value;
    var next := StateBefore(cfg, h, o, body, i + 1, sc, s);
    TurnOfLoop(cfg, h, o, body, i, sc, s);
    TurnPrints(cfg, h, o, body, i, sc, s);
    if i < o.maxAttempts - 1 && next.Some? {
      LoopPrints(cfg, h, o, body, i + 1, sc, s);
      LongerLog(si.log, next.value.log, UntilFrom(cfg, h, o, body, i, sc, si).state.log);
    } else {
      NothingLater(cfg, h, o, body, i + 1, sc, s);
    }
  }

  lemma {:induction false} NothingLater(cfg: Config, h: Handle, o: Options, body: Command, i: nat, sc: Scope, s: State)
    requires i >= o.maxAttempts || StateBefore(cfg, h, o, body, i, sc, s).None?
    ensures forall j: nat :: i <= j ==> !PrintsAt(cfg, h, o, body, j, sc, s)
    decreases o.maxAttempts - i
  {
    hide RunAttempt, NoteFailedAttempt, HasFailed, AttemptResult, FlushesAt;
    if i < o.maxAttempts {
      NothingLater(cfg, h, o, body, i + 1, sc, s);
      assert !PrintsAt(cfg, h, o, body, i, sc, s);
    }
  }

  // ----- the induction -----

  // A callback inside an attempt prints something exactly when a call made in it
  // succeeds with messages in the buffer of the helper it used.
  lemma {:induction false} PrintsExactlyWhenFlushed(cfg: Config, c: Command, low: Var, sc: Scope, s: State)
    requires !cfg.logFailed && Buffered(c, low, |sc.vars|) && RetryHelpersFrom(low, sc, s)
    ensures Eval(cfg, c, sc, s).state.log != s.log <==> SomeCallFlushes(cfg, c, sc, s)
    decreases c, 1
  {
    hide Act1, EvalWith, UntilFrom, RunAttempt, StateBefore, Extends;
    match c
    case Nop =>
    case Do(t, act) => ActIsBuffered(cfg, act, HandleOf(sc, t), sc.path, s);
    case Panic(value) =>
    case Seq(first, second) =>
      PrintsExactlyWhenFlushed(cfg, first, low, sc, s);
      var r := Eval(cfg, first, sc, s);
      if r.outcome == Returned {
        PrintsExactlyWhenFlushed(cfg, second, low, sc, r.state);
        LogGrows(cfg, first, sc, s);
        LogGrows(cfg, second, sc, r.state);
        LongerLog(s.log, r.state.log, Eval(cfg, second, sc, r.state).state.log);
      }
    case If(query, thn, els) =>
      var (answer, s1) := Ask(cfg, query, sc, s);
      PrintsExactlyWhenFlushed(cfg, if answer then thn else els, low, sc, s1);
    case With(t, kubeconfig, body) =>
      WithIsBuffered(cfg, HandleOf(sc, t), kubeconfig, body, sc, s);
      PrintsExactlyWhenFlushed(cfg, body, low, sc, Entered(kubeconfig, s));
    case UntilSuccess(t, o, body) =>
      CallPrints(cfg, t, o, body, low, sc, s);
    case Attempt(_, _, _) =>
      AttemptThenPrints(cfg, c, low, sc, s);
  }

  lemma LogGrows(cfg: Config, c: Command, sc: Scope, s: State)
    ensures s.log <= Eval(cfg, c, sc, s).state.log
  {
    hide Eval;
    EvalExtends(cfg, c, sc, s);
  }

  // An attempt prints what its callback prints.
  lemma AttemptIsBuffered(cfg: Config, h: Handle, body: Command, attempt: nat, maxAttempts: int, run: nat,
                          sc: Scope, s: State)
    ensures RunAttempt(cfg, "", body, h, attempt, maxAttempts, run, sc, s).state.log
         == Eval(cfg, body, RetryScope(run, sc, s), Enter(s, h, attempt, maxAttempts, sc.path + [run])).state.log
  {
    hide Eval, Fail;
    var r := Eval(cfg, body, RetryScope(run, sc, s), Enter(s, h, attempt, maxAttempts, sc.path + [run]));
    FailIsQuiet(r.state, |r.state.live|);
  }

  lemma FailIsQuiet(s: State, h: Handle)
    ensures Fail(s, h).log == s.log
  {
  }

  lemma {:induction false} AttemptThenPrints(cfg: Config, c: Command, low: Var, sc: Scope, s: State)
    requires !cfg.logFailed && c.Attempt? && Buffered(c, low, |sc.vars|) && RetryHelpersFrom(low, sc, s)
    ensures Eval(cfg, c, sc, s).state.log != s.log <==> SomeCallFlushes(cfg, c, sc, s)
    decreases c, 0
  {
    hide RunAttempt, Enter;
    var h := HandleOf(sc, c.t);
    AttemptIsBuffered(cfg, h, c.body, 0, 1, 0, sc, s);
    NewHelperHeld(low, h, 0, 1, 0, sc, s);
    PrintsExactlyWhenFlushed(cfg, c.body, low, RetryScope(0, sc, s), RetryStart(h, "", 0, sc, s));
    LogGrows(cfg, c.body, RetryScope(0, sc, s), RetryStart(h, "", 0, sc, s));
    var r := RunAttempt(cfg, "", c.body, h, 0, 1, 0, sc, s);
    if r.outcome == Returned {
      var sc1 := Bind(sc, |r.state.live|, 0);
      PrintsExactlyWhenFlushed(cfg, c.after, low, sc1, r.state);
      LogGrows(cfg, c.after, sc1, r.state);
      LongerLog(s.log, r.state.log, Eval(cfg, c.after, sc1, r.state).state.log);
    }
  }

  lemma NewHelperHeld(low: Var, h: Handle, attempt: nat, maxAttempts: int, run: nat, sc: Scope, s: State)
    requires RetryHelpersFrom(low, sc, s)
    ensures var s1 := Enter(s, h, attempt, maxAttempts, sc.path + [run]);
      RetryHelpersFrom(low, RetryScope(run, sc, s), s1) && s1.log == s.log
  {
  }

  lemma {:induction false} CallPrints(cfg: Config, t: Var, o: Options, body: Command, low: Var, sc: Scope, s: State)
    requires !cfg.logFailed && low <= t < |sc.vars| && Buffered(body, low, |sc.vars| + 1)
      && RetryHelpersFrom(low, sc, s)
    ensures UntilFrom(cfg, sc.vars[t], o, body, 0, sc, s).state.log != s.log
       <==> SomeCallFlushes(cfg, UntilSuccess(t, o, body), sc, s)
    decreases body, 3
  {
    hide Eval, UntilFrom, StateBefore, PrintsAt, LoudAt, SomeCallFlushes;
    var h := sc.vars[t];
    forall i: nat ensures PrintsAt(cfg, h, o, body, i, sc, s) <==> LoudAt(cfg, h, o, body, i, sc, s) {
      AttemptPrints(cfg, t, o, body, i, low, sc, s);
    }
    if o.maxAttempts > 0 {
      FirstState(cfg, h, o, body, sc, s);
      LoopPrints(cfg, h, o, body, 0, sc, s);
    } else {
      NoTurns(cfg, h, o, body, sc, s);
    }
    if SomeCallFlushes(cfg, UntilSuccess(t, o, body), sc, s) {
      SomeAttemptIsLoud(cfg, t, o, body, sc, s);
    } else if i: nat :| LoudAt(cfg, h, o, body, i, sc, s) {
      LoudAttempt(cfg, t, o, body, i, sc, s);
    }
  }

  lemma FirstState(cfg: Config, h: Handle, o: Options, body: Command, sc: Scope, s: State)
    ensures StateBefore(cfg, h, o, body, 0, sc, s) == Some(s)
  {
  }

  lemma NoTurns(cfg: Config, h: Handle, o: Options, body: Command, sc: Scope, s: State)
    requires o.maxAttempts <= 0
    ensures UntilFrom(cfg, h, o, body, 0, sc, s).state.log == s.log
    ensures forall i: nat :: !LoudAt(cfg, h, o, body, i, sc, s)
  {
  }

  lemma {:induction false} AttemptPrints(cfg: Config, t: Var, o: Options, body: Command, i: nat,
                                         low: Var, sc: Scope, s: State)
    requires !cfg.logFailed && low <= t < |sc.vars| && Buffered(body, low, |sc.vars| + 1)
      && RetryHelpersFrom(low, sc, s)
    ensures PrintsAt(cfg, sc.vars[t], o, body, i, sc, s) <==> LoudAt(cfg, sc.vars[t], o, body, i, sc, s)
    decreases body, 2
  {
    hide Eval, StateBefore, FlushesAt;
    var h := sc.vars[t];
    if i < o.maxAttempts && StateBefore(cfg, h, o, body, i, sc, s).Some? {
      var si := StateBefore(cfg, h, o, body, i, sc, s).value;
      PrintsExactlyWhenFlushed(cfg, body, low, AttemptScope(h, o, i, sc, si), AttemptStart(h, o, i, sc, si));
    }
  }

  // ----- the unnested call -----

  // A non-last attempt of a call on the test's own helper prints nothing while it runs,
  // so that its messages are lost with it if it fails, exactly when no call made in it
  // succeeds with messages in the buffer.
  lemma FailedAttemptIsSilentExactly(cfg: Config, o: Options, body: Command, i: nat, sc: Scope, s: State)
    requires !cfg.logFailed && Buffered(body, |sc.vars|, |sc.vars| + 1) && i < o.maxAttempts - 1
    ensures var r := RunAttempt(cfg, "", body, 0, i, o.maxAttempts, i, sc, s);
      r.state.log == s.log <==> !SomeCallFlushes(cfg, body, AttemptScope(0, o, i, sc, s), AttemptStart(0, o, i, sc, s))
  {
    hide Eval, RunAttempt;
    AttemptIsBuffered(cfg, 0, body, i, o.maxAttempts, i, sc, s);
    StartHoldsNewHelper(0, o, i, sc, s);
    PrintsExactlyWhenFlushed(cfg, body, |sc.vars|, AttemptScope(0, o, i, sc, s), AttemptStart(0, o, i, sc, s));
  }
}
