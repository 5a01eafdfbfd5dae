/**
  KUBECONFIG under retries.  `withKubeconfig` restores the variable only on a
  normal return, so an attempt that panics out of an override leaves it set.
 */
module RetryKubeconfig {
  import opened Wrappers
  import opened RetryModel
  import opened RetryIsolation
  import opened RetryExhaustion

  // The non-empty overrides a callback can set.
  function Overrides(c: Command): set<string> {
    match c
    case Nop => {}
    case Do(_, _) => {}
    case Panic(_) => {}
    case Seq(first, second) => Overrides(first) + Overrides(second)
    case If(_, thn, els) => Overrides(thn) + Overrides(els)
    case With(_, k, body) => (if k == "" then {} else {k}) + Overrides(body)
    case UntilSuccess(_, _, body) => Overrides(body)
    case Attempt(_, body, after) => Overrides(body) + Overrides(after)
    case RetryFunction(_, k, body) => (if k == "" then {} else {k}) + Overrides(body)
  }

  // The variable stays among these values, and every command ran under one of them.
  ghost predicate StaysIn(ks: set<string>, s: State, s': State) {
    && GetKubeconfig(s') in ks
    && s.trace <= s'.trace
    && forall i :: |s.trace| <= i < |s'.trace| && s'.trace[i].Shelled? ==> s'.trace[i].kubeconfig in ks
  }

  lemma ActStaysIn(cfg: Config, act: Act, h: Handle, path: Path, ks: set<string>, s: State)
    requires GetKubeconfig(s) in ks
    ensures StaysIn(ks, s, Act1(cfg, act, h, path, s).state)
  {
    hide Emit, Fail;
    EmitLeavesKubeconfig(cfg, s, h);
    if act.Shell? {
      EmitLeavesKubeconfig(cfg, Record(s, Shelled(GetKubeconfig(s))), h);
    }
    FailLeavesKubeconfig(h);
  }

  lemma EmitLeavesKubeconfig(cfg: Config, s: State, h: Handle)
    ensures forall m :: Emit(cfg, s, h, m).kubeconfig == s.kubeconfig && Emit(cfg, s, h, m).trace == s.trace
  {
  }

  lemma FailLeavesKubeconfig(h: Handle)
    ensures forall s :: Fail(s, h).kubeconfig == s.kubeconfig && Fail(s, h).trace == s.trace
  {
  }

  lemma NotesLeaveKubeconfig(cfg: Config, s: State, h: Handle, used: Handle, attempt: nat, o: Options, m: Message)
    ensures var t := NoteFailedAttempt(cfg, s, h, attempt, o); t.kubeconfig == s.kubeconfig && t.trace == s.trace
    ensures var t := Succeed(cfg, s, h, used, attempt, o); t.kubeconfig == s.kubeconfig && t.trace == s.trace
    ensures var t := Exhausted(cfg, s, h, attempt, o).state; t.kubeconfig == s.kubeconfig && t.trace == s.trace
    ensures var t := Emit(cfg, s, h, m); t.kubeconfig == s.kubeconfig && t.trace == s.trace
    ensures var t := Flush(cfg, s, h); t.kubeconfig == s.kubeconfig && t.trace == s.trace && |t.live| == |s.live|
  {
  }

  lemma {:induction false} EvalStaysIn(cfg: Config, c: Command, ks: set<string>, sc: Scope, s: State)
    requires GetKubeconfig(s) in ks && Overrides(c) <= ks
    ensures StaysIn(ks, s, Eval(cfg, c, sc, s).state)
    decreases c, 0
  {
    hide Act1, EvalWith, UntilFrom, RunAttempt, RetryFrom;
    match c
    case Nop =>
    case Do(t, act) => ActStaysIn(cfg, act, HandleOf(sc, t), sc.path, ks, s);
    case Panic(value) =>
    case Seq(first, second) =>
      EvalStaysIn(cfg, first, ks, sc, s);
      var r := Eval(cfg, first, sc, s);
      if r.outcome == Returned {
        EvalStaysIn(cfg, second, ks, sc, r.state);
      }
    case If(query, thn, els) =>
      var s1 := Ask(cfg, query, sc, s).1;
      EvalStaysIn(cfg, thn, ks, sc, s1);
      EvalStaysIn(cfg, els, ks, sc, s1);
    case With(t, kubeconfig, body) =>
      EvalWithStaysIn(cfg, HandleOf(sc, t), kubeconfig, body, ks, sc, s);
    case UntilSuccess(t, options, body) =>
      UntilFromStaysIn(cfg, HandleOf(sc, t), options, body, 0, ks, sc, s);
    case Attempt(t, body, after) =>
      RunAttemptStaysIn(cfg, "", body, HandleOf(sc, t), 0, 1, 0, ks, sc, s);
      var r := RunAttempt(cfg, "", body, HandleOf(sc, t), 0, 1, 0, sc, s);
      if r.outcome == Returned {
        EvalStaysIn(cfg, after, ks, Bind(sc, |r.state.live|, 0), r.state);
      }
    case RetryFunction(t, kubeconfig, body) =>
      RetryFromStaysIn(cfg, HandleOf(sc, t), kubeconfig, body, 0, ks, sc, s);
  }

  lemma {:induction false} EvalWithStaysIn(cfg: Config, h: Handle, kubeconfig: string, body: Command,
                                           ks: set<string>, sc: Scope, s: State)
    requires GetKubeconfig(s) in ks && Overrides(body) <= ks && (kubeconfig != "" ==> kubeconfig in ks)
    ensures StaysIn(ks, s, EvalWith(cfg, h, kubeconfig, body, sc, s).state)
    decreases body, 1
  {
    hide Eval, FatalOn;
    if kubeconfig == "" {
      EvalStaysIn(cfg, body, ks, sc, s);
    } else {
      ActStaysIn(cfg, Fatal("could not set KUBECONFIG"), h, sc.path, ks, s);
      var s1 := s.(kubeconfig := Some(kubeconfig));
      EvalStaysIn(cfg, body, ks, sc, s1);
      ActStaysIn(cfg, Fatal("could not set KUBECONFIG"), h, sc.path, ks, Eval(cfg, body, sc, s1).state);
    }
  }

  lemma {:induction false} RunAttemptStaysIn(cfg: Config, kubeconfig: string, body: Command, parent: Handle,
                                             attempt: nat, maxAttempts: int, run: nat, ks: set<string>,
                                             sc: Scope, s: State)
    requires GetKubeconfig(s) in ks && Overrides(body) <= ks && (kubeconfig != "" ==> kubeconfig in ks)
    ensures StaysIn(ks, s, RunAttempt(cfg, kubeconfig, body, parent, attempt, maxAttempts, run, sc, s).state)
    decreases body, 2
  {
    hide EvalWith, Fail;
    var sc1 := Bind(sc, |s.live| + 1, run);
    var s1 := Enter(s, parent, attempt, maxAttempts, sc1.path);
    EvalWithStaysIn(cfg, |s1.live|, kubeconfig, body, ks, sc1, s1);
    FailLeavesKubeconfig(|s1.live|);
  }

  lemma {:induction false} UntilFromStaysIn(cfg: Config, h: Handle, o: Options, body: Command, i: nat,
                                            ks: set<string>, sc: Scope, s: State)
    requires GetKubeconfig(s) in ks && Overrides(body) <= ks
    ensures StaysIn(ks, s, UntilFrom(cfg, h, o, body, i, sc, s).state)
    decreases body, 3, o.maxAttempts - i
  {
    hide Eval, RunAttempt, NoteFailedAttempt, Succeed, Exhausted, HasFailed;
    if i >= o.maxAttempts {
    } else if i == o.maxAttempts - 1 {
      var sc1 := Bind(sc, h, i);
      var s1 := Record(s, Ran(sc1.path));
      EvalStaysIn(cfg, body, ks, sc1, s1);
      NotesLeaveKubeconfig(cfg, Eval(cfg, body, sc1, s1).state, h, h, i, o, MayBeFlaky);
    } else {
      RunAttemptStaysIn(cfg, "", body, h, i, o.maxAttempts, i, ks, sc, s);
      var r := RunAttempt(cfg, "", body, h, i, o.maxAttempts, i, sc, s);
      NotesLeaveKubeconfig(cfg, r.state, h, |r.state.live|, i, o, MayBeFlaky);
      NotesLeaveKubeconfig(cfg, Pop(r.state), h, h, i, o, MayBeFlaky);
      UntilFromStaysIn(cfg, h, o, body, i + 1, ks, sc, NoteFailedAttempt(cfg, Pop(r.state), h, i, o));
    }
  }

  lemma {:induction false} BeforeStaysIn(cfg: Config, h: Handle, o: Options, body: Command, i: nat,
                                         ks: set<string>, sc: Scope, s: State)
    requires GetKubeconfig(s) in ks && Overrides(body) <= ks && StateBefore(cfg, h, o, body, i, sc, s).Some?
    ensures GetKubeconfig(StateBefore(cfg, h, o, body, i, sc, s).value) in ks
  {
    hide RunAttempt, NoteFailedAttempt, HasFailed;
    if i > 0 {
      BeforeStaysIn(cfg, h, o, body, i - 1, ks, sc, s);
      var si := StateBefore(cfg, h, o, body, i - 1, sc, s).value;
      RunAttemptStaysIn(cfg, "", body, h, i - 1, o.maxAttempts, i - 1, ks, sc, si);
      var r := RunAttempt(cfg, "", body, h, i - 1, o.maxAttempts, i - 1, sc, si);
      NotesLeaveKubeconfig(cfg, Pop(r.state), h, h, i - 1, o, MayBeFlaky);
    }
  }

  lemma GiveUpStaysIn(cfg: Config, s: State, h: Handle, path: Path, ks: set<string>)
    requires GetKubeconfig(s) in ks && |s.live| > 0
    ensures StaysIn(ks, s, GiveUp(cfg, s, h, path).state)
  {
  }

  lemma {:induction false} RetryFromStaysIn(cfg: Config, h: Handle, kubeconfig: string, body: Command, i: nat,
                                            ks: set<string>, sc: Scope, s: State)
    requires i < RETRY_FUNCTION_ATTEMPTS
    requires GetKubeconfig(s) in ks && Overrides(body) <= ks && (kubeconfig != "" ==> kubeconfig in ks)
    ensures StaysIn(ks, s, RetryFrom(cfg, h, kubeconfig, body, i, sc, s).state)
    decreases body, 3, RETRY_FUNCTION_ATTEMPTS - i
  {
    hide RunAttempt, Rescued, GiveUp, HasFailed;
    RunAttemptStaysIn(cfg, kubeconfig, body, h, 0, 1, i, ks, sc, s);
    var r := RunAttempt(cfg, kubeconfig, body, h, 0, 1, i, sc, s);
    RescuedLeavesKubeconfig(cfg, r.state, h, i);
    GiveUpStaysIn(cfg, r.state, h, sc.path, ks);
    if i + 1 < RETRY_FUNCTION_ATTEMPTS {
      RetryFromStaysIn(cfg, h, kubeconfig, body, i + 1, ks, sc, Pop(r.state));
    }
  }

  lemma RescuedLeavesKubeconfig(cfg: Config, s: State, h: Handle, i: nat)
    requires |s.live| > 0
    ensures var s1 := Rescued(cfg, s, h, i).state; s1.kubeconfig == s.kubeconfig && s1.trace == s.trace
  {
  }

  // If every override inside carries k or the empty string, every shell command
  // of the body sees k, even after attempts that panicked out of an override.
  lemma BodySeesItsKubeconfig(cfg: Config, t: Var, k: string, body: Command, sc: Scope, s: State)
    requires k != "" && Overrides(body) <= {k}
    ensures var r := Eval(cfg, With(t, k, body), sc, s);
      forall i :: |s.trace| <= i < |r.state.trace| && r.state.trace[i].Shelled? ==> r.state.trace[i].kubeconfig == k
  {
    hide Eval, FatalOn;
    var h := HandleOf(sc, t);
    var s1 := s.(kubeconfig := Some(k));
    EvalStaysIn(cfg, body, {k}, sc, s1);
    var r := Eval(cfg, body, sc, s1);
    var e := GetKubeconfig(s);
    NoCommandIn(cfg, h, sc.path, s);
    NoCommandIn(cfg, h, sc.path, r.state);
    assert EvalWith(cfg, h, k, body, sc, s).state.trace == r.state.trace
        || EvalWith(cfg, h, k, body, sc, s) == FatalOn(cfg, s, h, sc.path, "could not set KUBECONFIG")
        || EvalWith(cfg, h, k, body, sc, s) == FatalOn(cfg, r.state, h, sc.path, "could not set KUBECONFIG");
    assert Eval(cfg, With(t, k, body), sc, s) == EvalWith(cfg, h, k, body, sc, s)
      by { WithIsEvalWith(cfg, t, k, body, sc, s); }
  }

  lemma WithIsEvalWith(cfg: Config, t: Var, k: string, body: Command, sc: Scope, s: State)
    ensures Eval(cfg, With(t, k, body), sc, s) == EvalWith(cfg, HandleOf(sc, t), k, body, sc, s)
  {
  }

  lemma NoCommandIn(cfg: Config, h: Handle, path: Path, s: State)
    ensures var tr := FatalOn(cfg, s, h, path, "could not set KUBECONFIG").state.trace;
      s.trace <= tr && forall i :: |s.trace| <= i < |tr| ==> !tr[i].Shelled?
  {
  }

  // ----- the bracket -----

  // Retrying happens under overrides only, or around callbacks without overrides.
  predicate Bracketed(c: Command) {
    match c
    case Nop => true
    case Do(_, _) => true
    case Panic(_) => true
    case Seq(first, second) => Bracketed(first) && Bracketed(second)
    case If(_, thn, els) => Bracketed(thn) && Bracketed(els)
    case With(_, k, body) => k != "" || Bracketed(body)
    case UntilSuccess(_, o, body) => if o.maxAttempts <= 1 then Bracketed(body) else Overrides(body) == {}
    case Attempt(_, body, after) => Overrides(body) == {} && Bracketed(after)
    case RetryFunction(_, k, body) => k == "" && Overrides(body) == {}
  }

  // Such a callback leaves the variable as it found it whenever it returns, with
  // unset and empty identified as getenv does.
  lemma {:induction false} BracketedRestores(cfg: Config, c: Command, sc: Scope, s: State)
    requires Bracketed(c) && Eval(cfg, c, sc, s).outcome == Returned
    ensures GetKubeconfig(Eval(cfg, c, sc, s).state) == GetKubeconfig(s)
  {
    hide Act1, RunAttempt, RetryFrom, Succeed, Exhausted, NoteFailedAttempt;
    match c
    case Nop =>
    case Do(t, act) => EvalStaysIn(cfg, c, {GetKubeconfig(s)}, sc, s);
    case Panic(value) =>
    case Seq(first, second) =>
      BracketedRestores(cfg, first, sc, s);
      BracketedRestores(cfg, second, sc, Eval(cfg, first, sc, s).state);
    case If(query, thn, els) =>
      var (answer, s1) := Ask(cfg, query, sc, s);
      BracketedRestores(cfg, if answer then thn else els, sc, s1);
    case With(t, kubeconfig, body) =>
      if kubeconfig == "" {
        BracketedRestores(cfg, body, sc, s);
      }
    case UntilSuccess(t, o, body) =>
      if o.maxAttempts == 1 {
        var h := HandleOf(sc, t);
        var sc1 := Bind(sc, h, 0);
        var s1 := Record(s, Ran(sc1.path));
        BracketedRestores(cfg, body, sc1, s1);
        NotesLeaveKubeconfig(cfg, Eval(cfg, body, sc1, s1).state, h, h, 0, o, MayBeFlaky);
      } else if o.maxAttempts > 1 {
        EvalStaysIn(cfg, c, {GetKubeconfig(s)}, sc, s);
      }
    case Attempt(t, body, after) =>
      var h := HandleOf(sc, t);
      RunAttemptStaysIn(cfg, "", body, h, 0, 1, 0, {GetKubeconfig(s)}, sc, s);
      var r := RunAttempt(cfg, "", body, h, 0, 1, 0, sc, s);
      BracketedRestores(cfg, after, Bind(sc, |r.state.live|, 0), r.state);
    case RetryFunction(t, kubeconfig, body) =>
      EvalStaysIn(cfg, c, {GetKubeconfig(s)}, sc, s);
  }

  // The bracket restores what getenv sees, not whether the variable is set: after a
  // normal return it always is, so that an unset variable becomes an empty one.
  lemma UnsetBecomesEmpty(cfg: Config, t: Var, k: string, body: Command, sc: Scope, s: State)
    requires k != "" && Eval(cfg, With(t, k, body), sc, s).outcome == Returned
    ensures var k1 := Eval(cfg, With(t, k, body), sc, s).state.kubeconfig;
      match s.kubeconfig case None => k1 == Some("") case Some(v) => k1 == Some(v)
    ensures Eval(cfg, With(t, k, body), sc, s).state.kubeconfig == s.kubeconfig <==> s.kubeconfig.Some?
  {
    hide Eval, FatalOn;
    FatalNeverReturns(cfg, s, HandleOf(sc, t), sc.path, "could not set KUBECONFIG");
    WithIsEvalWith(cfg, t, k, body, sc, s);
    var r := Eval(cfg, body, sc, Entered(k, s));
    FatalNeverReturns(cfg, r.state, HandleOf(sc, t), sc.path, "could not set KUBECONFIG");
  }

  // A value with a NUL byte is refused before the callback runs.
  lemma NulIsRefused(cfg: Config, t: Var, k: string, body: Command, sc: Scope, s: State)
    requires '\0' in k && HandleOf(sc, t) <= |s.live|
    ensures var r := Eval(cfg, With(t, k, body), sc, s);
      && r.outcome == FailExit(s, HandleOf(sc, t)) && r.state.kubeconfig == s.kubeconfig
      && forall i :: |s.trace| <= i < |r.state.trace| ==> r.state.trace[i].Said? || r.state.trace[i].Raised?
  {
    hide Emit;
    WithIsEvalWith(cfg, t, k, body, sc, s);
    hide Eval;
    FatalReports(cfg, s, HandleOf(sc, t), sc.path, "could not set KUBECONFIG");
    EmitLeavesKubeconfig(cfg, s, HandleOf(sc, t));
  }

  lemma FatalNeverReturns(cfg: Config, s: State, h: Handle, path: Path, text: string)
    ensures FatalOn(cfg, s, h, path, text).outcome != Returned
  {
  }

  // ----- retryFunction: exactly when it restores -----

  // Every attempt that retryFunction makes is left by a normal return.
  ghost predicate AttemptsReturn(cfg: Config, h: Handle, k: string, body: Command, from: nat, sc: Scope, s: State) {
    forall i: nat ::
      && from <= i < RETRY_FUNCTION_ATTEMPTS
      && RetryStateBefore(cfg, h, k, body, i, sc, s).Some?
      ==> RetryResult(cfg, h, k, body, i, sc, RetryStateBefore(cfg, h, k, body, i, sc, s).value).outcome == Returned
  }

  // The callback of attempt i, started in this state.
  function RetryResult(cfg: Config, h: Handle, k: string, body: Command, i: nat, sc: Scope, s: State): Result {
    Eval(cfg, body, RetryScope(i, sc, s), RetryStart(h, k, i, sc, s))
  }

  // An attempt that returns restores the variable; one that is left in another way
  // leaves the override in force.
  lemma AttemptRestores(cfg: Config, h: Handle, k: string, body: Command, i: nat, sc: Scope, s: State)
    requires k != "" && CanSet(k) && CanSet(GetKubeconfig(s)) && Overrides(body) <= {k}
    ensures var r := RunAttempt(cfg, k, body, h, 0, 1, i, sc, s);
      if RetryResult(cfg, h, k, body, i, sc, s).outcome == Returned
      then r.outcome == Returned && GetKubeconfig(r.state) == GetKubeconfig(s)
      else GetKubeconfig(r.state) == k
  {
    hide Eval, Enter, RunAttempt;
    EvalStaysIn(cfg, body, {k}, RetryScope(i, sc, s), RetryStart(h, k, i, sc, s));
    var r := RetryResult(cfg, h, k, body, i, sc, s);
    if r.outcome == Returned {
      ReturnedAttempt(cfg, k, body, h, 0, 1, i, sc, s);
    } else {
      UnreturnedAttempt(cfg, k, body, h, 0, 1, i, sc, s);
      hide Fail;
      FailLeavesKubeconfig(|r.state.live|);
    }
  }

  lemma GiveUpLeavesKubeconfig(cfg: Config, s: State, h: Handle, path: Path)
    requires |s.live| > 0
    ensures GetKubeconfig(GiveUp(cfg, s, h, path).state) == GetKubeconfig(s)
  {
    GiveUpStaysIn(cfg, s, h, path, {GetKubeconfig(s)});
  }

  lemma FirstAndLater(cfg: Config, h: Handle, k: string, body: Command, i: nat, sc: Scope, s: State)
    requires i < RETRY_FUNCTION_ATTEMPTS && RetryStateBefore(cfg, h, k, body, i, sc, s).Some?
    ensures AttemptsReturn(cfg, h, k, body, i, sc, s)
       <==> RetryResult(cfg, h, k, body, i, sc, RetryStateBefore(cfg, h, k, body, i, sc, s).value).outcome == Returned
            && AttemptsReturn(cfg, h, k, body, i + 1, sc, s)
  {
    hide RetryStateBefore, RetryResult;
  }

  lemma NextState(cfg: Config, h: Handle, k: string, body: Command, i: nat, sc: Scope, s: State)
    requires RetryStateBefore(cfg, h, k, body, i, sc, s).Some?
    ensures var r := RunAttempt(cfg, k, body, h, 0, 1, i, sc, RetryStateBefore(cfg, h, k, body, i, sc, s).value);
      RetryStateBefore(cfg, h, k, body, i + 1, sc, s)
      == if r.outcome == Returned && HasFailed(r.state, |r.state.live|) then Some(Pop(r.state)) else None
  {
    hide RunAttempt, HasFailed;
  }

  lemma {:induction false} RestoresFrom(cfg: Config, h: Handle, k: string, body: Command, i: nat, sc: Scope, s: State)
    requires k != "" && CanSet(k) && CanSet(GetKubeconfig(s)) && Overrides(body) <= {k}
    requires i < RETRY_FUNCTION_ATTEMPTS && RetryStateBefore(cfg, h, k, body, i, sc, s).Some?
    requires GetKubeconfig(RetryStateBefore(cfg, h, k, body, i, sc, s).value) == GetKubeconfig(s) != k
    ensures GetKubeconfig(RetryFrom(cfg, h, k, body, i, sc, RetryStateBefore(cfg, h, k, body, i, sc, s).value).state)
            == GetKubeconfig(s)
       <==> AttemptsReturn(cfg, h, k, body, i, sc, s)
    decreases RETRY_FUNCTION_ATTEMPTS - i
  {
    hide RunAttempt, Rescued, GiveUp, HasFailed, RetryResult, RetryStateBefore, AttemptsReturn;
    var si := RetryStateBefore(cfg, h, k, body, i, sc, s).value;
    var r := RunAttempt(cfg, k, body, h, 0, 1, i, sc, si);
    AttemptRestores(cfg, h, k, body, i, sc, si);
    RescuedLeavesKubeconfig(cfg, r.state, h, i);
    GiveUpLeavesKubeconfig(cfg, r.state, h, sc.path);
    FirstAndLater(cfg, h, k, body, i, sc, s);
    NextState(cfg, h, k, body, i, sc, s);
    if RetryResult(cfg, h, k, body, i, sc, si).outcome != Returned {
      if i + 1 < RETRY_FUNCTION_ATTEMPTS {
        RetryFromStaysIn(cfg, h, k, body, i + 1, {k}, sc, Pop(r.state));
      }
    } else if !HasFailed(r.state, |r.state.live|) {
      NoAttemptLater(cfg, h, k, body, i + 1, sc, s);
    } else if i + 1 < RETRY_FUNCTION_ATTEMPTS {
      RestoresFrom(cfg, h, k, body, i + 1, sc, s);
    } else {
      NoneAfterLast(cfg, h, k, body, sc, s);
    }
  }

  lemma NoneAfterLast(cfg: Config, h: Handle, k: string, body: Command, sc: Scope, s: State)
    ensures AttemptsReturn(cfg, h, k, body, RETRY_FUNCTION_ATTEMPTS, sc, s)
  {
  }

  lemma {:induction false} NoAttemptLater(cfg: Config, h: Handle, k: string, body: Command, i: nat, sc: Scope, s: State)
    requires RetryStateBefore(cfg, h, k, body, i, sc, s).None?
    ensures AttemptsReturn(cfg, h, k, body, i, sc, s)
    decreases RETRY_FUNCTION_ATTEMPTS - i
  {
    hide RunAttempt, HasFailed, RetryResult;
    if i < RETRY_FUNCTION_ATTEMPTS {
      NoAttemptLater(cfg, h, k, body, i + 1, sc, s);
    }
  }

  // With a callback that sets no other override, retryFunction leaves KUBECONFIG as
  // it was exactly when all its attempts return, or when the override changes nothing.
  lemma RetryFunctionRestoresExactly(cfg: Config, h: Handle, k: string, body: Command, sc: Scope, s: State)
    requires k != "" && CanSet(k) && CanSet(GetKubeconfig(s)) && Overrides(body) <= {k}
    ensures GetKubeconfig(RetryFrom(cfg, h, k, body, 0, sc, s).state) == GetKubeconfig(s)
       <==> GetKubeconfig(s) == k || AttemptsReturn(cfg, h, k, body, 0, sc, s)
  {
    hide RetryFrom, AttemptsReturn;
    if GetKubeconfig(s) == k {
      RetryFromStaysIn(cfg, h, k, body, 0, {k}, sc, s);
    } else {
      RestoresFrom(cfg, h, k, body, 0, sc, s);
    }
  }
}
