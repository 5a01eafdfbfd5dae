/**
  `ApplyString` and the calls around it.  The callbacks of `retryFunction` use the
  helper of its caller, so that a failed command fails that helper: repeating the
  command does not undo the failure, and a nested call around it can end the test.
 */
module RetryApplyString {
  import opened Wrappers
  import opened RetryModel
  import opened RetryHistory
  import opened RetryIsolation
  import opened RetryWork
  import opened RetryLogs
  import opened RetryExhaustion
  import opened RetryKubeconfig

  // Once the caller's helper has failed in an attempt, no later attempt undoes it.
  lemma RetryFunctionNeverRescues(cfg: Config, h: Handle, kubeconfig: string, body: Command, i: nat, sc: Scope,
                                  s: State)
    requires i < RETRY_FUNCTION_ATTEMPTS && h <= |s.live|
    requires HasFailed(RunAttempt(cfg, kubeconfig, body, h, 0, 1, i, sc, s).state, h)
    ensures HasFailed(RetryFrom(cfg, h, kubeconfig, body, i, sc, s).state, h)
  {
    hide RunAttempt, Rescued, GiveUp, Extends;
    var r := RunAttempt(cfg, kubeconfig, body, h, 0, 1, i, sc, s);
    if r.outcome == Returned {
      if !HasFailed(r.state, |r.state.live|) {
        RescuedKeepsFlag(cfg, r.state, h, i);
      } else if i + 1 < RETRY_FUNCTION_ATTEMPTS {
        RetryFromExtends(cfg, h, kubeconfig, body, i + 1, sc, Pop(r.state));
        StickyFlag(Pop(r.state), RetryFrom(cfg, h, kubeconfig, body, i + 1, sc, Pop(r.state)).state, h);
      } else {
        FatalFails(cfg, r.state, h, sc.path);
      }
    }
  }

  lemma RescuedKeepsFlag(cfg: Config, s: State, h: Handle, i: nat)
    requires h < |s.live|
    ensures HasFailed(Rescued(cfg, s, h, i).state, h) == HasFailed(s, h)
  {
  }

  lemma StickyFlag(s: State, s': State, h: Handle)
    requires Extends(s, s') && h <= |s.live| && |s'.live| == |s.live| && HasFailed(s, h)
    ensures HasFailed(s', h)
  {
  }

  lemma FatalFails(cfg: Config, s: State, h: Handle, path: Path)
    requires h < |s.live|
    ensures HasFailed(GiveUp(cfg, s, h, path).state, h)
  {
  }

  // ApplyString on a retry helper: one attempt.
  lemma ShellAttempt(cfg: Config, t: Var, kubeconfig: string, i: nat, sc: Scope, s: State)
    requires CanSet(kubeconfig) && CanSet(GetKubeconfig(s))
    requires t < |sc.vars| && IsRetry(s, sc.vars[t])
    ensures var r := RunAttempt(cfg, kubeconfig, Do(t, Shell), sc.vars[t], 0, 1, i, sc, s);
      var ok := cfg.oracle(|s.trace| + 1);
      && r.outcome == Returned
      && HasFailed(r.state, sc.vars[t]) == (HasFailed(s, sc.vars[t]) || !ok)
      && HasFailed(r.state, |r.state.live|) == !ok
      && Work(r.state) == Work(s) + 1
      && |r.state.trace| == |s.trace| + (if ok then 2 else 4)
      && CanSet(GetKubeconfig(r.state))
  {
    hide Shells, Act1, SameFlagsExcept, RunAttempt;
    var h := sc.vars[t];
    var sc1 := Bind(sc, |s.live| + 1, i);
    var s0 := Enter(s, h, 0, 1, sc1.path);
    var s1 := Entered(kubeconfig, s0);
    RanWork(Push(s, NewHelper(s, h, 0, 1)), sc1.path);
    ShellOn(cfg, h, sc1.path, s1);
    var r := Act1(cfg, Shell, h, sc1.path, s1);
    SameFlag2(s1, r.state, h, |s1.live|);
    assert Eval(cfg, Do(t, Shell), sc1, s1) == r;
    if r.outcome != Returned {
      UnreturnedAttempt(cfg, kubeconfig, Do(t, Shell), h, 0, 1, i, sc, s);
    } else {
      ReturnedAttempt(cfg, kubeconfig, Do(t, Shell), h, 0, 1, i, sc, s);
    }
  }

  lemma SameFlag2(s: State, s': State, h: Handle, j: Handle)
    requires SameFlagsExcept(s, s', h) && j != h && j <= |s.live|
    ensures HasFailed(s', j) == HasFailed(s, j)
  {
  }

  lemma ShellOn(cfg: Config, h: Handle, path: Path, s: State)
    requires IsRetry(s, h)
    ensures var r := Act1(cfg, Shell, h, path, s);
      var ok := cfg.oracle(|s.trace|);
      && r.outcome == (if ok then Returned else Panicked(RETRY_PANIC_KEY))
      && SameFlagsExcept(s, r.state, h) && |r.state.live| == |s.live|
      && HasFailed(r.state, h) == (HasFailed(s, h) || !ok)
      && Work(r.state) == Work(s) + 1
      && |r.state.trace| == |s.trace| + (if ok then 1 else 3)
      && r.state.kubeconfig == s.kubeconfig
  {
    ActWork(cfg, Shell, h, path, s);
    hide Shells;
  }

  // One of n commands succeeds.  The oracle is asked about the first at this point of
  // the history; an attempt whose command fails makes four events.
  predicate AnySucceeds(cfg: Config, first: nat, n: nat)
    decreases n
  {
    n > 0 && (cfg.oracle(first) || AnySucceeds(cfg, first + 4, n - 1))
  }

  lemma {:induction false} ApplyStringFrom(cfg: Config, t: Var, kubeconfig: string, i: nat, sc: Scope, s: State)
    requires CanSet(kubeconfig) && CanSet(GetKubeconfig(s)) && i < RETRY_FUNCTION_ATTEMPTS
    requires t < |sc.vars| && IsRetry(s, sc.vars[t])
    ensures var r := RetryFrom(cfg, sc.vars[t], kubeconfig, Do(t, Shell), i, sc, s);
      var ok := cfg.oracle(|s.trace| + 1);
      && r.outcome == (if AnySucceeds(cfg, |s.trace| + 1, RETRY_FUNCTION_ATTEMPTS - i) then Returned
                       else Panicked(RETRY_PANIC_KEY))
      && (HasFailed(r.state, sc.vars[t]) <==> HasFailed(s, sc.vars[t]) || !ok)
      && (ok ==> Work(r.state) == Work(s) + 1)
      && CanSet(GetKubeconfig(r.state))
    decreases RETRY_FUNCTION_ATTEMPTS - i
  {
    hide RunAttempt, Rescued, GiveUp, HasFailed, Shells;
    var h := sc.vars[t];
    ShellAttempt(cfg, t, kubeconfig, i, sc, s);
    var r := RunAttempt(cfg, kubeconfig, Do(t, Shell), h, 0, 1, i, sc, s);
    if cfg.oracle(|s.trace| + 1) {
      RescuedKeepsFlag(cfg, r.state, h, i);
      RescuedDoesNoWork(cfg, r.state, h, i);
      RescuedNeverExits(cfg, r.state, h, i);
      RescuedLeavesKubeconfig(cfg, r.state, h, i);
    } else if i + 1 < RETRY_FUNCTION_ATTEMPTS {
      PopKeepsOlderFlag(r.state, h);
      ApplyStringFrom(cfg, t, kubeconfig, i + 1, sc, Pop(r.state));
    } else {
      FatalFails(cfg, r.state, h, sc.path);
      GivingUpFails(cfg, r.state, h, sc.path);
      GiveUpLeavesKubeconfig(cfg, r.state, h, sc.path);
    }
  }

  lemma PopKeepsOlderFlag(s: State, h: Handle)
    requires 0 < h < |s.live|
    ensures HasFailed(Pop(s), h) == HasFailed(s, h)
  {
  }

  // ApplyString on a retry helper fails it exactly when its first command fails,
  // however many it runs; yet it returns when any of its five commands succeeds.
  lemma ApplyStringFailsWithFirstCommand(cfg: Config, t: Var, kubeconfig: string, sc: Scope, s: State)
    requires CanSet(kubeconfig) && CanSet(GetKubeconfig(s))
    requires t < |sc.vars| && IsRetry(s, sc.vars[t])
    ensures var r := Eval(cfg, RetryFunction(t, kubeconfig, Do(t, Shell)), sc, s);
      var ok := cfg.oracle(|s.trace| + 1);
      && (HasFailed(r.state, sc.vars[t]) <==> HasFailed(s, sc.vars[t]) || !ok)
      && (r.outcome == Returned <==> AnySucceeds(cfg, |s.trace| + 1, RETRY_FUNCTION_ATTEMPTS))
      && (r.outcome != Returned ==> r.outcome == Panicked(RETRY_PANIC_KEY))
      && (ok ==> Work(r.state) == Work(s) + 1)
  {
    hide RetryFrom, AnySucceeds, HasFailed, Shells;
    ApplyStringFrom(cfg, t, kubeconfig, 0, sc, s);
  }

  // Commands run until one of n succeeds.
  function CommandsRun(cfg: Config, first: nat, n: nat): nat
    decreases n
  {
    if n == 0 then 0 else if cfg.oracle(first) then 1 else 1 + CommandsRun(cfg, first + 4, n - 1)
  }

  lemma {:induction false} CommandsCounted(cfg: Config, t: Var, kubeconfig: string, i: nat, sc: Scope, s: State)
    requires CanSet(kubeconfig) && CanSet(GetKubeconfig(s)) && i < RETRY_FUNCTION_ATTEMPTS
    requires t < |sc.vars| && IsRetry(s, sc.vars[t])
    ensures Work(RetryFrom(cfg, sc.vars[t], kubeconfig, Do(t, Shell), i, sc, s).state)
         == Work(s) + CommandsRun(cfg, |s.trace| + 1, RETRY_FUNCTION_ATTEMPTS - i)
    decreases RETRY_FUNCTION_ATTEMPTS - i
  {
    hide RunAttempt, Rescued, GiveUp, HasFailed, Shells;
    var h := sc.vars[t];
    ShellAttempt(cfg, t, kubeconfig, i, sc, s);
    var r := RunAttempt(cfg, kubeconfig, Do(t, Shell), h, 0, 1, i, sc, s);
    if cfg.oracle(|s.trace| + 1) {
      RescuedDoesNoWork(cfg, r.state, h, i);
    } else if i + 1 < RETRY_FUNCTION_ATTEMPTS {
      CommandsCounted(cfg, t, kubeconfig, i + 1, sc, Pop(r.state));
    } else {
      GivingUpFails(cfg, r.state, h, sc.path);
    }
  }

  // In numbers: the call asks about up to five commands, at these points of the history,
  // stops at the first that succeeds, and returns if there is one.
  lemma ApplyStringRunsUpToFive(cfg: Config, t: Var, kubeconfig: string, sc: Scope, s: State)
    requires CanSet(kubeconfig) && CanSet(GetKubeconfig(s))
    requires t < |sc.vars| && IsRetry(s, sc.vars[t])
    ensures var r := Eval(cfg, RetryFunction(t, kubeconfig, Do(t, Shell)), sc, s);
      var n := |s.trace|;
      && (r.outcome == Returned <==>
            cfg.oracle(n + 1) || cfg.oracle(n + 5) || cfg.oracle(n + 9) || cfg.oracle(n + 13) || cfg.oracle(n + 17))
      && Work(r.state) == Work(s) +
           (if cfg.oracle(n + 1) then 1 else if cfg.oracle(n + 5) then 2 else if cfg.oracle(n + 9) then 3
            else if cfg.oracle(n + 13) then 4 else 5)
  {
    hide RetryFrom, HasFailed, Shells, AnySucceeds, CommandsRun;
    ApplyStringFailsWithFirstCommand(cfg, t, kubeconfig, sc, s);
    CommandsCounted(cfg, t, kubeconfig, 0, sc, s);
    FiveCommands(cfg, |s.trace| + 1);
  }

  lemma FiveCommands(cfg: Config, first: nat)
    ensures AnySucceeds(cfg, first, RETRY_FUNCTION_ATTEMPTS) <==>
      || cfg.oracle(first) || cfg.oracle(first + 4) || cfg.oracle(first + 8) || cfg.oracle(first + 12)
      || cfg.oracle(first + 16)
    ensures CommandsRun(cfg, first, RETRY_FUNCTION_ATTEMPTS) ==
      if cfg.oracle(first) then 1 else if cfg.oracle(first + 4) then 2 else if cfg.oracle(first + 8) then 3
      else if cfg.oracle(first + 12) then 4 else 5
  {
    assert AnySucceeds(cfg, first + 16, 1) <==> cfg.oracle(first + 16);
    assert AnySucceeds(cfg, first + 12, 2) <==> cfg.oracle(first + 12) || AnySucceeds(cfg, first + 16, 1);
    assert AnySucceeds(cfg, first + 8, 3) <==> cfg.oracle(first + 8) || AnySucceeds(cfg, first + 12, 2);
    assert AnySucceeds(cfg, first + 4, 4) <==> cfg.oracle(first + 4) || AnySucceeds(cfg, first + 8, 3);
    assert CommandsRun(cfg, first + 16, 1) == 1;
    assert CommandsRun(cfg, first + 12, 2) == if cfg.oracle(first + 12) then 1 else 2;
    assert CommandsRun(cfg, first + 8, 3) == if cfg.oracle(first + 8) then 1 else 1 + CommandsRun(cfg, first + 12, 2);
    assert CommandsRun(cfg, first + 4, 4) == if cfg.oracle(first + 4) then 1 else 1 + CommandsRun(cfg, first + 8, 3);
  }

  // ----- what ApplyString says -----

  // From its attempt i on, when the oracle is asked about that command at this point.
  function ApplyMessages(cfg: Config, first: nat, i: nat): seq<Message>
    decreases 5 - i
  {
    if cfg.oracle(first) then
      if i > 0 then [SucceededAfterFailures(i + 1, 5)] else []
    else
      [Text("FAILURE: " + "Command failed")]
      + (if i < 4 then ApplyMessages(cfg, first + 4, i + 1)
         else [Text("FAILURE: " + "Command failed after 5 attempts.")])
  }

  lemma ShellSays(cfg: Config, h: Handle, path: Path, s: State)
    requires IsRetry(s, h)
    ensures Sent(cfg, s, h, if cfg.oracle(|s.trace|) then [] else [Text("FAILURE: " + "Command failed")],
                 Act1(cfg, Shell, h, path, s).state)
  {
    hide Lines, Sent, FatalOn;
    var s1 := Record(s, Shelled(GetKubeconfig(s)));
    NoMessages(cfg, s, h, s1);
    FatalSays(cfg, s1, h, path, "Command failed");
    SentLater(cfg, s, s1, h, [Text("FAILURE: " + "Command failed")], FatalOn(cfg, s1, h, path, "Command failed").state);
  }

  lemma SentLater(cfg: Config, s: State, s1: State, h: Handle, ms: seq<Message>, s': State)
    requires s1.log == s.log && s1.live == s.live && s1.step == s.step && Sent(cfg, s1, h, ms, s')
    ensures Sent(cfg, s, h, ms, s')
  {
  }

  lemma NoMessages(cfg: Config, s: State, h: Handle, s': State)
    requires s'.log == s.log && s'.live == s.live && s'.step == s.step
    ensures Sent(cfg, s, h, [], s')
  {
  }

  lemma FatalSays(cfg: Config, s: State, h: Handle, path: Path, text: string)
    requires IsRetry(s, h)
    ensures Sent(cfg, s, h, [Text("FAILURE: " + text)], FatalOn(cfg, s, h, path, text).state)
  {
    EmitSends(cfg, s, h, Text("FAILURE: " + text));
    hide Emit;
  }

  // One attempt: its own helper receives nothing.
  lemma AttemptSays(cfg: Config, t: Var, kubeconfig: string, i: nat, sc: Scope, s: State)
    requires CanSet(kubeconfig) && CanSet(GetKubeconfig(s))
    requires t < |sc.vars| && IsRetry(s, sc.vars[t])
    ensures var r := RunAttempt(cfg, kubeconfig, Do(t, Shell), sc.vars[t], 0, 1, i, sc, s);
      && r.state.live[|s.live|].buffer == []
      && Sent(cfg, s, sc.vars[t], if cfg.oracle(|s.trace| + 1) then [] else [Text("FAILURE: " + "Command failed")],
              Pop(r.state))
  {
    hide Act1, Sent, Lines, RunAttempt;
    var h := sc.vars[t];
    var sc1 := Bind(sc, |s.live| + 1, i);
    var s1 := Entered(kubeconfig, Enter(s, h, 0, 1, sc1.path));
    var r := Act1(cfg, Shell, h, sc1.path, s1);
    ShellSays(cfg, h, sc1.path, s1);
    assert Eval(cfg, Do(t, Shell), sc1, s1) == r;
    var ms := if cfg.oracle(|s.trace| + 1) then [] else [Text("FAILURE: " + "Command failed")];
    if r.outcome == Returned {
      ReturnedAttempt(cfg, kubeconfig, Do(t, Shell), h, 0, 1, i, sc, s);
    } else {
      UnreturnedAttempt(cfg, kubeconfig, Do(t, Shell), h, 0, 1, i, sc, s);
    }
    SentAround(cfg, s, h, ms, s1, r.state,
               RunAttempt(cfg, kubeconfig, Do(t, Shell), h, 0, 1, i, sc, s).state);
  }

  // What was sent through an older helper, with a new one on top.
  lemma SentAround(cfg: Config, s: State, h: Handle, ms: seq<Message>, s1: State, s1': State, s': State)
    requires IsRetry(s, h) && s1.log == s.log && s1.step == s.step
    requires |s1.live| == |s.live| + 1 && s1.live[..|s.live|] == s.live && s1.live[|s.live|].buffer == []
    requires Sent(cfg, s1, h, ms, s1')
    requires |s'.live| == |s1'.live| && s'.log == s1'.log && s'.step == s1'.step
    requires s'.live[..|s.live|] == s1'.live[..|s.live|] && s'.live[|s.live|].buffer == s1'.live[|s.live|].buffer
    ensures s'.live[|s.live|].buffer == [] && Sent(cfg, s, h, ms, Pop(s'))
  {
    hide Lines;
    assert s1.live[h - 1] == s.live[h - 1];
    assert s1'.live[|s.live|] == s1.live[|s.live|];
    forall j | 0 <= j < |s.live| && j != h - 1 ensures Pop(s').live[j] == s.live[j] {
      assert Pop(s').live[j] == s'.live[..|s.live|][j] == s1'.live[j] == s1.live[j] == s1.live[..|s.live|][j];
    }
    assert Pop(s').live[h - 1] == s'.live[..|s.live|][h - 1] == s1'.live[h - 1];
  }

  // What the helper of the last attempt has buffered is printed when retryFunction ends,
  // after the note about a success or before the failure of the call.
  lemma AttemptBufferIsPrinted(cfg: Config, s: State, h: Handle, i: nat, path: Path)
    requires !cfg.logFailed && h < |s.live|
    ensures var used := s.live[|s.live| - 1];
      && Rescued(cfg, s, h, i).state.log
         == s.log + (if h == 0 && i > 0 then [Line(s.step > 0, SucceededAfterFailures(i + 1, 5))] else [])
          + Lines(used.step > 0, used.buffer)
      && GiveUp(cfg, s, h, path).state.log
         == s.log + Lines(used.step > 0, used.buffer)
          + (if h == 0 then [Line(s.step > 0, Text("FATAL: " + "Command failed after 5 attempts."))] else [])
  {
  }

  // A success says that attempts before it failed, if there were any.
  lemma RescuedSays(cfg: Config, s: State, h: Handle, i: nat)
    requires 0 < h < |s.live| && s.live[|s.live| - 1].buffer == []
    ensures Sent(cfg, Pop(s), h, if i > 0 then [SucceededAfterFailures(i + 1, 5)] else [], Rescued(cfg, s, h, i).state)
  {
    assert Lines(s.live[|s.live| - 1].step > 0, []) == [];
  }

  lemma GiveUpSays(cfg: Config, s: State, h: Handle, path: Path)
    requires 0 < h < |s.live| && s.live[|s.live| - 1].buffer == []
    ensures Sent(cfg, Pop(s), h, [Text("FAILURE: " + "Command failed after 5 attempts.")],
                 GiveUp(cfg, s, h, path).state)
  {
    hide FatalOn, Sent, Flush;
    EmptyFlush(cfg, s);
    FatalSays(cfg, Pop(s), h, path, "Command failed after 5 attempts.");
  }

  lemma EmptyFlush(cfg: Config, s: State)
    requires |s.live| > 0 && s.live[|s.live| - 1].buffer == []
    ensures Flush(cfg, s, |s.live|) == s
  {
    assert Lines(s.live[|s.live| - 1].step > 0, []) == [];
  }

  lemma {:induction false} ApplyStringSaysFrom(cfg: Config, t: Var, kubeconfig: string, i: nat, sc: Scope, s: State)
    requires CanSet(kubeconfig) && CanSet(GetKubeconfig(s)) && i < RETRY_FUNCTION_ATTEMPTS
    requires t < |sc.vars| && IsRetry(s, sc.vars[t])
    ensures Sent(cfg, s, sc.vars[t], ApplyMessages(cfg, |s.trace| + 1, i),
                 RetryFrom(cfg, sc.vars[t], kubeconfig, Do(t, Shell), i, sc, s).state)
    decreases RETRY_FUNCTION_ATTEMPTS - i
  {
    hide RunAttempt, Rescued, GiveUp, HasFailed, Shells, Sent;
    var h := sc.vars[t];
    ShellAttempt(cfg, t, kubeconfig, i, sc, s);
    AttemptSays(cfg, t, kubeconfig, i, sc, s);
    var r := RunAttempt(cfg, kubeconfig, Do(t, Shell), h, 0, 1, i, sc, s);
    var ms := if cfg.oracle(|s.trace| + 1) then [] else [Text("FAILURE: " + "Command failed")];
    if cfg.oracle(|s.trace| + 1) {
      RescuedSays(cfg, r.state, h, i);
      SentThen(cfg, s, Pop(r.state), Rescued(cfg, r.state, h, i).state, h, ms, ApplyMessages(cfg, |s.trace| + 1, i));
      assert [] + ApplyMessages(cfg, |s.trace| + 1, i) == ApplyMessages(cfg, |s.trace| + 1, i);
    } else if i + 1 < RETRY_FUNCTION_ATTEMPTS {
      ApplyStringSaysFrom(cfg, t, kubeconfig, i + 1, sc, Pop(r.state));
      SentThen(cfg, s, Pop(r.state), RetryFrom(cfg, h, kubeconfig, Do(t, Shell), i + 1, sc, Pop(r.state)).state, h, ms,
               ApplyMessages(cfg, |s.trace| + 5, i + 1));
    } else {
      GiveUpSays(cfg, r.state, h, sc.path);
      SentThen(cfg, s, Pop(r.state), GiveUp(cfg, r.state, h, sc.path).state, h, ms,
               [Text("FAILURE: " + "Command failed after 5 attempts.")]);
    }
  }

  // On a retry helper each failed command is reported there, and in the end the success
  // after failures or that all five attempts have failed.
  lemma ApplyStringSays(cfg: Config, t: Var, kubeconfig: string, sc: Scope, s: State)
    requires CanSet(kubeconfig) && CanSet(GetKubeconfig(s))
    requires t < |sc.vars| && IsRetry(s, sc.vars[t])
    ensures Sent(cfg, s, sc.vars[t], ApplyMessages(cfg, |s.trace| + 1, 0),
                 Eval(cfg, RetryFunction(t, kubeconfig, Do(t, Shell)), sc, s).state)
  {
    hide RetryFrom, Sent, ApplyMessages;
    ApplyStringSaysFrom(cfg, t, kubeconfig, 0, sc, s);
  }

  // The second command succeeds, the call returns, and the helper stays failed.
  lemma ApplyStringReturnsFailed(cfg: Config, t: Var, kubeconfig: string, sc: Scope, s: State)
    requires CanSet(kubeconfig) && CanSet(GetKubeconfig(s))
    requires t < |sc.vars| && IsRetry(s, sc.vars[t])
    requires !cfg.oracle(|s.trace| + 1) && cfg.oracle(|s.trace| + 5)
    ensures var r := Eval(cfg, RetryFunction(t, kubeconfig, Do(t, Shell)), sc, s);
      r.outcome == Returned && HasFailed(r.state, sc.vars[t]) && Work(r.state) == Work(s) + 2
  {
    hide RunAttempt, Rescued, Shells;
    var h := sc.vars[t];
    ShellAttempt(cfg, t, kubeconfig, 0, sc, s);
    var s1 := Pop(RunAttempt(cfg, kubeconfig, Do(t, Shell), h, 0, 1, 0, sc, s).state);
    ShellAttempt(cfg, t, kubeconfig, 1, sc, s1);
    var r := RunAttempt(cfg, kubeconfig, Do(t, Shell), h, 0, 1, 1, sc, s1);
    RescuedKeepsFlag(cfg, r.state, h, 1);
    RescuedDoesNoWork(cfg, r.state, h, 1);
    RescuedNeverExits(cfg, r.state, h, 1);
    assert RetryFrom(cfg, h, kubeconfig, Do(t, Shell), 0, sc, s)
      == RetryFrom(cfg, h, kubeconfig, Do(t, Shell), 1, sc, s1);
  }

  // ----- the override of ApplyString -----

  // The command decides how the callback is left; a success touches no helper.
  lemma FirstShell(cfg: Config, h: Handle, t: Var, k: string, i: nat, sc: Scope, s: State)
    requires t < |sc.vars| && sc.vars[t] <= |s.live|
    ensures var r := RetryResult(cfg, h, k, Do(t, Shell), i, sc, s);
      && (r.outcome == Returned <==> cfg.oracle(|s.trace| + 1))
      && (r.outcome == Returned ==> !HasFailed(r.state, |s.live| + 1))
  {
    hide FatalOn;
    FatalNeverReturns(cfg, Record(RetryStart(h, k, i, sc, s), Shelled(GetKubeconfig(RetryStart(h, k, i, sc, s)))),
                      sc.vars[t], sc.path + [i], "Command failed");
  }

  // On any helper, ApplyString leaves KUBECONFIG as it was exactly when its first
  // command succeeds or the override changes nothing.
  lemma ApplyStringRestoresExactly(cfg: Config, t: Var, k: string, sc: Scope, s: State)
    requires k != "" && CanSet(k) && CanSet(GetKubeconfig(s))
    requires t < |sc.vars| && sc.vars[t] <= |s.live|
    ensures var r := Eval(cfg, RetryFunction(t, k, Do(t, Shell)), sc, s);
      GetKubeconfig(r.state) == GetKubeconfig(s) <==> cfg.oracle(|s.trace| + 1) || GetKubeconfig(s) == k
  {
    hide RetryFrom, Eval, RunAttempt, HasFailed, RetryStateBefore, AttemptsReturn, RetryResult;
    var h := sc.vars[t];
    var body := Do(t, Shell);
    RetryFunctionRestoresExactly(cfg, h, k, body, sc, s);
    FirstShell(cfg, h, t, k, 0, sc, s);
    assert RetryStateBefore(cfg, h, k, body, 0, sc, s) == Some(s) by { FirstRetryState(cfg, h, k, body, sc, s); }
    FirstAndLater(cfg, h, k, body, 0, sc, s);
    if cfg.oracle(|s.trace| + 1) {
      NextState(cfg, h, k, body, 0, sc, s);
      ReturnedRun(cfg, h, k, body, sc, s);
      NoAttemptLater(cfg, h, k, body, 1, sc, s);
    }
    RetryFunctionIsLoop(cfg, t, k, body, sc, s);
  }

  lemma FirstRetryState(cfg: Config, h: Handle, k: string, body: Command, sc: Scope, s: State)
    ensures RetryStateBefore(cfg, h, k, body, 0, sc, s) == Some(s)
  {
  }

  lemma RetryFunctionIsLoop(cfg: Config, t: Var, k: string, body: Command, sc: Scope, s: State)
    ensures Eval(cfg, RetryFunction(t, k, body), sc, s) == RetryFrom(cfg, HandleOf(sc, t), k, body, 0, sc, s)
  {
  }

  // Restoring touches no helper.
  lemma ReturnedRun(cfg: Config, h: Handle, k: string, body: Command, sc: Scope, s: State)
    requires CanSet(k) && CanSet(GetKubeconfig(s)) && RetryResult(cfg, h, k, body, 0, sc, s).outcome == Returned
    ensures var r := RunAttempt(cfg, k, body, h, 0, 1, 0, sc, s);
      HasFailed(r.state, |r.state.live|) == HasFailed(RetryResult(cfg, h, k, body, 0, sc, s).state, |s.live| + 1)
  {
    hide Eval, RunAttempt;
    ReturnedAttempt(cfg, k, body, h, 0, 1, 0, sc, s);
  }

  // So one failed command is enough: the call has retried and returned, and the
  // override is still in force.
  lemma RetriedOverrideLeaks(cfg: Config, t: Var, k: string, sc: Scope, s: State)
    requires k != "" && k != GetKubeconfig(s) && CanSet(k) && CanSet(GetKubeconfig(s))
    requires t < |sc.vars| && IsRetry(s, sc.vars[t])
    requires !cfg.oracle(|s.trace| + 1) && AnySucceeds(cfg, |s.trace| + 1, RETRY_FUNCTION_ATTEMPTS)
    ensures var r := Eval(cfg, RetryFunction(t, k, Do(t, Shell)), sc, s);
      r.outcome == Returned && GetKubeconfig(r.state) == k
  {
    hide RetryFrom, Eval, AnySucceeds;
    ApplyStringFailsWithFirstCommand(cfg, t, k, sc, s);
    ApplyStringRestoresExactly(cfg, t, k, sc, s);
    var c := RetryFunction(t, k, Do(t, Shell));
    assert Overrides(c) == {k};
    EvalStaysIn(cfg, c, {k, GetKubeconfig(s)}, sc, s);
  }

  // ----- ApplyString in a nested call -----

  // An attempt of a call around ApplyString, on the new helper or, if it is the last,
  // on that of the caller.
  lemma AttemptOfCall(cfg: Config, h: Handle, m: Options, k: string, i: nat, sc: Scope, s: State)
    requires IsRetry(s, h) && CanSet(k) && CanSet(GetKubeconfig(s)) && i < m.maxAttempts
    ensures var r := AttemptResult(cfg, h, m, RetryFunction(|sc.vars|, k, Do(|sc.vars|, Shell)), i, sc, s);
      var last := i == m.maxAttempts - 1;
      && r.outcome == (if AnySucceeds(cfg, |s.trace| + 2, RETRY_FUNCTION_ATTEMPTS) then Returned
                       else Panicked(RETRY_PANIC_KEY))
      && (HasFailed(r.state, if last then h else |s.live| + 1) <==>
            (last && HasFailed(s, h)) || !cfg.oracle(|s.trace| + 2))
      && CanSet(GetKubeconfig(r.state))
  {
    hide RetryFrom, AnySucceeds, Shells;
    var sc1, s1 := AttemptScope(h, m, i, sc, s), AttemptStart(h, m, i, sc, s);
    ApplyStringFrom(cfg, |sc.vars|, k, 0, sc1, s1);
    RetryFunctionIsLoop(cfg, |sc.vars|, k, Do(|sc.vars|, Shell), sc1, s1);
  }

  // The environment holds no NUL before any attempt.
  lemma CanSetBefore(cfg: Config, h: Handle, m: Options, body: Command, k: string, i: nat, sc: Scope, s: State)
    requires CanSet(k) && CanSet(GetKubeconfig(s)) && Overrides(body) <= {k}
    requires StateBefore(cfg, h, m, body, i, sc, s).Some?
    ensures CanSet(GetKubeconfig(StateBefore(cfg, h, m, body, i, sc, s).value))
  {
    hide StateBefore;
    BeforeStaysIn(cfg, h, m, body, i, {k, GetKubeconfig(s)}, sc, s);
  }

  // A call around ApplyString goes on to the next attempt exactly when the first
  // command of this one fails.
  lemma NextAttempt(cfg: Config, h: Handle, m: Options, k: string, i: nat, sc: Scope, s: State)
    requires IsRetry(s, h) && CanSet(k) && CanSet(GetKubeconfig(s)) && i < m.maxAttempts - 1
    requires StateBefore(cfg, h, m, RetryFunction(|sc.vars|, k, Do(|sc.vars|, Shell)), i, sc, s).Some?
    ensures var body := RetryFunction(|sc.vars|, k, Do(|sc.vars|, Shell));
      StateBefore(cfg, h, m, body, i + 1, sc, s).Some?
      <==> !cfg.oracle(|StateBefore(cfg, h, m, body, i, sc, s).value.trace| + 2)
  {
    hide AttemptResult, RunAttempt, NoteFailedAttempt, AnySucceeds;
    var body := RetryFunction(|sc.vars|, k, Do(|sc.vars|, Shell));
    var si := StateBefore(cfg, h, m, body, i, sc, s).value;
    CanSetBefore(cfg, h, m, body, k, i, sc, s);
    AttemptOfCall(cfg, h, m, k, i, sc, si);
    AttemptIsCallback(cfg, h, m, body, i, sc, si);
    FirstIsOneOf(cfg, |si.trace| + 2);
  }

  lemma FirstIsOneOf(cfg: Config, first: nat)
    ensures cfg.oracle(first) ==> AnySucceeds(cfg, first, RETRY_FUNCTION_ATTEMPTS)
  {
  }

  // The last attempt is reached, which NextAttempt reduces to the first command of
  // every earlier one; in it some command succeeds, but not the first, unless the
  // helper had failed before.
  ghost predicate CommandsExhaust(cfg: Config, h: Handle, m: Options, k: string, sc: Scope, s: State) {
    m.maxAttempts > 0 &&
    var before := StateBefore(cfg, h, m, RetryFunction(|sc.vars|, k, Do(|sc.vars|, Shell)), m.maxAttempts - 1, sc, s);
    before.Some? &&
    var first := |before.value.trace| + 2;
    && (HasFailed(before.value, h) || !cfg.oracle(first))
    && AnySucceeds(cfg, first, RETRY_FUNCTION_ATTEMPTS)
  }

  // A nested call around ApplyString ends the test exactly then.
  lemma NestedApplyStringEndsTest(cfg: Config, h: Handle, m: Options, k: string, sc: Scope, s: State)
    requires IsRetry(s, h) && CanSet(k) && CanSet(GetKubeconfig(s))
    ensures UntilFrom(cfg, h, m, RetryFunction(|sc.vars|, k, Do(|sc.vars|, Shell)), 0, sc, s).outcome == Exited
       <==> CommandsExhaust(cfg, h, m, k, sc, s)
  {
    hide UntilFrom, AttemptResult, StateBefore, AnySucceeds, HasFailed;
    var body := RetryFunction(|sc.vars|, k, Do(|sc.vars|, Shell));
    NestedCallEndsTest(cfg, h, m, body, |sc.vars|, sc, s);
    if m.maxAttempts > 0 && StateBefore(cfg, h, m, body, m.maxAttempts - 1, sc, s).Some? {
      CanSetBefore(cfg, h, m, body, k, m.maxAttempts - 1, sc, s);
      var sn := StateBefore(cfg, h, m, body, m.maxAttempts - 1, sc, s).value;
      SameRetry(s, sn, h);
      AttemptOfCall(cfg, h, m, k, m.maxAttempts - 1, sc, sn);
    }
  }

  lemma SameRetry(s: State, s': State, h: Handle)
    requires |s'.live| == |s.live| && IsRetry(s, h)
    ensures IsRetry(s', h)
  {
  }

  // Then no later attempt of the enclosing call is made, however many are left.
  lemma CommandFailureEscapesOuterAttempt(cfg: Config, h: Handle, n: Options, m: Options, k: string, i: nat,
                                          sc: Scope, s: State)
    requires i < n.maxAttempts - 1 && CanSet(k) && CanSet(GetKubeconfig(s))
    requires var call := UntilSuccess(|sc.vars|, m, RetryFunction(|sc.vars| + 1, k, Do(|sc.vars| + 1, Shell)));
      StateBefore(cfg, h, n, call, i, sc, s).Some?
    ensures var call := UntilSuccess(|sc.vars|, m, RetryFunction(|sc.vars| + 1, k, Do(|sc.vars| + 1, Shell)));
      var si := StateBefore(cfg, h, n, call, i, sc, s).value;
      var r := RunAttempt(cfg, "", call, h, i, n.maxAttempts, i, sc, si);
      && (r.outcome == Exited
          <==> CommandsExhaust(cfg, |si.live| + 1, m, k, AttemptScope(h, n, i, sc, si), AttemptStart(h, n, i, sc, si)))
      && (r.outcome == Exited ==>
            UntilFrom(cfg, h, n, call, 0, sc, s) == Result(Exited, Pop(r.state)) && r.state.failed)
  {
    hide UntilFrom, RunAttempt, StateBefore, CommandsExhaust, ExhaustedInAttempt;
    var body := RetryFunction(|sc.vars| + 1, k, Do(|sc.vars| + 1, Shell));
    var call := UntilSuccess(|sc.vars|, m, body);
    var si := StateBefore(cfg, h, n, call, i, sc, s).value;
    var sc1, s1 := AttemptScope(h, n, i, sc, si), AttemptStart(h, n, i, sc, si);
    assert InAttempt(body, |sc.vars|, |sc.vars| + 2);
    assert Overrides(body) <= {k};
    CanSetBefore(cfg, h, n, call, k, i, sc, s);
    NonLastAttemptEndsTest(cfg, h, n, call, i, sc, s);
    AttemptIsCallback(cfg, h, n, call, i, sc, si);
    AttemptExitFails(cfg, "", call, h, i, n.maxAttempts, i, sc, si);
    NestedApplyStringEndsTest(cfg, |si.live| + 1, m, k, sc1, s1);
    assert AttemptResult(cfg, h, n, call, i, sc, si) == UntilFrom(cfg, |si.live| + 1, m, body, 0, sc1, s1);
  }
}
