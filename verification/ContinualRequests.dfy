/**
  The protocol of `continuallyRequest`: any number of request loops, each a
  goroutine that ends by one send on its unbuffered `stopped` channel, and the
  test's cleanups, which run last-in first-out and, for each loop, cancel it and
  receive from `stopped`.  Steps of the goroutines and of the test interleave
  freely.
 */
module ContinualRequests {
  import opened Wrappers

  // Where a loop's goroutine is.
  datatype Phase =
    | Checking     // about to look at t.Failed()
    | Selecting    // in the select on ctx.Done() and the timer
    | Requesting   // a request is in flight
    | Sending      // at the send on stopped
    | Ended        // after the send
    | Died         // Fatalf in a request ended the goroutine

  datatype Loop = Loop(id: nat, phase: Phase, cancelled: bool, sends: nat, receives: nat, requests: nat)

  // A registered cleanup; id counts registrations.
  datatype Cleanup = Plain(id: nat) | StopLoop(id: nat, loop: nat)

  datatype Main =
    | Body
    | Idle                            // between cleanups
    | InPlain(id: nat, since: nat)    // in a plain cleanup that started after `since` registrations
    | Cancelling(loop: nat)
    | Waiting(loop: nat)              // at the receive from stopped
    | Finished

  datatype State = State(main: Main, next: nat, stack: seq<Cleanup>, loops: seq<Loop>, failed: bool)

  datatype Step =
    | Register              // t.Cleanup
    | Launch                // continuallyRequest
    | FailTest
    | EndBody
    | Pop
    | EndPlain
    | Cancel
    | Rendezvous
    | Finish
    | Check(loop: nat)
    | SeeCancel(loop: nat)
    | Tick(loop: nat)       // the timer fired: a request starts, cancelled or not
    | Complete(loop: nat, ok: bool)
    | Abort(loop: nat)      // the request calls Fatalf

  const INITIAL := State(Body, 0, [], [], false)

  predicate RunsUserCode(m: Main) {
    m.Body? || m.InPlain?
  }

  predicate At(s: State, j: nat, p: Phase) {
    j < |s.loops| && s.loops[j].phase == p
  }

  function Move(s: State, j: nat, p: Phase): State
    requires j < |s.loops|
  {
    s.(loops := s.loops[j := s.loops[j].(phase := p)])
  }

  function Next(s: State, step: Step): Option<State> {
    match step
    case Register =>
      if !RunsUserCode(s.main) then None
      else Some(s.(next := s.next + 1, stack := s.stack + [Plain(s.next)]))
    case Launch =>
      if !RunsUserCode(s.main) then None
      else Some(s.(next := s.next + 1,
                   stack := s.stack + [StopLoop(s.next, |s.loops|)],
                   loops := s.loops + [Loop(s.next, Checking, false, 0, 0, 0)]))
    case FailTest =>
      if !RunsUserCode(s.main) then None else Some(s.(failed := true))
    case EndBody =>
      if !s.main.Body? then None else Some(s.(main := Idle))
    case Pop =>
      if !s.main.Idle? || s.stack == [] then None
      else
        var e := s.stack[|s.stack| - 1];
        Some(s.(stack := s.stack[..|s.stack| - 1],
                main := match e case Plain(id) => InPlain(id, s.next) case StopLoop(_, j) => Cancelling(j)))
    case EndPlain =>
      if !s.main.InPlain? then None else Some(s.(main := Idle))
    case Cancel =>
      if !s.main.Cancelling? || s.main.loop >= |s.loops| then None
      else Some(s.(main := Waiting(s.main.loop),
                   loops := s.loops[s.main.loop := s.loops[s.main.loop].(cancelled := true)]))
    case Rendezvous =>
      if !s.main.Waiting? || !At(s, s.main.loop, Sending) then None
      else
        var l := s.loops[s.main.loop];
        Some(s.(main := Idle,
                loops := s.loops[s.main.loop := l.(phase := Ended, sends := l.sends + 1, receives := l.receives + 1)]))
    case Finish =>
      if !s.main.Idle? || s.stack != [] then None else Some(s.(main := Finished))
    case Check(j) =>
      if !At(s, j, Checking) then None else Some(Move(s, j, if s.failed then Sending else Selecting))
    case SeeCancel(j) =>
      if !At(s, j, Selecting) || !s.loops[j].cancelled then None else Some(Move(s, j, Sending))
    case Tick(j) =>
      if !At(s, j, Selecting) then None
      else Some(s.(loops := s.loops[j := s.loops[j].(phase := Requesting, requests := s.loops[j].requests + 1)]))
    case Complete(j, ok) =>
      if !At(s, j, Requesting) then None else Some(Move(s, j, Checking).(failed := s.failed || !ok))
    case Abort(j) =>
      if !At(s, j, Requesting) then None else Some(Move(s, j, Died).(failed := true))
  }

  ghost predicate IsStep(s: State, s': State) {
    exists step :: Next(s, step) == Some(s')
  }

  ghost predicate IsRun(run: seq<State>) {
    |run| > 0 && forall k :: 0 <= k < |run| - 1 ==> IsStep(run[k], run[k + 1])
  }

  ghost predicate Reachable(s: State) {
    exists run :: IsRun(run) && run[0] == INITIAL && run[|run| - 1] == s
  }

  // ----- the invariant -----

  // A loop that its cleanup has not touched yet.
  predicate Untouched(l: Loop) {
    l.phase != Ended && !l.cancelled && l.sends == 0 && l.receives == 0
  }

  ghost predicate StackInv(s: State) {
    && (forall a, b :: 0 <= a < b < |s.stack| ==> s.stack[a].id < s.stack[b].id)
    && (forall a :: 0 <= a < |s.stack| ==> s.stack[a].id < s.next)
    && (forall a :: 0 <= a < |s.stack| && s.stack[a].StopLoop? ==>
          var e := s.stack[a];
          e.loop < |s.loops| && s.loops[e.loop].id == e.id && Untouched(s.loops[e.loop]))
  }

  // Every loop is still on the stack, is being stopped, or has ended.
  ghost predicate Accounted(s: State, j: nat)
    requires j < |s.loops|
  {
    || StopLoop(s.loops[j].id, j) in s.stack
    || s.main == Cancelling(j) || s.main == Waiting(j)
    || s.loops[j].phase == Ended
  }

  ghost predicate LoopInv(s: State) {
    forall j :: 0 <= j < |s.loops| ==>
      var l := s.loops[j];
      && l.id < s.next && Accounted(s, j)
      && l.sends == l.receives == (if l.phase == Ended then 1 else 0)
  }

  ghost predicate MainInv(s: State) {
    && (s.main.Cancelling? || s.main.Waiting? ==>
          && s.main.loop < |s.loops|
          && StopLoop(s.loops[s.main.loop].id, s.main.loop) !in s.stack
          && s.loops[s.main.loop].phase != Ended)
    && (s.main.Cancelling? ==> Untouched(s.loops[s.main.loop]))
    && (s.main.Waiting? ==> s.loops[s.main.loop].cancelled)
    && (s.main.Finished? ==> s.stack == [])
    && (s.main.InPlain? ==> s.main.id < s.main.since <= s.next && QuietBetween(s, s.main.id, s.main.since))
  }

  // Every loop registered after `id` and before `since` has ended.
  ghost predicate QuietBetween(s: State, id: nat, since: nat) {
    forall j :: 0 <= j < |s.loops| && id < s.loops[j].id < since ==> s.loops[j].phase == Ended
  }

  ghost predicate Inv(s: State) {
    StackInv(s) && LoopInv(s) && MainInv(s)
  }

  lemma PopKeepsInv(s: State, s': State)
    requires Inv(s) && Next(s, Pop) == Some(s')
    ensures Inv(s')
  {
  }

  lemma LaunchKeepsInv(s: State, s': State)
    requires Inv(s) && (Next(s, Launch) == Some(s') || Next(s, Register) == Some(s'))
    ensures Inv(s')
  {
  }

  // A goroutine moves on without ending.
  lemma MoveKeepsInv(s: State, j: nat, l: Loop, failed: bool)
    requires Inv(s) && j < |s.loops| && s.loops[j].phase != Ended
    requires l == s.loops[j].(phase := l.phase, requests := l.requests) && l.phase != Ended
    ensures Inv(s.(loops := s.loops[j := l], failed := failed))
  {
  }

  lemma LoopStepKeepsInv(s: State, step: Step, s': State)
    requires Inv(s) && Next(s, step) == Some(s')
    requires step.Check? || step.SeeCancel? || step.Tick? || step.Complete? || step.Abort?
    ensures Inv(s')
  {
    hide Inv;
    MoveKeepsInv(s, step.loop, s'.loops[step.loop], s'.failed);
    assert s' == s.(loops := s.loops[step.loop := s'.loops[step.loop]], failed := s'.failed);
  }

  lemma CleanupStepKeepsInv(s: State, step: Step, s': State)
    requires Inv(s) && Next(s, step) == Some(s')
    requires step.Cancel? || step.Rendezvous?
    ensures Inv(s')
  {
  }

  lemma StepKeepsInv(s: State, step: Step, s': State)
    requires Inv(s) && Next(s, step) == Some(s')
    ensures Inv(s')
  {
    match step
    case Register => LaunchKeepsInv(s, s');
    case Launch => LaunchKeepsInv(s, s');
    case Pop => PopKeepsInv(s, s');
    case Cancel => CleanupStepKeepsInv(s, step, s');
    case Rendezvous => CleanupStepKeepsInv(s, step, s');
    case FailTest => MainStepKeepsInv(s, step, s');
    case EndBody => MainStepKeepsInv(s, step, s');
    case EndPlain => MainStepKeepsInv(s, step, s');
    case Finish => MainStepKeepsInv(s, step, s');
    case Check(_) => LoopStepKeepsInv(s, step, s');
    case SeeCancel(_) => LoopStepKeepsInv(s, step, s');
    case Tick(_) => LoopStepKeepsInv(s, step, s');
    case Complete(_, _) => LoopStepKeepsInv(s, step, s');
    case Abort(_) => LoopStepKeepsInv(s, step, s');
  }

  lemma MainStepKeepsInv(s: State, step: Step, s': State)
    requires Inv(s) && Next(s, step) == Some(s')
    requires step.FailTest? || step.EndBody? || step.EndPlain? || step.Finish?
    ensures Inv(s')
  {
  }

  lemma {:induction false} RunKeepsInv(run: seq<State>, k: nat)
    requires IsRun(run) && Inv(run[0]) && k < |run|
    ensures Inv(run[k])
  {
    hide Inv, Next;
    if k > 0 {
      RunKeepsInv(run, k - 1);
      assert IsStep(run[k - 1], run[k - 1 + 1]);
      var step :| Next(run[k - 1], step) == Some(run[k]);
      StepKeepsInv(run[k - 1], step, run[k]);
    }
  }

  lemma ReachableInv(s: State)
    requires Reachable(s)
    ensures Inv(s)
  {
    var run :| IsRun(run) && run[0] == INITIAL && run[|run| - 1] == s;
    RunKeepsInv(run, |run| - 1);
  }

  // ----- safety -----

  lemma EndedStays(s: State, step: Step, s': State, j: nat)
    requires Next(s, step) == Some(s') && At(s, j, Ended)
    ensures At(s', j, Ended) && s'.loops[j].requests == s.loops[j].requests
  {
  }

  lemma DiedStays(s: State, step: Step, s': State, j: nat)
    requires Inv(s) && Next(s, step) == Some(s') && At(s, j, Died)
    ensures At(s', j, Died)
  {
  }

  // Once the cleanup of a loop has received from stopped, the goroutine has ended,
  // and in no continuation is a request of it in flight or started.
  lemma {:induction false} ReceivedMeansQuietForever(run: seq<State>, i: nat, k: nat, j: nat)
    requires IsRun(run) && run[0] == INITIAL && i <= k < |run|
    requires j < |run[i].loops| && run[i].loops[j].receives > 0
    ensures At(run[k], j, Ended) && run[k].loops[j].requests == run[i].loops[j].requests
  {
    hide Next;
    if k == i {
      RunKeepsInv(run, i);
    } else {
      ReceivedMeansQuietForever(run, i, k - 1, j);
      assert IsStep(run[k - 1], run[k - 1 + 1]);
      var step :| Next(run[k - 1], step) == Some(run[k]);
      EndedStays(run[k - 1], step, run[k], j);
    }
  }

  // A cleanup registered before the loops runs with all of them ended; only loops
  // that the cleanup itself has launched can be active.
  lemma EarlierCleanupsRunQuiet(s: State, j: nat)
    requires Reachable(s) && s.main.InPlain?
    requires j < |s.loops| && s.main.id < s.loops[j].id < s.main.since
    ensures At(s, j, Ended)
  {
    ReachableInv(s);
  }

  // When the test has finished, no goroutine of it is left to log or to fail it.
  lemma FinishedMeansAllEnded(s: State, j: nat)
    requires Reachable(s) && s.main.Finished? && j < |s.loops|
    ensures At(s, j, Ended) && s.loops[j].sends == 1 && s.loops[j].receives == 1
  {
    ReachableInv(s);
    assert Accounted(s, j);
  }

  lemma OneSendOneReceive(s: State, j: nat)
    requires Reachable(s) && j < |s.loops|
    ensures s.loops[j].sends == s.loops[j].receives <= 1
    ensures s.loops[j].sends == 1 <==> s.loops[j].phase == Ended
  {
    ReachableInv(s);
  }

  // ----- failure -----

  // A run with the steps it took.
  ghost predicate Took(run: seq<State>, steps: seq<Step>) {
    |run| == |steps| + 1 && forall k :: 0 <= k < |steps| ==> Next(run[k], steps[k]) == Some(run[k + 1])
  }

  // The steps that fail the test: an assertion of the test itself, a request that did
  // not succeed, and one that could not be made.
  predicate Fails(step: Step) {
    step.FailTest? || step.Abort? || (step.Complete? && !step.ok)
  }

  lemma StepFailsExactly(s: State, step: Step, s': State)
    requires Next(s, step) == Some(s')
    ensures s'.failed <==> s.failed || Fails(step)
  {
  }

  // The test is failed exactly when one of the steps taken has failed it.
  lemma {:induction false} FailedExactly(run: seq<State>, steps: seq<Step>, k: nat)
    requires Took(run, steps) && run[0] == INITIAL && k < |run|
    ensures run[k].failed <==> exists i :: 0 <= i < k && Fails(steps[i])
  {
    hide Next, Fails;
    if k > 0 {
      FailedExactly(run, steps, k - 1);
      StepFailsExactly(run[k - 1], steps[k - 1], run[k - 1 + 1]);
    }
  }

  // How many more requests the loop can start once the test has failed.
  function RequestsLeft(s: State, j: nat): nat {
    if j < |s.loops| && s.loops[j].phase == Selecting then 1 else 0
  }

  function Requests(s: State, j: nat): nat {
    if j < |s.loops| then s.loops[j].requests else 0
  }

  lemma FailedStepStartsNoMore(s: State, step: Step, s': State, j: nat)
    requires Next(s, step) == Some(s') && s.failed
    ensures Requests(s', j) + RequestsLeft(s', j) <= Requests(s, j) + RequestsLeft(s, j)
  {
  }

  // Once the test has failed, a loop starts at most one more request, and that only if
  // it is in the select; one that is checking, requesting, sending or over, or that is
  // launched later, starts none.
  lemma {:induction false} FailureStopsTheLoops(run: seq<State>, steps: seq<Step>, i: nat, k: nat, j: nat)
    requires Took(run, steps) && i <= k < |run| && run[i].failed
    ensures run[k].failed
    ensures Requests(run[k], j) <= Requests(run[i], j)
              + (if j < |run[i].loops| && run[i].loops[j].phase == Selecting then 1 else 0)
  {
    StopsFrom(run, steps, i, k, j);
  }

  lemma {:induction false} StopsFrom(run: seq<State>, steps: seq<Step>, i: nat, k: nat, j: nat)
    requires Took(run, steps) && i <= k < |run| && run[i].failed
    ensures run[k].failed
    ensures Requests(run[k], j) + RequestsLeft(run[k], j) <= Requests(run[i], j) + RequestsLeft(run[i], j)
  {
    hide Next;
    if i < k {
      StopsFrom(run, steps, i, k - 1, j);
      StepFailsExactly(run[k - 1], steps[k - 1], run[k - 1 + 1]);
      FailedStepStartsNoMore(run[k - 1], steps[k - 1], run[k - 1 + 1], j);
    }
  }

  // Requests that loop j has started by step k.
  function Ticks(steps: seq<Step>, j: nat, k: nat): nat
    requires k <= |steps|
  {
    if k == 0 then 0 else Ticks(steps, j, k - 1) + (if steps[k - 1] == Tick(j) then 1 else 0)
  }

  lemma StepCountsRequests(s: State, step: Step, s': State, j: nat)
    requires Next(s, step) == Some(s')
    ensures Requests(s', j) == Requests(s, j) + (if step == Tick(j) then 1 else 0)
    ensures step == Tick(j) ==> At(s, j, Selecting) && At(s', j, Requesting)
  {
  }

  // The count that the theorems are about: a request is started by the timer, and by
  // nothing else.
  lemma {:induction false} RequestsAreTicks(run: seq<State>, steps: seq<Step>, j: nat, k: nat)
    requires Took(run, steps) && run[0] == INITIAL && k < |run|
    ensures Requests(run[k], j) == Ticks(steps, j, k)
  {
    hide Next;
    if k > 0 {
      RequestsAreTicks(run, steps, j, k - 1);
      StepCountsRequests(run[k - 1], steps[k - 1], run[k - 1 + 1], j);
    }
  }

  // A goroutine that is at its send or over has been told to stop.
  ghost predicate StopsWhenTold(s: State) {
    forall j :: 0 <= j < |s.loops| && (s.loops[j].phase == Sending || s.loops[j].phase == Ended) ==>
      s.failed || s.loops[j].cancelled
  }

  lemma StepKeepsStopsWhenTold(s: State, step: Step, s': State)
    requires StopsWhenTold(s) && Next(s, step) == Some(s')
    ensures StopsWhenTold(s')
  {
  }

  // No loop stops on its own: not before the test has failed or its cleanup has
  // cancelled it.
  lemma {:induction false} LoopsRunUntilTold(run: seq<State>, steps: seq<Step>, k: nat)
    requires Took(run, steps) && run[0] == INITIAL && k < |run|
    ensures StopsWhenTold(run[k])
  {
    hide Next, StopsWhenTold;
    if k == 0 {
      NothingToTell();
    } else {
      LoopsRunUntilTold(run, steps, k - 1);
      StepKeepsStopsWhenTold(run[k - 1], steps[k - 1], run[k - 1 + 1]);
    }
  }

  lemma NothingToTell()
    ensures StopsWhenTold(INITIAL)
  {
  }

  // ----- deadlock -----

  ghost predicate Stuck(s: State) {
    forall step :: Next(s, step).None?
  }

  // While a cleanup waits, its loop's goroutine can move, unless it died.
  lemma WaitedLoopCanMove(s: State)
    requires Reachable(s) && s.main.Waiting? && !At(s, s.main.loop, Died)
    ensures var j := s.main.loop;
      exists step ::
        && (step == Rendezvous || step == Check(j) || step == SeeCancel(j) || step == Complete(j, true))
        && Next(s, step).Some?
  {
    ReachableInv(s);
    var j := s.main.loop;
    match s.loops[j].phase
    case Checking => assert Next(s, Check(j)).Some?;
    case Selecting => assert Next(s, SeeCancel(j)).Some?;
    case Requesting => assert Next(s, Complete(j, true)).Some?;
    case Sending => assert Next(s, Rendezvous).Some?;
  }

  // No step is left to goroutine j on its own.
  predicate Halted(s: State, j: nat)
    requires j < |s.loops|
  {
    s.loops[j].phase == Sending || s.loops[j].phase == Ended || s.loops[j].phase == Died
  }

  // The stuck states before the end of the test are exactly those in which a cleanup
  // waits for a loop whose request called Fatalf, and all other loops have come to
  // their send or ended.
  lemma StuckOnlyOnDiedLoop(s: State)
    requires Reachable(s) && !s.main.Finished?
    ensures Stuck(s) <==>
      && s.main.Waiting? && At(s, s.main.loop, Died)
      && forall j :: 0 <= j < |s.loops| ==> Halted(s, j)
  {
    ReachableInv(s);
    if Stuck(s) {
      if s.main.Waiting? && !At(s, s.main.loop, Died) {
        WaitedLoopCanMove(s);
      }
      assert Next(s, EndBody).None? && Next(s, EndPlain).None? && Next(s, Cancel).None?;
      assert Next(s, Pop).None? && Next(s, Finish).None?;
      forall j: nat | j < |s.loops| ensures Halted(s, j) {
        assert Next(s, Check(j)).None? && Next(s, Tick(j)).None? && Next(s, Complete(j, true)).None?;
      }
    } else if s.main.Waiting? && At(s, s.main.loop, Died) {
      var step :| Next(s, step).Some?;
      HaltedLoopsStay(s, step);
    }
  }

  lemma HaltedLoopsStay(s: State, step: Step)
    requires s.main.Waiting? && At(s, s.main.loop, Died) && Next(s, step).Some?
    ensures exists j :: 0 <= j < |s.loops| && !Halted(s, j)
  {
    assert step.Check? || step.SeeCancel? || step.Tick? || step.Complete? || step.Abort?;
    assert !Halted(s, step.loop);
  }

  lemma ReachableStep(s: State, step: Step)
    requires Reachable(s) && Next(s, step).Some?
    ensures Reachable(Next(s, step).value)
  {
    hide Next;
    var run :| IsRun(run) && run[0] == INITIAL && run[|run| - 1] == s;
    var s' := Next(s, step).value;
    var longer := run + [s'];
    assert IsStep(s, s');
    forall k | 0 <= k < |longer| - 1 ensures IsStep(longer[k], longer[k + 1]) {
      if k < |run| - 1 {
        assert IsStep(run[k], run[k + 1]);
      }
    }
    assert IsRun(longer) && longer[0] == INITIAL && longer[|longer| - 1] == s';
  }

  // What one loop is stuck in: its only request has called Fatalf.
  const STUCK := State(Waiting(0), 1, [], [Loop(0, Died, true, 0, 0, 1)], true)

  // There are such states: a request that fails when the test body has ended.
  lemma DeadlockHappens()
    ensures Reachable(STUCK) && Stuck(STUCK)
  {
    var s0 := INITIAL;
    assert IsRun([s0]);
    ReachableStep(s0, Launch);
    var s1 := Next(s0, Launch).value;
    ReachableStep(s1, Check(0));
    var s2 := Next(s1, Check(0)).value;
    ReachableStep(s2, Tick(0));
    var s3 := Next(s2, Tick(0)).value;
    ReachableStep(s3, EndBody);
    var s4 := Next(s3, EndBody).value;
    ReachableStep(s4, Abort(0));
    var s5 := Next(s4, Abort(0)).value;
    ReachableStep(s5, Pop);
    var s6 := Next(s5, Pop).value;
    ReachableStep(s6, Cancel);
    assert Next(s6, Cancel).value == STUCK;
    assert Halted(STUCK, 0);
    StuckOnlyOnDiedLoop(STUCK);
  }

  ghost predicate NoneDied(s: State) {
    forall j :: 0 <= j < |s.loops| ==> s.loops[j].phase != Died
  }

  ghost predicate CanFinish(s: State) {
    exists run: seq<State> :: IsRun(run) && run[0] == s && run[|run| - 1].main.Finished?
  }

  // How far the test is from its end when nothing else interferes.
  function Distance(s: State): nat {
    |s.stack| * 10 +
    match s.main
    case Body => 9
    case Idle => 1
    case InPlain(_, _) => 2
    case Cancelling(_) => 8
    case Finished => 0
    case Waiting(j) =>
      if j >= |s.loops| then 0
      else match s.loops[j].phase
        case Requesting => 6
        case Checking => 5
        case Selecting => 4
        case _ => 3
  }

  // A step that brings the end closer.
  function Progress(s: State): Step {
    match s.main
    case Body => EndBody
    case Idle => if s.stack == [] then Finish else Pop
    case InPlain(_, _) => EndPlain
    case Cancelling(_) => Cancel
    case Finished => Finish
    case Waiting(j) =>
      if j >= |s.loops| then Rendezvous
      else match s.loops[j].phase
        case Requesting => Complete(j, true)
        case Checking => Check(j)
        case Selecting => SeeCancel(j)
        case _ => Rendezvous
  }

  lemma ProgressIsMade(s: State)
    requires Inv(s) && NoneDied(s) && !s.main.Finished?
    ensures Next(s, Progress(s)).Some?
    ensures Distance(Next(s, Progress(s)).value) < Distance(s)
    ensures NoneDied(Next(s, Progress(s)).value)
  {
  }

  lemma {:induction false} FinishingRun(s: State) returns (run: seq<State>)
    requires Inv(s) && NoneDied(s)
    ensures IsRun(run) && run[0] == s && run[|run| - 1].main.Finished?
    decreases Distance(s)
  {
    if s.main.Finished? {
      run := [s];
    } else {
      ProgressIsMade(s);
      var s' := Next(s, Progress(s)).value;
      StepKeepsInv(s, Progress(s), s');
      var rest := FinishingRun(s');
      run := [s] + rest;
      assert IsStep(s, s');
      forall k | 0 <= k < |run| - 1 ensures IsStep(run[k], run[k + 1]) {
        if k > 0 {
          assert run[k] == rest[k - 1] && run[k + 1] == rest[k - 1 + 1];
        }
      }
    }
  }

  lemma {:induction false} DiedForever(run: seq<State>, k: nat, j: nat)
    requires IsRun(run) && Inv(run[0]) && At(run[0], j, Died) && k < |run|
    ensures At(run[k], j, Died)
  {
    hide Inv, Next;
    if k > 0 {
      DiedForever(run, k - 1, j);
      RunKeepsInv(run, k - 1);
      assert IsStep(run[k - 1], run[k - 1 + 1]);
      var step :| Next(run[k - 1], step) == Some(run[k]);
      DiedStays(run[k - 1], step, run[k], j);
    }
  }

  lemma DiedBlocksEnd(run: seq<State>, j: nat)
    requires IsRun(run) && Inv(run[0]) && At(run[0], j, Died)
    ensures !run[|run| - 1].main.Finished?
  {
    DiedForever(run, |run| - 1, j);
    RunKeepsInv(run, |run| - 1);
    assert Accounted(run[|run| - 1], j);
  }

  // The test can still finish exactly when no request has ended its goroutine.
  lemma CanFinishIffNoneDied(s: State)
    requires Reachable(s)
    ensures CanFinish(s) <==> NoneDied(s)
  {
    ReachableInv(s);
    if NoneDied(s) {
      var run := FinishingRun(s);
    }
    if !NoneDied(s) {
      var j :| 0 <= j < |s.loops| && s.loops[j].phase == Died;
      forall run: seq<State> | IsRun(run) && run[0] == s ensures !run[|run| - 1].main.Finished? {
        DiedBlocksEnd(run, j);
      }
    }
  }
}
