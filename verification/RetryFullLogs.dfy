/**
  What is logged when failed attempts are logged, which is the default: everything, as
  it is said.  An unnested call prints the messages of all its attempts in order, and
  between them the notes about the attempts.
 */
module RetryFullLogs {
  import opened Wrappers
  import opened RetryModel
  import opened RetryIsolation
  import opened RetryLogs
  import opened RetryExhaustion

  // After failed attempt i, which is not the last; a delay of one second is the default.
  function Note(o: Options, i: nat): seq<Message> {
    if !o.logAttempts then []
    else if o.delay == 1 then [Retrying(i + 1, o.maxAttempts)]
    else [RetryingIn(i + 1, o.maxAttempts, o.delay)]
  }

  // After a success in attempt j of n.
  function Warning(j: nat, n: nat): seq<Message> {
    if 10 * j >= 9 * n then [AlmostCertainlyFlaky]
    else if 4 * j >= 3 * n then [MayBeFlaky]
    else []
  }

  // After attempt j, with which the call ends: how its callback and the call were left.
  function Ending(o: Options, j: nat, callback: Outcome, call: Outcome): seq<Message>
    requires j < o.maxAttempts
  {
    if call == Returned then
      (if j > 0 && o.logAttempts then [AttemptSuccessful(j + 1, o.maxAttempts)] else []) + Warning(j, o.maxAttempts)
    else if callback == Returned && o.logAttempts then
      [LastAttemptFailed(j + 1, o.maxAttempts)]
    else
      []
  }

  // What the attempts from i up to j, all failed, have said, with the notes.
  function FailedAttempts(tr: seq<Event>, from: nat, path: Path, o: Options, i: nat, j: nat): seq<Message>
    decreases j - i
  {
    if i >= j then []
    else Spoken(tr, from, path + [i]) + Note(o, i) + FailedAttempts(tr, from, path, o, i + 1, j)
  }

  // Said in attempt i or later.
  predicate InLater(p: Path, path: Path, i: nat) {
    |p| == |path| + 1 && p[..|path|] == path && p[|path|] >= i
  }

  // From s on, where attempt i is next, the call logs the attempts up to j, in order
  // and in full, and leaves every retry helper as it was.
  ghost predicate ShowsAll(s: State, path: Path, o: Options, i: nat, j: nat, callback: Outcome, r: Result) {
    var tr := r.state.trace;
    && i <= j < o.maxAttempts && s.trace <= tr && r.state.live == s.live
    && (forall k :: |s.trace| <= k < |tr| && tr[k].Said? ==> InLater(tr[k].path, path, i))
    && r.state.log == s.log + Lines(s.step > 0,
         FailedAttempts(tr, |s.trace|, path, o, i, j) + Spoken(tr, |s.trace|, path + [j])
         + Ending(o, j, callback, r.outcome))
  }

  // ----- one attempt -----

  ghost predicate SaysAll(s: State, p: Path, s': State) {
    && s.trace <= s'.trace && s'.step == s.step
    && s'.log == s.log + Lines(s.step > 0, Spoken(s'.trace, |s.trace|, p))
    && (forall k :: |s.trace| <= k < |s'.trace| && s'.trace[k].Said? ==> s'.trace[k].path == p)
  }

  lemma AttemptSaysAll(cfg: Config, o: Options, body: Command, i: nat, sc: Scope, s: State)
    requires cfg.logFailed && Flat(body, |sc.vars|) && i < o.maxAttempts
    ensures var r := AttemptResult(cfg, 0, o, body, i, sc, s);
      && SaysAll(s, sc.path + [i], r.state)
      && |s.live| <= |r.state.live| && r.state.live[..|s.live|] == s.live
      && |r.state.live| == |s.live| + (if i == o.maxAttempts - 1 then 0 else 1)
  {
    hide Eval, Spoken, SpokeAt, Lines;
    var sc1, s1 := AttemptScope(0, o, i, sc, s), AttemptStart(0, o, i, sc, s);
    var h := sc1.vars[|sc.vars|];
    FlatSpeaks(cfg, body, |sc.vars|, sc1, s1);
    SpokenSinceStart(cfg, s, s1, sc1.path, h, Eval(cfg, body, sc1, s1).state);
  }

  lemma FailSaysNothing(s: State, s': State, p: Path)
    requires SaysAll(s, p, s') && |s'.live| > |s.live| && s'.live[..|s.live|] == s.live
    ensures SaysAll(s, p, Fail(s', |s'.live|)) && Fail(s', |s'.live|).live[..|s.live|] == s.live
  {
  }

  // A non-last attempt, run on a helper of its own.
  lemma RunSaysAll(cfg: Config, o: Options, body: Command, i: nat, sc: Scope, s: State)
    requires cfg.logFailed && Flat(body, |sc.vars|) && i < o.maxAttempts - 1
    ensures var r := RunAttempt(cfg, "", body, 0, i, o.maxAttempts, i, sc, s);
      SaysAll(s, sc.path + [i], r.state) && Pop(r.state).live == s.live
  {
    hide Eval, SaysAll, AttemptResult;
    AttemptSaysAll(cfg, o, body, i, sc, s);
    AttemptIsCallback(cfg, 0, o, body, i, sc, s);
    FailSaysNothing(s, AttemptResult(cfg, 0, o, body, i, sc, s).state, sc.path + [i]);
  }

  // ----- the notes -----

  lemma NotePrints(cfg: Config, s: State, i: nat, o: Options)
    requires cfg.logFailed
    ensures NoteFailedAttempt(cfg, s, 0, i, o) == s.(log := s.log + Lines(s.step > 0, Note(o, i)))
  {
    if !o.logAttempts {
      NoLines(s);
    }
  }

  lemma NoLines(s: State)
    ensures s == s.(log := s.log + Lines(s.step > 0, []))
  {
  }

  lemma LinesAppend(indented: bool, a: seq<Message>, b: seq<Message>)
    ensures Lines(indented, a + b) == Lines(indented, a) + Lines(indented, b)
  {
  }

  lemma EmitOnTop(cfg: Config, s: State, m: Message)
    ensures Emit(cfg, s, 0, m) == s.(log := s.log + Lines(s.step > 0, [m]))
  {
  }

  lemma WarningPrints(cfg: Config, s: State, j: nat, n: nat)
    requires j < n
    ensures Warn(cfg, s, 0, j, n) == s.(log := s.log + Lines(s.step > 0, Warning(j, n)))
  {
    WarningsExact(cfg, s, 0, j, n);
    EmitOnTop(cfg, s, AlmostCertainlyFlaky);
    EmitOnTop(cfg, s, MayBeFlaky);
    NoLines(s);
  }

  lemma SuccessPrints(cfg: Config, s: State, used: Handle, j: nat, o: Options, callback: Outcome)
    requires cfg.logFailed && j < o.maxAttempts
    ensures Succeed(cfg, s, 0, used, j, o)
         == s.(log := s.log + Lines(s.step > 0, Ending(o, j, callback, Returned)))
  {
    hide Warn, Warning, Lines;
    var first := if j > 0 && o.logAttempts then [AttemptSuccessful(j + 1, o.maxAttempts)] else [];
    EmitOnTop(cfg, s, AttemptSuccessful(j + 1, o.maxAttempts));
    NoLines(s);
    var s1 := s.(log := s.log + Lines(s.step > 0, first));
    WarningPrints(cfg, s1, j, o.maxAttempts);
    LinesAppend(s.step > 0, first, Warning(j, o.maxAttempts));
  }

  lemma ExhaustedPrints(cfg: Config, s: State, j: nat, o: Options)
    requires cfg.logFailed && j < o.maxAttempts
    ensures Exhausted(cfg, s, 0, j, o)
         == Result(Exited, s.(log := s.log + Lines(s.step > 0, Ending(o, j, Returned, Exited)), failed := true))
  {
    EmitOnTop(cfg, s, LastAttemptFailed(j + 1, o.maxAttempts));
    NoLines(s);
  }

  // ----- the notes on any helper -----

  // A note or a warning goes where any message sent through that helper goes.
  lemma NotesOnAnyHelper(cfg: Config, s: State, h: Handle, i: nat, o: Options)
    requires i < o.maxAttempts && h <= |s.live|
    ensures Sent(cfg, s, h, if cfg.logFailed then Note(o, i) else [], NoteFailedAttempt(cfg, s, h, i, o))
    ensures var r := Exhausted(cfg, s, h, i, o);
      Sent(cfg, s, h, if cfg.logFailed then Ending(o, i, Returned, Exited) else [], r.state)
    ensures Sent(cfg, s, h, Warning(i, o.maxAttempts), Warn(cfg, s, h, i, o.maxAttempts))
  {
    hide Emit, Lines, Warn, Sent;
    NothingSent(cfg, s, h);
    EmitSends(cfg, s, h, Retrying(i + 1, o.maxAttempts));
    EmitSends(cfg, s, h, RetryingIn(i + 1, o.maxAttempts, o.delay));
    EmitSends(cfg, s, h, LastAttemptFailed(i + 1, o.maxAttempts));
    FailedIsNoMessage(cfg, s, h, [], s);
    FailedIsNoMessage(cfg, s, h, [LastAttemptFailed(i + 1, o.maxAttempts)],
                      Emit(cfg, s, h, LastAttemptFailed(i + 1, o.maxAttempts)));
    WarningsExact(cfg, s, h, i, o.maxAttempts);
    EmitSends(cfg, s, h, AlmostCertainlyFlaky);
    EmitSends(cfg, s, h, MayBeFlaky);
  }

  lemma NothingSent(cfg: Config, s: State, h: Handle)
    ensures Sent(cfg, s, h, [], s)
  {
  }

  lemma FailedIsNoMessage(cfg: Config, s: State, h: Handle, ms: seq<Message>, s': State)
    requires Sent(cfg, s, h, ms, s')
    ensures Sent(cfg, s, h, ms, s'.(failed := true))
  {
  }

  // After a success the messages of the helper used are printed when failed attempts are
  // not logged, and the note about the success is sent when they are.
  lemma SuccessOnAnyHelper(cfg: Config, s: State, h: Handle, used: Handle, i: nat, o: Options)
    requires i < o.maxAttempts && h <= |s.live| && used <= |s.live|
    ensures var s1 :=
        if cfg.logFailed || used == 0 then s
        else s.(log := s.log + Lines(s.live[used - 1].step > 0, s.live[used - 1].buffer),
                live := s.live[used - 1 := s.live[used - 1].(buffer := [])]);
      var success := if cfg.logFailed && i > 0 && o.logAttempts then [AttemptSuccessful(i + 1, o.maxAttempts)] else [];
      Sent(cfg, s1, h, success + Warning(i, o.maxAttempts), Succeed(cfg, s, h, used, i, o))
  {
    hide Emit, Lines, Warn, Sent, Warning;
    var m := AttemptSuccessful(i + 1, o.maxAttempts);
    var s1 := if cfg.logFailed || used == 0 then s else Flush(cfg, s, used);
    var success := if cfg.logFailed && i > 0 && o.logAttempts then [m] else [];
    var s2 := if cfg.logFailed && i > 0 && o.logAttempts then Emit(cfg, s1, h, m) else s1;
    NothingSent(cfg, s1, h);
    EmitSends(cfg, s1, h, m);
    EmitKeepsLive(cfg, s1, h, m);
    NotesOnAnyHelper(cfg, s2, h, i, o);
    SentThen(cfg, s1, s2, Succeed(cfg, s, h, used, i, o), h, success, Warning(i, o.maxAttempts));
  }

  // ----- the loop -----

  // The call ends with this attempt.
  lemma LastShown(s: State, path: Path, o: Options, j: nat, callback: Outcome, s': State, r: Result)
    requires j < o.maxAttempts && SaysAll(s, path + [j], s')
    requires r.state.trace == s'.trace && r.state.live == s.live
    requires r.state.log == s'.log + Lines(s.step > 0, Ending(o, j, callback, r.outcome))
    ensures ShowsAll(s, path, o, j, j, callback, r)
  {
    hide Spoken, Ending;
    LinesAppend(s.step > 0, Spoken(s'.trace, |s.trace|, path + [j]), Ending(o, j, callback, r.outcome));
    assert FailedAttempts(s'.trace, |s.trace|, path, o, j, j) == [];
    hide Lines;
    assert [] + Spoken(s'.trace, |s.trace|, path + [j]) == Spoken(s'.trace, |s.trace|, path + [j]);
  }

  // What later attempts say does not change what the earlier ones have said.
  lemma {:induction false} LaterAttempts(a: seq<Event>, b: seq<Event>, from: nat, path: Path, o: Options, i: nat,
                                         j: nat)
    requires from <= |a| && a <= b
    requires forall k :: from <= k < |a| && a[k].Said? ==> !InLater(a[k].path, path, i)
    ensures FailedAttempts(b, from, path, o, i, j) == FailedAttempts(b, |a|, path, o, i, j)
    decreases j - i
  {
    if i < j {
      SpokenLater(a, b, from, path, i);
      hide Spoken;
      LaterAttempts(a, b, from, path, o, i + 1, j);
    }
  }

  lemma SpokenLater(a: seq<Event>, b: seq<Event>, from: nat, path: Path, i: nat)
    requires from <= |a| && a <= b
    requires forall k :: from <= k < |a| && a[k].Said? ==> a[k].path != path + [i]
    ensures Spoken(b, from, path + [i]) == Spoken(b, |a|, path + [i])
  {
    SpokenSplits(a, b, from, path + [i]);
    NotSpoken(a, from, path + [i]);
    assert [] + Spoken(b, |a|, path + [i]) == Spoken(b, |a|, path + [i]);
  }

  lemma {:induction false} NotSpoken(tr: seq<Event>, from: nat, p: Path)
    requires forall k :: from <= k < |tr| && tr[k].Said? ==> tr[k].path != p
    ensures Spoken(tr, from, p) == []
  {
    if from < |tr| {
      NotSpoken(tr[..|tr| - 1], from, p);
    }
  }

  lemma SpokenBefore(a: seq<Event>, b: seq<Event>, from: nat, path: Path, i: nat)
    requires from <= |a| && a <= b
    requires forall k :: |a| <= k < |b| && b[k].Said? ==> InLater(b[k].path, path, i + 1)
    ensures Spoken(b, from, path + [i]) == Spoken(a, from, path + [i])
  {
    SpokenSplits(a, b, from, path + [i]);
    NotSpoken(b, |a|, path + [i]);
    assert Spoken(a, from, path + [i]) + [] == Spoken(a, from, path + [i]);
  }

  // A failed attempt and its note come before everything that follows.
  lemma FailedShown(s: State, s1: State, s2: State, path: Path, o: Options, i: nat, j: nat,
                    callback: Outcome, r: Result)
    requires SaysAll(s, path + [i], s1) && s2.trace == s1.trace && s2.live == s.live && s2.step == s.step
    requires s2.log == s1.log + Lines(s.step > 0, Note(o, i))
    requires ShowsAll(s2, path, o, i + 1, j, callback, r)
    ensures ShowsAll(s, path, o, i, j, callback, r)
  {
    hide Spoken, Ending, Note, Lines, FailedAttempts;
    var tr, from := r.state.trace, |s.trace|;
    SpokenBefore(s1.trace, tr, from, path, i);
    LaterAttempts(s1.trace, tr, from, path, o, i + 1, j);
    SpokenLater(s1.trace, tr, from, path, j);
    FailedFirst(tr, from, path, o, i, j);
    var said, note := Spoken(tr, from, path + [i]), Note(o, i);
    var rest := FailedAttempts(tr, from, path, o, i + 1, j);
    var last := Spoken(tr, from, path + [j]) + Ending(o, j, callback, r.outcome);
    RegroupLines(s.step > 0, s.log, said, note, rest, Spoken(tr, from, path + [j]), Ending(o, j, callback, r.outcome));
  }

  lemma FailedFirst(tr: seq<Event>, from: nat, path: Path, o: Options, i: nat, j: nat)
    requires i < j
    ensures FailedAttempts(tr, from, path, o, i, j)
         == Spoken(tr, from, path + [i]) + Note(o, i) + FailedAttempts(tr, from, path, o, i + 1, j)
  {
  }

  lemma RegroupLines(indented: bool, log: seq<Line>, a: seq<Message>, b: seq<Message>, c: seq<Message>, d: seq<Message>,
                     e: seq<Message>)
    ensures log + Lines(indented, a) + Lines(indented, b) + Lines(indented, c + d + e)
         == log + Lines(indented, (a + b + c) + d + e)
  {
    assert (a + b + c) + d + e == a + (b + (c + d + e));
    LinesAppend(indented, a, b + (c + d + e));
    LinesAppend(indented, b, c + d + e);
  }

  lemma {:induction false} LoopShowsAll(cfg: Config, o: Options, body: Command, i: nat, sc: Scope, s0: State, s: State)
    requires cfg.logFailed && Flat(body, |sc.vars|) && i < o.maxAttempts
    requires StateBefore(cfg, 0, o, body, i, sc, s0) == Some(s)
    ensures exists j ::
      && i <= j && EndsWith(cfg, o, body, j, sc, s0)
      && ShowsAll(s, sc.path, o, i, j, CallbackOutcome(cfg, o, body, j, sc, s0), UntilFrom(cfg, 0, o, body, i, sc, s))
    decreases o.maxAttempts - i
  {
    hide Eval, Succeed, RunAttempt, ShowsAll, HasFailed, NoteFailedAttempt, Exhausted, AttemptResult, SaysAll, Lines,
         Ending;
    if i == o.maxAttempts - 1 {
      LastAttemptShown(cfg, o, body, sc, s);
      assert EndsWith(cfg, o, body, i, sc, s0);
    } else {
      RunSaysAll(cfg, o, body, i, sc, s);
      var r := RunAttempt(cfg, "", body, 0, i, o.maxAttempts, i, sc, s);
      if r.outcome == Returned && HasFailed(r.state, |r.state.live|) {
        var s2 := NoteFailedAttempt(cfg, Pop(r.state), 0, i, o);
        NotePrints(cfg, Pop(r.state), i, o);
        assert StateBefore(cfg, 0, o, body, i + 1, sc, s0) == Some(s2);
        LoopShowsAll(cfg, o, body, i + 1, sc, s0, s2);
        var j :| i + 1 <= j && EndsWith(cfg, o, body, j, sc, s0)
              && ShowsAll(s2, sc.path, o, i + 1, j, CallbackOutcome(cfg, o, body, j, sc, s0),
                          UntilFrom(cfg, 0, o, body, i + 1, sc, s2));
        SameStep(s, sc.path + [i], r.state);
        FailedShown(s, r.state, s2, sc.path, o, i, j, CallbackOutcome(cfg, o, body, j, sc, s0),
                    UntilFrom(cfg, 0, o, body, i + 1, sc, s2));
      } else {
        DecidedShown(cfg, o, body, i, sc, s);
        assert EndsWith(cfg, o, body, i, sc, s0);
      }
    }
  }

  lemma SameStep(s: State, p: Path, s': State)
    requires SaysAll(s, p, s')
    ensures s'.step == s.step
  {
  }

  // How the callback of attempt j was left.
  ghost function CallbackOutcome(cfg: Config, o: Options, body: Command, j: nat, sc: Scope, s: State): Outcome {
    match StateBefore(cfg, 0, o, body, j, sc, s)
    case None => Exited
    case Some(sj) => AttemptResult(cfg, 0, o, body, j, sc, sj).outcome
  }

  lemma LastAttemptShown(cfg: Config, o: Options, body: Command, sc: Scope, s: State)
    requires cfg.logFailed && Flat(body, |sc.vars|) && o.maxAttempts > 0
    ensures var i := o.maxAttempts - 1;
      ShowsAll(s, sc.path, o, i, i, AttemptResult(cfg, 0, o, body, i, sc, s).outcome,
               UntilFrom(cfg, 0, o, body, i, sc, s))
  {
    hide Eval, Succeed, Exhausted, RunAttempt, SaysAll, ShowsAll, Ending, Lines;
    var i := o.maxAttempts - 1;
    AttemptSaysAll(cfg, o, body, i, sc, s);
    var r := AttemptResult(cfg, 0, o, body, i, sc, s);
    SameStep(s, sc.path + [i], r.state);
    assert r.state.live[..|s.live|] == r.state.live;
    SuccessPrints(cfg, r.state, 0, i, o, r.outcome);
    ExhaustedPrints(cfg, r.state, i, o);
    if r.outcome != Returned {
      NoEnding(s, o, i, r);
    }
    LastShown(s, sc.path, o, i, r.outcome, r.state, UntilFrom(cfg, 0, o, body, i, sc, s));
  }

  lemma NoEnding(s: State, o: Options, j: nat, r: Result)
    requires j < o.maxAttempts && r.outcome != Returned
    ensures r.state.log == r.state.log + Lines(s.step > 0, Ending(o, j, r.outcome, r.outcome))
  {
  }

  lemma DecidedShown(cfg: Config, o: Options, body: Command, i: nat, sc: Scope, s: State)
    requires cfg.logFailed && Flat(body, |sc.vars|) && i < o.maxAttempts - 1
    requires var r := RunAttempt(cfg, "", body, 0, i, o.maxAttempts, i, sc, s);
      !(r.outcome == Returned && HasFailed(r.state, |r.state.live|))
    ensures ShowsAll(s, sc.path, o, i, i, AttemptResult(cfg, 0, o, body, i, sc, s).outcome,
                     UntilFrom(cfg, 0, o, body, i, sc, s))
  {
    hide Eval, Succeed, Exhausted, RunAttempt, SaysAll, ShowsAll, Ending, Lines, AttemptResult;
    RunSaysAll(cfg, o, body, i, sc, s);
    AttemptIsCallback(cfg, 0, o, body, i, sc, s);
    var a := AttemptResult(cfg, 0, o, body, i, sc, s);
    var r := RunAttempt(cfg, "", body, 0, i, o.maxAttempts, i, sc, s);
    SameStep(s, sc.path + [i], r.state);
    if r.outcome == Returned {
      SuccessPrints(cfg, r.state, |r.state.live|, i, o, a.outcome);
    } else {
      NoEnding(s, o, i, r);
    }
    LastShown(s, sc.path, o, i, a.outcome, r.state, UntilFrom(cfg, 0, o, body, i, sc, s));
  }

  // The log of an unnested call when failed attempts are logged: the messages of every
  // attempt made, in order and once, after each failed one the note about it, and in the
  // end the note about the success with the warning, or that about the last failure.
  lemma EveryAttemptIsLogged(cfg: Config, o: Options, body: Command, sc: Scope, s: State)
    requires cfg.logFailed && Flat(body, |sc.vars|) && o.maxAttempts > 0
    ensures exists j ::
      && 0 <= j && EndsWith(cfg, o, body, j, sc, s)
      && ShowsAll(s, sc.path, o, 0, j, CallbackOutcome(cfg, o, body, j, sc, s), UntilFrom(cfg, 0, o, body, 0, sc, s))
  {
    LoopShowsAll(cfg, o, body, 0, sc, s, s);
  }

  // ----- any nesting -----

  // No LogStep, whose lines are printed without being sent through a helper's Log.
  predicate WithoutSteps(c: Command) {
    match c
    case Nop => true
    case Do(_, act) => !act.LogStep?
    case Panic(_) => true
    case Seq(first, second) => WithoutSteps(first) && WithoutSteps(second)
    case If(_, thn, els) => WithoutSteps(thn) && WithoutSteps(els)
    case With(_, _, body) => WithoutSteps(body)
    case UntilSuccess(_, _, body) => WithoutSteps(body)
    case Attempt(_, body, after) => WithoutSteps(body) && WithoutSteps(after)
    case RetryFunction(_, _, body) => WithoutSteps(body)
  }

  // The messages of callbacks among these lines; the others are notes.
  function TextsIn(log: seq<Line>): seq<Message> {
    if log == [] then []
    else
      var m := log[|log| - 1].message;
      TextsIn(log[..|log| - 1]) + (if m.Text? then [m] else [])
  }

  function SaidIn(tr: seq<Event>): seq<Message> {
    if tr == [] then []
    else
      var e := tr[|tr| - 1];
      SaidIn(tr[..|tr| - 1]) + (if e.Said? then [e.message] else [])
  }

  // From s to s' the log has gained exactly the messages sent, in the same order, and
  // no buffer has changed.
  ghost predicate Mirrors(s: State, s': State) {
    && Gained(TextsIn(s.log), TextsIn(s'.log), SaidIn(s.trace), SaidIn(s'.trace))
    && |s.live| <= |s'.live|
    && forall j :: 0 <= j < |s.live| ==> s'.live[j].buffer == s.live[j].buffer
  }

  ghost predicate Gained(a: seq<Message>, a': seq<Message>, b: seq<Message>, b': seq<Message>) {
    a <= a' && b <= b' && a'[|a|..] == b'[|b|..]
  }

  lemma GainedThen(a: seq<Message>, a': seq<Message>, a'': seq<Message>, b: seq<Message>, b': seq<Message>,
                   b'': seq<Message>)
    requires Gained(a, a', b, b') && Gained(a', a'', b', b'')
    ensures Gained(a, a'', b, b'')
  {
    assert a''[|a|..] == a'[|a|..] + a''[|a'|..];
    assert b''[|b|..] == b'[|b|..] + b''[|b'|..];
  }

  lemma MirrorsThen(a: State, b: State, c: State)
    requires Mirrors(a, b) && Mirrors(b, c)
    ensures Mirrors(a, c)
  {
    GainedThen(TextsIn(a.log), TextsIn(b.log), TextsIn(c.log), SaidIn(a.trace), SaidIn(b.trace), SaidIn(c.trace));
  }

  // A step that neither sends nor prints a message of a callback.
  lemma QuietlyMirrors(s: State, s': State)
    requires s'.log == s.log || exists l :: s'.log == s.log + [l] && !l.message.Text?
    requires s'.trace == s.trace || exists e :: s'.trace == s.trace + [e] && !e.Said?
    requires |s.live| <= |s'.live| && forall j :: 0 <= j < |s.live| ==> s'.live[j].buffer == s.live[j].buffer
    ensures Mirrors(s, s')
  {
    if l :| s'.log == s.log + [l] && !l.message.Text? {
      TextsAppend(s.log, l);
    }
    if e :| s'.trace == s.trace + [e] && !e.Said? {
      SaidAppend(s.trace, e);
    }
  }

  lemma TextsAppend(log: seq<Line>, l: Line)
    ensures TextsIn(log + [l]) == TextsIn(log) + (if l.message.Text? then [l.message] else [])
  {
  }

  lemma SaidAppend(tr: seq<Event>, e: Event)
    ensures SaidIn(tr + [e]) == SaidIn(tr) + (if e.Said? then [e.message] else [])
  {
  }

  lemma SayMirrors(cfg: Config, s: State, h: Handle, path: Path, m: Message)
    requires cfg.logFailed && m.Text?
    ensures Mirrors(s, Say(cfg, s, h, path, m))
  {
    TextsAppend(s.log, Line(CurrentStep(s, h) > 0, m));
    SaidAppend(s.trace, Said(path, m));
  }

  lemma FatalMirrors(cfg: Config, s: State, h: Handle, path: Path, text: string)
    requires cfg.logFailed
    ensures Mirrors(s, FatalOn(cfg, s, h, path, text).state)
  {
    hide Say, Mirrors, Fail;
    var m := Text((if IsRetry(s, h) then FAILURE_PREFIX else FATAL_PREFIX) + text);
    var s1 := Say(cfg, s, h, path, m);
    SayMirrors(cfg, s, h, path, m);
    FailMirrors(s1, h);
    RecordMirrors(Fail(s1, h), Raised(path, AnswersWillRetry(s1, h)));
    MirrorsThen(s, s1, Fail(s1, h));
    MirrorsThen(s, Fail(s1, h), FatalOn(cfg, s, h, path, text).state);
  }

  lemma FailMirrors(s: State, h: Handle)
    ensures Mirrors(s, Fail(s, h)) && |Fail(s, h).live| == |s.live|
  {
    QuietlyMirrors(s, Fail(s, h));
  }

  lemma RecordMirrors(s: State, e: Event)
    requires !e.Said?
    ensures Mirrors(s, Record(s, e))
  {
    QuietlyMirrors(s, Record(s, e));
  }

  lemma ActMirrors(cfg: Config, act: Act, h: Handle, path: Path, s: State)
    requires cfg.logFailed && !act.LogStep?
    ensures Mirrors(s, Act1(cfg, act, h, path, s).state)
  {
    hide Say, FatalOn, Mirrors, Fail, Record;
    match act
    case Shell =>
      var s1 := Record(s, Shelled(GetKubeconfig(s)));
      RecordMirrors(s, Shelled(GetKubeconfig(s)));
      FatalMirrors(cfg, s1, h, path, "Command failed");
      MirrorsThen(s, s1, FatalOn(cfg, s1, h, path, "Command failed").state);
    case Log(text) => SayMirrors(cfg, s, h, path, Text(text));
    case Error(text) =>
      var s1 := Say(cfg, s, h, path, Text(FAILURE_PREFIX + text));
      SayMirrors(cfg, s, h, path, Text(FAILURE_PREFIX + text));
      FailMirrors(s1, h);
      MirrorsThen(s, s1, Fail(s1, h));
    case Fatal(text) => FatalMirrors(cfg, s, h, path, text);
    case FailNow =>
      FailMirrors(s, h);
      RecordMirrors(Fail(s, h), Raised(path, AnswersWillRetry(s, h)));
      MirrorsThen(s, Fail(s, h), FailNowOn(s, h, path).state);
  }

  lemma EmitMirrors(cfg: Config, s: State, h: Handle, m: Message)
    requires cfg.logFailed && !m.Text?
    ensures Mirrors(s, Emit(cfg, s, h, m)) && |Emit(cfg, s, h, m).live| == |s.live|
  {
    QuietlyMirrors(s, Emit(cfg, s, h, m));
  }

  lemma MirrorsSelf(s: State)
    ensures Mirrors(s, s)
  {
    QuietlyMirrors(s, s);
  }

  lemma NotesMirror(cfg: Config, s: State, h: Handle, used: Handle, i: nat, o: Options)
    requires cfg.logFailed
    ensures Mirrors(s, NoteFailedAttempt(cfg, s, h, i, o))
    ensures Mirrors(s, Exhausted(cfg, s, h, i, o).state)
    ensures Mirrors(s, Succeed(cfg, s, h, used, i, o))
    ensures |NoteFailedAttempt(cfg, s, h, i, o).live| == |s.live|
    ensures |Succeed(cfg, s, h, used, i, o).live| == |s.live|
  {
    hide Emit, Mirrors;
    MirrorsSelf(s);
    EmitMirrors(cfg, s, h, Retrying(i + 1, o.maxAttempts));
    EmitMirrors(cfg, s, h, RetryingIn(i + 1, o.maxAttempts, o.delay));
    EmitMirrors(cfg, s, h, LastAttemptFailed(i + 1, o.maxAttempts));
    EmitMirrors(cfg, s, h, AttemptSuccessful(i + 1, o.maxAttempts));
    TestFailedMirrors(s, Emit(cfg, s, h, LastAttemptFailed(i + 1, o.maxAttempts)));
    TestFailedMirrors(s, s);
    var s1 := if i > 0 && o.logAttempts then Emit(cfg, s, h, AttemptSuccessful(i + 1, o.maxAttempts)) else s;
    MirrorsSelf(s1);
    EmitMirrors(cfg, s1, h, AlmostCertainlyFlaky);
    EmitMirrors(cfg, s1, h, MayBeFlaky);
    MirrorsThen(s, s1, Succeed(cfg, s, h, used, i, o));
  }

  lemma TestFailedMirrors(s: State, s': State)
    requires Mirrors(s, s')
    ensures Mirrors(s, s'.(failed := true))
  {
  }

  lemma SetKubeconfigMirrors(s: State, s': State, k: Option<string>)
    requires Mirrors(s, s')
    ensures Mirrors(s, s'.(kubeconfig := k))
  {
  }

  lemma PopMirrors(s: State, s': State)
    requires Mirrors(s, s') && |s.live| < |s'.live|
    ensures Mirrors(s, Pop(s'))
  {
  }

  lemma EnterMirrors(s: State, h: Handle, attempt: nat, maxAttempts: int, path: Path)
    ensures Mirrors(s, Enter(s, h, attempt, maxAttempts, path))
  {
    QuietlyMirrors(s, Enter(s, h, attempt, maxAttempts, path));
  }

  lemma {:induction false} EvalMirrors(cfg: Config, c: Command, sc: Scope, s: State)
    requires cfg.logFailed && WithoutSteps(c)
    ensures Mirrors(s, Eval(cfg, c, sc, s).state)
    decreases c, 0
  {
    hide Act1, EvalWith, UntilFrom, RunAttempt, RetryFrom, Mirrors;
    match c
    case Nop => MirrorsSelf(s);
    case Do(t, act) => ActMirrors(cfg, act, HandleOf(sc, t), sc.path, s);
    case Panic(value) => MirrorsSelf(s);
    case Seq(first, second) =>
      EvalMirrors(cfg, first, sc, s);
      var r := Eval(cfg, first, sc, s);
      if r.outcome == Returned {
        EvalMirrors(cfg, second, sc, r.state);
        MirrorsThen(s, r.state, Eval(cfg, second, sc, r.state).state);
      }
    case If(query, thn, els) =>
      var (answer, s1) := Ask(cfg, query, sc, s);
      QuietlyMirrors(s, s1);
      var c1 := if answer then thn else els;
      EvalMirrors(cfg, c1, sc, s1);
      MirrorsThen(s, s1, Eval(cfg, c1, sc, s1).state);
    case With(t, kubeconfig, body) =>
      WithMirrors(cfg, HandleOf(sc, t), kubeconfig, body, sc, s);
    case UntilSuccess(t, options, body) =>
      LoopMirrors(cfg, HandleOf(sc, t), options, body, 0, sc, s);
    case Attempt(t, body, after) =>
      AttemptMirrors(cfg, "", body, HandleOf(sc, t), 0, 1, 0, sc, s);
      var r := RunAttempt(cfg, "", body, HandleOf(sc, t), 0, 1, 0, sc, s);
      PopMirrors(s, r.state);
      if r.outcome == Returned {
        var sc1 := Bind(sc, |r.state.live|, 0);
        EvalMirrors(cfg, after, sc1, r.state);
        MirrorsThen(s, r.state, Eval(cfg, after, sc1, r.state).state);
        PopMirrors(s, Eval(cfg, after, sc1, r.state).state);
      }
    case RetryFunction(t, kubeconfig, body) =>
      RetryMirrors(cfg, HandleOf(sc, t), kubeconfig, body, 0, sc, s);
  }

  lemma {:induction false} WithMirrors(cfg: Config, h: Handle, kubeconfig: string, body: Command, sc: Scope, s: State)
    requires cfg.logFailed && WithoutSteps(body)
    ensures Mirrors(s, EvalWith(cfg, h, kubeconfig, body, sc, s).state)
    decreases body, 1
  {
    hide Eval, FatalOn, Mirrors;
    var s1 := Entered(kubeconfig, s);
    MirrorsSelf(s);
    SetKubeconfigMirrors(s, s, Some(kubeconfig));
    EvalMirrors(cfg, body, sc, s1);
    var r := Eval(cfg, body, sc, s1);
    MirrorsThen(s, s1, r.state);
    FatalMirrors(cfg, s, h, sc.path, "could not set KUBECONFIG");
    FatalMirrors(cfg, r.state, h, sc.path, "could not set KUBECONFIG");
    MirrorsThen(s, r.state, FatalOn(cfg, r.state, h, sc.path, "could not set KUBECONFIG").state);
    SetKubeconfigMirrors(s, r.state, Some(GetKubeconfig(s)));
  }

  lemma {:induction false} AttemptMirrors(cfg: Config, kubeconfig: string, body: Command, parent: Handle,
                                          attempt: nat, maxAttempts: int, run: nat, sc: Scope, s: State)
    requires cfg.logFailed && WithoutSteps(body)
    ensures Mirrors(s, RunAttempt(cfg, kubeconfig, body, parent, attempt, maxAttempts, run, sc, s).state)
    decreases body, 2
  {
    hide EvalWith, Enter, Fail, Mirrors;
    var sc1 := Bind(sc, |s.live| + 1, run);
    var s1 := Enter(s, parent, attempt, maxAttempts, sc1.path);
    EnterMirrors(s, parent, attempt, maxAttempts, sc1.path);
    EnterPushes(s, parent, attempt, maxAttempts, sc1.path);
    WithMirrors(cfg, |s1.live|, kubeconfig, body, sc1, s1);
    var r := EvalWith(cfg, |s1.live|, kubeconfig, body, sc1, s1);
    MirrorsThen(s, s1, r.state);
    FailMirrors(r.state, |r.state.live|);
    MirrorsThen(s, r.state, Fail(r.state, |r.state.live|));
  }

  lemma {:induction false} LoopMirrors(cfg: Config, h: Handle, o: Options, body: Command, i: nat, sc: Scope, s: State)
    requires cfg.logFailed && WithoutSteps(body)
    ensures Mirrors(s, UntilFrom(cfg, h, o, body, i, sc, s).state)
    decreases body, 3, o.maxAttempts - i
  {
    hide Eval, RunAttempt, NoteFailedAttempt, Succeed, Exhausted, HasFailed, Mirrors;
    if i >= o.maxAttempts {
      MirrorsSelf(s);
    } else if i == o.maxAttempts - 1 {
      LastMirrors(cfg, h, o, body, i, sc, s);
    } else {
      AttemptMirrors(cfg, "", body, h, i, o.maxAttempts, i, sc, s);
      var r := RunAttempt(cfg, "", body, h, i, o.maxAttempts, i, sc, s);
      PopMirrors(s, r.state);
      NotesMirror(cfg, r.state, h, |r.state.live|, i, o);
      MirrorsThen(s, r.state, Succeed(cfg, r.state, h, |r.state.live|, i, o));
      PopMirrors(s, Succeed(cfg, r.state, h, |r.state.live|, i, o));
      var s2 := NoteFailedAttempt(cfg, Pop(r.state), h, i, o);
      NotesMirror(cfg, Pop(r.state), h, h, i, o);
      MirrorsThen(s, Pop(r.state), s2);
      LoopMirrors(cfg, h, o, body, i + 1, sc, s2);
      MirrorsThen(s, s2, UntilFrom(cfg, h, o, body, i + 1, sc, s2).state);
    }
  }

  lemma {:induction false} LastMirrors(cfg: Config, h: Handle, o: Options, body: Command, i: nat, sc: Scope, s: State)
    requires cfg.logFailed && WithoutSteps(body) && i == o.maxAttempts - 1
    ensures Mirrors(s, UntilFrom(cfg, h, o, body, i, sc, s).state)
    decreases body, 2
  {
    hide Eval, Succeed, Exhausted, HasFailed, Mirrors, Record;
    var sc1 := Bind(sc, h, i);
    var s1 := Record(s, Ran(sc1.path));
    RecordMirrors(s, Ran(sc1.path));
    EvalMirrors(cfg, body, sc1, s1);
    var r := Eval(cfg, body, sc1, s1);
    MirrorsThen(s, s1, r.state);
    NotesMirror(cfg, r.state, h, h, i, o);
    MirrorsThen(s, r.state, Succeed(cfg, r.state, h, h, i, o));
    MirrorsThen(s, r.state, Exhausted(cfg, r.state, h, i, o).state);
  }

  lemma FlushIsIdle(cfg: Config, s: State, h: Handle)
    requires cfg.logFailed
    ensures Flush(cfg, s, h) == s
  {
  }

  lemma {:induction false} RetryMirrors(cfg: Config, h: Handle, kubeconfig: string, body: Command, i: nat,
                                        sc: Scope, s: State)
    requires cfg.logFailed && WithoutSteps(body) && i < RETRY_FUNCTION_ATTEMPTS
    ensures Mirrors(s, RetryFrom(cfg, h, kubeconfig, body, i, sc, s).state)
    decreases body, 3, RETRY_FUNCTION_ATTEMPTS - i
  {
    hide RunAttempt, HasFailed, Mirrors, Rescued, GiveUp;
    AttemptMirrors(cfg, kubeconfig, body, h, 0, 1, i, sc, s);
    var r := RunAttempt(cfg, kubeconfig, body, h, 0, 1, i, sc, s);
    PopMirrors(s, r.state);
    RescuedMirrors(cfg, s, r.state, h, i);
    GiveUpMirrors(cfg, s, r.state, h, sc.path);
    if i + 1 < RETRY_FUNCTION_ATTEMPTS {
      RetryMirrors(cfg, h, kubeconfig, body, i + 1, sc, Pop(r.state));
      MirrorsThen(s, Pop(r.state), RetryFrom(cfg, h, kubeconfig, body, i + 1, sc, Pop(r.state)).state);
    }
  }

  lemma RescuedMirrors(cfg: Config, s: State, s1: State, h: Handle, i: nat)
    requires cfg.logFailed && Mirrors(s, s1) && |s.live| < |s1.live|
    ensures Mirrors(s, Rescued(cfg, s1, h, i).state)
  {
    hide Emit, Flush, Mirrors;
    var m := SucceededAfterFailures(i + 1, RETRY_FUNCTION_ATTEMPTS);
    EmitMirrors(cfg, s1, h, m);
    MirrorsThen(s, s1, Emit(cfg, s1, h, m));
    var s2 := if i > 0 then Emit(cfg, s1, h, m) else s1;
    FlushIsIdle(cfg, s2, |s2.live|);
    PopMirrors(s, s2);
  }

  lemma GiveUpMirrors(cfg: Config, s: State, s1: State, h: Handle, path: Path)
    requires cfg.logFailed && Mirrors(s, s1) && |s.live| < |s1.live|
    ensures Mirrors(s, GiveUp(cfg, s1, h, path).state)
  {
    hide Flush, FatalOn, Mirrors;
    FlushIsIdle(cfg, s1, |s1.live|);
    PopMirrors(s, s1);
    FatalMirrors(cfg, Pop(s1), h, path, "Command failed after 5 attempts.");
    MirrorsThen(s, Pop(s1), FatalOn(cfg, Pop(s1), h, path, "Command failed after 5 attempts.").state);
  }

  // Whatever a test calls, at any nesting: its log has every message that was sent, in
  // the order of sending and once each, also those of attempts that failed.
  lemma EveryMessageIsLogged(cfg: Config, c: Command, sc: Scope, kubeconfig: Option<string>)
    requires cfg.logFailed && WithoutSteps(c)
    ensures var s := Eval(cfg, c, sc, InitialState(kubeconfig)).state;
      TextsIn(s.log) == SaidIn(s.trace)
  {
    hide Eval;
    EvalMirrors(cfg, c, sc, InitialState(kubeconfig));
  }
}
