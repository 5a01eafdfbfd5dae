# Verified models of the maistra test tool

The test tool runs shell commands against OpenShift clusters, and most of its code
is that plumbing.  Some of it is subtle, though: a retry engine whose callbacks leave by
return, by two kinds of panic and by `runtime.Goexit`; a protocol between
request goroutines and the cleanups of a test; and a handful of text, counting and
matching algorithms on which the assertions of the tests rest.  This project models that
code in Dafny and proves what it is relied upon to do.

`dafny verify dfyconfig.toml` checks everything.

## The parts

**Retry engine** (`pkg/util/retry`, `pkg/util/test`, `pkg/util/oc/oc_struct.go`).
`RetryModel` gives callbacks, as trees of commands of any depth, a big-step semantics
over the state they share: the failed flag and log of the `testing.T`, the live retry
helpers with their flags and log buffers, and KUBECONFIG.  A foreign command is an
oracle that may answer differently at each consultation, and a theorem quantifies
over all oracles.  `RetryHelpers` has the same code as objects updated in place, with the
loops of the source; every method is proved to take the heap from one
snapshot to the one the semantics gives, so the theorems hold of the objects.  The
theorems are in `RetryIsolation`, `RetryTruth`, `RetryExhaustion`, `RetryEscapes`,
`RetryKubeconfig`, `RetryApplyString`, `RetryWork`, `RetryLogs`, `RetryNestedLogs`,
`RetryFullLogs` and `RetryHistory`; `RetryHelpers.RunTest` concludes the first ones about
the objects that a test leaves.

Some findings are stated as lemmas about the code as it is:

- Inside an attempt the only thing that ends the whole test is a call whose last attempt
  returns with its helper failed by Error (`EndsExactlyWhenExhausted`).  A nested call
  exhausted by Fatal unwinds to the enclosing attempt instead (`ErrorEndsWholeTest`,
  `FatalUnwindsToEnclosingAttempt`).
- `retryFunction` runs its callback on the helper of its caller.  On a retry helper it
  repeats the command, but the helper stays failed whatever the later commands do, and a
  nested call around it can end the test (`ApplyStringFailsWithFirstCommand`,
  `ApplyStringReturnsFailed`, `NestedApplyStringEndsTest`).  On the top-level helper it
  does not repeat at all, whatever the command would do next (`NestedOnTopRunsOnce`).
- A retried override leaves KUBECONFIG set after a panic crossed it
  (`RetriedOverrideLeaks`): `retryFunction` restores the variable exactly when all its
  attempts return (`RetryFunctionRestoresExactly`), and ApplyString exactly when its first
  command succeeds (`ApplyStringRestoresExactly`).
- With failed attempts logged every message is printed as it is said
  (`EveryMessageIsLogged`).  With failed attempts not logged, a failed attempt still
  leaves messages in the log when a call made in it succeeds with messages in the buffer, and only then
  (`FailedAttemptIsSilentExactly`).
- `Run` and its comment say that a panic is recovered, so that cleanups are executed
  (`pkg/util/test/subtest.go:53-59`).  It is not: Go's recover has an effect only when the
  deferred function calls it itself, and here `recoverPanic` does.  The model follows the
  code: the closing lines are logged and the panic goes on.

**Continual requests** (`pkg/tests/tasks/migration/main_test.go`).  `ContinualRequests`
is a transition system for any number of loops, cleanups and interleavings.
`StableResource` is the timed loop of the same file.

**Algorithms.**  `CertMatching`, `TrafficRatio`, `Heredoc`, `RouteDocument`, `Version`
and `ShellQuoting`, over `Strings` (`strings.Split` and `strings.Join`).  The quoting
of `Patch` is not what its comment says: it writes two backslashes, so it
round-trips exactly on patches without a single quote.

Strings are sequences of code points, numbers are unbounded except where the 64 bits of
Go's `int` matter (`Version`), and rates are exact reals.

## Model

| member | source | states |
|---|---|---|
| RetryHelpers.RetryTestHelper.constructor | pkg/util/test/test_helper_retry.go:26-35 | a new helper is unfailed, has an empty buffer, and keeps its step and attempt numbers |
| RetryHelpers.RetryTestHelper.LogOrAppendToBuffer | pkg/util/test/test_helper_retry.go:63-70 | prints with the indentation of the step, or appends to the buffer and prints nothing; nothing else changes |
| RetryHelpers.RetryTestHelper.FlushLogBuffer | pkg/util/test/test_helper_retry.go:72-80 | the loop prints the whole buffer in order, once, and empties it; when failed attempts are logged it does nothing |
| RetryHelpers.RetryTestHelper.FailNow | pkg/util/test/test_helper_retry.go:86-89 | sets the failed flag of this helper alone and leaves by the panic with the retry key |
| RetryHelpers.TestHelper.LogStep | pkg/util/test/test_helper.go:155-160 | the step counter goes up by one and an empty line and the numbered step are printed |
| RetryHelpers.RetryTestHelper.LogStep | pkg/util/test/test_helper.go:155-160 | promoted from the embedded helper: prints directly, past the buffer |
| RetryHelpers.Test.Log | pkg/util/test/test_helper_retry.go:48-56 | dispatch on the kind of helper takes the heap to the snapshot Emit gives |
| RetryHelpers.Test.Failed | pkg/util/test/test_helper_retry.go:91-93 | a retry helper answers with its own flag, the top-level one with that of the testing.T |
| RetryHelpers.Test.WillRetry | pkg/util/test/test_helper_retry.go:117-119 | answers whether the attempt is not the last; false on the top-level helper |
| RetryHelpers.Test.FailNow | pkg/util/test/test_helper.go:83-85 | panics on a retry helper, ends the goroutine on the top-level one, and marks that helper failed |
| RetryIsolation.FatalReports | pkg/util/test/test_helper_retry.go:106-110 | Fatal sends its message once and first, then fails the helper it is called on and no other, and leaves through it |
| RetryIsolation.ActReports | pkg/util/test/test_helper_retry.go:82-110 | what Log, LogStep, Error, FailNow and a command record, print or fail, in literal text, and how each is left |
| RetryHelpers.Test.Act | pkg/util/shell/shell_helper.go:47-57 | a command runs under the current KUBECONFIG, and its error is fatal on the given helper; the other acts are those of the helper |
| RetryLogs.SucceedPrintsBuffer | pkg/util/retry/retry.go:66-80 | with failed attempts not logged, the success of an attempt of an unnested call on its new helper adds to the log the whole buffer of that helper and then at most a warning |
| RetryLogs.WarningsExact | pkg/util/retry/retry.go:72-79 | truncation does not blur the limits: the stronger warning from nine tenths of the attempts on, the milder from three quarters, none for fewer than four attempts |
| RetryLogs.NotesAreNeverBuffered | pkg/util/retry/retry.go:43-56 | the notes about failed attempts go to the test log and to no buffer, one line each, exactly when attempts are logged |
| RetryLogs.EmitSends | pkg/util/test/test_helper_retry.go:48-70 | any message sent through a helper is printed with the indentation of that helper's step, or appended to the buffer of a retry helper when failed attempts are not logged, and nothing else changes |
| RetryFullLogs.NotesOnAnyHelper | pkg/util/retry/retry.go:43-57 | the literal notes about a failed attempt, worded by the delay, and about the last one, and the warnings, on any helper |
| RetryFullLogs.SuccessOnAnyHelper | pkg/util/retry/retry.go:59-81 | after a success on any helper: the buffer of the helper used is printed and emptied, or the note about the success is sent, and then the warning |
| RetryEscapes.ExhaustedExits | pkg/util/retry/retry.go:43-48 | an exhausted call ends the goroutine and fails the testing.T, whatever the helper, and changes no retry helper |
| RetryHelpers.Test.Attempt | pkg/util/retry/retry.go:94-99 | runs the callback on a fresh helper; the retry panic becomes a failed attempt, other exits pass through |
| RetryHelpers.Test.With | pkg/util/oc/oc_struct.go:411-421 | sets KUBECONFIG around the callback and restores it on a normal return only; a refused value is fatal |
| RetryHelpers.Test.LastAttempt | pkg/util/retry/retry.go:36-48 | the last attempt runs on the caller's own helper |
| RetryHelpers.Test.UntilSuccess | pkg/util/retry/retry.go:29-83 | the loop over attempts refines UntilFrom on the heap: outcome and whole new state |
| RetryHelpers.Test.RetryFunction | pkg/util/oc/oc_struct.go:99-124 | the loop of five attempts refines RetryFrom on the heap: outcome and whole new state |
| RetryHelpers.Test.Eval | pkg/util/retry/retry.go:24-99 | any callback tree, run on the objects, has the outcome and leaves the state of the semantics |
| RetryHelpers.RunTest | pkg/util/test/test.go:86-104 | a whole test from its start to its closing lines, on the objects: the closing line tells the failed flag, and for the callbacks of the respective theorems: failed iff ended by Goexit, WillRetry truthful, and KUBECONFIG restored |
| RetryHistory.EvalExtends | pkg/util/test/test_helper_retry.go:82-89 | no callback resets a failed flag, removes a line of the test log or changes the attempt number of a live helper |
| RetryIsolation.EvalIsolated | pkg/util/test/test_helper_retry.go:82-134 | a local callback changes no flag but that of the helper in hand, and that one is set exactly when the callback is left through its FailNow |
| RetryIsolation.RunAttemptContained | pkg/util/test/test_helper_retry.go:121-134 | an attempt changes no older flag and lets neither the retry panic nor Goexit out |
| RetryIsolation.NonLastAttemptNeverFailsTest | pkg/util/retry/retry.go:32-58 | no failure inside a non-last attempt of the outermost call, at any depth, marks or ends the test |
| RetryIsolation.TestFailsExactlyWhenLastAttemptFails | pkg/util/retry/retry.go:29-83 | the test is failed iff all earlier attempts failed and the last one fails |
| RetryIsolation.TestFailsExactlyWhenItExits | pkg/util/test/test.go:86-104 | a test of local callbacks is failed iff its goroutine ends by Goexit, and the closing line says so; after a panic it says completed |
| RetryIsolation.ClosingLineTellsFlag | pkg/util/test/test.go:91-102 | for every callback the closing line tells the failed flag, and closing changes neither the flag nor the exit |
| RetryTruth.EvalHonest | pkg/util/test/test_helper_retry.go:117-134 | at any depth, with Error anywhere and from any flags, every failure raised on the way is followed at once by a run, and one still pending matches the exit |
| RetryTruth.WillRetryTellsTheTruth | pkg/util/test/test_helper_retry.go:117-119 | in any stack of UntilSuccess calls: a failure raised while WillRetry is true is next followed by another run of an enclosing callback; raised while it is false, nothing follows |
| RetryTruth.AnswersAreExact | pkg/util/test/test_helper_retry.go:91-119 | what Failed and WillRetry answer on each kind of helper |
| RetryTruth.AttemptPromisesNothing | pkg/util/retry/retry.go:85-92 | the helper of retry.Attempt never answers true |
| RetryTruth.RetryFunctionPromisesNothing | pkg/util/oc/oc_struct.go:99-109 | nor does that of retryFunction, although the callback may be run again |
| RetryExhaustion.EndsExactlyWhenExhausted | pkg/util/retry/retry.go:29-83 | any callback inside an attempt, at any nesting of calls, attempts and retryFunction: it ends the goroutine iff some call made in it is exhausted, its last attempt having returned with the helper failed |
| RetryExhaustion.NonLastAttemptEndsTest | pkg/util/retry/retry.go:32-58 | a non-last attempt ends the test iff a call made in it is exhausted, and then the enclosing call does nothing more |
| RetryExhaustion.NestedCallEndsTest | pkg/util/retry/retry.go:43-58 | a nested call without further calls in it ends the goroutine iff it is exhausted |
| RetryExhaustion.FlatCallEndsTest | pkg/util/retry/retry.go:43-58 | in particular when the callback uses nothing but the helper in hand |
| RetryExhaustion.ExitMeansFailed | pkg/util/test/test_helper.go:83-85 | for every callback, ending the goroutine has failed the test |
| RetryEscapes.ExhaustedCall | pkg/util/retry/retry.go:36-58 | a call whose earlier attempts all fail makes all attempts; if the last returns failed the test ends, and if it leaves in another way so does the call |
| RetryEscapes.FatalUnwindsToEnclosingAttempt | pkg/util/retry/retry.go:43-58 | nested calls with limits n and m around any callback that always leaves by Fatal start it n*m times |
| RetryEscapes.ErrorEndsWholeTest | pkg/util/retry/retry.go:43-48 | around any callback that always returns failed by Error they start it m times: the test ends in the first outer attempt |
| RetryEscapes.SingleActs | pkg/util/test/test_helper_retry.go:95-110 | a single Fatal and a single Error are such callbacks |
| RetryApplyString.RetryFunctionNeverRescues | pkg/util/oc/oc_struct.go:99-124 | once an attempt of retryFunction has failed the caller's helper, the call leaves it failed |
| RetryApplyString.ApplyStringFailsWithFirstCommand | pkg/util/oc/oc_struct.go:127-133 | on a retry helper ApplyString fails the helper iff its first command fails, returns iff one of its five commands succeeds, and else panics |
| RetryApplyString.ApplyStringRunsUpToFive | pkg/util/oc/oc_struct.go:99-133 | in literal numbers: it returns iff one of the five commands asked about succeeds, and runs the commands up to that one |
| RetryApplyString.ApplyStringSays | pkg/util/oc/oc_struct.go:99-124 | the literal messages: one for each failed command, and then the success after failures or the failure after five attempts |
| RetryApplyString.AttemptBufferIsPrinted | pkg/util/oc/oc_struct.go:110-123 | with failed attempts not logged, the end of retryFunction prints the buffer of its last attempt, after the note about a success or before the failure |
| RetryApplyString.ApplyStringReturnsFailed | pkg/util/oc/oc_struct.go:99-133 | with the second command succeeding it returns normally and the helper is failed |
| RetryApplyString.NextAttempt | pkg/util/retry/retry.go:32-58 | a nested call around ApplyString goes on to its next attempt iff the first command of this one fails |
| RetryApplyString.NestedApplyStringEndsTest | pkg/util/oc/oc_struct.go:99-133 | such a call, with any attempt limit, ends the test iff its last attempt is reached and there the first command fails, unless the helper had failed before, and a later one succeeds |
| RetryApplyString.CommandFailureEscapesOuterAttempt | pkg/util/oc/oc_struct.go:99-133 | inside any non-last attempt of an outer call the same condition decides whether the test ends there, and then no later attempt is made |
| RetryKubeconfig.EvalStaysIn | pkg/util/oc/oc_struct.go:411-421 | on every exit KUBECONFIG is the entry value or an override of the callback, and every command saw one of these |
| RetryKubeconfig.BodySeesItsKubeconfig | pkg/util/oc/oc_struct.go:183-201 | if all nested overrides carry k or the empty string, every command under the override k sees k, also after attempts that panicked out of inner overrides |
| RetryKubeconfig.BracketedRestores | pkg/util/oc/oc_struct.go:411-421 | a callback whose retrying happens under overrides only, such as any non-empty override, leaves KUBECONFIG as it was when it returns |
| RetryKubeconfig.UnsetBecomesEmpty | pkg/util/oc/oc_struct.go:416-419 | after a normal return the variable has the value it had, or is empty if it was unset, so that it is what it was iff it was set |
| RetryKubeconfig.NulIsRefused | pkg/util/oc/oc_struct.go:416-417 | an override with a NUL byte is fatal before the callback runs, and leaves KUBECONFIG alone |
| RetryKubeconfig.RetryFunctionRestoresExactly | pkg/util/oc/oc_struct.go:99-124 | with any callback that sets no other override, retryFunction leaves KUBECONFIG as it was iff every attempt it makes is left by a return, or the override changes nothing |
| RetryApplyString.ApplyStringRestoresExactly | pkg/util/oc/oc_struct.go:127-133 | on any helper ApplyString leaves KUBECONFIG as it was iff its first command succeeds or the override changes nothing |
| RetryApplyString.RetriedOverrideLeaks | pkg/util/oc/oc_struct.go:99-124 | so when the first command fails and a later one succeeds, the call has returned and the override is still in force |
| RetryWork.EvalBound | pkg/util/retry/retry.go:32-83 | the commands run are at most the product of the attempt limits along nesting, summed over sequences |
| RetryWork.ApplyTemplateFileRunsAtMost125 | pkg/util/oc/oc_struct.go:86-96 | three nested retryFunction calls run at most 125 commands |
| RetryWork.NestedReachesBound | pkg/util/oc/oc_struct.go:45-51 | on a retry helper, with all commands failing, d nested calls run exactly 5^d commands and fail that helper |
| RetryWork.FailingCallsRunExactly | pkg/util/oc/oc_struct.go:45-133 | in numbers: with all commands failing on a retry helper, one, two and three nested calls run exactly 5, 25 and 125 commands |
| RetryWork.NestedOnTopRunsOnce | pkg/util/oc/oc_struct.go:127-133 | on the top-level helper, for every answer of the commands, they run exactly one: if it succeeds the call returns and changes no helper, log or KUBECONFIG, if it fails the test ends |
| RetryLogs.OneAttemptIsLogged | pkg/util/retry/retry.go:66-80 | with failed attempts not logged, an unnested call adds to the log the messages of its deciding attempt, in order and once, and at most a flakiness warning |
| RetryFullLogs.EveryAttemptIsLogged | pkg/util/retry/retry.go:29-83 | with failed attempts logged, an unnested call adds to the log the messages of every attempt made, in order and once, after each failed one the note about it, and in the end the note about the success with the warning or that about the last failure; no buffer changes |
| RetryFullLogs.EveryMessageIsLogged | pkg/util/test/test_helper_retry.go:63-70 | with failed attempts logged, at any nesting: the log of a test has every message sent, in the order of sending and once, also those of failed attempts |
| RetryLogs.NestedSuccessIsPrintedAtOnce | pkg/util/retry/retry.go:66-71 | a nested success is printed even though the enclosing attempt fails afterwards |
| RetryNestedLogs.PrintsExactlyWhenFlushed | pkg/util/retry/retry.go:59-71 | with retrying inside, at any depth: a callback inside an attempt prints something iff a call made in it succeeds with messages in the buffer of the helper used |
| RetryNestedLogs.FailedAttemptIsSilentExactly | pkg/util/retry/retry.go:32-71 | so an attempt of an unnested call prints nothing while it runs iff no call in it does |
| ContinualRequests.StepKeepsInv | pkg/tests/tasks/migration/main_test.go:110-143 | every step of the test or of a goroutine keeps the protocol invariant |
| ContinualRequests.ReceivedMeansQuietForever | pkg/tests/tasks/migration/main_test.go:119-124 | after a cleanup has received from stopped, the goroutine has ended and starts no request in any continuation |
| ContinualRequests.EarlierCleanupsRunQuiet | pkg/tests/tasks/migration/main_test.go:115-117 | a cleanup registered before loops runs with all of them ended |
| ContinualRequests.FinishedMeansAllEnded | pkg/tests/tasks/migration/main_test.go:119-142 | when the test has finished every loop has ended after one send and one receive |
| ContinualRequests.OneSendOneReceive | pkg/tests/tasks/migration/main_test.go:118-141 | in every reachable state a loop has at most one send and one receive, and it has ended exactly after them |
| ContinualRequests.FailedExactly | pkg/tests/tasks/migration/main_test.go:125-142 | along every run the test is failed iff it failed itself, a request did not succeed, or one ended its goroutine |
| ContinualRequests.FailureStopsTheLoops | pkg/tests/tasks/migration/main_test.go:127-139 | once the test has failed it stays so, and each loop starts at most one more request, and none unless it is in the select |
| ContinualRequests.RequestsAreTicks | pkg/tests/tasks/migration/main_test.go:133-139 | a loop has started as many requests as its timer has fired |
| ContinualRequests.LoopsRunUntilTold | pkg/tests/tasks/migration/main_test.go:126-141 | no goroutine comes to its send before the test has failed or its cleanup has cancelled it |
| ContinualRequests.WaitedLoopCanMove | pkg/tests/tasks/migration/main_test.go:125-142 | while a cleanup waits, its goroutine has an enabled step unless it died |
| ContinualRequests.StuckOnlyOnDiedLoop | pkg/util/curl/curl.go:43-73 | a reachable state before the end is stuck iff a cleanup waits for a goroutine ended by Fatalf and all other goroutines are at their send or over |
| ContinualRequests.DeadlockHappens | pkg/util/curl/curl.go:43-73 | such a state is reachable |
| ContinualRequests.CanFinishIffNoneDied | pkg/tests/tasks/migration/main_test.go:114-142 | from a reachable state the test can finish iff no request has ended its goroutine |
| StableResource.EnsureResourceStable | pkg/tests/tasks/migration/main_test.go:223-245 | succeeds iff some window that completes before the limit has equal versions at both ends; stops at the first; at most six windows |
| StableResource.AtMostSixWindows | pkg/tests/tasks/migration/main_test.go:228-229 | whatever the queries take, no more than six windows complete |
| StableResource.CompletesExactly | pkg/tests/tasks/migration/main_test.go:223-245 | in literal numbers: window w completes iff 5(w + 1) seconds and the queries before it end before 30 seconds, or then if the select takes it |
| StableResource.WindowsWithoutLatency | pkg/tests/tasks/migration/main_test.go:223-245 | with instant queries five windows always complete, and the sixth if it wins the tie |
| CertMatching.Remove | pkg/tests/tasks/security/certificate/external_ca_test.go:112-115 | the swap-remove takes exactly one occurrence of the match out of the slice |
| CertMatching.VerifyContainsCerts | pkg/tests/tasks/security/certificate/external_ca_test.go:98-121 | success iff something is expected and the expected multiset is contained in the actual one; neither argument is modified |
| TrafficRatio.AcceptanceExact | pkg/util/testUtil.go:21-25 | what truncation of the two bounds accepts, for every count |
| TrafficRatio.CountMatches | pkg/tests/tasks/traffic/traffic_shifting_test.go:89-122 | the counts are those of the files matched, and an unmatched response is fatal |
| TrafficRatio.CheckTrafficRatio | pkg/tests/tasks/traffic/traffic_shifting_test.go:88-133 | the number of errors is the number of seen files out of tolerance; unseen files are never inspected |
| TrafficRatio.AcceptedExactly | pkg/tests/tasks/traffic/traffic_shifting_test.go:124-132 | a check is accepted iff every response matched and every file seen has a count between the two bounds, the lower missed by less than one |
| TrafficRatio.AbsentRatesAreSmall | pkg/tests/tasks/traffic/traffic_shifting_test.go:124-132 | if the check passes and the rates sum to one, the unseen files together are expected to get at most one tolerance for each file seen |
| TrafficRatio.AbsentFileBounded | pkg/tests/tasks/traffic/traffic_shifting_test.go:124-132 | an unseen file has an expected rate of at most (k-1) tolerances |
| TrafficRatio.BoundIsReached | pkg/tests/tasks/traffic/traffic_shifting_test.go:124-132 | that bound is attained |
| TrafficRatio.NoRequestsAcceptEverything | pkg/tests/tasks/traffic/traffic_shifting_test.go:124-132 | without requests the check passes for all rates, so the bound needs a request |
| Strings.JoinOfSplit | pkg/util/heredoc/heredoc.go:24-30 | joining undoes splitting, on every string |
| Strings.SplitOfJoin | pkg/util/template/template.go:62-68 | splitting undoes joining, on every non-empty list of parts without the separator |
| Strings.SplitAt | pkg/util/heredoc/heredoc.go:24-30 | splitting distributes over a separator |
| Strings.OnePart | pkg/util/heredoc/heredoc.go:24-30 | a string has one part iff it has no separator, and that is the string |
| Heredoc.GetBaseIndent | pkg/util/heredoc/heredoc.go:37-54 | the loops compute the least indentation |
| Heredoc.RemoveBaseIndent | pkg/util/heredoc/heredoc.go:56-63 | overwrites in place: each line longer than the base indent loses it, the others stay |
| Heredoc.Doc | pkg/util/heredoc/heredoc.go:23-31 | computes DocOf |
| Heredoc.Indent | pkg/util/template/template.go:61-69 | computes IndentOf: every line but the first gets the spaces, also for a negative width |
| Heredoc.DocUndoesIndent | pkg/util/template/template.go:61-69 | Doc of spaces and the indented text is the text, if no line is empty and some line is not indented |
| Heredoc.IndentLineByLine | pkg/util/template/template.go:61-69 | line by line: the first line as it is, the others after that many spaces, for both signs of the width |
| Heredoc.DocLineByLine | pkg/util/heredoc/heredoc.go:23-63 | line by line: each line of the text, without one newline at the very beginning, loses the least number of leading spaces and tabs if it is longer |
| Heredoc.DocDropsNewline | pkg/util/heredoc/heredoc.go:24-27 | a newline before a text that does not begin with one changes nothing |
| Heredoc.DocIgnoresCommonBlanks | pkg/util/heredoc/heredoc.go:37-63 | the same spaces and tabs before every line of a text without empty lines change nothing, iff no line is all blank and of least indentation |
| Heredoc.DedentKeepsRelativeIndentation | pkg/util/heredoc/heredoc.go:56-63 | each line is a suffix of its input line after a blank prefix, and differences of indentation are kept |
| Heredoc.DocFixedPoints | pkg/util/heredoc/heredoc.go:23-31 | exactly which texts Doc leaves unchanged |
| Heredoc.DocIsIdempotent | pkg/util/heredoc/heredoc.go:23-31 | Doc is idempotent when the result begins with a non-empty line and a line of least indentation is longer than that |
| RouteDocument.BlankFirstVersion | pkg/tests/ossm/ior_test.go:386-394 | the loop blanks the first resourceVersion line in place and no other |
| RouteDocument.KeyMakesVersionLine | pkg/tests/ossm/ior_test.go:390 | white space, resourceVersion and anything else make a version line |
| RouteDocument.BlanksAreSpaces | pkg/tests/ossm/ior_test.go:390 | space, tab and carriage return are white space, and printed characters are not |
| RouteDocument.VersionLineHasKey | pkg/tests/ossm/ior_test.go:390 | a version line contains resourceVersion |
| RouteDocument.SectionOfVersioned | pkg/tests/ossm/ior_test.go:385-396 | the section of a route is its text with the first version line emptied, and the separator |
| RouteDocument.SectionOfVersionedText | pkg/tests/ossm/ior_test.go:385-396 | the same, of a text before and after that line |
| RouteDocument.SectionOfPlain | pkg/tests/ossm/ior_test.go:385-396 | a route without the key appears as it is |
| RouteDocument.BuildManagedRouteYamlDocument | pkg/tests/ossm/ior_test.go:377-400 | sorts the names in place and computes Document |
| RouteDocument.ListingOrderDoesNotMatter | pkg/tests/ossm/ior_test.go:378-379 | the document is the same for every listing order of the same names |
| RouteDocument.DocumentIsInNameOrder | pkg/tests/ossm/ior_test.go:378-399 | the document is the sections in the order of the names |
| RouteDocument.SectionsFollow | pkg/tests/ossm/ior_test.go:381-399 | sections follow each other with nothing between them |
| RouteDocument.OrderIsExact | pkg/tests/ossm/ior_test.go:379 | names are ordered by their first difference, a prefix first |
| RouteDocument.DocumentIsCanonical | pkg/tests/ossm/ior_test.go:377-400 | and for two states whose routes differ only in the text of their first version line |
| RouteDocument.OtherVersionsSameDocument | pkg/tests/ossm/ior_test.go:377-400 | two states whose routes are the same but for the text after the first resourceVersion, at any indentation, have the same document |
| RouteDocument.SectionShowsTheRest | pkg/tests/ossm/ior_test.go:382-396 | two routes have equal sections iff their lines agree after blanking |
| RouteDocument.ChangeShows | pkg/tests/ossm/ior_test.go:390-396 | a change in any other line changes the section |
| RouteDocument.DocumentShowsSections | pkg/tests/ossm/ior_test.go:380-400 | two documents are equal iff they have the same sections in the same order, if no line of a route is the separator |
| RouteDocument.SeparatorLineHidesSections | pkg/tests/ossm/ior_test.go:380-400 | with such a line one route can look like two |
| Version.AtoiOfFormat | pkg/util/version/version.go:40-48 | parsing a printed number gives it back exactly when it fits 64 bits |
| Version.AtoiRejects | pkg/util/version/version.go:40-48 | a character that is no digit, other than a sign in front, makes a number unreadable, and so does having no digits |
| Version.AtoiIgnoresPlusAndZeros | pkg/util/version/version.go:40-48 | a plus sign and zeros in front change nothing |
| Version.ParseOfString | pkg/util/version/version.go:28-51 | ParseVersion undoes String on every version of 64-bit numbers, and panics on others |
| Version.LeadingVIsOptional | pkg/util/version/version.go:30-32 | for every text, one leading v changes nothing, and a second is an error |
| Version.RestIsIgnored | pkg/util/version/version.go:34-38 | for every text with a dot, appending a dot and any text changes nothing; without a dot it supplies the minor number |
| Version.StringIsInjective | pkg/util/version/version.go:79-81 | different versions print differently |
| Version.StringForm | pkg/util/version/version.go:79-81 | v, the two numbers in decimal and a dot between them, with a sign only when negative and no leading zeros |
| Version.ParseAcceptsExactly | pkg/util/version/version.go:28-51 | what the parser accepts, and with which result |
| ShellQuoting.QuoteAddsToWord | pkg/util/oc/oc_struct.go:483-484 | at any unquoted point of a command the quoted string adds exactly the string to the current word |
| ShellQuoting.QuoteText | pkg/util/oc/oc_struct.go:483-484 | the literal text of the quoting, for a string with at most one single quote |
| ShellQuoting.JsonPathIsOneWord | pkg/util/oc/oc_struct.go:475-488 | in any command, the argument lexes to the one word jsonpath= followed by the path, for every path |
| ShellQuoting.QuoteRoundTrip | pkg/util/oc/oc_struct.go:483-484 | the argument by itself does |
| ShellQuoting.PatchRoundTripsIffQuoteFree | pkg/util/oc/oc_struct.go:314-317 | the quoted patch lexes to the patch iff the patch has no single quote |
| ShellQuoting.PatchExample | pkg/util/oc/oc_struct.go:314-317 | of a patch that is a single quote the shell sees an open quote |

## Left out

- Foreign effects: commands, HTTP and TLS are oracles that succeed or fail; command output, sleeping and elapsed times are not modelled.
- Callbacks are finite trees: a loop written inside a callback appears as its unrolling, and recursion of callbacks is not modelled.
- Branches on data a callback reads are foreign conditions, decided by the oracle; conditions on Failed and WillRetry are exact.
- Panic values are strings, as the retry key is; a value of another type behaves as a string different from the key.
- Skip, Parallel, sub-tests, the must-gather capture and the setup and flaky helpers are left out.
- The messages of RetryTestHelper.LogSuccess are those of Log with a prefix; LogSuccessf bypasses the buffer like LogStep and is left out.
- RetryHelpers.Test.Act: the text of the command, its output and the checks run on the output are not modelled, so that the message of a failed command is constant.
- RetryHelpers.RunTest: the skip conditions before a test, the durations in its closing lines and the must-gather capture are left out, and so is what the testing package does with a panic that passes through.
- RetryIsolation.EvalIsolated: callbacks that use the helper of an enclosing callback, as those of retryFunction do, or Error, are outside Local; RetryExhaustion says exactly when those end the test.
- RetryTruth.WillRetryTellsTheTruth: for UntilSuccess calls; the helper of retry.Attempt answers false although its caller may repeat the callback, as retryFunction does.
- RetryLogs.OneAttemptIsLogged: for calls without retrying inside, and messages through the overridden methods; with retrying inside FailedAttemptIsSilentExactly gives the condition under which failed attempts leave nothing.
- RetryFullLogs.EveryAttemptIsLogged: for calls without retrying inside; EveryMessageIsLogged covers the messages at any nesting, but not the place of the notes among them.
- RetryFullLogs.EveryMessageIsLogged: for callbacks without LogStep, whose lines are printed past the helper's Log.
- RetryNestedLogs.PrintsExactlyWhenFlushed: for callbacks without retryFunction, which flushes the buffer of its attempts itself.
- RetryWork.ApplyTemplateFileRunsAtMost125: reading the file and expanding the template are taken to succeed; EvalBound covers callbacks in which they may fail.
- RetryKubeconfig.BracketedRestores: the syntactic condition is sufficient only; for retryFunction RetryFunctionRestoresExactly gives the exact one, which depends on the commands.
- ContinualRequests: the timer may fire at any time, so the order of timer and cancellation is free; that a cancelled loop is eventually chosen by the select is a matter of fairness and not stated.
- TrafficRatio: IEEE rounding of rates and tolerances, and the status check that precedes the comparison of bodies.
- TrafficRatio.AbsentFileBounded: rates are non-negative; for other rates only the joint bound of AbsentRatesAreSmall is stated.
- CertMatching.VerifyContainsCerts: certificates are compared by equality of their contents and none is nil.
- Reading certificates from PEM text, and the X.509 checks, are not part of this model.
- Heredoc.Indent: widths above one million, where fmt stops honouring a width, are excluded.
- ShellQuoting: operators, comments and expansions end the lexing; pathname and tilde expansion, which act on words, come after it.
- RouteDocument.DocumentShowsSections: for routes with a line that is the separator only the failure is shown, by SeparatorLineHidesSections.
- RouteDocument.SortStrings: the library's sorting algorithm is represented by its contract.
- The order on versions, the namespace flags, the Prometheus URL and the TCP variant of the traffic check are left out.
