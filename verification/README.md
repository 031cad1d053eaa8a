# Models of the streaming, bridging and compaction code

Dafny models of the parts of the repository where many things happen at once, or where a history is rewritten and
something must survive, with proofs that hold for all inputs and all interleavings.

- **Streamed code execution.** A `run_code` snippet runs while its text arrives. `Lines`, `Streaming` and
  `EagerExecution` model the queue of closed statements, the pump and the final dispatch as a transition system;
  `StreamedCodeCalls` is the call object updated in place, proved against it. `MontyExecution` is the executor as a
  transition system beside a reference machine that settles every call where it is made; `MontyConfluence`,
  `MontyTheorems` and `MontyProgress` relate the two; `MontyExecutors` is the executor object.
- **Early launches.** `CanonicalKey` (over `PythonRepr`) is the claim key, `CallScanner` and `CallMonotone` the
  extraction of calls from partial text, `SpeculationStore`, `SpeculationPrefetch` and `SpeculationCoordinators` the
  store, `SpeculativeRun` whole runs with the cold run beside them, and `SpeculationConservation`,
  `SpeculationCap`, `SpeculationStaleness`, `SpeculationTransparency` and `SpeculationFaithfulness` what such runs keep;
  `SessionRecords` and `SpeculationEvents` say what single calls record, hand to the sandbox, launch and claim.
- **The Lambda bridge.** `StepBridge` and `StepBridgeTheorems` are the queue, order lock, handler and loop tasks;
  `AgentLoops` is the shared loop over many invocations.
- **Background tools.** `BackgroundTools` is the protocol of tasks and node boundaries, `BackgroundRuns` the object.
- **Histories.** `Messages`, `SafeCutoff`, `TokenCutoff`, `Clearing`, `Pinning` and `SlidingWindow` are compaction;
  `SnapshotHistory` is the recovery of a record from snapshots; `Truncation` limits tool output.
- `Options` and `PythonDict` (a `dict` as its entries in insertion order) are shared.

`dafny verify dfyconfig.toml` checks everything.

What comes from outside is a parameter. The Python parser is an oracle whose statements lie in order on lines of a
text that uses only `\n` as a line break. Partial JSON decoding is a function of the text. The sandbox is a function
from the payloads it was resumed with to its next snapshot, which uses call ids once and asks only for outstanding
deferred calls. A tool's outcome depends on its name and on what its arguments mean. Character classes of the regular
expressions are parameters that keep word characters, white space, brackets and quotes apart; tool names are
identifiers. Which characters print as themselves is a parameter. A tokenizer returns a natural number. Time is the
free choice whether a wait ends in time.

Properties that are false of the code are stated with a concrete input and the exact condition under which they hold:
`EagerExecution.ExactlyOnce` with `DiscardCanSkipAStatement`, `SpeculationConservation.LeaksExactlyOnReuse` and
`ClosedRunLeavesNothing` with `ReusedIdLeaks`, `SpeculationFaithfulness.SpeculationIsTransparentExactlyWhen` with
`RenamingShows`, `SpeculationStaleness.FreshExactlyWhenObserved` with `OldAfterQuietRun`,
`StepBridgeTheorems.StoppedLoopIsFinal` with `StopStrandsIdleHandler`, `SafeCutoff.CutsAreCleanExactlyWhen` with
`FarPairIsCut`, `Clearing.NewestStay` with `ReusedIdLosesTheNewest`, `SlidingWindow.CompactionsKeepPairingExactlyWhen`
with `MixedRequestIsOrphaned`, `SlidingWindow.SlideKeepsPinsExactlyWhen` with `PinnedReceiptIsLost`, and
`SnapshotHistory.RecordIsRecoveredExactlyWhen` with `RepetitionIsLost`. Where code and documentation disagree the code is
modelled: the docstring of `SnapshotHistorySource` says that repeated identical messages are preserved, which fails when
compaction dropped everything before the second of two; the comment in `closed_statements` says that snippets with lone
`\r` line breaks stay whole, but the code parses their complete lines, so the parser contract excludes them.

## Model

| member | source | states |
|---|---|---|
| `Lines.PrefixTestsAgree` | pydantic_ai_harness/code_mode/_eager.py:117-157 | the `code == p or code.startswith(p + "\n")` test of the stream side holds exactly when the joined-lines test of scan and dispatch holds, for every prefix and code |
| `EagerExecution.ContinuesByLines` | pydantic_ai_harness/code_mode/_eager.py:117-157 | the same test says exactly that the lines of the code begin with those of the prefix |
| `Streaming.CollectClosed` | pydantic_ai_harness/code_mode/_streaming.py:70-88 | the early-exit loop returns exactly the statements of the complete lines that, like each one before them, are followed by one on a later line; and nothing for oversized or unparsable code |
| `Streaming.ClosedStatementsExactly` | pydantic_ai_harness/code_mode/_streaming.py:52-88 | a statement is closed if and only if it and each one before it are followed by a statement that starts on a later line |
| `EagerExecution.PrefixTestPassed` | pydantic_ai_harness/code_mode/_eager.py:219-223 | passing the joined-lines test means the lines taken so far are the first lines of the code |
| `EagerExecution.EndsAreBounded` | pydantic_ai_harness/code_mode/_eager.py:227-234 | the line ends queued by a scan rise, lie past the lines already taken, and stay inside the code |
| `EagerExecution.OnlySettledStatementsAreQueued` | pydantic_ai_harness/code_mode/_eager.py:188-240 | in every run a stream event queues one fragment, with exactly its lines, for each statement of the unfed text that can no longer change, and no event queues anything else |
| `EagerExecution.ScansAreCharged` | pydantic_ai_harness/code_mode/_eager.py:124-207 | each scan is charged the characters it reads, and scanning stops for good exactly when an event discards, is oversized or overdraws the budget |
| `EagerExecution.BudgetsAreKept` | pydantic_ai_harness/code_mode/_eager.py:124-207 | in every run the text kept and the work of all scans together stay within their limits |
| `EagerExecution.LinesAreConserved` | pydantic_ai_harness/code_mode/_eager.py:106-273 | in every interleaving of deltas, scans, pump steps and cancellations that ends in a tail feed: lines fed, then lines lost to a discard, then the tail are the submitted lines, in order |
| `EagerExecution.FailureStopsFeeding` | pydantic_ai_harness/code_mode/_eager.py:242-257 | once a fragment has raised nothing is fed any more, whatever is streamed |
| `EagerExecution.FailureDropsTheQueue` | pydantic_ai_harness/code_mode/_eager.py:255-257 | a fragment that raises empties the queue |
| `EagerExecution.StreamLosesExactlyWhen` | pydantic_ai_harness/code_mode/_eager.py:106-157 | a stream event discards the queue exactly when it asks for a restart, or carries code that does not continue the fed prefix: as decoded text or as an object, in any of the places where this is noticed; otherwise statements and prefix are kept |
| `EagerExecution.WhatAStepLoses` | pydantic_ai_harness/code_mode/_eager.py:264-274 | a stream event loses statements exactly when such an event meets a non-empty queue, and a pump step only when a cancellation lands |
| `EagerExecution.ExactlyOnce` | pydantic_ai_harness/code_mode/_eager.py:315-351 | the snippet ran exactly once, line for line, if and only if no stream event that restarts or diverges met queued statements |
| `EagerExecution.FragmentsAndTailAreTheCode` | pydantic_ai_harness/code_mode/_eager.py:344-351 | on such runs fragments and tail joined by newlines are the submitted text, except exactly when everything was already fed and the tail is one extra empty feed |
| `EagerExecution.DispatchExactly` | pydantic_ai_harness/code_mode/_eager.py:333-351 | after any run without a failed fragment: the code is sent back exactly when its lines do not begin with those taken; otherwise an interruption is reported exactly when a cancellation landed, and else the lines not taken run |
| `EagerExecution.DrainKeepsPrefix` | pydantic_ai_harness/code_mode/_eager.py:333-346 | draining the pump changes neither the fed prefix nor the fed line count, so testing them before the drain is enough |
| `EagerExecution.DiscardCanSkipAStatement` | pydantic_ai_harness/code_mode/_eager.py:264-274 | a run in which `discard` clears the queue without rolling back the fed prefix, and dispatch then skips a statement |
| `StreamedCodeCalls.StreamedCodeCall.DropQueued` | pydantic_ai_harness/code_mode/_eager.py:165-173 | the new state of the call, against the step function of `EagerExecution` |
| `StreamedCodeCalls.StreamedCodeCall.Discard` | pydantic_ai_harness/code_mode/_eager.py:264-267 | the new state of the call: the queue is lost, the fed prefix stays |
| `StreamedCodeCalls.StreamedCodeCall.ReceiveArgs` | pydantic_ai_harness/code_mode/_eager.py:106-163 | the new state of the call and whether a scan is due, in every branch of text and object deltas |
| `StreamedCodeCalls.StreamedCodeCall.Scan` | pydantic_ai_harness/code_mode/_eager.py:188-240 | the new state of the call after budget, divergence test, slicing and pump start |
| `StreamedCodeCalls.StreamedCodeCall.Observe` | pydantic_ai_harness/code_mode/_eager.py:60-106 | one stream event takes the object from one reachable state of the run model to the next |
| `StreamedCodeCalls.StreamedCodeCall.PumpTurn` | pydantic_ai_harness/code_mode/_eager.py:242-257 | the new state after a fragment ends well or raises, and the next fragment taken; the state stays reachable |
| `StreamedCodeCalls.StreamedCodeCall.PumpCancelled` | pydantic_ai_harness/code_mode/_eager.py:259-274 | a requested cancellation lands: the fragment in flight and the queue are lost, and the state stays reachable |
| `StreamedCodeCalls.StreamedCodeCall.CallTool` | pydantic_ai_harness/code_mode/_eager.py:328-344 | restart and prefix are tested before the drain: everything runs anew, or the code is sent back, or the drain follows |
| `StreamedCodeCalls.StreamedCodeCall.FeedTail` | pydantic_ai_harness/code_mode/_eager.py:344-351 | after the drain: interruption, stored error or tail; on any object reached by stream events and pump steps the lines run, lost and left for the tail are the submitted lines |
| `MontyTheorems.Confluence` | pydantic_ai_harness/_monty_exec.py:118-231 | for one sandbox and host any two runs, whatever their mode, interleaving and settle order, make the same resume payloads as far as both got, and the same result if both end by themselves |
| `MontyTheorems.DeliveredOnceWithOwnOutcome` | pydantic_ai_harness/_monty_exec.py:170-231 | each future snapshot gets results for exactly the ids it asked for, each the outcome of the call deferred under that id, and no id twice |
| `MontyTheorems.EveryAnswerIsDue` | pydantic_ai_harness/_monty_exec.py:118-231 | in every reachable state each snapshot got the answer its own fields call for: nothing for a name, the sandbox default for a system call, an error for an unknown name or positional arguments, the refusal due after the calls accepted so far, its own outcome for a sequential call, a deferral for any other, results for exactly the ids of a future |
| `MontyTheorems.BodiesEndByThemselves` | pydantic_ai_harness/_monty_exec.py:118-152 | no running body is abandoned: it stops only by settling or unwinding; what was never started is closed only in the cleanup |
| `MontyTheorems.CancelReachesTheNeeded` | pydantic_ai_harness/_monty_exec.py:170-231 | the executor can be cancelled exactly when it needs a body to end, and passes the cancellation on to exactly the bodies it needs |
| `MontyProgress.AdvanceMakesProgress` | pydantic_ai_harness/_monty_exec.py:118-231 | every step of the executor makes a payload or lowers a rank, so it takes finitely many before it resumes the sandbox, waits, or is done |
| `MontyProgress.BarrierAwaitsTheOldest` | pydantic_ai_harness/_monty_exec.py:176-177 | a barrier awaits a call deferred before all that are pending, and these stay in the order in which the sandbox made them |
| `MontyTheorems.WhoRuns` | pydantic_ai_harness/_monty_exec.py:122-152 | a sequential call runs alone; under global sequencing at most one body runs; on return, error or interruption nothing started is still running |
| `MontyTheorems.NeverStuck` | pydantic_ai_harness/_monty_exec.py:118-152 | when no body is running the executor can take its next step |
| `MontyExecutors.MontyExecutor.HandleFunction` | pydantic_ai_harness/_monty_exec.py:154-198 | the payload is the answer due to the call, and payload and tables are those of the reference machine that settles every call where it is made |
| `MontyExecutors.MontyExecutor.AwaitPending` | pydantic_ai_harness/_monty_exec.py:176-177 | the barrier moves every pending call, in insertion order, to the early results with its own outcome |
| `MontyExecutors.MontyExecutor.CollectEarly` | pydantic_ai_harness/_monty_exec.py:214-220 | the first pass collects early results, and under global sequencing every asked-for call in turn |
| `MontyExecutors.MontyExecutor.ResolveFutures` | pydantic_ai_harness/_monty_exec.py:212-231 | results for exactly the ids asked for, and the tables without them |
| `MontyExecutors.MontyExecutor.Run` | pydantic_ai_harness/_monty_exec.py:118-152 | every payload the loop makes is the answer due to what the sandbox asked, and the one of the reference machine, in either mode |
| `PythonRepr.QuotePrefixFree` | pydantic_ai_harness/code_mode/_speculation.py:196-202 | a printed string literal determines its type, its value and where it ends, whatever follows |
| `CanonicalKey.ReprPrefixFree` | pydantic_ai_harness/code_mode/_speculation.py:179-197 | the printed canonical form determines the form and where it ends, over arbitrarily nested values |
| `CanonicalKey.SortedUnique` | pydantic_ai_harness/code_mode/_speculation.py:193-195 | two sorted arrangements of the same members are the same sequence, so the form does not depend on construction order |
| `CanonicalKey.CanonicalMatchesMeaning` | pydantic_ai_harness/code_mode/_speculation.py:179-197 | canonical forms are equal exactly when the values are equal as type-tagged literals up to dict and set order |
| `CanonicalKey.KeyIdentity` | pydantic_ai_harness/code_mode/_speculation.py:200-202 | two calls have the same claim key exactly when their names are equal and their arguments mean the same |
| `CallScanner.CloseParen` | pydantic_ai_harness/code_mode/_speculation.py:322-350 | the result is the first position where the bracket depth returns to zero outside strings, judged by reading the text character by character; none if there is no such position |
| `CallScanner.DepthCountsBrackets` | pydantic_ai_harness/code_mode/_speculation.py:332-349 | outside strings the depth is the number of opening less that of closing brackets of all three kinds |
| `CallScanner.StringsDoNotCount` | pydantic_ai_harness/code_mode/_speculation.py:335-343 | from an opening quote on nothing counts until the same quote stands there unescaped |
| `CallScanner.MatchExtends` | pydantic_ai_harness/code_mode/_speculation.py:373 | a match in a longer text is a match in the prefix exactly when its parenthesis lies in the prefix |
| `CallScanner.MatchesAreApart` | pydantic_ai_harness/code_mode/_speculation.py:697-705 | matches of identifiers never overlap |
| `CallScanner.TextLiteralCalls` | pydantic_ai_harness/code_mode/_speculation.py:353-401 | a call is in the result exactly when it is a complete call of an eligible name with literal arguments, no attribute and no definition, and no call of that name that starts before it is still open |
| `CallScanner.FoundExactly` | pydantic_ai_harness/code_mode/_speculation.py:372-400 | the same of the extraction the other theorems speak of, in terms of the characters around the name |
| `CallMonotone.FoundExtends` | pydantic_ai_harness/code_mode/_speculation.py:372-400 | the calls found in a text are, at the same spans and with the same arguments, the first calls found in every longer text |
| `CallMonotone.CutAtCalls` | pydantic_ai_harness/code_mode/_speculation.py:697-705 | cutting at one name after another, in whatever order, cuts at the earliest call of any of them |
| `CallMonotone.CutExtends` | pydantic_ai_harness/code_mode/_speculation.py:697-705 | a longer text moves the cut only back into a name still being spelled at the end of the shorter one |
| `CallMonotone.ExtractionIsMonotone` | pydantic_ai_harness/code_mode/_speculation.py:570-574 | the same as `FoundExtends` behind the cut at the first call with undeclared effects |
| `CallMonotone.CountsNeverFall` | pydantic_ai_harness/code_mode/_speculation.py:570-580 | per-key counts never fall as the text grows |
| `CallMonotone.DemandFollowsTheText` | pydantic_ai_harness/code_mode/_speculation.py:575-591 | after each scan `demanded` is exactly the count in the text scanned, unless the part reached its cap |
| `SpeculationStore.Claiming` | pydantic_ai_harness/code_mode/_speculation.py:751-767 | a claim takes one waiting launch of that key and leaves the others, and fails exactly when no part has one |
| `SpeculationStore.ClaimTakesOwnFirst` | pydantic_ai_harness/code_mode/_speculation.py:751-767 | a claim takes the oldest launch of its own part under the key, and without one the oldest of the first other part that has one |
| `SpeculationStore.PrelaunchDeficit` | pydantic_ai_harness/code_mode/_speculation.py:731-740 | the loop never launches more than the deficit, and less only at the cap |
| `SpeculationStore.EvictionsAreCounted` | pydantic_ai_harness/code_mode/_speculation.py:866-882 | retiring, evicting and closing count every launch they drop |
| `SpeculationPrefetch.PrefetchLaunchesTheDeficit` | pydantic_ai_harness/code_mode/_speculation.py:707-740 | each key ends with max(in flight before, occurrences in the snippet) launches, and no part starts more than its cap |
| `SpeculationPrefetch.NeverMisses` | pydantic_ai_harness/code_mode/_speculation.py:751-767 | a run of dispatches has no miss exactly when every key has at least as many launches waiting as dispatches |
| `SpeculationPrefetch.PrefetchedSnippetNeverMisses` | pydantic_ai_harness/code_mode/_speculation.py:707-767 | after a prefetch below the cap, dispatching the extracted calls in any order never misses |
| `SpeculationPrefetch.FirstInFirstOut` | pydantic_ai_harness/code_mode/_speculation.py:169-171 | the k-th dispatch of a key takes the k-th launch its own part filed under it |
| `SpeculationPrefetch.ScanTracksDemand` | pydantic_ai_harness/code_mode/_speculation.py:575-591 | the stream scan raises `demanded` to the count seen and never lowers it, within the cap |
| `SpeculativeRun.PrelaunchIsARun` | pydantic_ai_harness/code_mode/_speculation.py:731-740 | the prefetch loop is a sequence of single launch events of the run model |
| `SessionRecords.SettledCallsAreRecorded` | pydantic_ai_harness/code_mode/_toolset.py:665-687 | in every cold run a settled call gives the sandbox the error if there is one and else the content, and the history the value with its metadata, or the message of a denial, or nothing |
| `SessionRecords.ClaimedCallsAreRecorded` | pydantic_ai_harness/code_mode/_speculation.py:769-798 | in every run with early launches the same holds with what the claimed launch answered |
| `SessionRecords.BegunCallsAreRecorded` | pydantic_ai_harness/code_mode/_toolset.py:1083-1093 | a call whose coroutine starts is recorded under its own number with its own tool and arguments |
| `SessionRecords.EveryCallIsCounted` | pydantic_ai_harness/code_mode/_toolset.py:653-663 | the calls granted, whether the budget was overdrawn, and the tool names in force are what the events of the run say |
| `SessionRecords.RefusedExactlyBeyondBudget` | pydantic_ai_harness/code_mode/_toolset.py:653-663 | a call is refused exactly when its snippet asked for as many before as the budget allows; otherwise it is pending under the next number, with the tool its name stood for at the last feed |
| `SpeculationEvents.DispatchClaimsWhatWaits` | pydantic_ai_harness/code_mode/_speculation.py:751-767 | in every run a dispatch within its budget claims a launch of the same function with arguments that mean the same, exactly when one waits in any part |
| `SpeculationEvents.LaunchesBelowTheCap` | pydantic_ai_harness/code_mode/_speculation.py:635-666 | in every run a launch is started exactly when its part is below the cap, with the tool its function stands for in the current step, and waits under the key of its call |
| `SpeculationEvents.RekeyMovesTheWatch` | pydantic_ai_harness/code_mode/_speculation.py:524-538 | when a provider gives a part a new id, its watch moves with all its launches, and what was filed under that id before is out of reach |
| `SpeculationConservation.LaunchesAreConserved` | pydantic_ai_harness/code_mode/_speculation.py:511-522 | over every interleaving the launches are those waiting, claimed and unresolved, adopted, evicted or out of reach |
| `SpeculationConservation.LaunchesDiffer` | pydantic_ai_harness/code_mode/_speculation.py:658-666 | no two launches of a run are the same, so each is in one of these places only |
| `SpeculationConservation.CountersAddUp` | pydantic_ai_harness/code_mode/_speculation.py:866-876 | the counters agree at every state: launched = adopted + evicted + waiting + claimed but unresolved + out of reach |
| `SpeculationConservation.LeaksExactlyOnReuse` | pydantic_ai_harness/code_mode/_speculation.py:486-486 | a launch gets out of reach exactly when a part still holding launches is replaced under its id |
| `SpeculationConservation.ClaimedNotEvicted` | pydantic_ai_harness/code_mode/_speculation.py:751-785 | a claimed launch is never cancelled by an eviction |
| `SpeculationConservation.ClosedRunLeavesNothing` | pydantic_ai_harness/code_mode/_speculation.py:837-849 | after closing no launch waits, and the counters balance as launched = adopted + evicted + unresolved exactly when no part in use was replaced |
| `SpeculationConservation.ReusedIdLeaks` | pydantic_ai_harness/code_mode/_speculation.py:486-486 | a reused `run_code` id replaces a watch, and its launch is neither adopted nor evicted |
| `SpeculationCap.NoPartExceedsItsCap` | pydantic_ai_harness/code_mode/_speculation.py:585-586 | in every reachable state a part has started at most its cap of launches, whatever was claimed from it |
| `SpeculationStaleness.NothingStaleIsClaimed` | pydantic_ai_harness/code_mode/_speculation.py:511-522 | what a dispatch claims was launched no earlier than the step before the last observed one |
| `SpeculationStaleness.FreshExactlyWhenObserved` | pydantic_ai_harness/code_mode/_speculation.py:511-522 | that the claimed launch is from the previous step at the earliest holds of all runs in which the current step was observed, and of no weaker bound: after any number of unobserved steps a run claims a launch one step older than that |
| `SpeculationFaithfulness.SpeculationIsTransparentExactlyWhen` | pydantic_ai_harness/code_mode/_toolset.py:1064-1093 | for all tools the executions, nested ids, recorded calls and returns, refusals and everything the sandbox receives are those of the cold run over the same events, exactly when no claim that is later settled took a launch of another tool than the one its function stood for at dispatch |
| `SpeculationTransparency.SettleTransparent` | pydantic_ai_harness/code_mode/_speculation.py:769-798 | resolving a call from a launch of its own tool gives the session that resolving it from its own outcome gives |
| `SpeculationFaithfulness.RenamingShows` | pydantic_ai_harness/code_mode/_toolset.py:1075-1081 | a run in which a new step gives a launched function to another tool, and the snippet gets the old tool's answer |
| `SpeculationCoordinators.SpeculationCoordinator.Launch` | pydantic_ai_harness/code_mode/_speculation.py:635-666 | one launch filed under its key |
| `SpeculationCoordinators.SpeculationCoordinator.PrelaunchForExecution` | pydantic_ai_harness/code_mode/_speculation.py:731-740 | the state the prefetch specification gives |
| `SpeculationCoordinators.SpeculationCoordinator.Scan` | pydantic_ai_harness/code_mode/_speculation.py:575-591 | the state the scan specification gives |
| `SpeculationCoordinators.SpeculationCoordinator.Claim` | pydantic_ai_harness/code_mode/_speculation.py:751-767 | own part first, then the others in insertion order, oldest launch first |
| `SpeculationCoordinators.SpeculationCoordinator.CancelWatch` | pydantic_ai_harness/code_mode/_speculation.py:866-876 | every launch of the watch counted as evicted |
| `SpeculationCoordinators.SpeculationCoordinator.RetireStale` | pydantic_ai_harness/code_mode/_speculation.py:511-522 | parts older than the previous step are dropped and counted, the others keep their order |
| `SpeculationCoordinators.SpeculationCoordinator.EvictPart` | pydantic_ai_harness/code_mode/_speculation.py:817-829 | one part is dropped and its launches counted |
| `SpeculationCoordinators.SpeculationCoordinator.Close` | pydantic_ai_harness/code_mode/_speculation.py:837-849 | all parts are dropped and counted |
| `StepBridgeTheorems.AnsweredOnceInOrder` | pydantic_ai_harness/aws_lambda/_bridge.py:324-350 | the handler answers requests in the order they were queued, each once; only the one in service is taken and unanswered |
| `StepBridgeTheorems.RequestIsQueuedUnlessNested` | pydantic_ai_harness/aws_lambda/_bridge.py:244-319 | a task that asks for a step is refused exactly when the agent run did not start it outside of step bodies; otherwise its request is queued at once exactly when the lock is free and nobody waits, and else it waits last in line |
| `StepBridgeTheorems.FlaggedUnlessStartedByTheRun` | pydantic_ai_harness/aws_lambda/_bridge.py:261-268 | a task carries the flag of step bodies exactly when the agent run did not start it, directly or through its tasks |
| `StepBridgeTheorems.StepIsServed` | pydantic_ai_harness/aws_lambda/_bridge.py:244-350 | a run in which a step is asked for, executed and answered while its body asks for another step in vain |
| `StepBridgeTheorems.CancelledTaskWaitsForNothing` | pydantic_ai_harness/aws_lambda/_bridge.py:302-319 | a cancelled task leaves the line, frees the lock if it had it, and its request stays queued |
| `StepBridgeTheorems.OneRequestOutstanding` | pydantic_ai_harness/aws_lambda/_bridge.py:302-319 | at most one request whose caller still waits is outstanding, and it is the newest |
| `StepBridgeTheorems.NeverBlockedOnTheQueue` | pydantic_ai_harness/aws_lambda/_bridge.py:244-319 | while the handler is blocked in a step body, the task at the end of that body's chain of waits can run or is done; it never waits for the queue |
| `StepBridgeTheorems.OnlyTheQueueHoldsTheHandler` | pydantic_ai_harness/aws_lambda/_bridge.py:281-300 | the handler, or loop code its step body waits for, can move, except exactly when the handler reads an empty queue |
| `StepBridgeTheorems.QueueIsFirstInFirstOut` | pydantic_ai_harness/aws_lambda/_bridge.py:324-336 | in every run an event adds one item at the end of the queue, takes its first, or leaves it |
| `StepBridgeTheorems.HandlerReturnsWithTheRun` | pydantic_ai_harness/aws_lambda/_bridge.py:321-336 | the handler has returned, or will find the end on its queue, exactly when the agent run is done |
| `StepBridgeTheorems.WaitsUntilDone` | pydantic_ai_harness/aws_lambda/_bridge.py:257-279 | a task that waits for one it started goes on exactly when that one is done |
| `StepBridgeTheorems.WaitingTasksAreServed` | pydantic_ai_harness/aws_lambda/_bridge.py:302-319 | while the loop runs and the handler has neither returned nor been suspended, a task that waits for the order lock or a reply leaves a move enabled that serves it: a turn, a delivery, a step of the handler, or one of the task the handler waits for |
| `StepBridgeTheorems.StoppedLoopIsFinal` | pydantic_ai_harness/aws_lambda/_bridge.py:334-350 | after the loop stopped nothing moves exactly when the handler is done or reads an empty queue |
| `StepBridgeTheorems.StoppedLoopRunsNoBody` | pydantic_ai_harness/aws_lambda/_bridge.py:270-300 | after the loop stopped the handler leaves the step body it is in with its next move and enters none again |
| `StepBridgeTheorems.StopStrandsIdleHandler` | pydantic_ai_harness/aws_lambda/_bridge.py:334-335 | a loop that stops while the handler reads the empty queue leaves it there for good |
| `StepBridgeTheorems.NestingWedges` | pydantic_ai_harness/aws_lambda/_bridge.py:244-251 | without the refusal of nested requests a reachable state blocks the handler until a cancellation or the loop stops |
| `AgentLoops.AgentLoop.Get` | pydantic_ai_harness/aws_lambda/_bridge.py:113-143 | a running loop that was never retired: the published one if it runs, else a new one; the object goes on showing a state of the run model |
| `AgentLoops.AgentLoop.Retire` | pydantic_ai_harness/aws_lambda/_bridge.py:145-157 | the published loop is withdrawn and another loop is left alone, as in the run model |
| `AgentLoops.ReturnedRunsAreOver` | pydantic_ai_harness/aws_lambda/_bridge.py:554-605 | when a call has returned or raised, its run is done, or its loop is retired or can no longer run |
| `AgentLoops.NoRunStartsBesideAnother` | pydantic_ai_harness/aws_lambda/_bridge.py:513-521 | no run starts on a loop where an earlier run is unfinished, late starts included |
| `AgentLoops.OneUnfinishedRunPerLoop` | pydantic_ai_harness/aws_lambda/_bridge.py:524-605 | two unfinished runs never share a loop |
| `AgentLoops.RetiredStaysRetired` | pydantic_ai_harness/aws_lambda/_bridge.py:145-157 | a retired loop is never handed out again |
| `AgentLoops.LoopIsKeptUnlessGivenUp` | pydantic_ai_harness/aws_lambda/_bridge.py:524-605 | the published loop is withdrawn exactly when the run of the active call did not start in time, could not be cancelled, or did not finish unwinding in time |
| `AgentLoops.CallLeavesExactlyWhen` | pydantic_ai_harness/aws_lambda/_bridge.py:536-605 | a call returns or raises exactly when its run has not started as it gives up, or cannot be cancelled, or the wait for its end is over; until then no other call begins |
| `AgentLoops.CleanRunKeepsTheLoop` | pydantic_ai_harness/aws_lambda/_bridge.py:524-605 | an invocation whose run unwinds in time leaves its loop to the next |
| `AgentLoops.LateRunLosesTheLoop` | pydantic_ai_harness/aws_lambda/_bridge.py:540-546 | a run that starts late is cancelled and awaited all the same, and the next invocation gets a fresh loop |
| `BackgroundTools.OutcomesAreDeliveredInOrder` | pydantic_ai_harness/background_tools/_capability.py:245-294 | reservations equal live calls, no call hands over twice, and deliveries are the first completions in order |
| `BackgroundTools.EndWaitsForCalls` | pydantic_ai_harness/background_tools/_capability.py:301-321 | an end that is no deferred-tool pause is handed on only with nothing live and nothing undelivered, or with a follow-up pending |
| `BackgroundTools.BoundaryTakesWhatArrived` | pydantic_ai_harness/background_tools/_capability.py:301-327 | a node boundary takes every outcome that arrived, up to the first error, which it raises; a deferred-tool pause takes none; an end waits exactly when calls are live and nothing is pending |
| `BackgroundTools.WaitingRunDelivers` | pydantic_ai_harness/background_tools/_capability.py:301-348 | a run that ends while a call is live waits for it, makes another model request and returns |
| `BackgroundTools.PausingRunDrops` | pydantic_ai_harness/background_tools/_capability.py:314-348 | a run that pauses for deferred tools cancels the calls still live |
| `BackgroundTools.ReturnedRunLostNothing` | pydantic_ai_harness/background_tools/_capability.py:329-348 | a run that returns through its end delivered one outcome of every call it started |
| `BackgroundTools.ErrorsEndTheRun` | pydantic_ai_harness/background_tools/_capability.py:342-345 | a run that returns without an error received no error from any task |
| `BackgroundRuns.BackgroundRun.Start` | pydantic_ai_harness/background_tools/_capability.py:292-294 | the new state: one reservation and one live call more |
| `BackgroundRuns.BackgroundRun.HandOver` | pydantic_ai_harness/background_tools/_capability.py:286-290 | the new state: the outcome last in the stream, the reservation released |
| `BackgroundRuns.BackgroundRun.AfterNodeRun` | pydantic_ai_harness/background_tools/_capability.py:301-321 | the new state: arrived outcomes delivered in order up to the first error, and whether the end waits |
| `TokenCutoff.SuffixEstimate` | pydantic_ai_harness/compaction/_shared.py:68-110 | the estimate never rises when the oldest messages are dropped, with instructions counted once and superseded deltas skipped |
| `TokenCutoff.EveryPartCounts` | pydantic_ai_harness/compaction/_shared.py:68-231 | the estimate is the sum over the parts of what each counts for, with the names of calls and provider results, without files, tool availability and superseded deltas, plus the newest instructions once |
| `TokenCutoff.FindTokenCutoff` | pydantic_ai_harness/compaction/_shared.py:652-682 | the binary search returns the greatest safe cut at or below the least index whose suffix fits, clamped to the last message |
| `SafeCutoff.IsSafeCutoff` | pydantic_ai_harness/compaction/_shared.py:591-632 | true exactly when no call within five messages of the cut has a return on the other side |
| `SafeCutoff.CutsAreCleanExactlyWhen` | pydantic_ai_harness/compaction/_shared.py:587-649 | the cut splits no pair, whatever number of messages is to be kept, exactly when every pair more than five messages long is covered by shorter ones at each place the window does not see |
| `SafeCutoff.FindSafeCutoff` | pydantic_ai_harness/compaction/_shared.py:635-649 | the greatest safe cut that keeps at least the messages asked for; all or nothing at the bounds |
| `SafeCutoff.KeepsAtMostOneMore` | pydantic_ai_harness/compaction/_shared.py:635-649 | when returns directly follow their calls at most one message more than asked is kept |
| `SafeCutoff.FarPairIsCut` | pydantic_ai_harness/compaction/_shared.py:587-632 | a call answered six messages later passes the test and is cut from its return |
| `Clearing.IterToolPairs` | pydantic_ai_harness/compaction/_shared.py:747-765 | one pair for each answered return, in order of return, with the last call of its id |
| `Clearing.PairsExactly` | pydantic_ai_harness/compaction/_shared.py:747-765 | the pairs stand for exactly the returns whose id is called, in the order of their places, each with the last call of its id |
| `Clearing.RebuildWithCleared` | pydantic_ai_harness/compaction/_shared.py:768-814 | exactly the untyped returns under the given ids have the placeholder for content, exactly the calls under the given ids no arguments, and everything else is as it was |
| `Clearing.ClearingKeepsIds` | pydantic_ai_harness/compaction/_shared.py:768-776 | every call and return stays at its place under its id |
| `Clearing.ClearableIds` | pydantic_ai_harness/compaction/_clear_tool_results.py:127-138 | the ids of the pairs older than the newest `keep_pairs`, excluded tools left out |
| `Clearing.ExactlyTheOldest` | pydantic_ai_harness/compaction/_clear_tool_results.py:86-93 | with ids used once a result is blanked exactly when it is beyond the newest `keep_pairs` and not of an excluded tool |
| `Clearing.ClearToolResults` | pydantic_ai_harness/compaction/_clear_tool_results.py:122-148 | the old results are blanked in place, all of them, or none when that reclaims too little |
| `Clearing.DeduplicateFileReads` | pydantic_ai_harness/compaction/_deduplicate_file_reads.py:104-126 | the superseded reads are blanked in place and nothing else changes |
| `Clearing.NewestStay` | pydantic_ai_harness/compaction/_clear_tool_results.py:86-87 | one of the newest results is blanked exactly when an old, cleared result used the same id |
| `Clearing.ReusedIdLosesTheNewest` | pydantic_ai_harness/compaction/_clear_tool_results.py:127-138 | two results under one id, of which one is to be kept: the newest is blanked |
| `Clearing.SupersededReads` | pydantic_ai_harness/compaction/_deduplicate_file_reads.py:110-122 | the ids of the reads that a later read of the same file follows |
| `Clearing.ExactlyTheSuperseded` | pydantic_ai_harness/compaction/_deduplicate_file_reads.py:104-126 | with ids used once a read is blanked exactly when a newer read of the same file follows |
| `SlidingWindow.Compact` | pydantic_ai_harness/compaction/_sliding_window_compaction.py:130-153 | the trimmed history: cut, first user message, pins, receipt |
| `SlidingWindow.PrependExactly` | pydantic_ai_harness/compaction/_shared.py:690-722 | what is put in front is the first message in which the user speaks, if it was cut off and is not among the kept ones |
| `SlidingWindow.WithoutReceiptsExactly` | pydantic_ai_harness/compaction/_sliding_window_compaction.py:166-177 | exactly the requests that hold receipts only are dropped, the others stay in order |
| `SlidingWindow.CutKeepsEnough` | pydantic_ai_harness/compaction/_sliding_window_compaction.py:136-143 | at least the messages asked for are kept, the receipt counted, and at most one more when returns directly follow calls |
| `SlidingWindow.CutLeavesRoom` | pydantic_ai_harness/compaction/_sliding_window_compaction.py:136-141 | cutting by tokens: the last safe cut up to the first message from which the rest fits beside what a receipt may cost |
| `SlidingWindow.SlideKeepsTheRest` | pydantic_ai_harness/compaction/_sliding_window_compaction.py:144-153 | every message from the cut on is kept, and the first in which the user speaks when that is asked for; only earlier receipts go, and then a new receipt stands first |
| `SlidingWindow.PrependKeepsAnswersExactlyWhen` | pydantic_ai_harness/compaction/_shared.py:705-722 | putting the first user message back in front of the kept messages orphans a return exactly when that message is put back and holds a return |
| `SlidingWindow.SlideKeepsPairingExactlyWhen` | pydantic_ai_harness/compaction/_sliding_window_compaction.py:130-153 | a cut keeps every return behind its call exactly when it does not put back a request that holds a return; then every kept call that had a return keeps it too |
| `SlidingWindow.CompactionsKeepPairingExactlyWhen` | pydantic_ai_harness/compaction/_sliding_window_compaction.py:130-153 | the same over any sequence of cuts and blankings: pairing holds all the way exactly when no cut puts back such a request |
| `SlidingWindow.CompactionsKeepPairing` | pydantic_ai_harness/compaction/_sliding_window_compaction.py:130-153 | histories whose requests never mix prompts and returns stay paired under any sequence of cuts and blankings |
| `SlidingWindow.MixedRequestIsOrphaned` | pydantic_ai_harness/compaction/_shared.py:705-722 | a first request mixing a user prompt with a tool return is kept without its call |
| `SlidingWindow.SlideKeepsPinsExactlyWhen` | pydantic_ai_harness/compaction/_sliding_window_compaction.py:144-153 | a cut keeps every pin exactly when nothing is cut, no receipt is written, or no pin stands in a message of receipts |
| `SlidingWindow.PinnedReceiptIsLost` | pydantic_ai_harness/compaction/_sliding_window_compaction.py:144-153 | a part that is both pin and receipt is lost when a new receipt is written |
| `Pinning.ReinjectPinned` | pydantic_ai_harness/compaction/_pinning.py:66-90 | the result the specification gives: missing pins in one request behind the leading system-only requests |
| `Pinning.PinsExactly` | pydantic_ai_harness/compaction/_pinning.py:40-53 | the pins of a history are its pinned user prompts, each as often as it stands there |
| `Pinning.ReinjectExactly` | pydantic_ai_harness/compaction/_pinning.py:55-90 | nothing changes when no pin is missing; otherwise one request with exactly the missing pins stands behind the leading requests of system prompts only |
| `Pinning.ReinjectAddsTheDifference` | pydantic_ai_harness/compaction/_pinning.py:66-90 | the pins of the result are those present plus exactly the multiset difference; otherwise one request is added and the rest stays in place |
| `Pinning.ReinjectIdempotent` | pydantic_ai_harness/compaction/_pinning.py:66-90 | reinjecting twice changes nothing |
| `Pinning.Escalate` | pydantic_ai_harness/compaction/_tiered_compaction.py:141-167 | the history of the first stage that fits, or the last, with every pin of the original |
| `Pinning.EstimateIsAnchored` | pydantic_ai_harness/compaction/_tiered_compaction.py:141-167 | each stage counts for its own estimate, shifted by what the anchored baseline is above that of the original |
| `Pinning.PinsSurviveStages` | pydantic_ai_harness/compaction/_tiered_compaction.py:159-167 | for arbitrary tiers and any stopping point no pin is lost |
| `SnapshotHistory.OverlapLength` | pydantic_ai_harness/conversation_search/_source.py:128-133 | the longest suffix of the history that is a prefix of the snapshot |
| `SnapshotHistory.RunHistory` | pydantic_ai_harness/conversation_search/_source.py:177-187 | the history the fold over snapshots gives |
| `SnapshotHistory.KeptExactly` | pydantic_ai_harness/conversation_search/_source.py:136-181 | what is kept of a snapshot are its messages that are no summaries, in order |
| `SnapshotHistory.SnapshotIsABlock` | pydantic_ai_harness/conversation_search/_source.py:181-186 | a snapshot never changes earlier history and stands complete at its end |
| `SnapshotHistory.EverySnapshotIsABlock` | pydantic_ai_harness/conversation_search/_source.py:177-187 | every snapshot's non-summary messages are one contiguous block of the recovered history |
| `SnapshotHistory.FewestAppended` | pydantic_ai_harness/conversation_search/_source.py:184-186 | no shorter continuation of the history ends with the snapshot |
| `SnapshotHistory.StepRecoversExactlyWhen` | pydantic_ai_harness/conversation_search/_source.py:184-186 | a snapshot extends a faithful history faithfully exactly when the record does not repeat the start of the snapshot at the end of what was reached; else the history falls short |
| `SnapshotHistory.LossStays` | pydantic_ai_harness/conversation_search/_source.py:184-186 | while windows move forward, messages once lost are never made up for by a later snapshot |
| `SnapshotHistory.RecordIsRecoveredExactlyWhen` | pydantic_ai_harness/conversation_search/_source.py:177-187 | gap-free forward-moving windows give back the record exactly when no window meets such a repetition, and never more messages than it has |
| `SnapshotHistory.DistinctRecordIsRecovered` | pydantic_ai_harness/conversation_search/_source.py:146-152 | distinct messages and gap-free forward-moving windows give back exactly the record |
| `SnapshotHistory.RepetitionIsLost` | pydantic_ai_harness/conversation_search/_source.py:128-133 | a record with a repeated message that is not recovered |
| `SnapshotHistory.BackwardWindowMakesUp` | pydantic_ai_harness/conversation_search/_source.py:177-187 | a window that moves back makes up for a repetition, so the exact condition asks for forward-moving windows |
| `Truncation.TruncateTailIsBest` | pydantic_ai_harness/_output.py:17-36 | the output fits the cap; a marker states how many of the last characters follow it, no longer tail would fit, and a bare tail fills the cap exactly when no marker fits |
| `Truncation.MarkerTellsLength` | pydantic_ai_harness/_output.py:28-29 | the number in the marker reads back as the number of characters |
| `Truncation.TruncateHeadWithinCap` | pydantic_ai_harness/_output.py:4-14 | the head form fits the cap exactly when the text does or the cap holds the marker |
| `Truncation.TruncateHeadIsBest` | pydantic_ai_harness/_output.py:4-14 | a text within the cap is returned as it is; of a longer one the first characters stand in front of the marker, as many as fit |
| `Truncation.HeadMarkerTellsCap` | pydantic_ai_harness/_output.py:12-14 | the number in the marker reads back as the cap |

## Left out

- StepBridgeTheorems.OneRequestOutstanding: counts tasks that still await a reply; a request whose task was cancelled stays in the queue and is still serviced, in its turn.
- AgentLoops.AgentLoop.Retire: does not model the grace period in which a retired loop finishes cleaning up; such a loop may run or stop at any time.
- BackgroundRuns.BackgroundRun.AfterNodeRun: stops where the source awaits the next outcome; `TakeAwaited` is the rest.
- StreamedCodeCalls.StreamedCodeCall.CallTool: ends where the source awaits the pump; `PumpTurn` and `PumpCancelled` are the drain and `FeedTail` what follows it.
- MontyTheorems.WhoRuns: covers one cancellation of the executor; a raw second cancellation that pierces the shield is not modelled, nor is a body that swallows the cancellation.
- MontyExecutors.MontyExecutor.Run: runs each body when it is awaited; the interleavings are in the transition system.
- Watches, parts and messages are values inside the objects that hold them, so aliasing of a watch that is replaced while a launch for it is suspended is not modelled.
- `StepBridge.run_step`, `consume` and `run_durable` are a transition system and not methods: what matters in them is the interleaving of two threads.
- `EagerCoordinator.observe`, `find_call` and the retirement of calls of an earlier model step: routing of stream events by part index.
- Stream events, spans, statistics of time, warnings and prompt text.
- The parser-based extraction of `_literal_calls` at execution: its result is the input of the prefetch.
- The scan budget of the speculation watcher, and the resolution of eligible names from tool definitions.
- `RetryPromptPart` answers are part of messages but, as in the source, invisible to the safe-cut test.
- Summarizing compaction, receipt wording and transcript handles, context-window lookup and trigger thresholds: a tier is any function, a receipt any text.
- `_dropped_messages`: only the numbers in a receipt depend on it.
- SnapshotHistory.RecordIsRecoveredExactlyWhen: asks that the windows move forward, as `BackwardWindowMakesUp` shows it must; a later window that reaches back can happen to make up for an earlier loss.
- The hit and miss counters of a watch: carried along, but they only feed a summary.
- Message hashing in conversation search is taken to be injective up to the fields it clears.
- Session files, MCP, browser, search ranking and the other capabilities: input and output, or thin wrappers.
