# Proofs for Po Agent Go

This project models the concurrent, durable and arithmetic core of Po Agent Go
in Dafny and proves what that core promises. `dafny verify dfyconfig.toml`
checks all of it.

Code that changes state step by step is a class or a loop here as well: the
batch scheduler with its queues, counters and heap, the journal file, the
session, the history tree, the context builder, the control queues of a run,
the stream state and its assembler, the update gate of a tool, and the table of
file locks. Each method is proved against a specification, and what the program
promises is proved of the specification.

## What the modules are about

- **Scheduler** (`Claims`, `Dependency`, `RunnableHeap`, `Scheduler`,
  `Serializability`, `BatchSerial`). A later call of a batch waits for every earlier call that
  clashes with it. The queues are proved to implement exactly this rule; the
  rule gives mutual exclusion, freedom from deadlock, and the result of running
  the calls one by one in source order, for every completion order.
- **Batches and runs** (`Batch`, `BatchParallel`, `Guard`, `Control`,
  `RunLoop`). What the world answers about a call (cancellation, lookup,
  validation, resolver, hooks, the tool itself) is a record of facts, so a
  contract can say which outcome each answer leads to. Completions,
  cancellations and messages from outside arrive at any time.
- **Journal and session** (`ByteText`, `JournalLines`, `JournalReplay`,
  `JournalRecovery`, `Journal`, `SessionTree`, `Session`). The file is a
  sequence of bytes. JSON is an abstract codec that is assumed to be lawful:
  decoding undoes encoding, an encoded record contains no newline (section 7 of
  RFC 8259), and a proper prefix of an encoded record is not valid JSON. Every
  write may stop after any byte and every sync may fail. A ghost field keeps the
  log as of the last successful sync, or of the opening: what is secured.
- **Context** (`ContextWindow`, `ContextCoverage`, `ContextLife`). The builder is
  a cache over a message tree; a ghost field says which messages its summary
  stands for. The summarizer answers anything, or fails.
- **Streaming** (`ToolAssembly`, `OpenAIStream`). The life of a content part is
  read off the deltas shown; the assembler and the stream state are two copies
  of it that are proved to agree.
- **Files** (`Mutation`, `Utf8`, `Utf8Encoding`, `Truncate`, `Edit`). Callers are steps of one
  shared lock table in any interleaving, with cancellations and with writers
  that do not take part.

## Where the code does less than one might expect

These are proved as exact conditions.

- A message that was accepted may be taken and never delivered
  (`agent_loop.go:182-193`). A run loses messages exactly when its last answer
  asks for no tools and the run is stopped or fails all the same
  (`RunLoop.RunControlled`): what waited there was taken before the stop hook was
  asked. With the guard as the hook, and short of errors, that is exactly when
  something waits and the guard has a reason to stop (`RunLoop.NaturalStop`);
  `RunLoop.AcceptedAndLost` has such a run. A run that ends by itself has
  delivered every accepted message unless somebody else closed its control.
- A file that ends in white space without a newline is repaired into one that
  the next opening rejects (`JournalRecovery.RepairSettlesIff`;
  `JournalRecovery.BlankTailHappens` has one). This writer never produces one.
- An empty stored leaf comes back as the last entry
  (`SessionTree.EmptyLeafIsNotRestored`). No operation of a session writes one.
- A batch may stop half way without poisoning the handle; memory and file then
  differ until the next opening. Unless it was cancelled, this happens exactly
  where an entry is refused for itself: invalid, not encodable, or with a record
  above the limit (`Journal.PartialBatchIff`; `Journal.PartialBatchHappens` has
  such a batch).
- On a file with mixed line endings an edit may change the endings of other
  lines: it changes nothing but its matches exactly when the file has no CRLF or
  every bare line feed lies inside a match (`Edit.OnlyMatchesChangeIff`;
  `Edit.MixedEndingsChange` and `Edit.MixedEndingsKept` have one file of each kind).
- A new session on a journal with an open run does not know of that run
  (`Session.Session.New`).
- An old text counts as found once if it occurs and no two of its occurrences
  are disjoint (`Edit.CountMeans`): `aa` in `aaa`, but not in `aaaa`
  (`Edit.OverlapCountsOnce`).

## Model

| member | source | states |
|---|---|---|
| Claims.Normalize | resource.go:39-65 | Succeeds exactly when every claim is valid; then one claim a trimmed key, in order of first appearance, exclusive exactly when some claim on that key is; an error names the first invalid claim |
| Claims.NormalizationKeepsClashes | resource.go:39-65 | Two calls clash after normalization exactly when some raw claim of one clashes with some raw claim of the other |
| Claims.MergesSay | resource.go:39-65 | A key is in the normal form exactly when some raw claim names it, once, and is exclusive exactly when one of these has mode 2 |
| RunnableHeap.RootIsLeast | tool_scheduler.go:116-133 | The root of a heap ranks no later than any of its members |
| RunnableHeap.Push | tool_scheduler.go:116-133 | Adds exactly one element and keeps the heap order |
| RunnableHeap.Pop | tool_scheduler.go:116-133 | Removes exactly one element, one of least rank, and keeps the heap order |
| Dependency.RunningCallsDoNotConflict | tool_scheduler.go:16-53 | Two calls that run at the same time never hold clashing claims, in every reachable state |
| Dependency.NeverStuck | tool_scheduler.go:55-114 | A batch with an uncompleted call always has a call that runs or may start: no deadlock |
| Dependency.CanStartIff | tool_scheduler.go:16-53 | A call may start exactly when every earlier call that names one of its keys has completed, unless both only share it |
| Scheduler.GrantedIff | tool_scheduler.go:24-53 | An entry of a queue is granted exactly when every earlier entry that excludes it belongs to a completed call |
| Scheduler.ToolBatchScheduler.constructor | tool_scheduler.go:65-97 | The queues, counters and the heap start out as the plain dependency order with nothing started |
| Scheduler.ToolBatchScheduler.ReserveNext | tool_scheduler.go:24-38 | Grants the next exclusive entry, or every leading shared one, as soon as the queue is free, and touches no other queue |
| Scheduler.ToolBatchScheduler.Release | tool_scheduler.go:48-53 | After a release the queue has granted everything the dependency order allows, and no other queue changed |
| Scheduler.ToolBatchScheduler.RunnableIff | tool_scheduler.go:40-46 | A call is in the heap exactly when it has not started and every earlier call with a claim on one of its keys, one of the two exclusive, has completed |
| Scheduler.ToolBatchScheduler.RunningIsExact | tool_scheduler.go:55-63 | The running counter is the number of calls started and not completed |
| Scheduler.ToolBatchScheduler.StartNext | tool_scheduler.go:99-106 | Starts the runnable call that comes first in the batch; says no exactly when none may start |
| Scheduler.ToolBatchScheduler.Complete | tool_scheduler.go:108-114 | Completes exactly that call and leaves the scheduler equal to the dependency order again |
| Serializability.EffectsCommute | tool_scheduler.go:16-38 | Steps of two tools whose claims do not clash, on the same store, give the same results and the same store in either order |
| Serializability.StepsCommute | tool_scheduler.go:16-38 | The same for the steps of two calls of a batch that do not conflict |
| Serializability.BehaviourKeepsInv | tool_scheduler.go:55-114 | In every behaviour under the scheduler the interleaved steps explain the store, and conflicting calls are ordered |
| Serializability.InterleavingIsSerial | tool_scheduler.go:16-114 | Any interleaving that respects the dependency order is equivalent to the calls one after the other in source order |
| Serializability.CompletedBatchIsSerial | tool_scheduler.go:16-114 | A completed batch, whatever the completion order, ends in the world that running the calls one by one in source order gives |
| Serializability.SerialRunUnique | agent_loop.go:394-428 | Running the calls one by one has one outcome only, so the parallel batch has that one |
| BatchSerial.WovenKeepsInv | agent_loop.go:492-549 | Whatever the workers do between the events of the coordinator, its history and their steps are an ordered interleaving under the dependency order |
| BatchSerial.ExecutedBatchIsSerial | agent_loop.go:439-550 | A batch that ExecuteParallel ran to its end leaves the store and the results of its calls run one by one in source order |
| Batch.PrepareToolCall | agent_loop.go:554-630 | Ready exactly when the run is not cancelled, tool and arguments are known and valid, the resolver's claims are valid and the hook lets it through; unknown tools and invalid arguments are refused as counted errors, a block with a stop reason is not counted; each fault has its own cause; a call that passes carries its merged claims |
| Batch.ErrorOutcome | agent_loop.go:791-807 | A refusal answers its call as an error with the given text; it fails exactly for a blank identifier or name |
| Batch.FailToolCalls | agent_loop.go:809-819 | Refuses every call in order, uncounted; fails exactly when some call has a blank identifier or name |
| Batch.ToolUpdateGate.Emit | agent_loop.go:775-783 | Puts at most one update into the trace of the call, and none once the gate is closed |
| Batch.RunTool | agent_loop.go:651-667 | Whatever a tool reports, also after it has returned and after the call has ended, only updates enter the trace, and none behind a closed gate |
| Batch.LifecycleIff | agent_loop.go:632-744 | A call is one start, then only updates, then one end |
| Batch.Conclude | agent_loop.go:669-743 | An ordinary tool error is an answer, marked as an error, with the tool's text, that does not end the run; a valid result keeps its text and its wish to end; a valid replacement gives the hook's text, flag and wish; a fatal error, an invalid result, a failed hook and an invalid replacement are exactly these faults |
| Batch.ExecuteStartedToolCall | agent_loop.go:644-744 | The trace of the call is one start, then updates, then exactly one end, although the tool reports before the gate closes, between closing and the end, and after the end; the outcome reports what the tool said, failures as errors, or what the hook put in its place |
| Batch.ExecuteSequential | agent_loop.go:394-428 | On success slot i reports what call i or its hook said, or refuses it as an error; a stop request keeps the outcomes before it and refuses the rest unrun; a failure is that of the first call that fails |
| Batch.OutcomesTell | agent_loop.go:394-428 | Without a stop, calls that are unknown, invalid or blocked are refused as errors and every other call is reported with its text, error flag and wish to end |
| Batch.StoppedOutcomesTell | agent_loop.go:394-490 | With a stop, the call whose hook asked for it and all later ones are refused and not counted; before it, calls that ran are reported, and in a parallel batch nothing ran |
| Batch.ClearIff | agent_loop.go:554-743 | Which calls neither fail nor stop the run, in terms of what the world answered |
| Batch.PassingIsCount | agent_loop.go:554-630 | As many calls run as there are calls that nothing speaks against |
| Batch.CountedIsCount | agent_loop.go:239-253 | The count of a batch is the number of its counted outcomes |
| Batch.TrimTrims | resource.go:39-65 | Trimming takes away white space on both sides, and leaves none there |
| BatchParallel.RefusePrepared | agent_loop.go:467-477 | Before a stop, refusals stay and every prepared call is refused uncounted |
| BatchParallel.PrepareBatch | agent_loop.go:448-490 | Judges every call in source order before any starts; exactly the passing calls are prepared, with their merged claims; a stop yields a full set of answers and nothing run; a failure names the first call at fault |
| BatchParallel.LegalKeepsInv | agent_loop.go:492-541 | The coordinator's history, cancellations included, is a run of the dependency order |
| BatchParallel.NothingStartsAfterFault | agent_loop.go:492-541 | After the first fault or noticed cancellation no call starts |
| BatchParallel.StartsOnce | agent_loop.go:501-515 | No call starts twice |
| BatchParallel.WaitsIffAsked | resource.go:39-65 | Two prepared calls conflict exactly when their resolvers asked for the same key after trimming, at least one of them exclusively; a call without a resolver conflicts with none |
| BatchParallel.LaterCallWaits | agent_loop.go:492-541 | In the history of any batch, a call that asked for what an earlier one asked for, one of them exclusively, starts behind the completion of that call |
| BatchParallel.StartRunnable | agent_loop.go:501-515 | Unless a cancellation is seen, it stops only when no call may start |
| BatchParallel.ReceiveOne | agent_loop.go:519-531 | Any one worker's completion is recorded once, its outcome in its own slot; the first error is kept |
| BatchParallel.React | agent_loop.go:533-540 | Keeps an earlier error, or notices a cancellation, or lets every call start that may |
| BatchParallel.RunPrepared | agent_loop.go:492-549 | Whatever the completion order: every started call is drained; the error is the first in the history; success means no error and every prepared call completed |
| BatchParallel.ExecuteParallel | agent_loop.go:439-550 | A nil error means slot i reports what call i or its hook said, failures marked as errors, or refuses it; a preflight stop or failure starts nothing; executions never exceed counted calls |
| Guard.AdmitsWholeBatches | guard/guard.go:92-104 | The guard blocks only by stopping the run, and a call it admits speaks for its whole batch: however many calls of it run, the budget holds |
| Guard.BlocksIff | guard/guard.go:92-104 | A call is blocked exactly when a usage limit is exceeded or its whole batch would exceed the limit of calls, with the reason of the first limit |
| Guard.ReverseResults | guard/guard.go:206-210 | Reverses the collected results |
| Guard.CollectResults | guard/guard.go:157-169 | The maximal run of tool results before a position, in transcript order |
| Guard.TurnBefore | guard/guard.go:170-181 | Finds the tool turn that ends at a position, or there is none |
| Guard.TurnTextTells | guard/guard.go:212-237 | Turns with the same calls and results have the same text; a change of one name, argument, result or error flag changes it |
| Guard.ConsecutiveRepeatedToolTurns | guard/guard.go:152-194 | Counts exactly the longest repetition of equal tool turns at the end of the messages, up to the limit; errs exactly when a turn whose arguments do not parse stands before a repetition shorter than the limit |
| Guard.RepeatsFromIsUnique | guard/guard.go:152-194 | The repetition at the end of the messages does not depend on how it is read |
| Guard.ShortRepetition | guard/guard.go:152-194 | A repetition that ends before the limit is no lack of progress |
| Guard.ShouldStopAfterTurn | guard/guard.go:107-131 | A cancelled run is not judged; then the first limit exceeded among input, output, cost, turns and calls stops it with its own reason; within all of them it stops for no progress exactly when the last turns up to the limit repeat, and fails exactly when a turn that does not parse stands in the way |
| Control.RunControl.EnqueueSteering | run_control.go:147-157 | Accepts exactly while active, at the back of the queue |
| Control.RunControl.EnqueueFollowUp | run_control.go:159-169 | Accepts exactly while active, at the back of the queue |
| Control.RunControl.TakeSteering | run_control.go:174-182 | Takes one message from the front, or all, as the mode says; accepted is taken plus waiting, in order |
| Control.RunControl.TakeNextAtNaturalStop | run_control.go:188-205 | Steering before follow-ups, one message or all as the mode of that queue says; closes in the same step exactly when nothing waits, and then everything accepted has been taken |
| Control.RunControl.Close | run_control.go:207-213 | Nothing is accepted afterwards; what still waited is accounted for as dropped |
| Control.RunControl.Outside | run_control.go:147-213 | Other goroutines may queue messages and close the control at any time; only such a close of an active control counts as one from outside |
| RunLoop.CompleteFollows | agent_loop.go:168-253 | A transcript that is complete turn by turn keeps every tool result behind its call, in call order |
| RunLoop.CompleteTools | agent_loop.go:239-253 | An assistant message with calls followed by the outcomes of its batch is complete again |
| RunLoop.MergedUsers | agent_loop.go:154-214 | The user messages a run adds are exactly the delivered ones, each once |
| RunLoop.EventsInPlace | agent_loop.go:115-292 | The events of n turns one by one: each turn starts behind the end of the turn before it, has at most one batch of tools, and ends |
| RunLoop.EmitTools | agent_loop.go:594-619 | With the guard among the hooks, the executions of all batches together stay within a positive tool-call budget, in either mode |
| RunLoop.Consult | agent_loop.go:594-619 | The guard has the last word on exactly the calls that other hooks let through, and changes nothing else |
| RunLoop.AskStop | agent_loop.go:332-360 | The run goes on only within its turn budget; with the guard, it stops exactly when a budget is exceeded, with the first of them, or for no progress |
| RunLoop.TakeAtStop | agent_loop.go:179-185 | What waits is taken, or the control closes; unless it was closed from outside, it closes only with everything accepted already taken |
| RunLoop.NaturalStop | agent_loop.go:176-214 | Ends the run, with the end it was called for, or appends exactly the queued messages; taken messages are lost exactly when the stop hook then ends or fails the run, which the guard does when it has a reason and, short of errors, only then |
| RunLoop.AcceptedAndLost | agent_loop.go:176-214 | With one turn allowed and used up, an accepted message that waits at the natural stop is taken and never delivered, unless the control was closed from outside |
| RunLoop.ToolTurn | agent_loop.go:239-286 | The results of the batch follow their calls; counted calls are added once; a failed batch leaves the calls open and fails the run; the run ends by itself only if every call asked to end |
| RunLoop.TakeOutcomes | agent_loop.go:247-259 | A stop asked for before a side effect ends the run ahead of anything queued, with every result in place; otherwise the run ends by itself only if there are outcomes and all of them ask for it, and if they do it goes on only with a queued message; the guard stops it exactly when it has a reason |
| RunLoop.AfterTools | agent_loop.go:261-286 | Stop hook, then steering, of which nothing is left waiting but what the mode leaves, then the tools' wish to end: it ends naturally, as ended by tools, only if all outcomes ask for it |
| RunLoop.TruncatedTurn | agent_loop.go:217-237 | The calls of a cut answer are refused in order, none runs and none is counted |
| RunLoop.TakeResponse | agent_loop.go:164-292 | The answer enters the transcript and each field of its usage the bill whatever follows; only a tool-call stop runs tools, an answer with repeated identifiers fails, a cut one has its calls refused |
| RunLoop.RunTurn | agent_loop.go:115-292 | One turn attempt, one start and one end event, the tools inside; without an answer the run fails; messages are lost exactly when the answer would have ended the run and it is stopped or fails; an answer that asks for tools ends the run by itself only if all its calls wish it |
| RunLoop.Finish | agent_loop.go:102-114 | The control is closed before the end event, which is the last |
| RunLoop.RunControlled | agent_loop.go:95-293 | Over whole runs: the assistant messages are the model's answers in order and each usage field is the sum over them; turns and executions stay within the budget whatever is queued; the transcript is complete but for the last turn of a failed run; every accepted message is delivered exactly once and in order, dropped by closing, or lost, and no other user message is added; every turn starts behind the end of the one before and ends with its tools inside; messages are lost exactly when the last answer asks for no tools and the run is stopped or fails; a run ended by tools stands behind the results of a batch all of whose calls asked to end; a run that ends by itself ends as its last answer asks, and has delivered every accepted message unless its control was closed from outside |
| RunLoop.ScriptAdds | agent_loop.go:154-163 | Each field of the usage of a script is the sum of that field over its answers |
| SessionTree.PathsAreUnique | session/history.go:148-165 | There is one walk from the root to a leaf |
| SessionTree.AncestorsAreAPrefix | session/history.go:148-165 | The walk to an ancestor is a prefix of the walk to the leaf |
| SessionTree.SharedEntrySharesAncestors | session/history.go:148-165 | Two branches that share an entry share everything before it, at the same places |
| SessionTree.AppendKeepsPath | session/history.go:117-132 | A new entry changes no existing branch |
| SessionTree.AppendExtendsPath | session/history.go:117-132 | The branch of a new entry is its parent's branch and the entry |
| SessionTree.EmptyLeafIsNotRestored | session/history.go:52-66 | A stored leaf comes back exactly when it is not empty or the tree is |
| SessionTree.History.Restore | session/history.go:52-66 | Succeeds exactly for a tree in parent-first order with a known leaf, and then holds these entries |
| SessionTree.History.PrepareAppend | session/history.go:102-114 | Prepares the entry below the leaf exactly when identifier and time are given, the message is complete and no entry has its identifier |
| SessionTree.History.AppendEntry | session/history.go:117-132 | Appends and moves the leaf exactly when the entry is valid, no entry has its identifier, and its parent, if it names one, is an entry; otherwise nothing changes |
| SessionTree.History.SetLeaf | session/history.go:135-145 | Moves the leaf exactly to known entries |
| SessionTree.History.ActivePath | session/history.go:148-165 | Walking up and reversing gives the branch, root first |
| JournalLines.SplitValidLines | session/jsonl/file.go:614-653 | The scan over the bytes finds exactly the lines a reading from the front finds: complete lines, a whole last record without its newline, a cut record dropped |
| JournalLines.SplitAppend | session/jsonl/file.go:614-653 | Bytes behind complete lines are read as if they stood alone |
| JournalLines.OneLineFile | session/jsonl/file.go:614-653 | What one line, and one piece without its newline, are taken for: too large, malformed, blank, cut short or a record |
| JournalLines.AppendPiece | session/jsonl/file.go:614-653 | A record cut at any byte is dropped; cut before its newline it is kept |
| JournalReplay.ReplayLine | session/jsonl/file.go:516-592 | Accepts a record exactly when its number grows and its kind allows it: messages always, heads and starts in a current file only, a start only with none pending, an end or resolution only of the pending run; a message of version 1 or without identifier goes below the leaf under the message's own identifier, without a time it gets the header's |
| JournalReplay.HeaderIff | session/jsonl/file.go:489-500 | A header names its session and its time, in version 1 or 2; reading starts empty |
| JournalReplay.ChainedExtends | session/jsonl/file.go:530-545 | A record of version 1, or without an identifier, extends the branch before it by its message |
| JournalReplay.LegacyOpensWhole | session/jsonl/file.go:479-610 | A file of version 1 opens with all its messages, in file order, under their own identifiers |
| JournalReplay.ParseFile | session/jsonl/file.go:479-610 | The loop computes the replay of the decoded lines, restores the tree, and says what to cut or to complete; a version 1 file gives all its messages in file order |
| JournalReplay.RestoreIff | session/jsonl/file.go:594-604 | A log is restorable exactly when it replays and its entries form a tree with a known leaf |
| JournalRecovery.SurvivorsAreUnique | session/jsonl/file.go:479-653 | How many records survive a cut is determined by the cut |
| JournalRecovery.CrashRecovery | session/jsonl/file.go:141-191 | For every byte prefix that contains the header's JSON: opening succeeds, recovers exactly the records whose JSON lies in the prefix, and opening the repaired file again gives the same state |
| JournalRecovery.RepairSettlesIff | session/jsonl/file.go:141-191 | For any file that opens, opening its repair again gives the same state exactly when the file does not end in a piece of white space; if it does, the second opening fails |
| JournalRecovery.BlankTailHappens | session/jsonl/file.go:141-191 | A lawful codec and a readable file of a header and one blank that the repair turns into a file that does not open |
| Journal.RunsNeverOverlap | session/jsonl/file.go:557-592 | In every file that opens, a run starts only after every earlier run was ended or resolved |
| Journal.AppendIsSound | session/jsonl/file.go:446-465 | A record that takes a restorable log to a restorable state keeps every prefix of the log restorable |
| Journal.GraftStep | session/jsonl/file.go:241-277 | Entries that extend the tree as a whole extend it one by one |
| Journal.File.Create | session/jsonl/file.go:117-136 | A new file holds its header and nothing else, in step with the handle |
| Journal.File.Open | session/jsonl/file.go:141-191 | Opens exactly what parses, unless the repair fails, a version 1 file with all its messages in order; repairs the tail and leaves a handle in step with the bytes unless the file ends in white space; a failed repair leaves the bytes or the repaired bytes, which open to the same state |
| Journal.File.AnyCutRecovers | session/jsonl/file.go:141-191 | At any moment of a handle's life, poisoned or not, any cut of its file after the header opens to the surviving records |
| Journal.File.SecuredSurvives | session/jsonl/file.go:430-465 | Any cut behind the last successful sync, poisoned handle or not, opens to at least the secured records and all their entries |
| Journal.OpenAfterCrash | session/jsonl/file.go:141-191 | The handle after a crash is clean and keeps every promise again, on the surviving records; if the repair fails, what it leaves still opens to them |
| Journal.File.WriteAll | session/jsonl/file.go:655-667 | However the system splits the write, a prefix of the data is appended, all of it on success |
| Journal.File.WriteRecord | session/jsonl/file.go:446-465 | An oversized record leaves no trace and no poison; a failed write poisons; success appends exactly the record's line |
| Journal.File.SyncLocked | session/jsonl/file.go:430-444 | Success secures everything written; a failed sync poisons and secures nothing more; a poisoned handle never syncs |
| Journal.File.EnsureWritable | session/jsonl/file.go:405-428 | Refuses a closed or poisoned handle without a byte; upgrades a legacy file once without changing what it says |
| Journal.File.AppendEntries | session/jsonl/file.go:241-277 | On success the file says what it said plus these entries in order, all of it secured; on failure, plus a prefix of them; a failed write or sync poisons, and any other failure past the first entry is a cancellation or the refusal of the very next entry for itself |
| Journal.PartialBatchIff | session/jsonl/file.go:241-277 | A batch that failed without poisoning has changed the content exactly when it took an entry; unless cancelled, the entries before fit and the next one is invalid, not encodable or too large; if all fit, nothing was taken |
| Journal.PartialBatchHappens | session/jsonl/file.go:241-277 | A lawful codec and two valid entries of which the second is too large: the first stays in the file, the handle stays clean, and no run of this batch succeeds |
| Journal.File.SetHead | session/jsonl/file.go:279-294 | Moves the stored leaf and nothing else, secured on success; a failure changes nothing or poisons |
| Journal.File.BeginRun | session/jsonl/file.go:296-325 | Opens a run only when none is open, and refuses for an open one only then; on success the last record is this marker, secured |
| Journal.File.EndRun | session/jsonl/file.go:327-358 | Closes exactly the open run; on success the last record is this marker with its run and message, secured; each refusal has its own cause |
| Journal.File.ResolveRun | session/jsonl/file.go:360-388 | Resolves exactly the open run; on success the last record is this marker with its note, secured; each refusal has its own cause |
| Session.ChainGrowsTree | session/session.go:555-590 | A fresh chain below a known leaf extends the tree, and the branch by exactly the chain |
| Session.PrepareStep | session/session.go:555-590 | Preparing stops exactly at the first message that is incomplete or whose identifier is taken |
| Session.JournalTakesChain | session/session.go:482-492 | A chain for the memory also extends the journal's tree, which has every entry of the memory |
| Session.Session.New | session/session.go:156-170 | A new conversation is empty and holds no attempt, on any journal; the journal disagrees exactly when it has an open run |
| Session.Session.Resume | session/session.go:177-204 | Holds the stored entries, leaf and pending run; the transcript is the stored branch |
| Session.LinearHistory | session/history.go:69-83 | Messages stored without a tree become one chain, exactly when they are complete with identifiers of their own; its transcript is the messages |
| Session.Session.ResumeMessages | session/session.go:72-89 | Holds the messages as one chain; it keeps the promises of a session exactly when the journal has these entries and this attempt |
| Session.Session.Start | session/session.go:388-459 | Busy before recovery before anything is written; on success the message is secured on disk and in memory, the start marker is secured, the handle is clean and the session taken |
| Session.Session.BeginPrompt | session/session.go:514-530 | Takes the session only when it is free and no attempt is open |
| Session.Session.PersistAndCommit | session/session.go:482-498 | Memory follows only a secured batch: every entry in memory is among the secured records, at any time; a failed batch leaves memory as it was |
| Session.Session.PrepareEntries | session/session.go:555-590 | Succeeds exactly for messages that are complete with identifiers of their own, and yields the chain below the leaf |
| Session.Session.CommitRun | session/session.go:461-506 | On success the transcript grows by exactly the new messages, the attempt is closed and the journal is clean with everything secured; it is refused exactly for a short result and for messages that are incomplete or not new; any failure leaves the attempt open, and before the commit the transcript too; in every case the prompt is over and the session free |
| Session.Session.Prompt | session/session.go:388-506 | A whole prompt: on success the transcript grows by the user's message and what the run produced, the journal is clean and secured, and reopening its bytes gives the state in memory; failed or not, a crash behind the last sync loses no message of the memory; a session with an unresolved attempt takes none |
| Session.Session.Converse | session/session.go:388-506 | Over any sequence of prompts up to the first failure: the transcript is what was said, in order; after success reopening the journal gives the state in memory; in any case any cut behind the last sync reopens with every message of the memory |
| Session.Session.BranchTo | session/session.go:254-284 | Busy exactly while running; otherwise refused exactly for identifiers no entry has and for assistant messages with calls; secured on disk first; afterwards transcript and context are the branch of the target |
| Session.Session.ResolveRecovery | session/session.go:298-314 | Clears the attempt only once the journal has the resolution |
| Session.Session.SetContextBuilder | session/session.go:238-250 | Refused while running; otherwise the context starts from the whole transcript |
| Session.Session.ReopeningGivesTheSameState | session/session.go:212-228 | Parsing the bytes of a clean journal in step with memory gives the entries, leaf, pending run and transcript in memory, as after every successful prompt |
| Session.Session.MemorySurvives | session/session.go:482-498 | Whatever has failed, and whatever a crash takes behind the last successful sync: opening the rest of the file gives back every message in memory |
| ContextWindow.ChooseCut | contextwindow/builder.go:305-338 | Cuts at the last user message at or before the point that keeps the recent tokens, else at the assistant message before the results there, else not at all |
| ContextWindow.CutKeepsRecent | contextwindow/builder.go:305-338 | Such a cut keeps at least the recent tokens and never starts at a tool result |
| ContextWindow.ChooseSummaryChunk | contextwindow/builder.go:342-370 | The chunk and the previous summary fit; it is the most that fits, moved back to a user or else assistant message |
| ContextWindow.NextCut | contextwindow/builder.go:185-192 | A decided cut makes progress, keeps the recent tokens, starts the rest at a user or assistant message, and its request fits; none is decided exactly when no position would do |
| ContextWindow.ToolTokensAppend | contextwindow/builder.go:252-273 | Tools are charged one by one, each at least by its own count |
| ContextWindow.ProjectedShows | contextwindow/builder.go:391-411 | A view is the kept messages, behind one message that quotes the summary if there is one |
| ContextWindow.Builder.ApplyCheckpoint | contextwindow/builder.go:286-300 | Uses the last message that carries the checkpoint's identifier; drops a checkpoint of another history |
| ContextWindow.Builder.Restore | contextwindow/builder.go:239-248 | Installs exactly checkpoints with a summary and a message |
| ContextWindow.Builder.Build | contextwindow/builder.go:140-228 | The view fits the window beside prompt, tools and output, whether the caller's limit or the reserve; without that room it fails, a view that fits is returned unsummarized, and it fails later only for lack of a summarizer, of room for a summary, with the summarizer, or where nothing can be cut; the requests are consecutive pieces, each built on the last reply, that cover exactly what lies between the old and the new checkpoint; the view is the last summary and the rest |
| ContextWindow.RequestsAre | contextwindow/builder.go:182-225 | Every summary request has messages, goes on from the summary before it, asks for at most the configured size, and fits the window with room for the answer; no summary kept is blank |
| ContextWindow.Builder.Compact | contextwindow/builder.go:182-225 | The loop terminates; every compaction keeps the recent tokens and leaves a checkpoint at the first kept message |
| ContextCoverage.TailKeepsCalls | contextwindow/builder.go:302-338 | A tail that starts at no tool result keeps no result without its call |
| ContextCoverage.ViewKeepsCalls | contextwindow/builder.go:391-411 | Nor does the view with the summary in front |
| ContextCoverage.FoundCheckpointCovers | contextwindow/builder.go:286-300 | A checkpoint found on any branch summarizes exactly the messages before its first kept message there |
| ContextCoverage.GrowingKeepsCover | session/history.go:117-132 | New entries do not change what a checkpoint summarizes |
| ContextCoverage.BuildCovers | contextwindow/builder.go:140-228 | Whatever was summarized before and during a Build that summarizes is exactly the transcript before the kept tail, and the new checkpoint fits the tree again, after any branching |
| ContextCoverage.ViewPresents | agent_loop.go:128-152 | A view used as the run's initial context presents the same transcript to the next Build |
| ContextLife.AfterBuild | contextwindow/builder.go:140-228 | After any Build, failed, dropped checkpoint or not, the checkpoint still summarizes what precedes its first kept message and is found in what is presented, unless that is everything; the view is the transcript, or a summary of exactly its first messages and the rest |
| ContextLife.BuildOnce | agent_loop.go:128-152 | The same for the builder itself; the session may go on from the view |
| ContextLife.Live | contextwindow/builder.go:140-300 | Over any order of messages, branch switches and Builds, with views adopted or not: every view shows the whole transcript of its moment, as it is or behind a summary of exactly its first messages |
| ToolAssembly.ToolCalls.Apply | internal/stream/tool_calls.go:52-102 | Accepts exactly valid deltas that continue the life of their call within the size limit in bytes; a refused delta changes nothing |
| ToolAssembly.ToolCalls.Build | internal/stream/tool_calls.go:107-140 | Every call once, by content index, with its identifier, name and arguments, succeeding only if all are finished and proper; a truncated response with calls is refused; an incomplete and an improper call are refused as such |
| ToolAssembly.WidthIs | internal/stream/tool_calls.go:74-90 | A character counts as many bytes as its encoding in UTF-8 has (section 3 of RFC 3629) |
| OpenAIStream.StreamState.EmitDelta | provider/openai/stream.go:190-198 | What is shown is what the assembler took; a delta is refused only by the listener, as invalid, or as too large |
| OpenAIStream.StreamState.ApplyText | provider/openai/stream.go:89-97 | Shows the piece in the one text part; only the listener can refuse it |
| OpenAIStream.StreamState.ApplyThinking | provider/openai/stream.go:76-88 | Shows the piece in the one thinking part; only the listener can refuse it |
| OpenAIStream.StreamState.StartTool | provider/openai/stream.go:150-178 | Shows one start and then the arguments kept back; fails only for a missing or blank name, a blank identifier, too many arguments, or the listener |
| OpenAIStream.StreamState.Identify | provider/openai/stream.go:120-131 | A changed identifier and a name after the start are refused, exactly these |
| OpenAIStream.StreamState.ApplyToolDelta | provider/openai/stream.go:114-148 | The fragment is shown or kept back, never lost or repeated; every error has its stated cause |
| OpenAIStream.StreamState.ApplyChoice | provider/openai/stream.go:74-110 | Only the first candidate counts: its thinking field and its content are shown, then its pieces are taken, and then its reason for the end |
| OpenAIStream.StreamState.Apply | provider/openai/stream.go:66-112 | What is shown grows by the contents of the first candidates and by their thinking fields, and what is known of a call by the arguments of its pieces, in order; the last reason named counts |
| OpenAIStream.ChunkBrings | provider/openai/stream.go:66-112 | What a chunk brings is the joined fields of its first candidates: content, one of the two thinking fields, and the arguments of each call |
| OpenAIStream.StreamState.EndTool | provider/openai/stream.go:212-228 | Ends a call once, starting it first if nothing was shown |
| OpenAIStream.StreamState.Finish | provider/openai/stream.go:200-271 | One part for every part that was opened, in order: the text and thinking that arrived, and each call with the concatenation of its wire fragments; once the calls can be ended, there is a message exactly when the reason is known and fits the calls, there is some part, every call's arguments are an object and the usage is acceptable; otherwise the error is the one of what is wrong |
| OpenAIStream.AllBuilt | internal/stream/tool_calls.go:107-140 | Once every call has ended the assembler holds all of them, none incomplete |
| OpenAIStream.CallsMatchParts | provider/openai/stream.go:230-241 | The i-th assembled call belongs to the i-th tool part: the lost-call branch cannot be reached |
| OpenAIStream.StreamState.BuildParts | provider/openai/stream.go:230-271 | Every tool part finds its call: the missing-call branch cannot be reached; no content is the error exactly when nothing is to be rendered, a bad message exactly when the reason contradicts the calls or the usage is bad |
| OpenAIStream.MessageShape | provider/openai/stream.go:243-262 | Once all calls have ended, the message is empty exactly when no part was opened, and has calls exactly when the stream has |
| OpenAIStream.PartsArrived | provider/openai/stream.go:230-262 | A finished message has one part for every part that was opened, and each says what arrived for it |
| OpenAIStream.ProperCalls | internal/stream/tool_calls.go:107-140 | The assembler refuses a call of a finished stream exactly for arguments that are no object |
| Mutation.MutualExclusion | tool/coding/mutation.go:43-88 | In every reachable state two callers of one path never both hold its token |
| Mutation.EntryIsExact | tool/coding/mutation.go:43-88 | The entry of a path in use is the one its users hold, counts exactly holders and waiters, and has its token free exactly when nobody holds it |
| Mutation.EntryIffUsed | tool/coding/mutation.go:43-88 | A path has an entry exactly as long as somebody holds or waits for it |
| Mutation.EnterKeepsLocks | tool/coding/mutation.go:46-55 | Entering keeps the lock protocol |
| Mutation.LeaveKeepsLocks | tool/coding/mutation.go:81-88 | Leaving keeps it, whether or not the entry is removed |
| Mutation.MutationQueue.constructor | tool/coding/mutation.go:39-41 | Nobody waits, nothing is committed, no base is disturbed |
| Mutation.MutationQueue.Enter | tool/coding/mutation.go:46-55 | A caller waits on the entry of its path; every other caller stands where it stood |
| Mutation.MutationQueue.TakeToken | tool/coding/mutation.go:57-62 | Takes the free token and changes nothing for anybody else |
| Mutation.MutationQueue.GiveBack | tool/coding/mutation.go:64-79 | Gives the token back, also when cancelled right after taking it, and changes nothing for anybody else |
| Mutation.MutationQueue.ReleaseRef | tool/coding/mutation.go:81-88 | Drops one reference; the entry stays exactly as long as somebody else refers to it, who stands where he stood |
| Mutation.SelectBase | tool/coding/write.go:53-94 | An edit succeeds exactly for an existing file whose digest is the expected version; a write exactly for such a file with a version given, or for a missing file and none; a changed version is the error exactly when it differs |
| Mutation.ConditionMeansSame | tool/coding/mutation.go:131-154 | With injective digests the condition before the commit holds exactly when the content is still the base |
| Mutation.MutationQueue.Observe | tool/coding/edit.go:77-93 | Under the lock the base becomes the current content exactly when the expected version is its digest, or the file is missing and a write expects none; otherwise the caller only has to leave |
| Mutation.MutationQueue.Recheck | tool/coding/mutation.go:131-154 | Passes exactly when the content is still the base; a caller whose file nobody wrote from outside always passes; exactly a caller that passes is no longer disturbed |
| Mutation.MutationQueue.Rename | tool/coding/mutation.go:156-163 | Replaces exactly this file and records base, content before and whether an outside write came between |
| Mutation.MutationQueue.OutsideWrite | tool/coding/mutation.go:127-163 | A write from outside disturbs exactly whoever holds the token of that path |
| Mutation.AnyStep | tool/coding/mutation.go:43-163 | One step of one caller, cancellations included, keeps every other caller, every promise, and that nothing is lost |
| Mutation.Interleave | tool/coding/mutation.go:43-163 | Over any schedule of any callers without outside writes: every commit was made from the content immediately before it, and the files are what the commits made of them |
| Mutation.RenameKeepsBases | tool/coding/mutation.go:156-163 | A commit invalidates no other holder's base |
| Utf8.PrefixValidIff | tool/output/truncate.go:195-223 | Cutting valid text leaves valid text on both sides exactly at a boundary (sections 3 and 4 of RFC 3629) |
| Utf8.BoundaryBefore | tool/output/truncate.go:199-209 | There is a boundary at most three bytes back |
| Utf8Encoding.ValidTextIff | tool/output/truncate.go:195-223 | Text is well formed exactly when it encodes a sequence of characters (section 3 of RFC 3629) |
| Truncate.LinesAre | tool/output/truncate.go:146-158 | One line for each newline, and one for what follows the last |
| Truncate.HeadLineEnd | tool/output/truncate.go:160-174 | The longest prefix within the line limit |
| Truncate.TailLineStart | tool/output/truncate.go:177-193 | The longest suffix within the line limit |
| Truncate.SafeHeadByteEnd | tool/output/truncate.go:199-209 | The longest valid prefix within the byte limit, giving up at most three bytes |
| Truncate.SafeTailByteStart | tool/output/truncate.go:213-223 | The longest valid suffix within the byte limit, giving up at most three bytes |
| Truncate.TruncateHead | tool/output/truncate.go:79-143 | The longest prefix that is valid UTF-8 and within both limits, with true counts |
| Truncate.TruncateTail | tool/output/truncate.go:88-143 | The longest suffix that is valid UTF-8 and within both limits, with true counts |
| Edit.CRLFRoundTrip | tool/coding/edit.go:232-241 | Normalizing and restoring CRLF gives the text back exactly when it has no bare newline |
| Edit.RoundTripIff | tool/coding/edit.go:225-241 | Normalizing and restoring the detected line ending gives the text back exactly when its line endings are uniform |
| Edit.CountMeans | tool/coding/edit.go:168-185 | The count is 0 exactly without an occurrence, and above 1 exactly with two that do not overlap |
| Edit.OverlapCountsOnce | tool/coding/edit.go:168-185 | `aa` is found once in `aaa` and more than once in `aaaa` |
| Edit.PlanSays | tool/coding/edit.go:163-204 | A plan has, for every replacement, a span where its normalized old text stands and which puts its normalized new text there, and no other spans |
| Edit.PlanEdits | tool/coding/edit.go:163-204 | Succeeds exactly when every old text is found once and the spans do not overlap; an error names the first edit at fault |
| Edit.OrderDoesNotMatter | tool/coding/edit.go:163-204 | The plan does not depend on the order of the edit list |
| Edit.PlanIsUnique | tool/coding/edit.go:163-204 | There is at most one plan for a list of edits |
| Edit.SpliceAllIsBuilt | tool/coding/edit.go:206-216 | Splicing the spans one at a time from last to first is building the text from front to back |
| Edit.ApplyPlannedEdits | tool/coding/edit.go:206-216 | The loop equals splicing the spans one at a time from last to first |
| Edit.RestoreSpliceAll | tool/coding/edit.go:236-241 | Restoring line endings turns a splice of the normalized text into the same splice at the original places |
| Edit.OnlyMatchesChangeIff | tool/coding/edit.go:98-108 | For every text and every plan: normalizing, splicing and restoring equals replacing the matches in the text itself exactly when it has no CRLF or every bare line feed lies inside a match |
| Edit.MixedEndingsChange | tool/coding/edit.go:98-108 | A file with mixed line endings on which an edit changes another line |
| Edit.MixedEndingsKept | tool/coding/edit.go:98-108 | A file with mixed line endings on which an edit changes nothing but its match |
| Edit.EditText | tool/coding/edit.go:98-108 | Succeeds exactly when the edits have a plan; the byte order mark stays; the result is the file with nothing but the matches replaced exactly when it has no CRLF or every bare line feed lies inside a match |

## Left out

- Session.Session.Start: the goroutine that waits for the run is the separate call of CommitRun; the agent's refusal to start is a free choice.
- Session.Session.Resume: the state comes from opening the same journal; states from elsewhere that name entries the journal does not have are not modelled.
- Journal.File.Open: file permissions and the lock against a second process are not modelled.
- Journal.File.AppendEntries: sequence numbers are unbounded; the wrap-around of a 64-bit counter is not modelled.
- RunLoop.RunControlled: the model answers with a finite list and fails after it; a run without a turn budget that goes on for ever is covered by its finite prefixes. The context builder appears as the initial messages only.
- OpenAIStream.StreamState.Finish: whether a text is a JSON object is an abstract predicate, and whether the reported usage is acceptable is a parameter.
- Mutation.MutationQueue.Recheck: digests are taken as injective; reading the file again may fail in the code, which the model leaves out; a write by another process between this check and the rename remains possible, as the code says, and marks the commit as disturbed.
- Mutation.SelectBase: file permissions, temporary files and the creation of parent directories are not modelled.
- Truncate.TruncateHead: stated for valid UTF-8 only.
- Truncate.TruncateTail: stated for valid UTF-8 only.
- Edit.EditText: the check that the file is text, and the diff shown afterwards, are not modelled.
- Batch.PrepareToolCall: messages shown to the model are fixed texts.
- Guard.ShouldStopAfterTurn: cost is a real number without rounding; canonical JSON and digests are abstract functions.
- ContextWindow.Builder.Build: the counter is an arbitrary function to the non-negative integers; the heuristic counter of `contextwindow/builder.go:413-472` is not modelled.
- Model deltas that a provider emits late have no gate in the code; nothing is claimed about them after the end of a message.
- Appending bare messages to a journal (`session/jsonl/file.go:203-239`) is a convenience around appending entries.
- Paging through a file with the read tool: a byte cut in mid-line counts as a visible line, so full coverage does not hold.
- Terminal interface, commands, configuration, model catalogue, HTTP, event decoding, retries, trust store, policies and workspace access: display and input/output around library calls.
- Data exchange formats of messages and the JSON Schema subset: mostly their own specification.
- Disk behaviour beyond "bytes are appended, possibly cut at any byte, and never before the last successful sync"; bytes read when a file is opened count as secured.
