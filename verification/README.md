# Gitmoot: a model and its proofs

Gitmoot is a local daemon that schedules agent jobs. This project models its
concurrent scheduler core, its line diffs, its template expression evaluator,
its bridge guards, four printer/parser pairs and its chat and alert protocols,
and proves what they promise. `dafny verify dfyconfig.toml` checks everything.

**Modules.** `Basics` and `Text` hold optional values and the string operations.
`Lcs`, `LineDiff` and `TemplateDiff` are the two diffs. `InflightTracker`,
`AdmissionBudget` and `JobSelector` are the dispatcher's parts, `SelectionRules`
the selection told job by job; `Dispatcher` is the state machine over them, with
its invariant in `DispatcherSafety`, its steps in `DispatcherPasses`,
`DispatcherJobs` and `DispatcherEndings`, and the results in `DispatcherTheorem`;
`DispatchTick` is one barrier tick as written. `DispatchRules`, `DispatchPool` and
`DispatchLives` say what ticks, pool passes and single jobs achieve: what is
selected, what is recorded, and that an end undoes its beginning. `Expr` is the
evaluator on text, `ExprSyntax` the trees and their spelling, `ExprFaithful` the
proof that they agree, `ExprScans` the scans and the ill-formed texts. `JsonKeys`
and `TokenBucket` are the bridge. `DaemonArgs`, `DaemonRestart` and
`DaemonOverlay` follow the daemon's arguments; `DaemonFlags` is everything that
may be typed; `DaemonMisread` is what a lost value does, and `DaemonRoundTrip`,
`DaemonOneFlag` and `DaemonSeveralFlags` say exactly when arguments come back.
`ShellQuote`, `RuntimeAuth` with `RuntimeAuthLines`, and `Frontmatter`,
`TemplateFormat`, `TemplateRoundTrip` with `TemplateReader` are the other pairs;
`TemplatePull` bulk pulls; `BlockedSince`, `MootCap` and `AutoRespond` the
protocols; `JsonCandidates` the brace scan.

**Form.** An object whose methods update its fields is a class whose methods are
proved against functions on an abstract state; a loop is a method proved against
a function of its input. Lemmas and invariants are about those functions. What
interleaves is a step function over a datatype of events, one per lock-guarded
call or store call, and the results hold for every sequence of events; an event
that is not enabled changes nothing.

**What the dispatcher assumes.** Jobs have a repository name and a checkout key;
different repositories do not share checkout keys; the key of an isolation
worktree belongs to its job alone; memory estimates are not negative
(`Dispatcher.WellFormed`). A repository has one barrier pass at a time, as its
ticks run one after the other. The pool pass and the selector follow
internal/cli/daemon_scheduler.go.

**Where the code and its promises part.**

- A job filed under an empty repository name is counted in and never out
  (internal/cli/daemon_dispatch_tracked.go:145 and 200):
  `InflightTracker.EndKeepsAccurateIff`.
- Reserving twice and releasing once takes the first reservation away:
  `AdmissionBudget.ReleaseUndoesReserveIff`. The dispatcher never does this.
- The evaluator's operator scan does not know about quotes, so a literal such as
  `"a==b"` is a comparison: `ExprFaithful.LiteralIffNoOperator`. A chain of
  equalities groups to the right, unlike in JavaScript:
  `ExprFaithful.ChainGroupsRight` and `ExprFaithful.ChainDiffers`.
- A home or a session spelt `--dry-run` is dropped on restart, and the rest is
  misread: `DaemonRoundTrip.RoundTripIff`. A value spelt like an overlaid flag is
  edited away with it: `DaemonOneFlag.OneFlagIff`, with the input
  `DaemonOneFlag.RestartGoesWrong`. An explicit empty `--scheduler` becomes pool
  when several workers remain: `DaemonOverlay.AskedModeIff`.
- A multi-line YAML scalar, or an evaluation key with a newline, can put a `---`
  line into the header and break the split: `TemplateRoundTrip.BlockBreaks`,
  `TemplateRoundTrip.BadKeyBreaks` and the condition
  `TemplateRoundTrip.SplitUndoesFormatIff`.
- A dry-run pull reports a repeated id as written each time, and does not foresee
  a failing write: `TemplatePull.DryRunAgreesIff`.
- Concurrent moot sends can pass the cap by k - 1 messages and post the overrun
  notice k times; both bounds are proved and attained (`MootCap.CapHolds`,
  `MootCap.BoundIsAttained`, `MootCap.NoticesAttained`), so the cap and the single
  notice hold exactly for one sender: `MootCap.OneSenderIff`.
- When the last change of the new runtime-auth file's mode fails, the bootstrap
  reports a failure and leaves the file (internal/cli/daemon_runtime_auth.go:191):
  `RuntimeAuth.Home.Bootstrap`.
- The auto-respond sweep counts replies before it looks for jobs in flight, and a
  job posts its reply after it is terminal (internal/cli/daemon_result.go:314-365),
  so a job that ends in between is seen by neither read and the cap can be
  overstepped: `AutoRespond.CapIsOverstepped`, `AutoRespond.OverstepsIff` and the
  bound `AutoRespond.CapWithin`.

**Parameters.** JavaScript values and their operations, the YAML library, number
and duration formatting, the worker-session policy, clock readings, database and
file faults, and fetched templates are parameters. Texts are sequences of
Unicode scalar values; lengths in bytes are computed where they matter. Memory,
tokens and the limiter's clock are exact reals, other instants exact integers.

## Model

| member | source | states |
|---|---|---|
| `LineDiff.FillTable` | internal/artifact/text.go:66-80 | every cell of the table is the length of a longest common subsequence of the remaining lines |
| `LineDiff.DiffLines` | internal/artifact/text.go:65-105 | the emitted operations are the script that the table dictates, for all line lists |
| `Lcs.IsLongest` | internal/artifact/text.go:66-80 | the recurrence behind the table is the maximum over all common subsequences, attained by one |
| `LineDiff.ScriptReplays` | internal/artifact/text.go:81-104 | dropping inserts gives the old lines, dropping deletes the new ones, and as many operations are equal as the LCS is long |
| `LineDiff.ScriptIsCheapest` | internal/artifact/text.go:65-105 | no script turning old into new has fewer inserts and deletes |
| `LineDiff.DeletesComeFirst` | internal/artifact/text.go:87-103 | within a changed block no delete follows an insert |
| `LineDiff.Diff` | internal/artifact/text.go:17-41 | the text is the two headers, with a and b for blank names, then the marked lines |
| `LineDiff.DiffTextIsAScript` | internal/artifact/text.go:17-41 | the body read back is a cheapest script between the lines of both contents |
| `LineDiff.SplitLinesKeepsContent` | internal/artifact/text.go:43-50 | joining the lines gives the normalized content up to one final newline |
| `LineDiff.NoLinesIff` | internal/artifact/text.go:43-50 | the empty text and a newline alone, in either style, have no lines; every other text has some |
| `LineDiff.HeaderNamesBoth` | internal/artifact/text.go:17-41 | the first two lines of a diff name the old side and then the new one, by a and b where a name is blank; the rest is the body |
| `Text.NewlinesAreNormalized` | internal/artifact/text.go:43-50 | a text cut by its CRLFs into parts without any is normalized to the parts joined by newlines |
| `TemplateDiff.CommonPrefix` | internal/agenttemplate/agenttemplate.go:974-985 | the longest agreeing prefix |
| `TemplateDiff.CommonSuffix` | internal/agenttemplate/agenttemplate.go:987-998 | the longest agreeing suffix |
| `TemplateDiff.DiffLines` | internal/agenttemplate/agenttemplate.go:950-972 | the printed text is the removed block, then the added block, between the trimmed ends |
| `TemplateDiff.CutSplits` | internal/agenttemplate/agenttemplate.go:950-960 | prefix and suffix never overlap: both sides are prefix, block and suffix |
| `TemplateDiff.CutIsMaximal` | internal/agenttemplate/agenttemplate.go:974-998 | the two remaining blocks share neither a first nor a last line |
| `TemplateDiff.CutKeepsLength` | internal/agenttemplate/agenttemplate.go:950-960 | LCS of the whole is prefix plus suffix plus LCS of the blocks: trimming preserves optimality |
| `TemplateDiff.BlockScriptReplays` | internal/agenttemplate/agenttemplate.go:961-971 | the block diff replays |
| `TemplateDiff.BlockScriptIsCheapestIff` | internal/agenttemplate/agenttemplate.go:950-972 | the block diff is a cheapest script if and only if the blocks share no line |
| `TemplateDiff.UpToDateIff` | internal/agenttemplate/agenttemplate.go:946-955 | the exact diff prints the up-to-date notice for equal texts and for no others |
| `TemplateDiff.Diff` | internal/agenttemplate/agenttemplate.go:940-944 | the diff of the texts without the newlines at their ends |
| `TemplateDiff.DiffUpToDateIff` | internal/agenttemplate/agenttemplate.go:940-955 | and this one prints the notice if and only if the texts differ in newlines at the end or not at all |
| `TemplateDiff.ShowsADifference` | internal/agenttemplate/agenttemplate.go:950-972 | different texts always show at least one line |
| `TemplateDiff.TextIsAScript` | internal/agenttemplate/agenttemplate.go:950-972 | the text after its header reads back as deletes and then inserts which, put between the lines both texts share at their ends, turn the local text into the upstream one |
| `TemplateDiff.HeadNamesBoth` | internal/agenttemplate/agenttemplate.go:961-964 | the header is two lines, for the cached side and then the upstream one |
| `InflightTracker.Tracker.BeginWithin` | internal/cli/daemon_dispatch_tracked.go:117-148 | admitted unless draining, over the host cap or already in flight; the new state is the registration and nothing else |
| `InflightTracker.Tracker.EndJob` | internal/cli/daemon_dispatch_tracked.go:151-166 | the new state drops the job and its counts; unknown ids change nothing |
| `InflightTracker.Tracker.TryBeginPool` | internal/cli/daemon_dispatch_tracked.go:338-350 | a pool pass begins only when nothing drains, no pool pass lives and nothing of the repository is in flight |
| `InflightTracker.Tracker.FinishPool` | internal/cli/daemon_dispatch_tracked.go:352-363 | the new state drops the pool pass and one wait |
| `InflightTracker.Tracker.Seeds` | internal/cli/daemon_dispatch_tracked.go:317-332 | the returned keys are exactly those held by in-flight jobs |
| `InflightTracker.RegisterKeepsAccurate` | internal/cli/daemon_dispatch_tracked.go:139-147 | registering keeps every counter equal to the per-key cardinality |
| `InflightTracker.EndKeepsAccurateIff` | internal/cli/daemon_dispatch_tracked.go:151-208 | ending keeps the counters exact if and only if the job has a repository name |
| `InflightTracker.EndTwice` | internal/cli/daemon_dispatch_tracked.go:151-166 | ending a job twice is ending it once |
| `InflightTracker.EndUndoesRegister` | internal/cli/daemon_dispatch_tracked.go:117-208 | a begin and its end leave no trace, no zero entries either |
| `InflightTracker.TotalIsJobs` | internal/cli/daemon_dispatch_tracked.go:126-138 | the per-repository counts add up to the number of jobs in flight |
| `InflightTracker.AdmissionRespectsCap` | internal/cli/daemon_dispatch_tracked.go:126-138 | no admission takes the host over its cap |
| `InflightTracker.PoolStartsIdle` | internal/cli/daemon_dispatch_tracked.go:338-350 | a pool pass is admitted exactly when its repository is idle |
| `InflightTracker.AdmittedIff` | internal/cli/daemon_dispatch_tracked.go:117-148 | a job is admitted if and only if nothing drains, it is not in flight, and a positive cap exceeds the number of jobs in flight |
| `AdmissionBudget.Budget.TryReserve` | internal/cli/admission_budget.go:86-109 | reserves when both caps allow it; a repeated reservation succeeds and changes nothing |
| `AdmissionBudget.Budget.Refund` | internal/cli/admission_budget.go:116-131 | gives back exactly what the job held |
| `AdmissionBudget.ReserveKeepsSound` | internal/cli/admission_budget.go:86-109 | the count and the memory stay exact sums and both caps hold |
| `AdmissionBudget.ReleaseKeepsSound` | internal/cli/admission_budget.go:116-131 | releasing keeps the sums exact |
| `AdmissionBudget.ReleaseUndoesReserveIff` | internal/cli/admission_budget.go:86-131 | release undoes reserve if and only if the job held nothing before |
| `AdmissionBudget.GrantedIff` | internal/cli/admission_budget.go:86-109 | a job holding nothing is granted its reservation if and only if the sessions and the memory of all holders, with its own, stay within the caps that are set; a refusal changes nothing |
| `AdmissionBudget.GrantedTwice` | internal/cli/admission_budget.go:86-96 | a job that holds a reservation is granted again, and nothing is counted twice |
| `AdmissionBudget.NewIsOffIff` | internal/cli/admission_budget.go:60-69 | there is a budget if and only if one of the caps is positive, and it starts empty |
| `JobSelector.SelectRunnable` | internal/cli/daemon_scheduler.go:1667-1688 | the loop computes the selection |
| `JobSelector.SelectionIsSafe` | internal/cli/daemon_scheduler.go:1667-1766 | at most the limit, pairwise distinct checkout keys, none seeded |
| `JobSelector.SelectionPartitions` | internal/cli/daemon_scheduler.go:1678-1687 | no pending job is lost or taken twice |
| `JobSelector.SharedSessionsAreBacked` | internal/cli/daemon_scheduler.go:1755-1803 | jobs on an already taken session never outnumber the spare temporary workers of their type |
| `JobSelector.SelectionIsMaximal` | internal/cli/daemon_scheduler.go:1745-1766 | a job is passed over only for a full pass, a seeded key or a key shared with a taken job |
| `SelectionRules.SelectionIsRuled` | internal/cli/daemon_scheduler.go:1667-1803 | job by job: a job is taken if and only if the pass has a free slot, its checkout key is free and its runtime session, if in use, leaves a spare eligible worker of its type; a worker is booked if and only if a session in use or locked needs one; the jobs taken and left are these, in pending order |
| `DispatcherTheorem.StepKeeps` | internal/cli/daemon_dispatch_tracked.go:529-622 | each of the 24 atomic steps, of ticks, pool passes, jobs and shutdown, keeps the safety invariant |
| `DispatcherTheorem.EveryRunIsSafe` | internal/cli/daemon_dispatch_tracked.go:529-622 | every reachable state of every interleaving satisfies it |
| `DispatcherTheorem.CheckoutsNeverCollide` | internal/cli/daemon_dispatch_tracked.go:543-621 | each checkout key has at most one job in flight, and a live pool pass and a barrier pass never serve one repository together |
| `DispatcherTheorem.CountersAreExact` | internal/cli/daemon_dispatch_tracked.go:117-208 | in every reachable state the counters are the per-key cardinalities and the wait count is jobs plus pool passes |
| `DispatcherTheorem.ReservationsNeverLeak` | internal/cli/daemon_dispatch_tracked.go:597-620 | each reservation belongs to a job in flight or the one being dispatched or reaped; sums are exact, caps hold, and nothing stays reserved when all is done |
| `DispatcherTheorem.InFlightIsBounded` | internal/cli/daemon_dispatch_tracked.go:117-148 | the jobs in flight never exceed the largest host cap used, nor per repository its largest limit |
| `DispatcherTheorem.DrainOnlyFalls` | internal/cli/daemon_dispatch_tracked.go:396-424 | once draining, the wait count and the set of jobs only fall |
| `DispatchLives.RuntimesStayTheirOwn` | internal/cli/daemon_dispatch_tracked.go:117-148 | in every reachable state each job in flight is recorded with its own runtime key, and the keys counted as taken are theirs |
| `DispatchPool.PoolOpensIff` | internal/cli/daemon_dispatch_tracked.go:543-554 | a pool pass opens if and only if its limit is positive, no tick and no pass serves the repository, none of its jobs is in flight and nothing drains |
| `DispatchPool.TickOpensIff` | internal/cli/daemon_dispatch_tracked.go:529-565 | a barrier tick opens if and only if its limit is positive and no pool pass serves the repository; the host cap is the larger of both limits |
| `DispatchPool.PoolRoundIsRuled` | internal/cli/daemon_scheduler.go:1385-1417 | an undisturbed round of a pool pass takes what the rules of the selection take, of the listed jobs not in flight, for the free slots of pass and host and beside the keys of the jobs in flight, and leaves the rest as spare jobs |
| `DispatchLives.HeadStarts` | internal/cli/daemon_scheduler.go:1418-1451 | a queued job that the budget and the tracker accept is registered under its own checkout and runtime keys |
| `DispatchLives.SpareStarts` | internal/cli/daemon_scheduler.go:1467-1520 | while a slot is free, a spare job that can be placed is registered under the key of its worktree |
| `DispatchLives.UnplacedLeavesNoTrace` | internal/cli/daemon_scheduler.go:1491-1503 | one that cannot be placed gives its reservation back and changes nothing else |
| `DispatchLives.BarrierJobGoes` | internal/cli/daemon_dispatch_tracked.go:597-622 | a job started by a tick and ended leaves tracker, budget and runners as they were before it |
| `DispatchLives.PoolJobGoes` | internal/cli/daemon_scheduler.go:1311-1341 | and so does a pool job that reports and is reaped |
| `DispatchTick.FilterEligible` | internal/cli/daemon_dispatch_tracked.go:574-579 | the in-place filter leaves exactly the pending jobs that are not in flight, in their order |
| `DispatchTick.StartAll` | internal/cli/daemon_dispatch_tracked.go:597-620 | the loop reserves, begins, and gives back what a refusal leaves, for one job after the other |
| `DispatchTick.DispatchQueuedJobs` | internal/cli/daemon_dispatch_tracked.go:529-622 | what one barrier tick does to the tracker and the budget, and which jobs it starts |
| `DispatchTick.TickIsARun` | internal/cli/daemon_dispatch_tracked.go:529-622 | a tick that no other step interrupts is a run of the state machine, so every result about runs covers it |
| `DispatchTick.TickStartsTheGranted` | internal/cli/daemon_dispatch_tracked.go:580-620 | such a tick starts exactly the selected jobs that the budget grants: the host clamp leaves nothing to refuse or to undo |
| `DispatchTick.NoPolicyGrantsAll` | internal/cli/admission_budget.go:86-92 | without an admission policy every selected job is granted |
| `DispatchRules.TickIsRuled` | internal/cli/daemon_dispatch_tracked.go:571-594 | a tick selects, of the pending jobs not in flight, what the rules of the selection take for the slots left by the jobs running in the repository and on the host, beside the keys these jobs hold; with no free slot it selects nothing |
| `DispatchRules.StartedAreFiled` | internal/cli/daemon_dispatch_tracked.go:597-620 | the jobs a tick reports as started are those it registers, each under the keys of a selected job |
| `DispatcherJobs.BeginKeeps` | internal/cli/daemon_dispatch_tracked.go:600-621 | beginning a held job keeps the invariant, admitted or refused |
| `DispatcherJobs.UndoKeeps` | internal/cli/daemon_dispatch_tracked.go:606-613 | releasing the reservation of a refused begin keeps the invariant |
| `DispatcherJobs.IsolateKeeps` | internal/cli/daemon_scheduler.go:1267-1549 | moving a spare job of a pool pass into its own worktree keeps the invariant |
| `DispatcherPasses.StartPoolKeeps` | internal/cli/daemon_scheduler.go:1267-1549 | starting a pool pass keeps the invariant |
| `DispatcherPasses.StartBarrierKeeps` | internal/cli/daemon_dispatch_tracked.go:529-560 | starting a barrier pass keeps the invariant |
| `DispatcherEndings.EndKeeps` | internal/cli/daemon_dispatch_tracked.go:612-621 | a job goroutine leaving the tracker keeps the invariant |
| `DispatcherEndings.ReapKeeps` | internal/cli/daemon_scheduler.go:1267-1549 | a pool pass reaping a finished job keeps the invariant |
| `Expr.ParensWrapWhole` | design/org-page/support.js:237-247 | the scan for parentheses around the whole |
| `Expr.FindTopLevelEquality` | design/org-page/support.js:248-262 | the scan for the first equality operator outside all brackets |
| `Expr.CloseBracket` | design/org-page/support.js:276-285 | the scan for the bracket that closes a subscript |
| `Expr.Evaluate` | design/org-page/support.js:205-236 | evaluation of the text; every recursive call is on a strictly shorter text, so it ends on every input |
| `Expr.EvaluatePath` | design/org-page/support.js:263-294 | member and subscript steps of a path |
| `ExprFaithful.Faithful` | design/org-page/support.js:205-294 | for every expression tree, evaluating its spelling is evaluating the tree |
| `ExprFaithful.Understood` | design/org-page/support.js:205-294 | and so with any blanks around it |
| `ExprFaithful.FindsOperator` | design/org-page/support.js:248-262 | the operator found is the leftmost outside every bracket, with its full text |
| `ExprFaithful.FollowsPath` | design/org-page/support.js:263-294 | the path loop computes the tree's members and subscripts |
| `ExprFaithful.LiteralIffNoOperator` | design/org-page/support.js:211-234 | a quoted literal yields its text if and only if the operator scan finds nothing in it |
| `ExprFaithful.LiteralWithOperator` | design/org-page/support.js:248-262 | a literal holding == is a concrete input where it does not |
| `ExprFaithful.ChainGroupsRight` | design/org-page/support.js:248-262 | a chain of two equalities means its right-hand grouping, whatever the operands |
| `ExprFaithful.ChainDiffers` | design/org-page/support.js:248-262 | a concrete chain for which the grouping to the left means something else |
| `ExprSyntax.PrintNests` | design/org-page/support.js:237-262 | spellings nest in every way the scans count, and only a bare equality has an = outside brackets |
| `ExprFaithful.KeywordTexts` | design/org-page/support.js:227-230 | the four keywords |
| `ExprFaithful.OperatorTexts` | design/org-page/support.js:210-226 | for any two spelled operands: three signs compare strictly, two loosely, and an exclamation mark negates |
| `ExprScans.NumberIff` | design/org-page/support.js:204-231 | a number is an optional minus, digits, and perhaps a point with more digits |
| `ExprScans.FoundIff` | design/org-page/support.js:248-262 | on any text: the operator found is the first outside all brackets, with something before it and no sign of another operator; three characters long when another equality sign follows |
| `ExprScans.WrapsIff` | design/org-page/support.js:237-247 | on any text: parentheses wrap the whole if and only if none before the last character closes to depth zero |
| `ExprScans.ClosesIff` | design/org-page/support.js:275-286 | on any text: the closing bracket is the first that brings the depth below, and there is none if no such bracket follows |
| `ExprScans.BlankIsMissing` | design/org-page/support.js:206-207 | a blank expression is undefined |
| `ExprScans.UnreadableIsMissing` | design/org-page/support.js:263-266 | so is one that starts with none of a letter, digit, quote, parenthesis, minus or exclamation mark and compares nothing |
| `ExprScans.BrokenPathIsMissing` | design/org-page/support.js:268-290 | so is a path followed by a point without a name, a bracket that is never closed, or anything that continues no path |
| `JsonKeys.RejectDuplicates` | internal/cli/bridge.go:397-441 | the walk over the decoder consumes exactly what the specification consumes |
| `JsonKeys.WalkIsExact` | internal/cli/bridge.go:397-441 | on any JSON value followed by any rest it fails if and only if some object at some depth repeats a member name, with such a name, and otherwise stops at the rest |
| `JsonKeys.MembersAreExact` | internal/cli/bridge.go:411-427 | within one object: a name met before, repeated later, or repeated inside a value |
| `JsonKeys.DuplicateIsMet` | internal/cli/bridge.go:397-441 | on any tokens, cut off or ill-formed ones too, a reported duplicate was met twice and what is left is the end of the input |
| `TokenBucket.Limiter.constructor` | internal/cli/bridge.go:739-749 | a new bucket is full and refills its capacity once per period |
| `TokenBucket.Limiter.Allow` | internal/cli/bridge.go:751-768 | one call is one step of the bucket |
| `TokenBucket.Conservation` | internal/cli/bridge.go:751-768 | over any run, what was earned is what is admitted, kept and spilt; tokens stay between 0 and the capacity |
| `TokenBucket.WindowBound` | internal/cli/bridge.go:751-768 | admissions in any window are at most the capacity plus the refill over the advance of `last` |
| `TokenBucket.LastIsLatest` | internal/cli/bridge.go:754-762 | `last` is the latest reading, whatever order readings come in |
| `TokenBucket.PatienceIsAdmitted` | internal/cli/bridge.go:751-768 | after any run, a call one refill time after the latest reading is admitted |
| `TokenBucket.NothingIsWithheld` | internal/cli/bridge.go:763-767 | while the cap spills nothing, fewer than one earned token is unused when a call is refused |
| `DaemonArgs.ChildArgs` | internal/cli/daemon_lifecycle.go:1590-1611 | the child's arguments are the printed flags |
| `DaemonArgs.StartArgsFromRunArgs` | internal/cli/daemon_lifecycle.go:1086-1098 | start arguments are recovered by dropping the command and every --dry-run |
| `DaemonArgs.WithDaemonFlagArg` | internal/cli/daemon_lifecycle.go:1143-1160 | the value-flag editor as a scan |
| `DaemonArgs.WithDaemonBoolFlagArg` | internal/cli/daemon_lifecycle.go:1162-1175 | the switch editor as a scan |
| `DaemonFlags.ParseDescribes` | internal/cli/daemon_lifecycle.go:921-1030 | whatever flags are typed, in any order, number and spelling, with values that parse: the result is the configuration and the explicit flags they describe, or a refusal if and only if they contradict each other or are not acceptable |
| `DaemonFlags.ParseStops` | internal/cli/daemon_lifecycle.go:921-946 | behind any such flags: an unknown flag, a missing or unreadable value and a positional argument are refused, a call for help is answered, two lone dashes at the end change nothing |
| `DaemonRestart.StartArgsIff` | internal/cli/daemon_lifecycle.go:1086-1098 | the command is dropped if and only if it is there |
| `DaemonRestart.KeptBetween` | internal/cli/daemon_lifecycle.go:1086-1098 | every --dry-run is dropped, and every other argument stays in place |
| `DaemonRestart.ParseReads` | internal/cli/daemon_lifecycle.go:921-1030 | parsing printed flags gives the last value of each, with the scheduler selected, or fails if that is no valid configuration |
| `DaemonRestart.RecoveredIff` | internal/cli/daemon_lifecycle.go:1086-1098 | the recovered arguments are the printed flags if and only if home and session are not spelt --dry-run |
| `DaemonRoundTrip.RoundTripIff` | internal/cli/daemon_lifecycle.go:921-1030 | the recovered arguments parse to the same home, repo, session, poll, workers and watch flags, with the mode that survives, if and only if home and session are not spelt --dry-run |
| `DaemonRoundTrip.ModeSurvivesIff` | internal/cli/daemon_lifecycle.go:136-144 | the parsed scheduler mode is the printed one if and only if that is pool or there is one worker |
| `DaemonOverlay.RestartArgs` | internal/cli/daemon_lifecycle.go:485-493 | the home edit, then the overlay |
| `DaemonOverlay.Overlay` | internal/cli/daemon_lifecycle.go:1118-1141 | the seven conditional edits in order |
| `DaemonOverlay.EditIff` | internal/cli/daemon_lifecycle.go:1143-1175 | editing the text edits the flags if and only if no other flag's value is spelt like the edited flag |
| `DaemonOverlay.RestartIsUpdate` | internal/cli/daemon_lifecycle.go:1118-1175 | overlaying and parsing updates exactly the explicit settings, with the scheduler selected anew, when no edit meets a value spelt like its flag |
| `DaemonOverlay.AskedModeIff` | internal/cli/daemon_lifecycle.go:1137-1160 | after such a restart the parsed mode is the explicit one if and only if that is not empty or there is one worker |
| `DaemonOneFlag.OneFlagIff` | internal/cli/daemon_lifecycle.go:1100-1175 | a restart that edits one flag parses to the recorded settings with that one replaced if and only if no home, repository or session recorded for another flag is spelt like it |
| `DaemonOneFlag.RestartGoesWrong` | internal/cli/daemon_lifecycle.go:1143-1160 | a concrete restart that does not: a session recorded as --repo, and another repository asked for |
| `DaemonSeveralFlags.PlainRestartIsUpdate` | internal/cli/daemon_lifecycle.go:485-493 | whatever flags are explicit, the restart comes out as meant when no text, recorded or asked for, is spelt like an edited flag of another name |
| `DaemonSeveralFlags.RestoredIsUpdate` | internal/cli/daemon_lifecycle.go:1118-1175 | with several edits that is not necessary: a concrete restart in which later edits restore what an earlier one spoilt |
| `BlockedSince.Episodes.Upsert` | internal/db/org_blocked_episodes.go:37-48 | opens an episode or refreshes the last observation, keeping its start |
| `BlockedSince.Episodes.Mark` | internal/db/org_blocked_episodes.go:54-59 | records the nudge; a missing row is left alone |
| `BlockedSince.Episodes.Clear` | internal/db/org_blocked_episodes.go:63-66 | removes the row |
| `BlockedSince.Observe` | internal/cli/blocked_since.go:278-302 | the first loop: subject sets and upserts, with failing upserts not ready |
| `BlockedSince.Sweep` | internal/cli/blocked_since.go:304-333 | the second loop: marks before emitting, reaps, leaves other rows alone |
| `BlockedSince.Evaluate` | internal/cli/blocked_since.go:274-381 | each role row steps as specified, other rows stay, exactly the due subjects are nudged, each once |
| `BlockedSince.NudgesAreSpaced` | internal/cli/blocked_since.go:348-381 | over a whole run every nudge comes more than wakeAfter after its episode began and after the previous nudge, across clear and re-block |
| `BlockedSince.EvaluationsAreARun` | internal/cli/blocked_since.go:274-381 | for any sequence of evaluations of one table, each role's row and nudges are those of its run |
| `BlockedSince.EvaluationsAreSpaced` | internal/cli/blocked_since.go:274-381 | so no sequence of evaluations with a monotone clock nudges a role twice within the interval |
| `BlockedSince.ClosesIff` | internal/cli/blocked_since.go:319-333 | exactly when an evaluation closes an episode; otherwise the start is kept |
| `BlockedSince.BlipsKeepTheStart` | internal/cli/blocked_since.go:320-346 | unknown or absent observations inside the stale gap never reset the start |
| `BlockedSince.NudgedAgainIff` | internal/cli/blocked_since.go:354-372 | exactly when an open episode seen blocked is nudged; a failed mark delays the nudge and loses nothing |
| `BlockedSince.SeenBlocked` | internal/cli/blocked_since.go:274-381 | a role with an entry that is blocked and stored keeps the start of its episode or begins one at the snapshot; it is nudged if and only if the listing and the mark succeed and it has been blocked, and not nudged, for longer than the interval |
| `BlockedSince.SeenButNotStored` | internal/cli/blocked_since.go:278-302 | a blocked role whose episode could not be stored is left alone |
| `BlockedSince.NotSeenBlocked` | internal/cli/blocked_since.go:304-333 | a role with no blocked entry loses its row if and only if listing and clear succeed and an entry is idle, working or finished, or its last sighting is five minutes old; otherwise the row stays |
| `BlockedSince.UnknownKeepsTheRow` | internal/cli/blocked_since.go:295-346 | any number of evaluations whose entries for the role are unknown or absent, within five minutes of the last sighting, leave the row as it was |
| `BlockedSince.BlipsNeverReset` | internal/cli/blocked_since.go:320-346 | and any mixture of them with blocked ones keeps the start |
| `BlockedSince.NamelessOpensNothing` | internal/cli/blocked_since.go:278-302 | entries without a role open no episode and are never nudged for |
| `ShellQuote.ShellArg` | internal/cli/agent.go:1932-1947 | quoting of one argument |
| `ShellQuote.ShellArgs` | internal/cli/agent.go:1066-1072 | the quoted line |
| `ShellQuote.RoundTrip` | internal/cli/agent.go:1066-1072 | token recognition and quote removal of the line give exactly the arguments |
| `ShellQuote.RoundTripIff` | internal/cli/agent.go:1066-1072 | and do so if and only if no argument contains NUL |
| `ShellQuote.BareIff` | internal/cli/agent.go:1932-1947 | an argument is printed bare if and only if it is not empty and consists of letters, digits and ten listed signs |
| `RuntimeAuth.ParseRuntimeAuthFile` | internal/cli/daemon_runtime_auth.go:98-120 | the strict parser's loop |
| `RuntimeAuth.ParseLegacyFile` | internal/cli/daemon_runtime_auth.go:251-269 | the legacy parser's loop |
| `RuntimeAuth.Render` | internal/cli/daemon_runtime_auth.go:152-165 | the rendered body, or a refusal when a managed value is invalid |
| `RuntimeAuth.RoundTrip` | internal/cli/daemon_runtime_auth.go:98-165 | parsing the rendered file gives back every valid managed map |
| `RuntimeAuth.NamesAreClean` | internal/cli/daemon_runtime_auth.go:17-21 | the managed variable names meet what the parsers and the round trip need of names |
| `RuntimeAuth.StrictImpliesLegacy` | internal/cli/daemon_runtime_auth.go:98-270 | any text the strict parser accepts is parsed to the same map by the legacy parser |
| `RuntimeAuth.LegacyIsValid` | internal/cli/daemon_runtime_auth.go:251-269 | what the legacy parser returns can always be rendered |
| `RuntimeAuth.Home.Bootstrap` | internal/cli/daemon_runtime_auth.go:149-236 | an existing file is never rewritten; a new one parses to the legacy map, or without one to the collected environment; exactly when one is left behind, even by a call that fails after the rename |
| `RuntimeAuthLines.TokenIsValidIff` | internal/cli/daemon_runtime_auth.go:131-146 | a visible ASCII token is valid if and only if it has 16 to 4096 characters; a value with a blank or a NUL never is |
| `RuntimeAuthLines.StrictLineIff` | internal/cli/daemon_runtime_auth.go:98-120 | a line is skipped if and only if it is a remark, and an entry if and only if it sets a managed name to a valid value, a carriage return at its end aside; every other line is rejected |
| `RuntimeAuthLines.StrictFileIff` | internal/cli/daemon_runtime_auth.go:98-120 | a file parses if and only if no line is rejected and no name is given twice; each name has the value its line gives, and no other name has one |
| `RuntimeAuthLines.LegacyLineIff` | internal/cli/daemon_runtime_auth.go:251-269 | a trimmed line is an entry if and only if it sets a managed name to a valid value; a line that sets one is rejected if and only if the value is invalid and not blank |
| `RuntimeAuthLines.LegacyRejects` | internal/cli/daemon_runtime_auth.go:251-269 | and no other line is ever rejected |
| `RuntimeAuthLines.LegacyFileIff` | internal/cli/daemon_runtime_auth.go:251-269 | a legacy file parses if and only if no line is rejected; each name has the value that the last line naming it gives |
| `RuntimeAuthLines.CollectedIff` | internal/cli/daemon_runtime_auth.go:54-65 | the environment yields exactly the managed variables that are set and not blank |
| `Frontmatter.SplitFrontmatter` | internal/agenttemplate/frontmatter.go:95-114 | the split as a scan for the first closing mark |
| `Frontmatter.FrameReturnsIff` | internal/agenttemplate/frontmatter.go:95-114 | splitting a framed header and body returns both, whatever the body holds, if and only if no header line is itself a mark |
| `Frontmatter.SplitFailsIff` | internal/agenttemplate/frontmatter.go:95-114 | on any text: which of the three errors is returned, and when |
| `Frontmatter.SplitsAtMarks` | internal/agenttemplate/frontmatter.go:95-114 | any text of a mark, lines that are no marks, another mark and more lines gives the first lines as the header and the others, without the newlines they begin with, as the body |
| `TemplateFormat.CompactMetadataStrings` | internal/agenttemplate/frontmatter.go:189-198 | trimming and dropping blank list entries |
| `TemplateFormat.NormalizeEvaluation` | internal/agenttemplate/frontmatter.go:126-136 | trimming map entries, in any iteration order |
| `TemplateFormat.NormalizeIsNormal` | internal/agenttemplate/frontmatter.go:116-138 | normalization reaches a normal form and leaves normal forms alone, in any iteration order |
| `TemplateFormat.NormalizeUnwraps` | internal/agenttemplate/frontmatter.go:116-198 | normalization takes the blanks around every value away, drops blank values and does nothing else, for scalars, for lists in their order, and for the map |
| `TemplateFormat.FormatTemplateContent` | internal/agenttemplate/frontmatter.go:200-232 | the builder writes the framed header entries and the trimmed body |
| `TemplateFormat.WriteYamlList` | internal/agenttemplate/frontmatter.go:248-263 | one list of the header |
| `TemplateRoundTrip.SplitFormatIff` | internal/agenttemplate/frontmatter.go:95-232 | for any scalar encoding: the split undoes the format if and only if no header line is a mark |
| `TemplateRoundTrip.SplitUndoesFormatIff` | internal/agenttemplate/frontmatter.go:95-232 | with scalars of one line it does so, whatever --- lines the body contains, if and only if no evaluation key has a mark on a line of its own before its last |
| `TemplateRoundTrip.BadKeyBreaks` | internal/agenttemplate/frontmatter.go:218-231 | a concrete key that breaks the split under every scalar encoding |
| `TemplateRoundTrip.BlockBreaks` | internal/agenttemplate/frontmatter.go:234-246 | and a concrete multi-line encoding of a description that does |
| `TemplateRoundTrip.FormatParseFormat` | internal/agenttemplate/frontmatter.go:48-65 | a formatted template parses to its normalized metadata and trimmed body, and formats again to the same bytes |
| `TemplateRoundTrip.SingleLineFixpoint` | internal/agenttemplate/agenttemplate.go:582-588 | so formatting what was parsed is byte-identical for scalars of one line and keys that do not break the header |
| `TemplateRoundTrip.ParsedIff` | internal/agenttemplate/frontmatter.go:48-65 | what parsing returns is normal and valid and has a body that is not blank; a header that decodes is refused only as invalid or for a blank body |
| `TemplateReader.HeaderIsReadBack` | internal/agenttemplate/frontmatter.go:200-263 | a line reader written apart from the writer finds every field of the metadata under its own key, for any invertible single-line encoding and keys without colons or newlines |
| `TemplateReader.LineRoundTrip` | internal/agenttemplate/frontmatter.go:48-65 | so with a library that reads headers like that, format and parse invert each other with no assumption about the header |
| `TemplatePull.Store.PullOne` | internal/agenttemplate/agenttemplate.go:693-727 | the outcome and the new table for one id |
| `TemplatePull.Store.Pull` | internal/agenttemplate/agenttemplate.go:654-691 | selection of the batch, then one id after the other |
| `TemplatePull.PullStoresTheFetched` | internal/agenttemplate/agenttemplate.go:693-727 | an id that can be pulled ends with the fetched content stored and is reported as installed, updated or unchanged according to what was stored before; only the last writes nothing |
| `TemplatePull.SkippedOrFailedIff` | internal/agenttemplate/agenttemplate.go:693-727 | exactly when an id is skipped and when it fails; the table is then as it was |
| `TemplatePull.BatchStoresTheFetched` | internal/agenttemplate/agenttemplate.go:654-727 | after a batch every id of it that can be pulled holds the fetched content, and every other row is as it was |
| `TemplatePull.NamedIff` | internal/agenttemplate/agenttemplate.go:673-678 | the batch holds the given ids that are not blank, trimmed |
| `TemplatePull.SelectedIff` | internal/agenttemplate/agenttemplate.go:673-685 | the listing is pulled if and only if every given id is blank |
| `TemplatePull.DryRunWritesNothing` | internal/agenttemplate/agenttemplate.go:719-721 | a dry run leaves the store unchanged |
| `TemplatePull.DryRunAgreesIff` | internal/agenttemplate/agenttemplate.go:654-727 | a dry run reports what a real pull reports if and only if every template to be written is listed once and can be written |
| `TemplatePull.FinalRow` | internal/agenttemplate/agenttemplate.go:693-727 | a pull stores exactly the fetched templates that differ and can be written |
| `TemplatePull.SecondPullIsQuiet` | internal/agenttemplate/agenttemplate.go:711-713 | an immediate second pull writes nothing and reports what was stored as unchanged |
| `MootCap.Room.Enforce` | internal/cli/chat_moot.go:311-351 | refuses at the cap and leaves one overrun message |
| `MootCap.Room.Send` | internal/cli/chat.go:1256-1274 | a send that meets no other is its check and append steps |
| `MootCap.CapHolds` | internal/cli/chat_moot.go:311-330 | with k concurrent senders at most cap + k - 1 agent messages and k overrun messages; exactly the cap and one with a single sender |
| `MootCap.BoundIsAttained` | internal/cli/chat_moot.go:311-330 | for every cap and every set of senders some interleaving reaches the bound on messages |
| `MootCap.NoticesAttained` | internal/cli/chat_moot.go:332-351 | and some interleaving posts the overrun message once per sender |
| `MootCap.OneSenderIff` | internal/cli/chat_moot.go:311-351 | in every run the overrun message is unique and the cap is kept, if and only if there is one sender |
| `MootCap.SendsAreAccountedFor` | internal/cli/chat_moot.go:311-351 | in every run each send that began is a message, refused, dropped or under way |
| `MootCap.NoCapRefusesNone` | internal/cli/chat_moot.go:311-330 | without a positive cap nothing is refused in any run |
| `AutoRespond.Sweeper.RunOne` | internal/cli/chat_autorespond.go:107-152 | one scan without interference is its three steps |
| `AutoRespond.Sweeper.ParkCapReached` | internal/cli/chat_autorespond.go:159-178 | the cap notice is posted once and the mention is read |
| `AutoRespond.ScanStartsIff` | internal/cli/chat_autorespond.go:107-152 | an undisturbed scan starts a job if and only if the replies are under the cap, nothing runs, the dispatch is accepted and the last reply is at least a cooldown old; it announces the cap once, and the mention stays unread unless the cap is reached or its job starts and is marked |
| `AutoRespond.OneInFlight` | internal/cli/chat_autorespond.go:118-128 | at most one job that the sweep started is in flight per thread and agent, at most one notice, in every interleaving of scans, job ends and replies |
| `AutoRespond.CapHolds` | internal/cli/chat_autorespond.go:107-128 | replies and jobs stay within the cap when replies are posted before each count and no job ends between the two reads |
| `AutoRespond.CapWithin` | internal/cli/chat_autorespond.go:107-128 | in every interleaving they exceed it by at most one more than the replies waiting to be posted |
| `AutoRespond.OverstepsIff` | internal/cli/chat_autorespond.go:107-152 | as a scan begins: some course of events up to its second read lets it overstep the cap, if and only if replies posted, replies still to be posted and the job in flight already reach it |
| `AutoRespond.CapIsOverstepped` | internal/cli/chat_autorespond.go:107-128 | a concrete run that does |
| `AutoRespond.DelayedRepliesDefeatTheCap` | internal/cli/chat_autorespond.go:107-128 | without a bound on unposted replies some run starts any number of jobs |
| `JsonCandidates.Candidates` | internal/cli/cross_family_review.go:287-309 | returns, in order and disjoint, exactly the blocks opening at clamped depth 0 and closing at the first return to 0 |
| `JsonCandidates.BlockIsBalanced` | internal/cli/cross_family_review.go:291-306 | each is balanced, with positive depth on every proper non-empty prefix |
| `JsonCandidates.CoveredIff` | internal/cli/cross_family_review.go:291-306 | a character is in a candidate if and only if it is nested and the nesting is closed later: stray closers and an unclosed tail are in none |
| `JsonCandidates.OneListing` | internal/cli/cross_family_review.go:287-309 | the result is determined by the text |

## Left out

- Dispatcher.Step: nil trackers, logging, the error queue, session and PTY limits
  and the re-queueing of jobs that met a busy session; the job bodies themselves.
- Dispatcher.ListPending: in the interleaved steps the kept jobs are a list; the
  in-place filtering of the slice is `DispatchTick.FilterEligible`.
- DispatchTick.DispatchQueuedJobs: the barrier path; a pool pass is a sequence of
  steps of the state machine, as in `DispatchPool.PoolRoundIsRuled`.
- Dispatcher.IsolateSpare: which spare jobs may be isolated; any of them may be placed
  or passed over.
- InflightTracker.Tracker.StartDrain: the timed wait of the shutdown drain; only the flag and
  the wait count are modelled.
- AdmissionBudget: the snapshot method, which only reads, and the lazily computed
  estimate, which is a value here.
- Expr: UTF-16 code units; texts are scalar values.
- JsonKeys: the decoder's own lexing; it is a list of tokens and then an error.
- DaemonArgs: help and usage text, error messages, and the parsing of the
  repository into owner and name beyond its validity; numbers and durations are
  parameters that read back what they print.
- DaemonOverlay.RestartIsUpdate: with several explicit flags the condition is
  sufficient only, as `DaemonSeveralFlags.RestoredIsUpdate` shows; an edit may spoil
  what another restores. For one flag `DaemonOneFlag.OneFlagIff` is exact.
- BlockedSince: the task evaluator, live-presence rows, malformed stored instants,
  the subject order of the listing and the wording of events.
- RuntimeAuth: invalid UTF-8, file modes other than the legacy file's, temporary
  files and fsync; error texts with line numbers.
- Frontmatter: validation rules of metadata are a parameter; carriage returns are
  excluded where a round trip is claimed, as the split rewrites them.
- TemplateDiff: reading the files that are compared.
- TemplateReader: a reader for the headers written here, not a YAML parser; keys with a
  colon or a newline are left to `TemplateRoundTrip.FormatParseFormat`.
- TemplateFormat: the fallback quoting for strings that YAML refuses to encode.
- TemplatePull: version rows, local paths, commit pinning and the checks of the
  repository name; the store keeps the content and commit of each template.
- TokenBucket: a capacity or a period that is not positive; the only caller asks
  for 30 requests per minute.
- MootCap: archived threads, mentions and unregistered agents.
- AutoRespond.OneInFlight: an operator's retry of a failed job and jobs promoted into
  the thread, which also count as in flight; the events are those of the sweep.
- AutoRespond: candidate listing and configuration; one thread and agent at a time.
- The slug of a chat thread, canary promotion, live A/B, candidate notification,
  managed-instance reservation, warm-reload merging, credential filtering and the
  rest of the org page: easy, or resting on code outside these files.
