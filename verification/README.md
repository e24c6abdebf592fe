# Consilium orchestration engine: a Dafny model

Consilium conducts coding agents: a conductor model plans subtasks, workers carry them out, and a
verifier, a supervisor, a reviewer and an arbiter decide what ships. This project models the engine around
those agents as state machines and algorithms over arbitrary oracles (model answers, verify results, clocks,
file systems, client frames), so no claim depends on what an agent says.

| files | what they model |
|---|---|
| `Wrappers.dfy`, `Sequences.dfy` | options and results, ascending positions and selections by them |
| `Topology.dfy` | dependency layering of a plan |
| `Verify.dfy` | the build, test and lint verifier |
| `ConductModel.dfy`, `ConductHistory.dfy`, `ConductLoop.dfy`, `ConductExact.dfy`, `ConductOutcome.dfy` | one conduct run: what an attempt means, what histories are allowed, the loops that produce only those, why no other is allowed, and what an outcome promises |
| `ConductScript.dfy`, `ConductReuse.dfy` | runs built to order, and what a replanned plan's reused ids do to its skips |
| `CrossFamily.dfy` | the reviewer ladder that prefers another model family |
| `Utf8.dfy`, `Fold.dfy`, `Changes.dfy` | byte-bounded text: truncators, prompt blocks, the captured diff |
| `Backoff.dfy`, `Resilience.dfy`, `Breaker.dfy` | retry, failover and the shared circuit breaker, alone and interleaved |
| `Operator.dfy` | pause, resume and interjection against the run's checkpoints |
| `Session.dfy`, `Reducer.dfy`, `SessionClient.dfy` | the server's sessions, the client's fold, and the two composed |
| `Events.dfy`, `Quota.dfy`, `Runner.dfy`, `Routing.dfy` | agent events, usage accounting and least-loaded routing |
| `AtomicWrite.dfy`, `Trust.dfy`, `MarkerFile.dfy` | atomic state files on a crashing directory, the trust store and the worktree marker on top |
| `FileTree.dfy`, `Removal.dfy`, `Worktree.dfy`, `WorktreeScenarios.dfy`, `Registration.dfy` | worktree creation and cleanup over an abstract file system, and runs with surprising outcomes |

Verify with `dafny verify dfyconfig.toml` (Dafny 4.11).

## What the code does where one might expect otherwise

- A replanned plan may reuse an id that an earlier plan completed. An edge to such an id counts as satisfied, so
  a subtask can be attempted although its dependency in the same plan failed: `ReuseBreaksSkips` gives such a run for
  every plan with such an edge, and `SkipsMatchExactlyWithoutReuse` says that no other plan has one.
- The backoff is not `base * 2^idx` past index 31 for bases of 1 to 13 ns: `BackoffIsIdealExactly`.
- A key's rate-limit hits can overshoot `cold_after` by one for each other caller: `BoundIsAttained`.
- Of the four server frames, `error` ends the phase but does not clear `paused` (`PauseIsClearedExactly`). No session
  sends one after an event, so the composed claim holds without exception.
- A run that finishes just as its client cancels may be reported as cancelled: `FinishedRunReportedCancelled`, and
  `CancelDecides` for exactly when.
- A failed directory sync reports an error although the new contents are already in place: the `renamed` result
  of `WriteOwnerOnly`. A worktree creation that fails this way cleans up and still leaves its marker:
  `FailedCreationLeavesMarker`, and the exact condition in `CreateDetached`.
- `removed` can be set with the bound name present, if the hook before the missing-entry prune puts an entry there
  while the path is unregistered or not a worktree: `RemovedWithNameBound`, and the conditions in `SecureCleanup`
  and `CleanMissing`.
- After a failure behind the quarantine rename, the entry sits under its quarantine name; a retry takes the
  missing-entry branch and may succeed and remove the marker while every file is still there: `RetryLeavesFiles`.
  `RemoveWorktree` and `SecureCleanup` say exactly when a success leaves the entry empty.

## Model

| member | source | states |
|---|---|---|
| `Topology.PlanWaves` | core/src/orchestrator/topology.rs:19-70 | Succeeds exactly on valid plans (unique ids, no self-edge, every dependency in the plan or completed, acyclic once edges to completed ids are dropped); the waves then are the layering, otherwise the error is the one a reader would find first |
| `Topology.CheckIds` | core/src/orchestrator/topology.rs:22-27 | No error exactly when ids are unique; otherwise the duplicate closest to the front |
| `Topology.CheckEdges` | core/src/orchestrator/topology.rs:31-40 | No error only when no self-edge and no unknown dependency exist; otherwise the first bad edge in order, with the right kind |
| `Topology.CollectWave` | core/src/orchestrator/topology.rs:49-59 | The next wave lists, in slice order, exactly the unplaced subtasks that wait for no unplaced one |
| `Topology.LayeringIsUnique` | core/src/orchestrator/topology.rs:42-69 | Level 0 without open dependencies, else one more than the largest: these two rules leave only one list of waves |
| `Topology.LevelsImplyAcyclic` | core/src/orchestrator/topology.rs:42-69 | A plan that can be layered has no dependency cycle |
| `Topology.StuckIsCyclic` | core/src/orchestrator/topology.rs:60-62 | When no remaining subtask is runnable there really is a cycle |
| `Topology.LayeringIsOrder` | core/src/orchestrator/conduct.rs:350-351 | Running the waves in turn visits every subtask once and after everything it still needs |
| `Verify.RunResolvedVerify` | core/src/orchestrator/verify.rs:82-166 | Passed exactly when something ran and every non-lint command exited successfully; the summary records each command, with its time limit, in order |
| `Verify.RecordRun` | core/src/orchestrator/verify.rs:96-159 | One verdict per way a command can end; the longest well-formed tail of its output exactly when it ran and failed, the error text exactly when it could not be launched |
| `Verify.LineIsDetermined` | core/src/orchestrator/verify.rs:110-159 | The command and what became of it, launch error and quoted tail included, determine the recorded line |
| `ConductModel.CompletesExactlyOnEvidence` | core/src/orchestrator/conduct.rs:657-796 | An attempt completes its subtask if and only if: the work was captured, no halt, the parsed evaluation says accept, every non-lint command succeeded, and the review is absent, unavailable or clean, or else blocked on the last attempt with the arbiter saying ship |
| `ConductModel.MeansExactly` | core/src/orchestrator/conduct.rs:437-853 | From the raw answers alone: exactly when an attempt asks for another, fails its subtask and for which of the seven reasons with which arbiter record, halts, or aborts |
| `ConductModel.GroundedExactly` | core/src/orchestrator/conduct.rs:657-688 | An unparseable evaluation is a rework, an acceptance becomes a rework with the summary exactly when a command other than lint did not exit successfully, anything else stands; the recorded verify status follows the same commands |
| `ConductModel.RecordsExactly` | core/src/orchestrator/conduct.rs:672-702 | The record of an attempt from the raw answers: the grounded decision and feedback, the length of the diff, the verify status, and the review status exactly for an acceptance under a reviewer |
| `ConductModel.NotesExactly` | core/src/orchestrator/conduct.rs:564-611 | A captured attempt leaves one note when a supervisor is configured: its verdict, a concern when that does not parse, or its failure |
| `ConductModel.LastAttemptDecides` | core/src/orchestrator/conduct.rs:1136-1143 | On attempt `MAX_REWORKS` no branch, the review gate included, asks for another |
| `ConductModel.SomeAttemptDecides` | core/src/orchestrator/conduct.rs:437-853 | The attempt loop never falls through without a terminal entry |
| `ConductModel.ReworkMadeProgress` | core/src/orchestrator/stagnation.rs:19-32 | An attempt that continues through the conductor's rework arm has a fingerprint different from that of every earlier captured attempt |
| `ConductModel.StallsExactlyOnRepeat` | core/src/orchestrator/conduct.rs:527-532 | A rework is a stall exactly when an earlier captured attempt had the fingerprint of its diff and summary; otherwise it continues, or is exhausted on the last attempt |
| `ConductModel.StallsExactlyOnSameWork` | core/src/orchestrator/stagnation.rs:19-32 | With fingerprints that do not collide: exactly when an earlier captured attempt had the same diff and the same verify summary |
| `ConductModel.WorkBound` | core/src/orchestrator/conduct.rs:437-853 | A subtask takes at most `MAX_REWORKS` + 1 attempts, and stops earlier as failed only on a fail decision or a stall |
| `ConductModel.HaltIsNoted` | core/src/orchestrator/conduct.rs:577-593 | The halt reason is the note of the supervisor verdict recorded last |
| `ConductLoop.RunReviewGate` | core/src/orchestrator/conduct.rs:1056-1226 | Reviewer down accepts, unparseable or critical blocks, blocked asks for rework below `MAX_REWORKS` and for the arbiter after, arbiter down or unparseable fails; only the last attempt record gains the review status |
| `ConductLoop.ConductRun.Judge` | core/src/orchestrator/conduct.rs:657-855 | Grounding turns an acceptance over a red build into a rework; each decision leads to the meaning the specification gives it, and the attempt is recorded with it |
| `ConductLoop.ConductRun.RunAttempt` | core/src/orchestrator/conduct.rs:438-855 | One attempt means exactly what the oracle's answers make it mean, and its record, supervisor note and fingerprint are appended once |
| `ConductLoop.ConductRun.RunAttempts` | core/src/orchestrator/conduct.rs:437-855 | All attempts but the last continue and the last decides; at most `MAX_REWORKS` + 1 are made, one entry is written, one id at most completed, and an earlier failure is kept |
| `ConductLoop.ConductRun.Dispatch` | core/src/orchestrator/conduct.rs:369-412 | Budget first, then unmet dependencies, then the attempts: which of the four happened, and exactly what it changed |
| `ConductLoop.ConductRun.RunWaves` | core/src/orchestrator/conduct.rs:350-855 | A pass is the prefix of its waves that its end (ran out, halt, budget) explains: each step takes the oracle's answers and the clock reading that are next in turn, a budget stop is the very next reading, an abort is the next subtask's; the run's variables say what the steps did |
| `ConductLoop.ConductRun.AfterPass` | core/src/orchestrator/conduct.rs:857-915 | A replan is asked for exactly when something failed, nothing halted, replans and budget remain; an unusable or failed replan becomes the failure |
| `ConductLoop.ConductRun.RunConduct` | core/src/orchestrator/conduct.rs:226-957 | For every oracle the run terminates with the passes it made, from its own start, each where the one before ended: a success summarizes them, a failure is the missing first plan or the attempt that aborted the last of them; at most `MAX_REWORKS` + 1 attempts a subtask of the plans, aborted or not |
| `ConductExact.RunIsDetermined` | core/src/orchestrator/conduct.rs:226-957 | What the rules allow a configuration and a world to return, and the passes behind it, is one: two results, finished or aborted, agree |
| `ConductExact.RunExactly` | core/src/orchestrator/conduct.rs:226-957 | Whatever result and history the rules allow, the loop returns that result with that history, so claims about allowed runs are claims about the program |
| `ConductExact.PassIsUnique` | core/src/orchestrator/conduct.rs:343-862 | A finished pass is determined by its plan, the ids completed before it, and its first tick and clock reading |
| `Topology.ReportIsUnique` | core/src/orchestrator/topology.rs:19-70 | A plan that cannot be layered has one report |
| `ConductHistory.AttemptedAfterDependencies` | core/src/orchestrator/conduct.rs:389-412 | No subtask is attempted before every one of its dependencies is completed |
| `ConductHistory.AttemptedExactly` | core/src/orchestrator/conduct.rs:389-412 | A dispatched subtask is attempted exactly when each dependency was completed by an earlier plan or an earlier step, and is skipped otherwise |
| `ConductHistory.UnmetExactly` | core/src/orchestrator/conduct.rs:389-394 | The unmet dependencies are those not completed, in order |
| `ConductHistory.IdsWithExactly` | core/src/orchestrator/conduct.rs:341-342 | The ids of a status are those of the entries so marked, in order |
| `ConductHistory.SkippedExactlyBehindFailure` | core/src/orchestrator/conduct.rs:385-412 | In a pass that ran out, a subtask is skipped if and only if a path of unsatisfied dependency edges leads to a subtask that failed in it |
| `ConductHistory.FirstReasonIsFirst` | core/src/orchestrator/conduct.rs:339-340 | The failure a pass reports is that of its earliest failing step; later ones never replace it |
| `ConductHistory.CompletedHasEvidence` | core/src/orchestrator/conduct.rs:704-796 | Every completed entry rests on the evidence of its own last attempt |
| `ConductHistory.QuietPassCompletedAll` | core/src/orchestrator/conduct.rs:857-862 | A pass with neither halt nor failure completed its whole plan |
| `ConductHistory.ReplansFollowFullPasses` | core/src/orchestrator/conduct.rs:857-862 | With a clock that does not run backwards, nothing is replanned after a budget abort |
| `ConductHistory.PassesAreBounded` | core/src/orchestrator/conduct.rs:857-866 | At most `max_replans` + 1 passes, and none after a halt, a blown budget, an unlayerable plan or a success |
| `ConductOutcome.OutcomeIsAccounted` | core/src/orchestrator/conduct.rs:341-342 | Completed, skipped, failed and halted entries add up to all entries, over all passes, and the reported ids are those of the entries so marked |
| `ConductOutcome.SilenceMeansSuccess` | core/src/orchestrator/conduct.rs:948-953 | With `halted` and `failed` both absent, every subtask of the last plan was completed in the last pass |
| `ConductOutcome.FailureIsReported` | core/src/orchestrator/conduct.rs:857-957 | What a finished run reports, by how its last pass ended: the unusable plan, the spent budget, the halt, nothing, the first failure, or, when replans and budget remained, the replan that gave no plan |
| `ConductOutcome.CompletedEntryHasEvidence` | core/src/orchestrator/conduct.rs:657-796 | Whatever the agents answer, every completed entry of the transcript rests on recorded evidence |
| `ConductOutcome.WorkIsBounded` | core/src/orchestrator/conduct.rs:437-866 | A finished run records at most `max_replans` + 1 passes, one entry a planned subtask, and `MAX_REWORKS` + 1 attempts an entry |
| `ConductOutcome.DispatchedWithinBudget` | core/src/orchestrator/conduct.rs:369-381 | Each dispatch takes the next clock reading, finds the budget unspent, and so comes before every reading at or past the budget |
| `ConductOutcome.SpentBudgetEndsRun` | core/src/orchestrator/conduct.rs:369-381 | A reading at or past the budget, taken before the last pass is over, is the last reading of that pass, ends the run and is the failure reported, with the number of subtasks completed |
| `ConductReuse.SkipsMatchExactlyWithoutReuse` | core/src/orchestrator/conduct.rs:385-412 | For every layered plan and ids completed before it: skips follow the plan's own edges in every pass over it of every run, finished or aborted later, if and only if no subtask depends on an id of the plan that was already completed |
| `ConductReuse.ReuseBreaksSkips` | core/src/orchestrator/conduct.rs:389-394 | With such an edge, some configuration and world for which the loop finishes reach that plan with those ids completed, and it attempts a subtask although its dependency in the same plan failed |
| `ConductReuse.OneReplanBreaksSkips` | core/src/orchestrator/conduct.rs:857-894 | A finished run of two passes is enough when the completed ids are distinct |
| `CrossFamily.CrossFamilyLadder` | core/src/orchestrator/conduct.rs:1237-1265 | Other families first (own rungs, then worker fronts), the worker's family last, in order; degraded exactly when no other family is configured anywhere |
| `CrossFamily.LadderExactly` | core/src/orchestrator/conduct.rs:1242-1259 | Exactly the role's rungs of other families in order, then the first rung of each worker that another family leads in the workers' order, then the role's rungs of the worker's family in order |
| `CrossFamily.LadderIsConserved` | core/src/orchestrator/conduct.rs:1242-1259 | No rung of the role is lost or duplicated |
| `CrossFamily.OwnFamilyComesLast` | core/src/orchestrator/conduct.rs:1242-1259 | Any rung of another family precedes every rung of the worker's family |
| `Utf8.TruncateAtBoundary` | core/src/orchestrator/changes.rs:15-24 | Terminates on every well-formed string and returns its longest well-formed prefix within the budget |
| `Utf8.TruncateHead` | core/src/orchestrator/conduct.rs:1305-1314 | The same prefix |
| `Utf8.TruncateTail` | core/src/orchestrator/verify.rs:30-40 | The longest well-formed suffix within the budget |
| `Utf8.BoundaryNear` | core/src/orchestrator/changes.rs:19-22 | A character boundary lies within three bytes of any position (section 3 of RFC 3629) |
| `Utf8.WellFormedExactly` | core/src/orchestrator/changes.rs:19-22 | The byte table accepts exactly the encodings of sequences of scalar values (section 3 of RFC 3629), so what the truncators keep is text |
| `Fold.FoldLines` | core/src/orchestrator/conduct.rs:1319-1347 | Never more than `cap` bytes; when lines are dropped and something fits, exactly the longest suffix of lines that fits beside the marker |
| `Fold.FoldIsDetermined` | core/src/orchestrator/conduct.rs:1319-1347 | The specification of folding leaves only one result |
| `Fold.JoinReadsBack` | core/src/orchestrator/conduct.rs:1319-1347 | Splitting a joined block at its newlines gives the lines back, in order |
| `Fold.FoldReadsBack` | core/src/orchestrator/conduct.rs:1319-1347 | A folded block splits into all lines when they fit, and into the marker and the most recent ones when the last fits beside it |
| `Fold.MemBlock` | core/src/orchestrator/conduct.rs:1388-1435 | Ledger, history and note blocks exist exactly when memory is on and something was recorded, and inherit the bound |
| `Fold.MemBlackboard` | core/src/orchestrator/conduct.rs:1443-1480 | The blackboard folds the roster and one line of files under the same bound |
| `Changes.CaptureChanges` | core/src/orchestrator/changes.rs:26-108 | Fails exactly when git does; otherwise the diff with as many whole entries as the budget holds and at most one cut, never beyond max(diff, 40960) + 12 bytes |
| `Changes.AppendEntries` | core/src/orchestrator/changes.rs:69-107 | The budget loop refines that specification |
| `Changes.EntryExactly` | core/src/orchestrator/changes.rs:69-107 | A file's entry is its header line and its whole text up to 8192 bytes, and beyond that the longest prefix that fits, with the truncation mark |
| `Changes.CaptureIsDetermined` | core/src/orchestrator/changes.rs:26-108 | The budget rules leave one text for a diff, its paths and their contents |
| `Changes.CaptureKeepsAll` | core/src/orchestrator/changes.rs:69-107 | Below 40960 bytes in all, nothing is left out: the diff, then every readable file in order |
| `Backoff.BackoffIsMonotone` | core/src/orchestrator/resilience.rs:61-69 | A later retry never waits less, and none waits more than 60 s |
| `Backoff.BackoffIsIdealExactly` | core/src/orchestrator/resilience.rs:61-69 | The saturating 32-bit shift agrees with min(base * 2^idx, 60 s) at every index if and only if the base is zero or at least 14 ns |
| `Backoff.TotalSleepIsBounded` | core/src/orchestrator/resilience.rs:250-270 | A rung sleeps at most 60 s a retry |
| `Resilience.NotedKeepsConsistent` | core/src/orchestrator/resilience.rs:101-136 | Noting a failure keeps the cold keys those with enough hits, loses nothing, and kills only on ModelUnavailable |
| `Resilience.ModelHealth.RecordRateLimit` | core/src/orchestrator/resilience.rs:122-136 | Counts one hit and trips exactly at `cold_after`; a disabled breaker records nothing |
| `Resilience.RunRung` | core/src/orchestrator/resilience.rs:229-270 | Retries while the failure is transient or rate limited, the retry budget lasts and no second timeout occurs; a launch failure or timeout is transient, an error is what its adapter reads in it; sleeps the scheduled total, at most 60 s a retry |
| `Resilience.RetriedExactly` | core/src/orchestrator/resilience.rs:242-263 | Of the raw answers: an attempt is followed by another exactly when it was a launch failure, a timeout before any retry, or an error read as transient or rate limited, and retries remain |
| `Resilience.RungEndsExactly` | core/src/orchestrator/resilience.rs:160-176 | Of the raw answers: which last answer makes a rung succeed, fail as transient, as rate limited, or as unavailable; a rung is untried exactly when its key is dead or cold |
| `Resilience.RungIsBounded` | core/src/orchestrator/resilience.rs:242-270 | At most 1 + `max_retries` attempts on a rung, and only the first and the last can be timeouts |
| `Resilience.ProdSleeps14Seconds` | core/src/orchestrator/resilience.rs:52-58 | A rung under the production policy sleeps 2, 4 and 8 s, at most 14 s in all |
| `Resilience.RunWithFailover` | core/src/orchestrator/resilience.rs:190-318 | Ok at rung r gives a completed outcome and exactly r fallbacks, the j-th from rung j to rung j + 1 with its reason; an error exactly when the ladder is empty or every rung was skipped or failed; the registries change by the failures alone |
| `Resilience.FailoverIsDetermined` | core/src/orchestrator/resilience.rs:190-318 | The ladder, the answers and the registries before determine the result, every visit and the registries after |
| `Resilience.DeadIsSkipped` | core/src/orchestrator/resilience.rs:208-228 | A model found unavailable is not tried again further down |
| `Resilience.OnlyUnavailableKills` | core/src/orchestrator/resilience.rs:281-291 | In one descent a key dies if and only if the last answer of one of its rungs was an error that the adapter reads as the model being unavailable |
| `Resilience.HitsAreCounted` | core/src/orchestrator/resilience.rs:122-136 | A key gains one hit for each of its rungs whose last answer was an error read as rate limited, and none when the breaker is disabled |
| `Resilience.AttemptsAreBounded` | core/src/orchestrator/resilience.rs:204-312 | A whole descent makes at most 1 + `max_retries` attempts a rung |
| `Breaker.BreakerIsExact` | core/src/orchestrator/resilience.rs:114-136 | Under every interleaving of w callers the cold keys are exactly those with `cold_after` hits, and no key exceeds `cold_after` + w - 1 hits |
| `Breaker.HitsAreCounted` | core/src/orchestrator/resilience.rs:114-136 | Under every interleaving the hits of a key are the throttled calls noted on it |
| `Breaker.BoundIsAttained` | core/src/orchestrator/council.rs:60-82 | That bound cannot be lowered: joined callers that checked before the trip may all be throttled |
| `Breaker.RegistriesOnlyGrow` | core/src/orchestrator/resilience.rs:101-136 | Dead and cold keys stay so under every interleaving |
| `Breaker.OnlyUnavailableKills` | core/src/orchestrator/resilience.rs:281-291 | Under every interleaving a key is dead if and only if some caller found it unavailable |
| `Breaker.TrippedIsNotTaken` | core/src/orchestrator/resilience.rs:208-228 | No caller takes up a key that is dead or cold |
| `Breaker.CallerCanStep` | core/src/orchestrator/resilience.rs:204-318 | Under every interleaving each caller can go on, whatever the others do |
| `Operator.OperatorHandle.DrainNotes` | core/src/orchestrator/operator.rs:110-117 | Takes every queued note, oldest first, and empties the queue |
| `Operator.NotesAreConserved` | core/src/orchestrator/operator.rs:110-117 | Under every interleaving the notes shown, then held, then queued are the texts interjected, in order, without loss or duplication, and the rest of the stream is what the run emitted |
| `Operator.PausesAlternate` | core/src/orchestrator/operator.rs:145-159 | The stream alternates Paused and Resumed and ends in Paused exactly while the run is held |
| `Operator.LevelIsLastCommand` | core/src/orchestrator/operator.rs:86-95 | The level is true exactly when the last command was a pause |
| `Operator.ReleaseNeedsNewResume` | core/src/orchestrator/operator.rs:122-125 | A hold ends only after a resume given during it and not overridden: an earlier resume cannot release it |
| `Operator.DispatchNeedsLevelFalse` | core/src/orchestrator/conduct.rs:364-377 | Between any dispatch and the dispatch before it, the level was read false or a parked run saw it false |
| `Operator.CheckpointAdvances` | core/src/orchestrator/operator.rs:145-159 | Each step of the run inside a checkpoint brings the next dispatch closer, and only new notes put it off |
| `Operator.StuckOnlyWhilePaused` | core/src/orchestrator/operator.rs:119-125 | The run can take a step unless it is parked and the level is true: no wake-up is missed |
| `Operator.CommandsTakeEffect` | core/src/orchestrator/operator.rs:86-125 | Commands are never refused: a pause before the level is read parks the run, a resume releases a parked one |
| `Session.OneRunAtATime` | core/src/server.rs:349-357 | Over any number of sessions and any order of frames at most one run is live |
| `Session.RunsExactlyWhenFree` | core/src/server.rs:333-357 | A first frame gets a run exactly when it describes one inside the root while no session runs |
| `Session.OneServerFrame` | core/src/server.rs:267-431 | A closed session that got to run sent its run's events in order and then exactly one frame: the cancellation if its client cancelled, else the outcome the run ended with; a refused one sent one error, one that never spoke nothing; delivery is a prefix, complete unless the socket broke |
| `Session.NoSenderWhileAwaitingWriter` | core/src/server.rs:290-305 | Whenever the writer is awaited no sender is alive, so the writer ends once its queue is empty |
| `Session.NeverDeadlocks` | core/src/server.rs:310-431 | A session that is not closed can step, unless it waits for its client's first frame or its own live run |
| `Session.ServerStepsRunOut` | core/src/server.rs:413-431 | Every step of its own brings a session closer to its end |
| `Session.CancelDecides` | core/src/server.rs:382-424 | The last frame of a session that got to run is the cancellation exactly when its client cancelled, or closed the socket, before the join; otherwise it is the run's own outcome |
| `Session.FinishedRunReportedCancelled` | core/src/server.rs:382-414 | A run that has finished with any outcome can still be reported as cancelled |
| `Reducer.EventsAreShown` | ui/src/session/reducer.ts:91-139 | After any events: the log in order, usage equal to the sums, the distinct files in order of first mention, the session announced last, and the pause badge exactly when a pause has had no resume since |
| `Reducer.FilesAreDetermined` | ui/src/session/reducer.ts:91-139 | The rules for the file list leave only one list |
| `Reducer.SocketKeepsOutcome` | ui/src/session/reducer.ts:64-85 | Whatever the socket does after the end, phase, outcome, log, usage and files stand |
| `Reducer.FirstComplaintIsShown` | ui/src/session/reducer.ts:64-85 | In any state, whatever goes wrong on the socket: the first complaint is the error shown unless there was one, and the phase is an error unless the run had finished |
| `Reducer.LastBreakIsShown` | ui/src/session/reducer.ts:75-85 | The connection shows the latest close or error |
| `SessionClient.ClientShowsSessionOutcome` | ui/src/session/reducer.ts:58-139 | For every session that closes with its frames delivered, among any others: the client that starts, opens its socket and receives them shows the run's events, the cancellation if it cancelled, else the outcome the run ended with or the refusal with its error, unpaused, from any state before and through any socket actions after |
| `SessionClient.ClientSumsAsCharged` | ui/src/session/reducer.ts:120-130 | The usage a client shows for a stream is the usage by which the run is charged |
| `Runner.Collect` | core/src/orchestrator/runner.rs:52-94 | The collect loop refines: first terminal decides, final text is its result or else the last message, one row for each usage event that can be written |
| `Runner.RunToCompletion` | core/src/orchestrator/runner.rs:34-141 | Launch failure records nothing; a timeout keeps the rows already written and reports no events; otherwise outcome and rows are those of the stream, with an estimate exactly on completion without usage |
| `Runner.StatusExactly` | core/src/orchestrator/runner.rs:75-116 | Done exactly when the first event that ends the stream completes it; failed with that event's error when it fails it; failed with a fixed text exactly when nothing ends it |
| `Runner.FinalTextExactly` | core/src/orchestrator/runner.rs:89-93 | The text of the completing event, else the last message, else nothing |
| `Runner.EstimateIsCeiling` | core/src/tokenizer.rs:17-24 | Estimated tokens are a quarter of the characters, rounded up |
| `Runner.FirstTerminalIsFirst` | core/src/orchestrator/runner.rs:75-81 | The authoritative event is a terminal one with no terminal before it |
| `Runner.LaterEventsKeepTheEnd` | core/src/orchestrator/runner.rs:75-81 | Nothing said after the end of a session changes how it ended |
| `Runner.TotalsGrowByUsage` | core/src/orchestrator/runner.rs:118-134 | With writes succeeding, a provider's totals grow by the usage sum, or by the estimate exactly when the run completed with no non-zero usage; no other provider moves |
| `Quota.QuotaStore.RecordAtFlagged` | core/src/quota.rs:101-127 | Appends one row exactly when both counts fit 63 bits and the database accepts, and nothing otherwise; the row counts in exactly its provider's windows that begin no later than its time |
| `Quota.QuotaStore.TotalsSince` | core/src/quota.rs:130-141 | The sums over the provider's rows in the window, or an error when they do not fit; never a wrapped figure |
| `Quota.QuotaStore.EstimatedTotalsSince` | core/src/quota.rs:148-165 | The same sums over the estimated rows alone |
| `Quota.FlaggedExactly` | core/src/quota.rs:148-165 | The rows it sums are those flagged as estimated, in order |
| `Quota.MeasuredPlusEstimated` | core/src/quota.rs:148-165 | Every counted token is measured or estimated, never both |
| `Quota.LaterWindowCountsLess` | core/src/quota.rs:130-141 | A later window counts at most as much |
| `Routing.PickWorkerByProvider` | core/src/orchestrator/routing.rs:21-39 | The first least-loaded provider; an error exactly when there is none or the store cannot answer for one |
| `Routing.BalancedForever` | core/src/orchestrator/routing.rs:15-39 | If each call is charged to its pick, costs at most c input tokens and nothing expires, a spread of at most c stays so over any number of calls |
| `AtomicWrite.StateDirectory.WriteOwnerOnly` | core/src/safety/fs.rs:84-110 | At every crash point the file holds old or complete new contents; success exactly when every call succeeds on a replaceable destination, and then only the new contents can be found; renamed exactly when every call up to the rename succeeds; otherwise the directory keeps its names, and at most the temporary one stays, which takes a failed unlink by the guard |
| `MarkerFile.WriteMarkerFile` | core/src/safety/git.rs:1002-1008 | Writing the marker this way ends in one of the three endings that `CreateDetached` takes it to have, with the names each leaves |
| `AtomicWrite.StateDirectory.FindTempName` | core/src/safety/fs.rs:126-146 | The first unused of 128 random names, or none |
| `AtomicWrite.RenameReveals` | core/src/safety/fs.rs:105-107 | Renaming a synced file over another reveals the old or the new contents after a crash |
| `AtomicWrite.SyncedIsCertain` | core/src/safety/fs.rs:104-110 | Once file and directory are synced, a crash reveals exactly what is there, or that nothing is |
| `AtomicWrite.UnsyncedRenameTears` | core/src/safety/fs.rs:104-107 | Without the file sync a crash could reveal anything |
| `Trust.TrustStore.Trust` | core/src/safety/trust.rs:60-71 | Succeeds exactly when the key can be computed, the list can be read and the replacement succeeds; the stored list becomes the old one without the repository plus the new key exactly when the rename took place; at every crash point it is one of the two |
| `Trust.TrustStore.IsTrusted` | core/src/safety/trust.rs:51-58 | Answers exactly when the key can be computed and the list can be read, and then says whether the key is in it |
| `Trust.TrustStore.Load` | core/src/safety/trust.rs:73-99 | A missing file is an empty list; otherwise it succeeds exactly on a readable regular file that parses, with what it parses to |
| `Trust.StoreIsMap` | core/src/safety/trust.rs:60-71 | The list that a sequence of keys leaves holds each repository once, with the digest trusted last |
| `Trust.RetainExactly` | core/src/safety/trust.rs:60-71 | The keys kept are those of other repositories, in order |
| `Trust.StoreFollowsCalls` | core/src/safety/trust.rs:60-71 | From a missing file, after any calls, successful, failed without effect or failed after the rename, the stored list is that of the calls that took effect |
| `Trust.TrustedMeansLast` | core/src/safety/trust.rs:51-71 | A key is then in the store exactly when it is the last that took effect for its repository |
| `Removal.FileSystem.RemoveContents` | core/src/safety/git.rs:1215-1313 | Recursion terminates; success leaves the directory empty, no substituted name standing and no call failed, and the first failed call is the last one made; in every case directories outside the tree or on another device keep all names, foreign inodes keep theirs, and substitutions stay where the environment put them; without a failed call and interference it succeeds |
| `Removal.FailuresExactly` | core/src/safety/git.rs:1215-1313 | The count of failed calls stands still exactly while no call fails |
| `Removal.FileSystem.UnlinkChild` | core/src/safety/git.rs:1260-1306 | A child is unlinked only if its quarantine name still holds the inode that was there, after emptying it if it is a directory |
| `Removal.FileSystem.QuarantineChild` | core/src/safety/git.rs:1230-1259 | The child moves to an unused name before anything else, and only on the root's device |
| `FileTree.ChildIsGone` | core/src/safety/git.rs:1230-1306 | Quarantining and unlinking one child removes that name and no other |
| `Worktree.Cleanup.SecureCleanup` | core/src/safety/git.rs:1086-1200 | Success leaves no registration, no marker if asked, the entry emptied exactly if it was found (or empty before), nothing under the quarantine name, and the bound name gone unless the entry was already missing and the hook put one there, and means that no call failed; the first failed call is the last one made, and one before the quarantine changes nothing; an error keeps the marker, and the entry's files reachable unless the environment took over the quarantine name; what it put there stays and makes the cleanup fail; a finished capability is a no-op |
| `Worktree.Cleanup.CleanMissing` | core/src/safety/git.rs:1114-1140 | A missing entry is finished only once its registration is gone; without faults exactly if the hook does not refuse and leaves a registration that a prune clears |
| `Worktree.Cleanup.CleanPresent` | core/src/safety/git.rs:1143-1200 | A present entry is touched only if it is the directory this capability made; success means that no substitute was standing, at the quarantine name or below it, and that name is free again; any substitute stays where the environment put it |
| `Worktree.Cleanup.RemoveWorktree` | core/src/safety/git.rs:340-366 | Success means that no call failed, and leaves name, registration and marker gone, and the entry emptied exactly if the name was still bound (or empty before); a foreign handle or marker, a lock, an unregistered present entry, or a failure of one of the first three calls changes nothing; the first failed call is the last one made |
| `Worktree.Cleanup.CreateDetached` | core/src/safety/git.rs:228-291 | Success exactly when every hook, check and step succeeded, the entry was the one made at both checks, and the marker was written and synced; the marker is there exactly when its write got past the rename, so after a failure exactly when only the sync failed; without faults a failure leaves neither name nor registration unless a lock, a substituted entry or a foreign device is in the way, what is locked or substituted it does not touch, and a temporary name that the marker write left stays |
| `Worktree.Cleanup.Abandon` | core/src/safety/git.rs:301-338 | A failed step cleans up explicitly and, that failing, once more on drop; once removed, entry name and registration are gone; a lock or a foreign entry stops both |
| `WorktreeScenarios.RetryLeavesFiles` | core/src/safety/git.rs:1114-1170 | A prune that fails after the quarantine rename, then a removal that succeeds: the marker is gone and the file is still under the quarantine name |
| `WorktreeScenarios.RemovedWithNameBound` | core/src/safety/git.rs:1114-1140 | A cleanup that succeeds with something the hook planted at the worktree's name |
| `WorktreeScenarios.FailedCreationLeavesMarker` | core/src/safety/git.rs:282-291 | A creation whose marker write fails only in its sync: it cleans up everything but the marker |
| `Registration.WorktreeRegistration` | core/src/safety/git.rs:527-544 | Present exactly when some record names the path, locked exactly when a lock field belongs to such a record |
| `Registration.ListingReadsBack` | core/src/safety/git.rs:527-544 | For every list of worktrees Git can print, reading it back tells whether the path is registered and locked |

## Left out

- Process spawning, real git and system calls, HTTP and WebSocket transport, MCP, SQLite and serde: oracles, or abstract maps and sequences.
- Prompt texts, the JSON parsers of model answers and the CLI adapters: their results are arbitrary values, already defaulted as the parsers do.
- The list of fallbacks, the plan summary and the cross-family marker in the conduct transcript: recorded, never read by the loop.
- Operator notes inside the conduct loop: `Operator` models the checkpoint; the notes only reach prompts.
- Subtask ids as 32-bit numbers: they are only compared.
- The texts of the server's refusals: arbitrary.
- RunResolvedVerify: a summary is the list of what its lines say, not the rendered text; command output is taken as already trimmed.
- Fingerprint hashing: an arbitrary function of the diff and the summary, so claims hold whether or not it collides.
- RunConduct: requires a clock that never runs backwards, as a monotonic clock promises.
- Reducer sums: unbounded numbers; a JavaScript number is exact only up to 2^53.
- EstimateTokens: a `char` of a string stands for a Unicode scalar value.
- Sessions whose handler task is dropped by a server shutdown, and clients whose socket breaks before the terminal frame arrives: only the prefix property is claimed for them.
- RemoveContents: the environment acts only between a rename and the following check, on names then quarantined, the worktree's own among them; a substitution between a check and the unlink after it is not modelled, 128-bit random names are taken not to collide, directories are taken to have one parent, and a directory listing is a snapshot.
- Prune: a failing prune changes nothing, and a registered path counts as alive when it holds a `.git` name.
- CreateDetached: what the hooks, `git worktree add` and the materialization of the tree do is whatever well-formed state they leave, without an entry at the marker's random name, which differs, like the worktree's, from the temporary name of the marker write; the environment does not act inside the cleanup of a failed creation; repository and state-root preflight checks are not modelled.
- WriteOwnerOnly: other processes do not touch the directory meanwhile; permissions are not modelled.
- Non-Unix variants, the wizard, doctor, catalog, desktop shell, React components and eval reports: little state or easy look-ups.
