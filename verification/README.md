# Enactment: crash-safe plan progression, verified

Enactment drives an approved plan step by step. Each step is executed by an agent, verified, and committed to one
plan branch. Progress lives in three durable places: SQLite rows for plans, steps and attempts; the plan branch,
which moves only by compare-and-swap; and a content-addressed snapshot store beside numbered reports. A process can
die between any two writes, and other people can touch the repository at any time. This project models that
machinery and the decisions about what may be committed, and proves what they promise.

## The protocol

- `Records.dfy`, `Selection.dfy`, `Failure.dfy`, `Commits.dfy`: rows, the choice of the next attempt, stored failure
  categories, the commit graph with its branch and the history of its moves.
- `Protocol.dfy`: the durable world of one plan and every write that can change it, as one transition relation. A
  crash loses only variables, so a run is any sequence of writes and an invocation that dies leaves a prefix.
  Foreign commits, merges and moves of the branch are writes like any other, and a Git command that only reads may
  fail. *Undisturbed* below means that nobody but the harness has ever moved the branch; *in calm*, that moreover no
  such read has ever failed.
- `Preservation.dfy`: the inductive invariant, write by write. `Routing.dfy`: which profile an attempt runs with.
- `Safety.dfy`, `Reporting.dfy`: what every reachable world guarantees.
- `StateStore.dfy`, `Stores.dfy`, `Session.dfy`, `Acceptance.dfy`, `Recovery.dfy`, `Executor.dfy`,
  `Coordinator.dfy`, `Cancellation.dfy`: the program itself, as classes and methods that update these stores in place. Every durable
  write goes through a `Session` method which must show that the protocol allows it and adds the resulting world to
  a ghost trace. `Coordinator.RunPlan` ends with a trace that is a run of the protocol, so the safety theorems hold
  at every crash point of the program. Foreign activity is nondeterministic and may precede any Git command, and any
  read may fail; what the executor, Git and verification make of a run is a parameter (`Surroundings`).

## What may be committed

- `SourceDiff.dfy`, `Validate.dfy`, `StepChanges.dfy`, `CommittedTree.dfy`: diffs, their validation, the
  two-phase composition and the tree Git records.
- `TestVerdicts.dfy`: baseline, RED and GREEN.
- `Review.dfy` (with `Sorting.dfy`): counted subtraction of scanner findings.
- `Redact.dfy`, `AuthSecrets.dfy`: masking secrets.

## Findings

In four places the code gives less than its comments say or its parts expect of each other. Each is modelled as the
code has it, with a concrete witness or an exact characterisation.

- The startup gate that reports a failed cycle before a new one asks only whether the latest report names the
  attempt (`src/run/coordinator.ts:385-389`). A report written while the attempt was still `running` names it too,
  and then a new cycle can begin though no report shows the failure. Two things lead there: a foreign branch that is
  created and removed again (`Reporting.UnreportedFailure`), and, with nobody else around, one `git rev-parse` that
  fails at startup (`Reporting.MisreadHidesFailure`, from every world in which a process died with its attempt
  running and a head recorded). Exact condition: `Reporting.ReportedExactlyWhenUnnamed`.
- `src/run/recovery.ts:99-104` says recovery rebuilds the change set exactly as the executor built it. The executor
  drops the dispute marker only for `code_behavior` steps, recovery always. A `task` step that changes only that
  path is accepted by the executor and refused forever by recovery: `CommittedTree.TaskCanBeStranded`; exact
  condition `CommittedTree.SameChangesWhenUndisputed`.
- A redacted text can contain a secret when secrets contain brackets or one of them is `redacted`:
  `Redact.BracketsCanBringBackASecret`. Exact conditions: for bracket-free secrets `Redact.NothingLeftExactlyWhen`,
  for any single secret `Redact.SingleSecretLeaksExactlyWhen`; for any secrets a sufficient one,
  `Redact.RedactionLeavesNothing`.
- A diff can be validated and non-empty although Git records nothing of it, because it compares whole modes and Git
  keeps only the owner's execute bit of a file and no mode of a link: `CommittedTree.ModeChangeCommitsNothing`. Which
  changes those are: `CommittedTree.UnrecordedChange`; exactly when a commit would be empty:
  `CommittedTree.NothingRecorded`.

In the other direction, dropping the dispute marker never empties a validated `code_behavior` change set, wherever
the test scope reaches: `StepChanges.SomethingIsCommitted`.

## Model

| member | source | states |
|---|---|---|
| Failure.RetryableRoundTrip | src/run/selection.ts:44-47 | Storing a failure as `category: message` and reading the text before the first colon gives the category back, for any message; it is retryable exactly when the category is one of the six. |
| Failure.NamesDiffer | src/run/failure.ts:6-22 | No two categories are stored under one name. |
| Selection.NextAttemptMeaning | src/run/selection.ts:50-90 | In every valid plan without an accepting attempt, selection reuses exactly a running last attempt, starts the stronger one exactly after a normal retryable failure and on its parent, and otherwise a normal one from the plan's tip; the new row keeps the retry grammar. |
| Selection.FirstRunning | src/run/selection.ts:53 | Finds the first running attempt, or proves there is none. |
| Records.PendingFrom | src/state/store.ts:418-425 | The first pending step at or after a position, with only completed ones skipped. |
| Records.LiveIsLast | src/state/store.ts:427-454 | In a valid plan a running or accepting attempt is the last attempt of the first pending step. |
| Records.StartKeepsPlan | src/state/store.ts:427-454 | Inserting an attempt on the tip after a failed one keeps the rows' invariant. |
| Records.UpdateKeepsPlan | src/state/store.ts:472-514 | Rewriting the live attempt's own columns keeps it. |
| Records.RecordKeepsPlan | src/state/store.ts:522-539 | Completing attempt, step and head together keeps it and advances the first pending step by one. |
| Records.KeyMeans | src/git/idempotency.ts:34-44 | Two attempts, of one plan or of two, have one key exactly when manifest, plan, step, attempt and parent all agree. |
| Commits.FindByKey | src/git/idempotency.ts:131-155 | Of all commits behind the tip, through merges too, the search returns the newest whose message mentions the key, or proves that none does. |
| Commits.ReachesMeans | src/git/idempotency.ts:131-155 | A commit is behind the tip exactly when some way along first or merged parents leads to it. |
| Commits.ReachesOlder | src/git/idempotency.ts:131-155 | What a commit reaches exists and is not younger than it. |
| Commits.FindGrows | src/git/idempotency.ts:123-155 | Commits made elsewhere never change what the search from a tip finds. |
| Protocol.InitInv | src/state/store.ts:309-367 | A newly registered plan satisfies the invariant whatever the branch, the store and the reports already hold. |
| Preservation.HistoryHasNoKey | src/git/accept.ts:113-140 | Undisturbed, nothing reachable from a step's parent mentions the live attempt's key. |
| Preservation.KeyOnlyAtTip | src/run/recovery.ts:55-88 | Undisturbed, a commit on the branch mentioning the live attempt's key is the tip and the one move the database has not recorded. |
| Preservation.UnrecordedTip | src/run/recovery.ts:38-88 | One move ahead of the database means the live attempt is accepting and the tip is its commit. |
| Preservation.LedgerStep | src/run/coordinator.ts:414-618 | Every write keeps the move history equal to the recorded steps plus at most one acceptance in flight. |
| Preservation.NeverMovedStep | src/run/coordinator.ts:550-555 | No running or failed attempt has ever moved the branch, whatever others do. |
| Preservation.AnnouncedStep | src/run/coordinator.ts:371-402 | Every write keeps: a live plan at the start of a fresh cycle has a latest report naming the failed attempt. |
| Preservation.CandidateStep | src/run/coordinator.ts:703-725 | Every write keeps the accepting attempt's candidate in the snapshot store unless the plan is cancelled. |
| Preservation.ReportsStep | src/run/coordinator.ts:286-319 | Every write keeps: what a report shows as failed has failed; in calm, no report shows an attempt as running and every failed attempt a report names is shown as failed. |
| Preservation.InvStep | src/run/coordinator.ts:245-692 | Every write of the protocol keeps the whole invariant. |
| Preservation.InvRun | src/run/coordinator.ts:245-692 | The invariant holds in every world of every run. |
| Routing.OnRouteStep | src/routing/profiles.ts:46-64 | No write changes an attempt's id, profile, parent or place in the retry order, and a start by the step's own complexity gives codex-fast to low, claude-balanced to medium, codex-deep to high, and claude-deep to a retry. |
| Routing.RoutedAlong | src/run/coordinator.ts:424-434 | Along a whole run of such starts every attempt added to step i has the profile of the i-th complexity, or claude-deep for a retry. |
| Safety.EveryCrashPoint | src/run/coordinator.ts:342-356 | Whatever prefix of a run a crash leaves satisfies the invariant. |
| Safety.RestartIsRun | src/run/coordinator.ts:342-356 | A process cut off after any write, followed by a restarted one, is a run again. |
| Safety.ExactlyOnceLinear | src/git/accept.ts:113-157 | Undisturbed, the branch from base to tip carries exactly one commit per accepted step, in order, each on the one before, with its own step, its own key and its attempt's candidate; at most the last is unrecorded. |
| Safety.CrashRefinement | src/run/coordinator.ts:414-618 | Of all writes only the harness's ref update changes the abstract list of accepted steps, and it appends exactly the next one; recording, recovery, failing, pruning and reporting stutter. |
| Safety.LedgerGrows | src/run/recovery.ts:38-125 | Along any undisturbed run the abstract list only grows. |
| Safety.FailClosed | src/git/accept.ts:142-205 | Even disturbed, every harness ref update goes from the recorded head (or no branch) to a child of it for exactly the first pending step, with its candidate and one key naming manifest, plan, step, attempt and parent; no other harness write touches the ref. |
| Safety.DatabaseInvariant | src/state/store.ts:427-539 | Completed steps are a prefix ending at the head; a live attempt is the last one of the first pending step on the plan's tip; accepting implies candidate and key. |
| Safety.RecordedStands | src/state/store.ts:522-539 | Whatever others did, each recorded commit exists, names its step, is younger than the base and stands on the recorded commit before it. |
| Safety.RecordedIsLinear | src/state/store.ts:522-539 | Whatever others did, the first-parent way from the recorded head to the base is exactly the list of recorded commits, one per completed step, in step order. |
| Safety.SettledForever | src/state/store.ts:491-539 | A failed or completed attempt row never changes again in any run. |
| Safety.AttemptHistory | src/run/selection.ts:50-90 | Every step's attempts are a word of (normal, normal stronger)*; a stronger one retries the directly preceding normal attempt, which failed retryably on the same parent and has no other retry; only the last can be anything but failed. |
| Safety.KindsAreCycles | src/run/selection.ts:65-89 | The pairwise retry rule makes the whole list such a word. |
| Safety.CompletionIsDurable | src/run/coordinator.ts:677-691 | A plan stored as completed has every step completed, a latest report equal to its rows and verified, and an empty snapshot store. |
| Safety.CompletionIsFinal | src/run/coordinator.ts:331-335 | After completion no run changes the plan's rows, its reports or its empty store. |
| Safety.NoSilentCycle | src/run/coordinator.ts:371-401 | A fresh normal attempt follows a failed one only when the latest report names that one; in calm it shows it as failed. |
| Safety.CandidateSurvives | src/run/recovery.ts:102-104 | The snapshot recovery reads is in the store in every reachable world of a plan that is not cancelled. |
| Safety.CancelAgreesWithRecovery | src/run/recovery.ts:148-182 | Cancellation carries a commit beyond the recorded head exactly when the tip is the live attempt's acceptance, and then it is the commit recovery would record. |
| Safety.UndisturbedRecovery | src/run/recovery.ts:38-125 | Undisturbed, cancellation carries exactly the branch tip and recovery never refuses: it retries or records the tip. |
| Reporting.UnreportedFailure | src/run/coordinator.ts:361-389 | A concrete run, write for write the program's, in which a new cycle begins although no report shows the failed attempt as failed. |
| Reporting.MisreadHidesFailure | src/run/recovery.ts:211-220 | From every reachable world with a recorded head and a dead process's running attempt: one failing read at startup, and any failure that ends the cycle, give a run without any foreign write in which the new cycle begins and the latest report does not show the failure. |
| Reporting.ReportedExactlyWhenUnnamed | src/run/coordinator.ts:383-398 | For every failure that ends a cycle: all continuations show it before the next cycle if and only if the latest report at that moment does not name the attempt. |
| StateStores.StateStore.RegisterPlan | src/state/store.ts:309-367 | Resumes the active plan with this manifest, refuses when another manifest owns the repository, finds a finished plan instead of duplicating it, else inserts an approved plan with the input's steps in their order, all pending and unattempted, on the input's base; afterwards at most this plan owns the repository. |
| StateStores.StateStore.SetPlanState | src/state/store.ts:391-393 | Changes one plan's state, or nothing when the unique index refuses; one live plan per repository always. |
| StateStores.StateStore.ActivePlan | src/state/store.ts:382-389 | The repository's only live plan, or none. |
| StateStores.StateStore.PlanFor | src/state/store.ts:375-380 | The first plan registered from the manifest, finished or not, or none. |
| StateStores.StateStore.CancelPlan | src/state/store.ts:396-409 | Succeeds exactly when this manifest's plan owns the repository, changes only its state, and leaves the repository without an owner. |
| StateStores.StateStore.NextPendingStep | src/state/store.ts:418-425 | Returns the first pending step, or none when all are completed. |
| Stores.ReportDirectory.NextOrdinal | src/run/coordinator.ts:160-175 | One more than the largest ordinal in use, which is the number of reports plus one. |
| Stores.ReportDirectory.Write | src/run/coordinator.ts:727-736 | Appends the report and overwrites none. |
| Stores.ReportDirectory.Latest | src/run/coordinator.ts:738-746 | Returns the last report written, or none. |
| Sessions.Session.Advance | src/git/accept.ts:191-204 | Compare-and-swap from the recorded head: the branch moves exactly when it is there, and a move is one the protocol allows. |
| Sessions.Session.Interference | src/git/accept.ts:142-157 | Others may commit and move the branch any number of times; no row changes, and none of the new moves is the harness's. |
| Sessions.Session.ReadTip | src/run/recovery.ts:19-22 | Where the branch is at the moment of reading, or nothing when the command fails; the harness moves nothing meanwhile. |
| Acceptance.UndisturbedFind | src/git/accept.ts:113-140 | Undisturbed, the key search finds exactly an acceptance that is on the branch and not recorded yet. |
| Acceptance.FindAccepted | src/git/accept.ts:113-140 | Returns a commit only if it carries the key, the step and the parent and was on the branch; undisturbed and with every read working, exactly the unrecorded acceptance. |
| Acceptance.CommitAndAdvance | src/git/accept.ts:163-205 | Commits and moves the branch from exactly the recorded head, or moves nothing. |
| Acceptance.AdvanceFrom | src/git/accept.ts:142-161 | Refuses a branch that is not where the database says and an empty change set; undisturbed it succeeds whenever there is something to commit and Git works. |
| Acceptance.AcceptChanges | src/git/accept.ts:104-214 | On success the commit carries key, step and parent and was on the branch; on an error the harness moved nothing; undisturbed and with every read working, an acceptance already made is returned without a second move, and a new one moves the branch exactly once. |
| Recovery.RestWhenUndisturbed | src/run/recovery.ts:211-220 | Undisturbed and with nothing accepting, the branch is at the recorded head. |
| Recovery.FinishVerdictMeans | src/run/recovery.ts:55-94 | The code's checks amount to: record the found commit if it is the tip with the right step and parent, refuse if found otherwise, retry if not found. |
| Recovery.RecordFound | src/run/recovery.ts:59-88 | Records the found commit exactly when step, parent and tip agree, else changes nothing. |
| Recovery.AcceptAgain | src/run/recovery.ts:96-124 | Records exactly one step from the persisted candidate, or leaves rows and ref alone; undisturbed and with every read working it fails only if rebuilding or a Git write does. |
| Recovery.FinishAcceptance | src/run/recovery.ts:38-125 | An error leaves every row and the ref as they were; success records exactly the accepting step; the outcome is the verdict's when nobody moves the branch and every read works, and undisturbed only a failing Git or export can stop it. |
| Recovery.CheckHead | src/run/recovery.ts:211-220 | Passes only with the branch at the recorded head, if there is one; an error means that it is elsewhere or could not be read. |
| Recovery.Reconcile | src/run/recovery.ts:198-221 | Success leaves nothing accepting and the branch at the recorded head; an error leaves an attempt running only if somebody moved the branch or a read failed; undisturbed and with every read working it fails exactly when an acceptance has to be made again and that fails. |
| Coordinator.SnapshotsToKeep | src/run/coordinator.ts:709-720 | Exactly the accepting attempt's candidate is kept; nothing may be pruned beside a running attempt after startup. |
| Coordinator.PruneSnapshots | src/run/coordinator.ts:703-725 | Removes exactly the snapshots recovery does not need, or nothing beside a live attempt. |
| Executor.OfferCandidate | src/run/orchestrator.ts:926-931 | The candidate is stored, then recorded with its key, then the attempt is accepting; it stays the same attempt. |
| Executor.Execute | src/run/orchestrator.ts:926-944 | A run leaves the same attempt live; a failing phase is reported as it failed, and otherwise the run's own candidate is accepting; a commit it reports can be recorded, and without one the category is the harness's own and nothing says its work is on the branch; undisturbed it commits exactly when its phases pass, something changed and Git works. |
| Coordinator.OwesReport | src/run/coordinator.ts:371-400 | True exactly when the plan and the last attempt have failed, no stronger retry is due, and the latest report does not name the attempt. |
| Coordinator.BranchGate | src/run/coordinator.ts:357-368 | Refuses only a branch that somebody else made; passes only if branch and recorded head agree or the branch could not be read. |
| Coordinator.PassGates | src/run/coordinator.ts:361-402 | Past the gates the plan runs, and branch and head agree unless the branch could not be read; a stop is published as it reads; undisturbed and with every read working they stop exactly for an owed report. |
| Coordinator.ReportOrRun | src/run/coordinator.ts:369-402 | The failed cycle is published, and no row changes, exactly when a report is owed; otherwise the plan is marked running. |
| Coordinator.Startup | src/run/coordinator.ts:342-402 | Past startup nothing is accepting, no snapshot is left over, and branch and head agree unless a read failed; undisturbed and with every read working it stops only for an owed report or an acceptance that cannot be made again, and always for the latter. |
| Coordinator.BeginAttempt | src/run/coordinator.ts:476-502 | The attempt that runs is the one selection chose, counted again if reused. |
| Coordinator.AfterFailure | src/run/coordinator.ts:550-585 | The attempt and plan fail with `category: message`, the store is emptied, and the loop goes on exactly after a normal attempt with one of the six model-caused categories; otherwise the stop, with that text, is on disk. |
| Coordinator.AfterCommit | src/run/coordinator.ts:587-617 | The commit becomes the head and its step is done; the invocation stops exactly when the run could not clean up. |
| Coordinator.RunPending | src/run/coordinator.ts:404-618 | One executor call for the first pending step: the running attempt again, or one new attempt whose profile is that of the step's own complexity. Either the run's candidate is the new head and the step is done, or the attempt has failed with the run's category and message; the invocation goes on exactly after a clean commit or a model-caused failure of a normal attempt. |
| Coordinator.RunAttempt | src/run/coordinator.ts:476-548 | The attempt that a dead process left running runs again and is counted, or else one new attempt runs; its outcome is the run's. |
| Coordinator.StepLoop | src/run/coordinator.ts:403-618 | The loop hands the executor one run after the other and terminates within two calls per pending step; a stop reports the last run's failure; undisturbed and with good runs it completes every step. |
| Coordinator.FinishPlan | src/run/coordinator.ts:620-692 | Completes exactly when verification passes, and only behind the published report and an empty store. |
| Coordinator.CompletePlan | src/run/coordinator.ts:677-691 | The completed report is on disk and the store empty when the plan is marked completed. |
| Coordinator.Drive | src/run/coordinator.ts:414-692 | The report is final verification's, completed exactly when that passed, or that of the run that stopped the loop. |
| Coordinator.AnswerRetired | src/run/coordinator.ts:320-335 | A cancelled plan is described and a completed one answered with its stored verified report; neither is touched. |
| Coordinator.Invoke | src/run/coordinator.ts:245-692 | Returns what it left on disk, and then owes no report; at most two executor calls per pending step, in order; every attempt it adds has its step's profile; a live plan completes only if final verification passes; a retired plan is untouched; undisturbed and with no read and nothing outside failing it completes the plan from any crash state, unless it owed a report. |
| Coordinator.InvokeTwice | src/run/coordinator.ts:245-692 | Two such invocations complete any live plan, whatever a crash left and whatever was owed. |
| Coordinator.RunPlan | src/run/coordinator.ts:245-692 | Refused registration changes nothing; a new plan starts with exactly the approved steps in order; the writes made form a run of the protocol with the invariant in every world, in each of which every attempt added to step i has the profile of the i-th complexity; with nobody else on the branch, nothing owed and nothing failing, the plan is completed. |
| Cancellation.ReadAcceptedHead | src/run/recovery.ts:148-182 | The head reported is the specified one, or the recorded head when a read failed. |
| Cancellation.ProvenBySome | src/run/recovery.ts:167-179 | The search over steps and attempts finds an attempt that the tip proves exactly when there is one. |
| Cancellation.Cancel | src/run/production.ts:185-232 | An error exactly when no plan comes from the manifest, and then nothing changes; otherwise that plan alone ends retired, its store empty, no report touched, the head reported is accepted work, and the writes form a run of the protocol. |
| SourceDiff.DiffManifests | src/diff/source-diff.ts:72-89 | Sorted by path, exactly one change for every path that one tree has and the other has not or has otherwise, saying what each tree has there; nothing at or under node_modules and .git. |
| SourceDiff.DiffUnique | src/diff/source-diff.ts:72-89 | Two trees have only one diff, whatever order the maps are read in. |
| Validate.ValidateChanges | src/diff/validate.ts:53-102 | Accepts exactly non-empty change sets whose every change is unfrozen, in scope, no dependency manifest in any directory and no escaping link; otherwise names the first violation in the code's order. |
| Validate.MatchesMeans | src/diff/validate.ts:40-45 | A path is in scope exactly when some pattern matches it or names a directory above it. |
| Validate.BaseNameMeans | src/diff/validate.ts:72-73 | For every name without a slash: the last segment of a path is that name exactly when the path is the name or ends in a slash and the name. |
| Validate.ManifestMeans | src/diff/validate.ts:26-34 | The manifests and lockfiles are recognised under their six names in every directory, and no other path is. |
| Validate.FaultMeans | src/diff/validate.ts:72-99 | One change is faulty exactly when it is a manifest, an escaping link or out of scope, and is blamed for the first of these. |
| StepChanges.CaptureDispute | src/verify/dispute.ts:10-22 | A dispute is raised exactly when some change puts a regular file at the dispute path, and says what that file says, trimmed. |
| StepChanges.TrimMeans | src/verify/dispute.ts:18-21 | Trimming loses only white space, at the ends, and leaves none there. |
| StepChanges.ExcludeDispute | src/verify/dispute.ts:30-32 | Keeps every change off the dispute path exactly as often as it occurs, and no other. |
| StepChanges.ExcludeKeepsOrder | src/verify/dispute.ts:30-32 | Whatever relation holds along the changes holds along those that are kept: their order stays. |
| StepChanges.PhasesDisjoint | src/run/orchestrator.ts:658-735 | Two validated phase diffs never touch the same path. |
| StepChanges.CumulativeIsMerge | src/run/orchestrator.ts:735-753 | The cumulative diff, validated by nobody, is the sorted merge of the two validated phase diffs. |
| StepChanges.CumulativeIsCovered | src/run/orchestrator.ts:735-753 | Every cumulative change is in test scope, implementation scope or at the dispute path, outside the closure, no dependency manifest and no escaping link. |
| StepChanges.TestsAreFrozen | src/verify/frozen.ts:9-28 | Whatever is under a test or closure path is in the final snapshot exactly what RED was judged on. |
| StepChanges.SomethingIsCommitted | src/verify/dispute.ts:30-32 | Dropping the marker never empties a validated change set. |
| StepChanges.ExplainedIsInvalid | src/diff/validate.ts:53-102 | A reported violation proves the diff invalid. |
| StepChanges.ComposeChanges | src/run/orchestrator.ts:658-753 | On the three trees: a change set exactly when the tests phase changed only tests and the implementation phase only implementation and the dispute path, nothing frozen, no manifest, no escaping link, and left no regular file of its own at the dispute path; a dispute with that file's trimmed content if it did; otherwise the first failing phase. The change set is every change but the marker, once, covered and with the tests of RED. |
| StepChanges.ValidOnTrees | src/run/orchestrator.ts:640-653 | A phase's diff validates exactly when the phase changed something and every path it changed is allowed to it. |
| StepChanges.DisputeOnTrees | src/verify/dispute.ts:10-22 | A dispute is captured exactly when the later tree has a regular file at the dispute path that the earlier has not or has otherwise. |
| CommittedTree.Worktree.ApplyChange | src/git/accept.ts:66-89 | Removing and rewriting one path in place has the change's effect there and nowhere else. |
| CommittedTree.Worktree.ApplyChanges | src/git/accept.ts:166-168 | The loop applies every change in order. |
| CommittedTree.RecordedIsKept | src/git/accept.ts:82-88 | What is recorded of an entry is its link target, or its content with the execute bit among the owner's three permission bits, and nothing else. |
| CommittedTree.OrderIrrelevant | src/git/accept.ts:166-168 | Any order of one change set builds the same tree. |
| CommittedTree.CommittedIsVerified | src/git/accept.ts:163-186 | The committed tree has the verified snapshot's entry, or its absence, wherever export or snapshot has the path, and the parent's at excluded paths, the dispute path and paths seen by neither. |
| CommittedTree.CommittedTestsAreJudged | src/verify/frozen.ts:9-28 | At every test path that the export or the RED snapshot has, the committed tree holds exactly what RED was judged on. |
| CommittedTree.CommitTestsFirst | src/run/orchestrator.ts:658-763 | Two diffs, their validation, the change set and the worktree together commit the final snapshot, with the tests of the RED snapshot. |
| CommittedTree.CommitSnapshot | src/run/recovery.ts:102-117 | Export, diff, exclusion and application together build that tree. |
| CommittedTree.SameChangesWhenUndisputed | src/run/orchestrator.ts:735-763 | Executor and recovery build the same change set exactly for `code_behavior` steps and for diffs without the dispute path. |
| CommittedTree.RecoveredTree | src/run/recovery.ts:96-117 | For every step the two trees agree everywhere but at the dispute path, where recovery keeps the parent's entry. |
| CommittedTree.StrandedWhenOnlyTheMarkerChanged | src/git/accept.ts:159-161 | Recovery's change set is empty, and so refused, exactly when every change is at the dispute path. |
| CommittedTree.TaskCanBeStranded | src/run/orchestrator.ts:754-763 | A validated task diff that recovery empties. |
| CommittedTree.NothingRecorded | src/git/accept.ts:170-189 | The commit would be empty exactly when every path of export or snapshot, but for excluded ones and the dispute path, is in the snapshot as the parent commit records it. |
| CommittedTree.UnrecordedChange | src/diff/source-diff.ts:63-70 | Two archive entries differ for the diff and not for Git exactly when they are files that differ in mode bits other than the owner's execute bit alone, or links with one target that differ otherwise. |
| CommittedTree.ModeChangeIsValid | src/diff/validate.ts:53-102 | Rewriting a file in scope with another mode gives a diff that validates. |
| CommittedTree.ModeChangeCommitsNothing | src/git/accept.ts:170-189 | For every pair of modes with the same owner execute bit that diff leaves the parent's tree as it is. |
| TestVerdicts.BaselineStatusMeans | src/verify/baseline.ts:44-96 | Pass exactly when no expected test exists and the latest run is clean but for known flaky tests; retry exactly when it is not clean and retries are left. |
| TestVerdicts.BaselineNames | src/verify/baseline.ts:54-95 | The failures are exactly the expected tests that exist, or else the unexpected failures, suite failures and an unexplained runner failure of the latest run; quarantined are its failed flaky tests, warnings the tests that pass now and failed before. |
| TestVerdicts.CaptureBaseline | src/verify/baseline.ts:98-123 | Stops within `retryFailures + 1` runs, at the first verdict that is not to retry, with that run's results. |
| TestVerdicts.CapturePassesWhen | src/verify/baseline.ts:98-123 | A capture passes exactly when some allowed run is clean and no run up to it shows an expected test. |
| TestVerdicts.SuiteReasons | src/verify/red.ts:69-99 | Every suite failure yields, cause by cause, its reason or, if it is a missing module in scope, the missing-implementation category. |
| TestVerdicts.RedRegressions | src/verify/red.ts:117-131 | Exactly the baseline tests that now fail or are newly skipped are reported. |
| TestVerdicts.ClassifyRed | src/verify/red.ts:45-153 | The category prefers a missing implementation; the reasons are exactly those that hold; valid means a category and no reason. |
| TestVerdicts.RedMeans | src/verify/red.ts:45-153 | RED is valid exactly when every suite failure is a missing module in scope, no expected test passes, all fail if every suite loaded, the category is allowed and no baseline test regressed. |
| TestVerdicts.ClassifyGreen | src/verify/green.ts:19-79 | GREEN is valid exactly when every expected and every baseline-passing test passes and the runner succeeded; the reasons are exactly those that hold. |
| TestVerdicts.ExpectedTestsAreNew | src/verify/red.ts:101-115 | Across the three verdicts each expected test is absent at baseline, not passing at RED (failing, or not loaded for a missing module in scope) and passing at GREEN. |
| TestVerdicts.NothingElseBroke | src/verify/green.ts:61-71 | Every baseline-passing test is neither failed nor skipped at RED and passes at GREEN; RED's suite failures are missing modules in scope; baseline failures are known flaky. |
| TestVerdicts.RunTestsFirst | src/run/orchestrator.ts:658-735 | The sequence of verdicts succeeds exactly when the three conditions hold of the run the capture stopped at. |
| Review.CompareIsTotal | src/review/results.ts:196-208 | The seven-key comparison is a total preorder. |
| Review.ListedBothWays | src/review/results.ts:196-208 | Two findings that tie are the same finding. |
| Review.ListedMeans | src/review/results.ts:196-208 | Critical findings come before warnings, then paths, positions and rules decide in that order. |
| Review.CountBaseline | src/review/results.ts:245-251 | The map counts each identity's findings from before. |
| Review.Subtract | src/review/results.ts:244-266 | Reports findings of the scan from after, in order: of every rule, path and matched text, counted on the scan's own fields, as many as there are more after than before. |
| Review.LaterOnesAreKept | src/review/results.ts:253-263 | For each identity the later occurrences in sorted order are kept, after as many as there were before. |
| Review.CountIsTheDifference | src/review/results.ts:253-263 | The number kept of an identity is max(0, after - before). |
| Review.ReportIsSorted | src/review/results.ts:254-265 | The report is sorted. |
| Review.ListingOrderIrrelevant | src/review/results.ts:244-266 | The report does not depend on the order the scanner listed its results in. |
| Redact.JoinAfterSplit | src/artifacts/redact.ts:49 | Splitting and joining with the mask replaces the occurrences found from the left; joining with the secret gives the text back. |
| Redact.ClearWithoutBrackets | src/artifacts/redact.ts:43-50 | Among bracket-free secrets of the masked length only `redacted` can share characters with a mask. |
| Redact.OccurrenceWasCopied | src/artifacts/redact.ts:49 | One replacement brings back no secret that cannot meet the mask, and removes its own. |
| Redact.StaysGone | src/artifacts/redact.ts:49 | Later replacements never recreate an earlier secret. |
| Redact.RedactionLeavesNothing | src/artifacts/redact.ts:43-50 | No output contains a masked secret, for secrets that cannot meet the mask. |
| Redact.NothingLeftExactlyWhen | src/artifacts/redact.ts:43-50 | For bracket-free secrets: nothing is left on every text if and only if `redacted` is not one of them. |
| Redact.SingleSecretLeaksExactlyWhen | src/artifacts/redact.ts:43-50 | For every single secret of the masked length, whatever its characters: some text still shows it after redaction if and only if it fits over a mask at some offset without the search stopping earlier. |
| Redact.MeetsTheMaskButNeverLeaks | src/artifacts/redact.ts:43-50 | Sharing characters with the mask is not enough: a secret that does and is never shown. |
| Redact.CleanTextUnchanged | src/artifacts/redact.ts:43-50 | A text without secrets is returned unchanged, for any secrets. |
| Redact.Idempotent | src/artifacts/redact.ts:43-50 | Redacting twice is redacting once. |
| Redact.LongestFirstMasksWhole | src/artifacts/redact.ts:44-47 | A secret is masked as a whole even if it contains another. |
| Redact.BracketsCanBringBackASecret | src/artifacts/redact.ts:43-50 | Two secrets and a text whose redaction is one of the secrets. |
| AuthSecrets.Walk | src/artifacts/redact.ts:8-24 | The walk adds exactly the long enough strings under a secret key. |
| AuthSecrets.SecretKeyMeans | src/artifacts/redact.ts:6 | A field name is secret exactly when it contains token, secret, key, password or authorization, in small or capital letters. |
| AuthSecrets.CollectSecrets | src/artifacts/redact.ts:27-37 | A string is collected exactly when it has the masked length and some path to it passes a secret key; nothing for an unreadable document. |
| AuthSecrets.NothingFromAuthIsShown | src/artifacts/redact.ts:27-50 | No redacted output contains a string some path under a secret key leads to. |

## Left out

- Docker, networks, the proxy, provider adapters, authentication and timeouts: an executor run is a parameter saying how its phases went, what it would commit and whether Git and its teardown worked.
- Internals of Git, SQLite, tar and the filesystem: commits are records with parents and trailers, the branch is one compare-and-swap reference, transactions and single file writes are atomic.
- Commit dates: commits are numbered as they are made and the newest is the one with the largest number, where `git log` goes by dates that others can set.
- A failing write of Git: it is the executor's or the recovery's outcome, or a crash. Only commands that read fail on their own.
- Redact.NothingLeftExactlyWhen: for several secrets, some with brackets, there is a sufficient condition and a witness but no exact one, because which replacement spells out which secret depends on the whole list.
- Failing to remove a worktree after the branch has moved, and exceptions that escape an invocation: the second is a crash, which any prefix of a run covers.
- `picomatch`, `localeCompare`, `escapesTree`, module resolution, SHA-256 and UUIDs: arbitrary predicates, injective rankings, injective keys and fresh numbers.
- Replacing a directory by a file or a file by a directory in a worktree: paths are flat.
- Concurrent production runs, and cancelling while a run is active: invocations follow one another.
- Several plan rows at once: the store keeps them all with one owner per repository, but the protocol follows one of them, and a snapshot store and report directory belong to one plan.
- Plans without steps: approval requires at least one.
- Attempt phases, artifact paths, run directories (`claimOrdinalDirectory`), progress, diagnosis and advisory text: none of them decides selection or acceptance.
- `acceptedStepIds`, an advisory scan at preparation time.
- Parsing of scanner output, of test results and of archives, and the messages of verdicts and errors.
- Manifests, YAML and command-line handling, documentation download: single-branch validation.
