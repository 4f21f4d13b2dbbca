# Proofline: a verified model of its evidence core

Proofline lets agents change code and then reports, with evidence, whether the change may be
trusted. This project models the parts that make such a report trustworthy and proves what
they promise: packets built from a log of artifacts, the workflow that produces the
artifacts, the file store several processes share, the calls made to GitHub, and three small
algorithms underneath.

| files | subject |
|---|---|
| `Domain`, `Text` | statuses, artifacts, tasks; the few string questions |
| `ProofSpec`, `ProofBuilder` | what a packet is, and the builder that computes it step by step |
| `ProofPolicy`, `ProofTheorems`, `ProofVerdicts` | the policies over the raw log; each claim and every verdict hold exactly under them |
| `ProofPromise` | what SUPPORTED promises, over nothing but the recorded fields, and that the builder keeps it |
| `ProofDetails` | the reasons, citations, gaps, contradictions and risks of a packet |
| `ProofGuarantees` | stickiness of bad evidence, non-interference of foreign artifacts, the order of risks |
| `CommitStatus` | which packet is reported, the commit status, and what a green one lets its reader conclude |
| `Workflow` | the engine loop, its termination measure and the exact length of its longest run |
| `Snapshots`, `Decisions`, `Engine` | compare-and-swap saves, decision records, and the engine's operations on them |
| `Lifecycle`, `LifecycleSafety` | the same operations cut into atomic steps and interleaved without restriction, with crashes and failing writes; safety of every schedule |
| `LifecycleWrites` | what each kind of step stores, field by field, and the step budget over every schedule |
| `LifecycleRuns` | pauses and revocations, runs from a fresh task that go wrong, and exactly when a waiting task can still move |
| `Events`, `Ledger`, `Packets`, `Idempotency`, `Logs` | the event counter, the effects ledger, packet versions and verdicts, key reservation, reading logs back |
| `SourceBinding` | stamping evidence with the source state around a run |
| `OriginalFiles` | swapping test files in and out of the worktrees |
| `CappedBuffer`, `Tokenizer` | bounded command output, command lines without a shell |

Code that changes state is a class whose methods are proved against functions on values; the
theorems are about those functions. Where several processes meet, a run is a list of atomic
steps: sections under a lock are one step, everything outside is a step of its own, and any
actor may stop for good between two steps. Agents, test runners, git, the network and the
clock are arbitrary inputs. A failing disk or git call is a parameter (`Fate`, `Io`, `Write`,
`readable`, `written`), so it may happen anywhere.

`dafny verify dfyconfig.toml` checks everything.

## Where the code and its promises differ

The model follows the code. Each point below names a lemma with an input that shows it, and
the lemma with the exact condition under which the promise holds.

- While a task is active, a post reports the packet stored last, not the present log: a commit
  verified again stays green although a run on it has failed
  (`CommitStatus.GreenOutlivesEvidence`; exactly: `GreenExactly`, `GreenIsBacked`).
- A failing replay of the original tests stops counting once the latest diff touches no test
  file (`ProofGuarantees.ReplayIsForgotten`; exactly: `FailedReplayBinds`).
- A first base run without a recorded outcome counts as a reproduced failure
  (`ProofGuarantees.UnrecordedOutcomeIsReproduced`; exactly: `ProofTheorems.ReproducedExact`).
  The only writer of such runs always records the outcome (internal/engine/proofline.go:217-224
  and 345), so the input is a foreign or damaged line.
- Two source states with equally many repositories compare equal if the recorded one holds a
  blank SHA where the other lacks the repository (exactly: `ProofPolicy.SameSHAsMeansEqual`).
- Runs are bracketed by two observations; reviews and diffs are stamped once, afterwards, so
  a tree that was dirty or elsewhere meanwhile goes unnoticed
  (`SourceBinding.SingleStampMissesMoves`; exactly: `SingleStampExactly`, `BoundExactly`).
- When storing an approved review fails, the decision that asks how to go on returns to Done:
  "retry the step" completes the task (`LifecycleRuns.RetryCompletesFromStart`; exactly:
  `LifecycleSafety.DoneStep`, `PlainChoiceNeedsFailedWrite`).
- A resolution is recorded before the task is moved. If the resolver dies in between, or its
  snapshot write fails, the task waits for a decision nobody can make any more
  (`LifecycleRuns.StrandsFromStart`; exactly: `MovableExactly`).
- The check that a decision is still open ignores its own read error
  (`Decisions.UncheckedResolutionOverwrites`; exactly: `OverwritesExactly`).
- A process that cannot stat the event file trusts its cache and may repeat a number
  (`Events.UnknownSizeRepeats`; exactly: `FreshExactly` per append, `NumbersIncrease` per run).
- The effects ledger ignores an error of reading itself back, and then may repeat a delivered
  effect (`Ledger.UnreadableLedgerRepeats`; exactly: `RepeatsExactly`).
- A verdict names a version that was the last one when it was checked, not necessarily when it
  is stored (`Packets.VerdictMayBeOvertaken`; exactly: `VoteNamesLastExactly`).
- A key file that cannot be read counts as empty and is overwritten, so a key can yield two
  tasks (`Idempotency.UnreadableFileForgets`; exactly: `ForgetsExactly`, `OnlyClaimsForget`).
- A swap of test files is not undone when a listed file was deleted since base: git refuses to
  restore the whole repository. The failure is reported (exactly:
  `OriginalFiles.UndoneUnlessDeleted`, `UndoIsPerfectExactly`).
- An empty write to a full buffer reports truncation although nothing was lost (exactly:
  `CappedBuffer.MarkedExactly`).

## Model

| member | source | states |
|---|---|---|
| `ProofBuilder.Builder.FileArtifacts` | internal/proof/proof.go:152-197 | one pass over the log gives the declarative view: foreign artifacts counted, every list in log order, the last diff, review and root cause |
| `ProofBuilder.Builder.FileOne` | internal/proof/proof.go:157-195 | each artifact goes to exactly the slot its owner, kind and source state give it |
| `ProofBuilder.Builder.SummariseChange` | internal/proof/proof.go:199-213 | the change is that of the last diff with its branch, commits and files; its test files are exactly the listed files that look like tests |
| `ProofBuilder.Builder.TestFilesIn` | internal/proof/proof.go:208-212 | the listed files that look like tests, in their order |
| `ProofBuilder.Builder.ReproArtifacts` | internal/proof/proof.go:230-242 | the runs of the reproduction command, or without one those of the whole test command |
| `ProofBuilder.Builder.ClaimReproduced` | internal/proof/proof.go:244-332 | all outcomes of the reproduction claim, with the artifacts each one cites |
| `ProofBuilder.Builder.FindWitness` | internal/proof/proof.go:269-276 | the first failing baseline, else the first |
| `ProofBuilder.Builder.TestsWith` | internal/proof/proof.go:849-857 | exactly the names reported with that status; empty iff no test case has it |
| `ProofBuilder.Builder.AllPassedNow` | internal/proof/proof.go:868-878 | true iff the runner's output is known and every earlier failure is reported passing |
| `ProofBuilder.Builder.BaselineFailedThenPassed` | internal/proof/proof.go:391-413 | the first pair of a real base failure and a run of the same repository and command in which all those tests pass |
| `ProofBuilder.Builder.PassedAfter` | internal/proof/proof.go:394-411 | the first such run for one base failure; FlipFound says over raw fields what makes one |
| `ProofBuilder.Builder.ClaimRootCause` | internal/proof/proof.go:334-386 | all outcomes of the root-cause claim |
| `ProofBuilder.Builder.FindProblems` | internal/proof/proof.go:353-376 | which cross-checks of the hypothesis fail, in order |
| `ProofBuilder.Builder.CompareRuns` | internal/proof/proof.go:455-475 | for every iteration order of the command map: flaky iff two runs of one command disagree, failing iff some run failed or timed out |
| `ProofBuilder.Builder.CountRuns` | internal/proof/proof.go:462-474 | counts passes and failures of a group, losing none |
| `ProofBuilder.Builder.FindRunTrouble` | internal/proof/proof.go:455-519 | flaky, failing, truncated, nothing executed: the first that applies |
| `ProofBuilder.Builder.ClaimChangeVerified` | internal/proof/proof.go:415-584 | all outcomes of the change claim, with the artifacts each one cites |
| `ProofBuilder.Builder.JudgeReplays` | internal/proof/proof.go:527-550 | original tests must have been replayed and pass when the author touched tests |
| `ProofBuilder.Builder.JudgeFlip` | internal/proof/proof.go:552-583 | a bugfix needs a confirmed fail-to-pass pair |
| `ProofBuilder.Builder.ClaimChallenge` | internal/proof/proof.go:620-681 | all outcomes of the independent review claim, in order of precedence |
| `ProofBuilder.Builder.ClaimIntegration` | internal/proof/proof.go:683-748 | all outcomes of the integration claim |
| `ProofBuilder.Builder.Claims` | internal/proof/proof.go:107-110 | the six claims in packet order |
| `ProofBuilder.Builder.GapsAndContradictions` | internal/proof/proof.go:765-789 | gaps and contradictions follow from claim statuses, the current review and the ignored count |
| `ProofBuilder.Builder.CollectRisks` | internal/proof/proof.go:790-814 | every risk once, by severity and otherwise in the order it was found |
| `ProofBuilder.Builder.Confidence` | internal/proof/proof.go:114-120 | the strongest evidence level, at least the weakest one |
| `ProofBuilder.Builder.Verdict` | internal/proof/proof.go:816-845 | failed task or contradicted core claim blocks; then stale, unfinished, insufficient, supported |
| `ProofBuilder.Build` | internal/proof/proof.go:98-123 | the packet's statuses, reasons, citations, gaps, risks and verdict are one function of its input, whatever order the map yields its groups in |
| `ProofPolicy.SameSHAsMeansEqual` | internal/proof/proof.go:127-137 | the comparison accepts nothing but an equal map if and only if no recorded SHA is blank |
| `ProofPolicy.ViewRepresents` | internal/proof/proof.go:152-197 | the indexed view neither loses nor invents an artifact of the raw log |
| `ProofPolicy.FlipExact` | internal/proof/proof.go:391-413 | a pair is found iff one exists anywhere in the log |
| `ProofPolicy.RunTroubleExact` | internal/proof/proof.go:455-519 | the runs are in order iff there is one and all are clean passes; they fail iff one failed or timed out |
| `ProofPolicy.ReplayTroubleExact` | internal/proof/proof.go:527-550 | replays are in order iff there is one and all pass |
| `ProofPolicy.ChangeVerifiedExact` | internal/proof/proof.go:415-584 | Change verified is SUPPORTED iff its policy over the raw log holds, and CONTRADICTED iff a current run failed or a needed replay did |
| `ProofTheorems.WitnessInLog` | internal/proof/proof.go:269-276 | the baseline that counts is the first failing one of the log, else the first one |
| `ProofTheorems.ReproducedExact` | internal/proof/proof.go:244-332 | SUPPORTED iff the first failed base run is real and complete, or nothing is recorded as failed and the first base run has no outcome but otherwise looks so; it departs from the policy exactly in the second case |
| `ProofTheorems.ChallengeExact` | internal/proof/proof.go:620-681 | SUPPORTED iff the last review is current, approves, names checks, has no counterexample or high finding, and another named model |
| `ProofTheorems.IntegrationExact` | internal/proof/proof.go:683-748 | SUPPORTED iff a current integration run exists and all of them ran and passed |
| `ProofTheorems.RootCauseExact` | internal/proof/proof.go:334-386 | SUPPORTED iff the hypothesis names an existing, changed file and a fail-to-pass pair exists |
| `ProofTheorems.VerdictSupported` | internal/proof/proof.go:816-845 | SUPPORTED iff the task is Done and every core claim is supported |
| `ProofTheorems.CoreExact` | internal/proof/proof.go:107-112 | the core claims are all supported exactly under the conjunction of their policies |
| `ProofTheorems.SupportedExact` | internal/proof/proof.go:98-123 | for every input: the verdict is SUPPORTED iff everything the program promises holds of the log |
| `ProofPromise.FlipFound` | internal/proof/proof.go:391-413 | for every log, told over the recorded fields alone: a fail-to-pass pair is reported iff some base run failed for real and some current run of the same repository and command passes and reports every test that failed as passing |
| `ProofPromise.DeletedTestIsNoFix` | internal/proof/proof.go:868-878 | a failed test that a later run does not report as passing is never fixed by it, however green the run |
| `ProofPromise.SupportedMeans` | internal/proof/proof.go:98-123 | for every input: SUPPORTED iff the fields of task, artifacts and source say all that is promised; no judgement of the builder appears in the statement |
| `ProofVerdicts.ReproVerdicts` | internal/proof/proof.go:244-332 | reproduction: CONTRADICTED iff the configured command passed on base, STALE iff only runs of another base exist |
| `ProofVerdicts.ReviewVerdicts` | internal/proof/proof.go:620-681 | review: CONTRADICTED iff the last one is current and objects, STALE iff it describes other code |
| `ProofVerdicts.ChangeVerdicts` | internal/proof/proof.go:415-453 | change: STALE iff there is a diff, and it or all of its test runs describe other code |
| `ProofVerdicts.IntegrationVerdicts` | internal/proof/proof.go:683-748 | integration: CONTRADICTED iff the first current run that is not a clean pass did exercise the service, STALE iff only older runs exist |
| `ProofVerdicts.VerdictExact` | internal/proof/proof.go:816-845 | for every input: BLOCKED iff the task failed or evidence on the current state says the opposite; else STALE iff a core claim rests on another state |
| `ProofGuarantees.FailedRunIsSticky` | internal/proof/proof.go:439-499 | after a failed run on the current code no extension of the log is SUPPORTED while the code stays |
| `ProofGuarantees.FailedReplayIsSticky` | internal/proof/proof.go:527-550 | the same for a failed replay, for every extension whose latest diff touches test files |
| `ProofGuarantees.FailedReplayBinds` | internal/proof/proof.go:527-583 | exactly how far: with a current latest diff, verified iff that diff touches no test file and the runs, and for a bugfix the flip, are in order |
| `ProofGuarantees.ReplayIsForgotten` | internal/proof/proof.go:527-550 | a log of three artifacts whose change claim is CONTRADICTED, and SUPPORTED once one diff is appended |
| `ProofGuarantees.ViewIgnoresForeign` | internal/proof/proof.go:157-162 | the view of a log is the view of its own part plus a count |
| `ProofGuarantees.ForeignDoesNotInterfere` | internal/proof/proof.go:784-786 | foreign artifacts anywhere change no claim, risk or verdict, and at most the one counting gap |
| `ProofGuarantees.UnrecordedOutcomeIsReproduced` | internal/proof/proof.go:268-332 | a baseline without recorded outcome counts as a reproduction although nothing failed |
| `ProofGuarantees.RisksBySeverity` | internal/proof/proof.go:811-813 | the most severe risks come first |
| `ProofGuarantees.SortKeepsRisks` | internal/proof/proof.go:811-813 | every risk is listed exactly as often as it was found |
| `ProofGuarantees.SortIsStable` | internal/proof/proof.go:811-813 | risks of one severity stay in the order they were found |
| `ProofDetails.SixClaims` | internal/proof/proof.go:107-110 | the six claims in order, which of them are core, and that the others say nothing |
| `ProofDetails.ReproductionReasons` | internal/proof/proof.go:278-331 | why the reproduction was concluded as it was: exactly when each reason is given |
| `ProofDetails.ProblemsAre` | internal/proof/proof.go:353-376 | exactly when each problem of a hypothesis is named |
| `ProofDetails.EarlyReasons` | internal/proof/proof.go:415-453 | exactly when a change is not looked at, and why |
| `ProofDetails.TroubleReasons` | internal/proof/proof.go:455-519 | exactly when its runs are flaky, failing, truncated or empty |
| `ProofDetails.LateReasons` | internal/proof/proof.go:527-583 | exactly what the replays and the fix then say |
| `ProofDetails.ReviewReasons` | internal/proof/proof.go:620-681 | the first objection to a review, in order |
| `ProofDetails.FlipCites` | internal/proof/proof.go:391-413 | the pair cited is the first base failure that is fixed at all, and the first run that fixes it |
| `ProofDetails.ReproductionCites` | internal/proof/proof.go:244-262 | the reproduction cites the base runs it is about |
| `ProofDetails.ChangeCites` | internal/proof/proof.go:439-584 | a verified change cites the change, every run, the replays it needed and the fix |
| `ProofDetails.IntegrationCites` | internal/proof/proof.go:683-748 | the integration claim cites its runs, and a failure before the change |
| `ProofDetails.GapsTold` | internal/proof/proof.go:765-789 | a gap is listed iff one of its five causes is there |
| `ProofDetails.ContradictionsAre` | internal/proof/proof.go:765-780 | a claim is listed as contradicted iff it is |
| `ProofDetails.RisksAre` | internal/proof/proof.go:790-810 | a risk is listed iff the last review, modified tests, a decision or an inspecting agent gives it |
| `ProofDetails.SeveritiesInOrder` | internal/proof/proof.go:811-813 | after a medium risk only medium, low and unknown ones, and so on |
| `ProofDetails.StrongestIsMax` | internal/proof/proof.go:114-120 | the confidence is the highest level of any evidence |
| `ProofDetails.ChangeTold` | internal/proof/proof.go:199-213 | files, branch, commits, author and test files are those of the last diff |
| `ProofDetails.HeaderTold` | internal/proof/proof.go:100-104 | the packet names the task, its status, base and head it was built from |
| `Text.TestFileExactly` | internal/proof/proof.go:923-929 | a file is a test iff its own name or a directory on its path says so, in any case |
| `Text.WhiteSpace` | internal/proof/proof.go:334-352 | blank means the white space of Unicode, character by character |
| `CommitStatus.BuildStatus` | internal/github/github.go:33-63 | success iff the packet is SUPPORTED on exactly this commit of a clean tree |
| `CommitStatus.SnapshotPacket` | internal/engine/proofline.go:383-440 | while the task is active the packet stored last, or a preview; otherwise the one built now, stored when its content is new |
| `CommitStatus.PostedStatus` | internal/engine/githubflow.go:145-163 | green for a task at rest iff the log deserves it now, for an active task iff the packet stored last is green; posted to the head that packet names |
| `CommitStatus.GreenExactly` | internal/engine/proofline.go:404-440 | exactly when the shown packet is green, at rest and while active |
| `CommitStatus.GreenIsBacked` | internal/engine/proofline.go:404-440 | a shown green is deserved by the present log of a task at rest, or by the log at the moment the last packet was stored |
| `CommitStatus.GreenOutlivesEvidence` | internal/engine/proofline.go:404-415 | a concrete log: verified again on the same commit, a run fails, and the commit is still reported green |
| `CommitStatus.PostedGreenIsEarned` | internal/engine/githubflow.go:149-163 | behind every posted green the evidence of NeverAFakeGreen, at that moment |
| `CommitStatus.CurrentIsSeen` | internal/proof/proof.go:139-145 | a current artifact was observed on the clean tree at that commit |
| `CommitStatus.NeverAFakeGreen` | internal/github/github.go:33-63 | behind a success: Done, diff, review and all counted runs seen on the commit, clean passes, independent approval, and for a bugfix a base failure whose every failed test a run on the commit reports passing |
| `Workflow.Task.constructor` | internal/engine/engine.go:156-165 | a new task starts pending with unspent budgets |
| `Workflow.Task.StepUnderstand` | internal/engine/steps.go:19-81 | where each research outcome leads |
| `Workflow.Task.StepInvestigate` | internal/engine/steps.go:102-139 | an investigation is counted before it can fail |
| `Workflow.Task.StepImplement` | internal/engine/steps.go:144-249 | a verify-only task is never edited; a blocked developer leads to investigation or a human |
| `Workflow.Task.StepVerify` | internal/engine/steps.go:253-373 | failing tests cost a fix attempt, and too many lead to a human |
| `Workflow.Task.StepReview` | internal/engine/steps.go:378-461 | only an approval completes; too many rounds lead to a human |
| `Workflow.Task.Fail` | internal/engine/engine.go:281-295 | a failed step pauses on a decision and keeps its counters |
| `Workflow.Task.Step` | internal/engine/engine.go:246-262 | one counted step is the planned transition |
| `Workflow.Task.Run` | internal/engine/engine.go:223-297 | the loop ends on its own measure; a budget pause needs steps spent before |
| `Workflow.FreshTaskNeverOverruns` | internal/engine/engine.go:42-52 | with the default configuration a fresh task stops within 18 steps and never meets its 20-step budget |
| `Workflow.LeadsTo` | internal/engine/steps.go:19-461 | for each phase, exactly which steps lead there |
| `Workflow.Costs` | internal/engine/steps.go:19-461 | exactly which counters a step moves |
| `Workflow.CountersCount` | internal/engine/engine.go:223-297 | over any run the counters count the steps, the failed tests and the rejected reviews |
| `Workflow.BudgetsHold` | internal/engine/engine.go:42-52 | over any run of a fresh task the loop budgets hold; one failure beyond stops it |
| `Workflow.VerifyOnlyNeverEdits` | internal/engine/steps.go:148-159 | a verify-only task reaches the developer only from an investigation, a failed test or a rejected review, and no run of it edits |
| `Workflow.VerifyOnlyStops` | internal/engine/steps.go:148-159 | and from there goes only to a human |
| `Workflow.VerifyOnlyIsVerified` | internal/engine/steps.go:71-76 | an imported pull request goes from research to verification to review to Done |
| `Workflow.UncertaintyIsInvestigated` | internal/engine/steps.go:57-76 | high uncertainty is investigated first, exactly while the budget lasts |
| `Workflow.StepDecreases` | internal/engine/engine.go:223-297 | from any snapshot a step that keeps running lowers the measure |
| `Workflow.RunsAreBounded` | internal/engine/engine.go:223-297 | no run without a human outlasts the bound, whatever agents and tests do |
| `Workflow.BoundIsExact` | internal/engine/engine.go:42-52 | the bound is the length of the longest run, for every configuration |
| `Workflow.DoneIsVerifiedAndReviewed` | internal/engine/steps.go:335-350 | a run ends Done only by an approval right after a verification that passed or had nothing to run |
| `Engine.Engine.SetStatus` | internal/engine/engine.go:400-410 | the copy's status is stored with its other changes, or nothing is |
| `Engine.Engine.MarkInterrupted` | internal/engine/engine.go:342-351 | only an active task becomes interrupted, remembering its phase |
| `Engine.Engine.Recover` | internal/engine/engine.go:419-437 | needs the lease and the scanned version |
| `Engine.Engine.Resume` | internal/engine/engine.go:454-476 | only an interrupted task resumes, at its remembered phase |
| `Engine.Engine.Reverify` | internal/engine/proofline.go:623-657 | from any resting status but an open decision, with fresh loop budgets and the steps kept |
| `Engine.Engine.RequireDecision` | internal/engine/engine.go:481-516 | the decision, with proceed and abort as the options of a decision without any, is recorded before the task pauses on it |
| `Engine.Engine.ResolveDecision` | internal/engine/engine.go:523-598 | acts only on an open decision of a waiting task and an option it offers; records the choice and adds guidance; an abort fails the task, an acceptance completes it, anything else goes back, an extension with fresh steps |
| `Engine.Engine.FindOption` | internal/engine/engine.go:541-553 | the first option with that ID |
| `Engine.ChoiceMeans` | internal/engine/engine.go:541-560 | what choosing an option does; an abort that says nothing aborts |
| `Engine.NoSuchChoice` | internal/engine/engine.go:541-553 | an option that is not offered does nothing |
| `Decisions.DecisionFile.CreateDecision` | internal/store/filestore.go:440-459 | appends one record or changes nothing |
| `Decisions.DecisionFile.GetDecision` | internal/store/filestore.go:493-504 | the first record with that ID |
| `Decisions.DecisionFile.SaveDecision` | internal/store/filestore.go:461-491 | replaces exactly one record; refuses to resolve twice when the check can read |
| `Decisions.OverwritesExactly` | internal/store/filestore.go:461-491 | a different resolution replaces a recorded one iff the check could not read the file and the write could |
| `Decisions.ResolutionIsFinal` | internal/store/filestore.go:467-472 | unless a save slips past the check so, a resolved record never changes again |
| `Decisions.ResolvedOnce` | internal/store/filestore.go:461-491 | and at most one of any number of resolutions is recorded |
| `Decisions.UncheckedResolutionOverwrites` | internal/store/filestore.go:468-471 | two calls of which the second is recorded over the first |
| `LifecycleSafety.Safe` | internal/engine/engine.go:195-598 | the invariant of every interleaving, crash and write failure: copies are exact or outdated, one lease holder, decisions and guidance consistent |
| `LifecycleSafety.WritesOnBase` | internal/store/filestore.go:162-185 | whoever changes the snapshot had read exactly the one it replaces |
| `LifecycleSafety.TerminalStep` | internal/engine/engine.go:228-230 | only a re-verification changes a terminal snapshot |
| `LifecycleSafety.TerminalAbsorbs` | internal/engine/engine.go:526-533 | once Done or Failed is stored, no schedule without re-verification changes it |
| `LifecycleSafety.RecoverySparesLiveTasks` | internal/engine/engine.go:414-450 | recovery interrupts only the scanned version, while no engine anywhere holds the lease |
| `LifecycleSafety.OneEngine` | internal/store/filestore.go:129-144 | at most one engine drives a task |
| `LifecycleSafety.ResumeUndoesInterrupt` | internal/engine/engine.go:459-470 | interrupting and resuming gives the phase back and changes nothing else |
| `LifecycleSafety.PassesOnce` | internal/store/filestore.go:467-472 | over a whole run at most one resolver of a decision gets past recording it |
| `LifecycleSafety.MovesOnce` | internal/engine/engine.go:574-597 | over a whole run a decision moves the task at most once |
| `LifecycleSafety.DecisionTakesEffectOnce` | internal/engine/engine.go:523-598 | both, and its guidance is stored at most once |
| `LifecycleSafety.GuidanceComesFromDecisions` | internal/engine/engine.go:570-597 | the move starts from a waiting snapshot, by the resolver that recorded the choice; nobody else adds guidance |
| `LifecycleSafety.DoneIsEarned` | internal/engine/steps.go:437-441 | no schedule reaches Done without an approving review or a human acceptance |
| `LifecycleSafety.DoneStep` | internal/engine/engine.go:576-597 | exactly which step stores Done: the lease holder approving the stored review phase, or a choice that accepts, or goes on where Done is the way back |
| `LifecycleSafety.PlainChoiceNeedsFailedWrite` | internal/engine/engine.go:284-292 | a decision leads back to Done only after an approved review and a failed snapshot write |
| `LifecycleWrites.DecisionStores` | internal/engine/engine.go:570-598 | in every interleaving, field by field: an abort stores Failed, an acceptance Done, anything else the recorded phase, an extension fresh steps |
| `LifecycleWrites.InterruptionStores` | internal/engine/engine.go:342-351 | only an active task is interrupted, and its phase is remembered |
| `LifecycleWrites.ResumptionStores` | internal/engine/engine.go:454-476 | a resumed task takes up the remembered phase |
| `LifecycleWrites.ReverificationStores` | internal/engine/proofline.go:640-652 | a re-verification gives the loop budgets back but not the steps |
| `LifecycleWrites.RevocationStores` | internal/engine/githubflow.go:120-135 | a revocation fails a task that is not finished |
| `LifecycleWrites.EngineStores` | internal/engine/engine.go:223-297 | an engine keeps guidance and resume point, counts one step at most, and stores where the step leads |
| `LifecycleWrites.StepBudgetHolds` | internal/engine/engine.go:232-262 | over every schedule from a fresh task the stored steps stay within the budget |
| `LifecycleRuns.StepErrorPauses` | internal/engine/engine.go:281-295 | a failed step pauses on a decision that leads back to its phase |
| `LifecycleRuns.BudgetPauses` | internal/engine/engine.go:232-245 | a task that has used up its steps waits for a human |
| `LifecycleRuns.RevocationRetries` | internal/engine/githubflow.go:125-131 | a revocation that comes too late reads again and then fails the task |
| `LifecycleRuns.RetryCompletes` | internal/engine/engine.go:284-292 | after a failed write of an approved review, choosing to retry completes the task |
| `LifecycleRuns.RetryCompletesFromStart` | internal/engine/engine.go:195-297 | a whole schedule from a fresh task that does so |
| `LifecycleRuns.UnstoredChoiceStrands` | internal/engine/engine.go:563-597 | a choice that is recorded but not stored, by a crash or a failed write, leaves a task that only a revocation can move |
| `LifecycleRuns.MovableExactly` | internal/engine/engine.go:523-598 | a waiting task can still move without a revocation iff some decision is open |
| `LifecycleRuns.StrandsFromStart` | internal/engine/engine.go:523-598 | a whole schedule from a fresh task that strands it |
| `Snapshots.TaskFile.SaveTask` | internal/store/filestore.go:162-185 | stores and bumps both versions, or changes nothing and says why |
| `Snapshots.TaskFile.GetTask` | internal/store/filestore.go:255-268 | a fresh copy of what is stored |
| `Snapshots.NoLostUpdate` | internal/store/filestore.go:160-185 | in any interleaving the stored content is the initial one with the updates of exactly the successful saves, and the version counts them |
| `Snapshots.SaveReplacesItsBase` | internal/store/store.go:25-27 | each successful save was computed from the snapshot it replaces |
| `Snapshots.ConflictMeansOvertaken` | internal/store/store.go:25-27 | a save is refused iff somebody saved since the copy was read |
| `Snapshots.CounterIsExact` | internal/store/store.go:25-27 | n saved increments raise a counter by n |
| `Events.TaskLock.AppendEvent` | internal/store/filestore.go:292-327 | the cached append, including failing stats, reads and writes |
| `Events.FreshExactly` | internal/store/filestore.go:304-318 | the next number is above every stored one iff the file is read or the trusted number covers them, and the next one iff it is the largest |
| `Events.NumberIsFresh` | internal/store/filestore.go:304-318 | with a known size both hold, the second while nothing was lost |
| `Events.NumbersIncrease` | internal/store/filestore.go:292-327 | any interleaving of processes and restarts, with any failures: stored numbers strictly increase iff no append trusts a number below a stored one, and are 1..n iff none trusts another than the largest |
| `Events.KnownSizesSuffice` | internal/store/filestore.go:304-306 | that is so whenever the size of the file can be asked for, and, for 1..n, no line is lost |
| `Events.CacheRefinesScan` | internal/store/filestore.go:297-317 | an append stores what a full scan would, iff the trusted number is the largest stored one |
| `Events.LostLineLeavesGap` | internal/store/filestore.go:318-322 | a lost line burns its number |
| `Events.UnknownSizeRepeats` | internal/store/filestore.go:304-306 | three appends from an empty file, a failing stat, and a number used twice |
| `Ledger.EffectLog.AddEffect` | internal/store/filestore.go:247-249 | appends the record or loses it |
| `Ledger.EffectLog.LastEffect` | internal/engine/githubflow.go:214-223 | the last record of the key among those read back |
| `Ledger.EffectLog.Post` | internal/engine/githubflow.go:166-200 | intent, call, outcome, with a crash or lost append anywhere; exactly which reply, and success iff a delivery is read back or made and stored now |
| `Ledger.EffectLog.PostGitHubStatus` | internal/engine/githubflow.go:149-212 | the comment is posted iff the status is settled, and success means both are |
| `Ledger.CleanStatus` | internal/engine/githubflow.go:149-212 | with nothing recorded and nothing failing: one call each, in order, both delivered |
| `Ledger.CallsExactly` | internal/engine/githubflow.go:166-188 | the service is called iff the records read back end in nothing or a failure and the intent is stored |
| `Ledger.OtherKeysUntouched` | internal/engine/githubflow.go:214-223 | effects do not interfere |
| `Ledger.AtMostOncePerFailure` | internal/engine/githubflow.go:141-200 | over any run whose posts read the truth about their key: calls are at most one plus recorded failures, and the attempt number counts them |
| `Ledger.FullReadsInform` | internal/engine/githubflow.go:214-223 | which they do whenever the ledger is read in full |
| `Ledger.BlockedForGood` | internal/engine/githubflow.go:169-178 | after a delivery or an unrecorded outcome no call is ever made; unknown stays unknown |
| `Ledger.PendingBecomesUnknown` | internal/engine/githubflow.go:173-178 | the retry of an attempt without outcome turns it into unknown |
| `Ledger.RepeatsExactly` | internal/engine/githubflow.go:166-188 | a delivered effect is called again iff what is read back ends in nothing or a failure and the intent is stored; that needs a read that stops early |
| `Ledger.UnreadableLedgerRepeats` | internal/engine/githubflow.go:214-215 | two posts from an empty ledger that deliver twice |
| `Packets.PacketLog.Snapshot` | internal/engine/proofline.go:417-435 | a new version iff the content differs from the last |
| `Packets.PacketLog.AddVerdict` | internal/store/filestore.go:413-415 | appends the verdict or loses it |
| `Packets.PacketLog.RecordVerdict` | internal/engine/proofline.go:531-562 | undisturbed, the verdict names the last version, which has the content just built and is the one expected |
| `Packets.SnapshotExtends` | internal/proof/proof.go:971-979 | a snapshot extends the history and hands back its last version |
| `Packets.PacketHistory` | internal/store/filestore.go:393-411 | in every interleaving: versions 1..n, neighbours differ, nothing stored ever changes |
| `Packets.VerdictsArePinned` | internal/engine/proofline.go:526-557 | every verdict names a stored version with the content its call built, equal to the expected one |
| `Packets.HoldsLastVersion` | internal/engine/proofline.go:536-547 | a voter checks against the version that is last at that moment |
| `Packets.VoteNamesLastExactly` | internal/engine/proofline.go:544-555 | its vote then names the last version iff nothing was stored in between |
| `Packets.VerdictMayBeOvertaken` | internal/engine/proofline.go:544-555 | five steps from an empty history in which a verdict names version 1 of 2 |
| `SourceBinding.Worktrees.Heads` | internal/gitws/gitws.go:275-296 | one look per repository at HEAD and at uncommitted changes; any failing call fails the observation |
| `SourceBinding.ObservedExactly` | internal/gitws/gitws.go:275-296 | the heads are observed iff both calls work for every repository |
| `SourceBinding.Stamp.BindSource` | internal/engine/proofline.go:595-615 | stamped with the heads before; dirty iff it was, or the tree is then unobservable, dirty or moved |
| `SourceBinding.BindingOnlyDowngrades` | internal/engine/proofline.go:595-615 | current iff current by the first stamp and unmoved afterwards |
| `SourceBinding.CurrentIsBracketed` | internal/engine/proofline.go:595-615 | a current bound artifact was seen clean and at exactly the packet's heads both before and after |
| `SourceBinding.BracketedIsCurrent` | internal/proof/proof.go:139-145 | and a run seen so is current |
| `SourceBinding.UnstampedNeverCounts` | internal/engine/proofline.go:201-207 | without a stamp an artifact is neither current nor on base |
| `SourceBinding.BoundExactly` | internal/engine/proofline.go:595-615 | a bound artifact is current iff both looks found the trees clean and at exactly the packet's heads |
| `SourceBinding.SingleStampExactly` | internal/engine/proofline.go:201-207 | an artifact stamped by one look is current iff that look did; nothing earlier enters |
| `SourceBinding.SingleStampMissesMoves` | internal/engine/proofline.go:201-207 | a tree that was dirty and elsewhere before: the review is current, a bound run is not |
| `SourceBinding.SupportedRunsAreBracketed` | internal/engine/steps.go:264-290 | behind a SUPPORTED packet every counted run was bracketed and passed cleanly |
| `OriginalFiles.Cut` | internal/gitws/gitws.go:321-324 | repository and path of an entry; put together they are the entry |
| `OriginalFiles.CutsAtFirstSlash` | internal/gitws/gitws.go:321 | an entry "repo/rel" is the file rel of that repository, however deep |
| `OriginalFiles.Checkout.WithOriginalFiles` | internal/gitws/gitws.go:303-345 | the swap loop with every possible failure, what the body sees, and the deferred restoration in any repository order |
| `OriginalFiles.Checkout.GitCheckout` | internal/gitws/gitws.go:328-331 | files and index take the tree's version of the paths |
| `OriginalFiles.Checkout.RestoreCheckouts` | internal/gitws/gitws.go:308-313 | per repository all paths are restored or none; any failure is reported |
| `OriginalFiles.Checkout.MoveBack` | internal/gitws/gitws.go:314-318 | moves back in reverse order; any failure is reported |
| `OriginalFiles.SwapAllIs` | internal/gitws/gitws.go:320-343 | after any prefix of the loop: base content, hidden files, untouched rest |
| `OriginalFiles.BodySeesBase` | internal/gitws/gitws.go:298-302 | of a listed file the body sees the base version if git finds it there and nothing otherwise; so the base state iff the lookup worked or the file is not at base |
| `OriginalFiles.BodySeesEntry` | internal/gitws/gitws.go:298-302 | the same of an entry given by repository and path |
| `OriginalFiles.BodyRunsExactly` | internal/gitws/gitws.go:320-345 | the body runs iff no checkout or move it needs is refused |
| `OriginalFiles.BodySeesTheRest` | internal/gitws/gitws.go:298-302 | everything else stays as it was, aside names apart |
| `OriginalFiles.UndoneLeaves` | internal/gitws/gitws.go:307-318 | what stays behind, whatever fails: base content in exactly the files not restored, and exactly the files that could not be moved back under their aside names |
| `OriginalFiles.UndoIsPerfectExactly` | internal/gitws/gitws.go:298-345 | no trace iff every file checked out exists at HEAD, its repository is restored or had nothing to restore, and every file moved aside is moved back |
| `OriginalFiles.UndoneUnlessDeleted` | internal/gitws/gitws.go:298-345 | without failures: no trace iff no listed file was deleted since base |
| `OriginalFiles.RestoredTogether` | internal/gitws/gitws.go:308-313 | one file missing at HEAD keeps all listed files of its repository at base |
| `OriginalFiles.ReportsExactly` | internal/gitws/gitws.go:307-318 | an error is reported iff some file was not restored or moved back |
| `OriginalFiles.NoSilentLeftovers` | internal/gitws/gitws.go:307-318 | a restoration that reports no error left no trace |
| `CappedBuffer.Buffer.Write` | internal/sandbox/run.go:197-216 | one write; always reports the full length |
| `CappedBuffer.Buffer.String` | internal/sandbox/run.go:218-223 | everything, or head, dropped count and tail |
| `CappedBuffer.WriteIs` | internal/sandbox/run.go:197-216 | after any output: the first max bytes, the last 8192 of the rest, the number of bytes past the cap |
| `CappedBuffer.WriteAll` | internal/sandbox/run.go:186-223 | the same for every sequence of writes into a new buffer |
| `CappedBuffer.MarkedExactly` | internal/sandbox/run.go:197-208 | truncated iff the output exceeds the cap or an empty write met a full head |
| `CappedBuffer.ChunkingIsInvisible` | internal/sandbox/run.go:186-216 | for non-empty writes the result depends on the output alone |
| `CappedBuffer.NothingUnaccounted` | internal/sandbox/run.go:218-223 | head, dropped and tail add up to the output; nothing is dropped within a tail's length of the cap |
| `Tokenizer.SplitWords` | internal/sandbox/command.go:11-73 | the loop computes the automaton's answer |
| `Tokenizer.AcceptsExactly` | internal/sandbox/command.go:11-73 | accepted with these words iff the text consists of well-formed bare, escaped and quoted pieces that spell them |
| `Tokenizer.MetacharactersAreProtected` | internal/sandbox/command.go:44-59 | every metacharacter of an accepted line is quoted or escaped; expansions are escaped or single-quoted |
| `Tokenizer.RoundTrip` | internal/sandbox/command.go:15-73 | any arguments, single-quoted and joined, split back into themselves |
| `Tokenizer.OrdinaryWords` | internal/sandbox/command.go:15-73 | ordinary words separated by a blank or tab are taken as they are |
| `Tokenizer.TrimIs` | internal/sandbox/command.go:78 | trimming takes white space off both ends and nothing else |
| `Tokenizer.ValidateCommand` | internal/sandbox/command.go:75-112 | accepted iff the trimmed line splits and its words obey the policy; run as exactly those words |
| `Tokenizer.RefusedExactly` | internal/sandbox/command.go:97-109 | exactly the flags that run other programs or code are refused, with one dash or two |
| `Tokenizer.RejectedExactly` | internal/sandbox/command.go:80-109 | exactly why a command that splits is rejected: runner not listed, a path other than ./gradlew, or a refused argument |
| `Tokenizer.ArgumentsPass` | internal/sandbox/command.go:97-109 | what is no flag is never refused |
| `Tokenizer.InlineCodeIsRefused` | internal/sandbox/command.go:104-106 | python -c is refused |
| `Tokenizer.DashesDoNotMatter` | internal/sandbox/command.go:97-109 | one dash or two, a flag is judged the same |
| `Idempotency.KeyFile.ClaimIdempotencyKey` | internal/store/filestore.go:220-236 | first claim wins; a lost write claims nothing |
| `Idempotency.ForgetsExactly` | internal/store/filestore.go:220-236 | a claim changes or drops a held reservation iff the file cannot be read but can be written |
| `Idempotency.OnlyClaimsForget` | internal/store/filestore.go:220-236 | and no other step does |
| `Idempotency.OneTaskPerKey` | internal/engine/proofline.go:51-84 | unless a reservation is forgotten, however creators race and crash: one task per key, and everyone gets that one |
| `Idempotency.SecondGetsTheFirst` | internal/engine/proofline.go:65-84 | two creators of one key: one task, returned to both |
| `Idempotency.OrphanStays` | internal/engine/proofline.go:65-80 | the key of a crashed creator stays reserved and never yields a task |
| `Idempotency.UnreadableFileForgets` | internal/store/filestore.go:227-235 | six steps from nothing: the key file is overwritten and a second task is created |
| `Logs.ReadJSONL` | internal/store/filestore.go:91-127 | fails iff data follows a broken line; otherwise returns every record |
| `Logs.ReadAfterCrash` | internal/store/filestore.go:91-94 | after a crash mid-append every complete record is read back |
| `Logs.Runs` | internal/store/filestore.go:352-371 | the map-indexed fold |
| `Logs.MergedLastWins` | internal/store/filestore.go:352-371 | one record per run, the last appended, in order of first appearance |

## Left out

- ProofBuilder.Build: claim statements, reasons and scopes as text, the verdict text and the fingerprint. A claim carries its status, a reason code and the artifacts it cites; which failing command a text names depends on map order.
- CommitStatus.PostedStatus: the text of the status is a description value; a packet's version number and time play no part. Reading the worktree and the stored packets are inputs.
- Engine.Engine.RequireDecision: the importance and the failure kind of a decision are not modelled.
- Engine.Engine.Reverify: committing the worktree and the fresh diff artifact are not modelled.
- LifecycleSafety.DecisionTakesEffectOnce: the check that a decision is open is taken to read the file; `Decisions.OverwritesExactly` says what happens otherwise.
- LifecycleRuns.MovableExactly: with nobody in the middle of anything, and an actor that is free.
- Ledger.AtMostOncePerFailure: posting calls of one task are assumed not to overlap (the lock made for it, internal/store/filestore.go:238-245, is not taken). A post that does not read the truth about its key is covered by `Ledger.RepeatsExactly` alone.
- Packets.VoteNamesLastExactly: for one voter among any others; several votes of one voter follow by repetition.
- Idempotency.OneTaskPerKey: every creator draws a new task ID. A creation without a key is never suppressed and is not modelled.
- OriginalFiles.UndoIsPerfectExactly: for a clean tree, distinct entries without aside-name clash and a body that leaves the trees alone; paths are plain file names, not git patterns or directories.
- SourceBinding.SingleStampExactly: git is taken never to report a blank head; `ProofPolicy.SameSHAsMeansEqual` says what a blank one does.
- SourceBinding.BoundExactly: the same.
- SourceBinding.SupportedRunsAreBracketed: for runs stamped by the binding; the pairing of a run with its two observations is an input.
- CappedBuffer.Buffer.String: the dropped count is a number; the text around it is not modelled.
- Tokenizer.SplitWords: the input is the decoded character sequence; invalid bytes arrive as the replacement character.
- Fingerprints: a packet's content is compared directly, without hashing; collisions are not modelled.
- Integer widths: counters, versions and sizes are unbounded.
- Appends after a torn line: `appendJSONL` does not repair it; only reading the complete prefix back is modelled.
- Deadlock and liveness of the store: `SaveTask` and the decision functions take the same two locks in opposite order.
- The wait for a concurrent creator (ten seconds, then an error) and all other timeouts appear as a step that may happen at any time.
- Importing pull requests: the lookup of an existing case by head SHA; its semantic key is a key like any other.
- Foreign calls: running commands, the sandbox profile, git, HTTP, JSON, redaction, inference of the task kind, model routing, memory, the repository registry and its generated names.
- HTTP handlers, the UI, the CLI, audit, metrics, backup and restore: plumbing without hard state.
