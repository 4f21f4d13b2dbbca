/** The vocabulary shared by every part of the model: task statuses, the artifact
    record and the proof packet. Enumerations stand for the string constants the
    program compares against; an extra constructor stands for "any other string". */
module Domain {

  datatype Option<+T> = None | Some(value: T)

  datatype TaskStatus =
    | Pending | Understanding | Investigating | Implementing | Verifying | Reviewing
    | AwaitingDecision | Done | Failed | Interrupted
  {
    predicate Terminal() {
      Done? || Failed?
    }

    /** An engine step is in flight for this status. */
    predicate Active() {
      Understanding? || Investigating? || Implementing? || Verifying? || Reviewing?
    }
  }

  datatype TaskKind = Bugfix | Change | NoKind

  datatype ArtifactKind =
    | BaselineRun | TestRun | OriginalTestsRun | IntegrationRun | Diff | Review | RootCause | OtherKind

  datatype TestStatus = TestPass | TestFail | TestOther
  datatype TestCase = TestCase(name: string, status: TestStatus)
  datatype Finding = Finding(severity: string, file: string, issue: string)
  datatype ReviewVerdict = Approve | ChangesRequested | OtherVerdict
  datatype RunOutcome = OutcomePass | OutcomeFail | OutcomeUnavailable | OutcomeTimeout | NoOutcome
  datatype Hypothesis = Hypothesis(statement: string, file: string)

  type SHAs = map<string, string>

  /** An immutable piece of raw evidence. `passed` and `tests` are optional exactly
      where the program keeps a nil pointer or a nil slice. */
  datatype Artifact = Artifact(
    id: string, taskID: string, kind: ArtifactKind, worktreeRoot: string,
    sourceSHAs: SHAs, sourceDirty: bool,
    repo: string, command: string, passed: Option<bool>, narrow: bool,
    timedOut: bool, truncated: bool, tests: Option<seq<TestCase>>, testsParsed: bool,
    files: seq<string>, model: string,
    verdict: ReviewVerdict, outcome: RunOutcome, findings: seq<Finding>,
    checked: seq<string>, notChecked: seq<string>, counterexample: string,
    rootCause: Option<Hypothesis>, branch: string, commits: SHAs)

  datatype Task = Task(
    id: string, kind: TaskKind, reproCommand: string, repos: nat, status: TaskStatus,
    worktreeRoot: string, baseSHAs: SHAs)

  /** What a human's choice does to the task; without one it simply continues. */
  datatype Effect = Abort | Accept | Extend | Continue

  datatype ClaimStatus = Supported | Insufficient | Contradicted | Blocked | Stale

  datatype ClaimType =
    | ProblemReproduced | RootCauseSupported | ChangeVerified
    | IndependentChallenge | IntegrationChecked | CrossServiceImpact
}
