/** What a proof packet is: a function of the task, the artifact log and the source
    state observed now. `ProofBuilder` computes it step by step; `ProofPolicy` says
    what it means. */
module ProofSpec {
  import opened Domain
  import Text

  /** The worktree HEAD per repository right now; `unknown` when it could not be observed. */
  datatype Source = Source(shas: SHAs, dirty: bool, unknown: bool)

  datatype Evidence = Evidence(rank: nat, inspection: bool, riskLines: seq<string>)
  datatype Decision = Decision(question: string, resolved: bool, chosen: string)

  datatype Input = Input(
    task: Task, artifacts: seq<Artifact>, source: Source,
    evidence: seq<Evidence>, decisions: seq<Decision>,
    existing: Option<set<string>>,  // None disables the file-exists check
    integrationConfigured: bool)

  // ---------- source-state binding ----------

  function Lookup(m: SHAs, k: string): string {
    if k in m then m[k] else ""
  }

  predicate SameSHAs(a: SHAs, b: SHAs) {
    |a| != 0 && |b| != 0 && |a| == |b| && forall k | k in a :: Lookup(b, k) == a[k]
  }

  predicate Current(o: Source, a: Artifact) {
    !o.unknown && !o.dirty && !a.sourceDirty && SameSHAs(a.sourceSHAs, o.shas)
  }

  predicate OnBase(t: Task, a: Artifact) {
    !a.sourceDirty && SameSHAs(a.sourceSHAs, t.baseSHAs)
  }

  /** Provenance: same task, and not known to come from another worktree. */
  predicate Own(t: Task, a: Artifact) {
    a.taskID == t.id
    && !(a.worktreeRoot != "" && t.worktreeRoot != "" && a.worktreeRoot != t.worktreeRoot)
  }

  // ---------- the indexed view ----------

  datatype Slot =
    | Foreign | Baselines | StaleBase | Tests | StaleRuns | Replays
    | Integ | IntegBase | IntegOld | Diffs | Reviews | RootCauses | NoSlot

  function SlotOf(t: Task, o: Source, a: Artifact): Slot {
    if !Own(t, a) then Foreign else
    match a.kind
    case BaselineRun => if OnBase(t, a) then Baselines else StaleBase
    case TestRun => if Current(o, a) then Tests else StaleRuns
    case OriginalTestsRun => if Current(o, a) then Replays else NoSlot
    case IntegrationRun => if Current(o, a) then Integ else if OnBase(t, a) then IntegBase else IntegOld
    case Diff => Diffs
    case Review => Reviews
    case RootCause => RootCauses
    case OtherKind => NoSlot
  }

  /** A recognised runner that reported nothing ran zero tests; the empty list is lost on disk. */
  function Normalized(a: Artifact): Artifact {
    if a.testsParsed && a.tests.None? then a.(tests := Some([])) else a
  }

  datatype Entry = Entry(slot: Slot, artifact: Artifact)

  function EntryOf(t: Task, o: Source, a: Artifact): Entry {
    Entry(SlotOf(t, o, a), Normalized(a))
  }

  /** The log with every artifact classified. */
  function Tagged(t: Task, o: Source, arts: seq<Artifact>): seq<Entry> {
    seq(|arts|, i requires 0 <= i < |arts| => EntryOf(t, o, arts[i]))
  }

  function Pick(log: seq<Entry>, s: Slot): seq<Artifact> {
    if log == [] then []
    else
      var n := |log| - 1;
      Pick(log[..n], s) + if log[n].slot == s then [log[n].artifact] else []
  }

  function LastOf(log: seq<Entry>, s: Slot): Option<Artifact> {
    if log == [] then None
    else
      var n := |log| - 1;
      if log[n].slot == s then Some(log[n].artifact) else LastOf(log[..n], s)
  }

  lemma PickStep(log: seq<Entry>, e: Entry, s: Slot)
    ensures Pick(log + [e], s) == if e.slot == s then Pick(log, s) + [e.artifact] else Pick(log, s)
    ensures LastOf(log + [e], s) == if e.slot == s then Some(e.artifact) else LastOf(log, s)
  {
    assert (log + [e])[..|log|] == log;
  }

  datatype View = View(
    ignored: nat,
    baselines: seq<Artifact>, staleBase: seq<Artifact>, tests: seq<Artifact>, staleRuns: seq<Artifact>,
    replays: seq<Artifact>, integ: seq<Artifact>, integBase: seq<Artifact>, integOld: seq<Artifact>,
    diff: Option<Artifact>, review: Option<Artifact>, rootCause: Option<Artifact>)

  function ViewOf(log: seq<Entry>): View {
    View(
      |Pick(log, Foreign)|,
      Pick(log, Baselines), Pick(log, StaleBase), Pick(log, Tests), Pick(log, StaleRuns), Pick(log, Replays),
      Pick(log, Integ), Pick(log, IntegBase), Pick(log, IntegOld),
      LastOf(log, Diffs), LastOf(log, Reviews), LastOf(log, RootCauses))
  }

  function Index(t: Task, o: Source, arts: seq<Artifact>): View {
    ViewOf(Tagged(t, o, arts))
  }

  // ---------- claims ----------

  datatype Problem = NamesNoFile | FileMissing | FixElsewhere | NoFlip

  /** One constructor per branch that concludes a claim. */
  datatype Reason =
    | NotABugfix | BaselineElsewhere | NoBaseline | BaselineRanNothing | BaselineGreen | ReproGreen
    | BaselineTruncated | BaselineTimedOut | NoFailingTest | BaselineFails
    | NoHypothesis | NotCrossChecked(problems: seq<Problem>) | CrossChecked
    | NoChange | DirtyTree | DiffElsewhere | RunsElsewhere | NoRuns | Flaky | RunFails
    | RunTruncated | NothingExecuted | NoReplay | ReplayFails
    | FlipConfirmed | NoBaselineFailure | FlipIncomplete | CommandsPass
    | NoReview | ReviewElsewhere | ChangesAsked | CounterexampleFound | HighFinding
    | SameModel | NothingChecked | NoCounterexample
    | NotConfigured | IntegrationElsewhere | IntegrationNotRun | IntegrationUnavailable
    | IntegrationFails | IntegrationPasses
    | CrossServiceUnchecked
  {
    function Status(): ClaimStatus {
      if ReproGreen? || Flaky? || RunFails? || ReplayFails? || ChangesAsked? || CounterexampleFound?
         || HighFinding? || IntegrationFails? then Contradicted
      else if BaselineElsewhere? || DirtyTree? || DiffElsewhere? || RunsElsewhere? || ReviewElsewhere?
              || IntegrationElsewhere? then Stale
      else if BaselineFails? || CrossChecked? || FlipConfirmed? || CommandsPass? || NoCounterexample?
              || IntegrationPasses? then Supported
      else Insufficient
    }

    /** The claim says what evidence is missing. */
    predicate NamesGap() {
      !NotABugfix? && Status() != Supported
    }
  }

  datatype Claim = Claim(ctype: ClaimType, core: bool, status: ClaimStatus, reason: Reason, artifactIDs: seq<string>)

  function Concluded(ctype: ClaimType, core: bool, reason: Reason, ids: seq<string>): Claim {
    Claim(ctype, core, reason.Status(), reason, ids)
  }

  function Ids(arts: seq<Artifact>): seq<string> {
    if arts == [] then [] else Ids(arts[..|arts| - 1]) + [arts[|arts| - 1].id]
  }

  predicate IsRepro(t: Task, a: Artifact) {
    if t.reproCommand != "" then a.command == t.reproCommand else !a.narrow
  }

  function Repro(t: Task, list: seq<Artifact>): seq<Artifact> {
    if list == [] then []
    else
      var n := |list| - 1;
      Repro(t, list[..n]) + if IsRepro(t, list[n]) then [list[n]] else []
  }

  predicate HasFailingTest(a: Artifact) {
    a.tests.Some? && exists tc | tc in a.tests.value :: tc.status == TestFail
  }

  /** The baseline that speaks for the task: the first failing one, else the first. */
  function Witness(repro: seq<Artifact>): Artifact
    requires repro != []
  {
    if |repro| == 1 then repro[0]
    else
      var n := |repro| - 1;
      var w := Witness(repro[..n]);
      if w.passed != Some(false) && repro[n].passed == Some(false) then repro[n] else w
  }

  function ReproducedClaim(t: Task, v: View): Claim {
    var repro := Repro(t, v.baselines);
    var core := t.kind == Bugfix;
    if !core then Concluded(ProblemReproduced, core, NotABugfix, Ids(v.baselines))
    else if repro == [] then
      if v.staleBase != [] then Concluded(ProblemReproduced, core, BaselineElsewhere, Ids(v.staleBase))
      else Concluded(ProblemReproduced, core, NoBaseline, [])
    else Concluded(ProblemReproduced, core, ReproReason(t, Witness(repro)), Ids(repro))
  }

  /** What the baseline that speaks for the task says. */
  function ReproReason(t: Task, a: Artifact): Reason {
    if a.passed == Some(true) then
      if a.tests == Some([]) then BaselineRanNothing
      else if t.reproCommand == "" then BaselineGreen else ReproGreen
    else if a.truncated then BaselineTruncated
    else if a.timedOut then BaselineTimedOut
    else if a.tests.Some? && !HasFailingTest(a) then NoFailingTest
    else BaselineFails
  }

  /** Every test that failed in `base` is reported passing in `after`. */
  predicate FailuresNowPass(base: Artifact, after: Artifact) {
    base.tests.Some? ==>
      && after.tests.Some?
      && forall tc | tc in base.tests.value && tc.status == TestFail :: TestCase(tc.name, TestPass) in after.tests.value
  }

  predicate FailedForReal(base: Artifact) {
    base.passed == Some(false) && !base.timedOut && (base.tests.Some? ==> HasFailingTest(base))
  }

  /** The same command in the same repository failed in `base` and passes in `after`. */
  predicate Confirms(base: Artifact, after: Artifact) {
    && FailedForReal(base)
    && after.command == base.command && after.repo == base.repo && after.passed == Some(true)
    && FailuresNowPass(base, after)
  }

  function FirstAfter(base: Artifact, tests: seq<Artifact>): Option<seq<string>> {
    if tests == [] then None
    else
      var n := |tests| - 1;
      var r := FirstAfter(base, tests[..n]);
      if r.None? && Confirms(base, tests[n]) then Some([base.id, tests[n].id]) else r
  }

  /** The first confirming pair in scanning order, if any. */
  function FirstFlip(bases: seq<Artifact>, tests: seq<Artifact>): Option<seq<string>> {
    if bases == [] then None
    else
      var n := |bases| - 1;
      var r := FirstFlip(bases[..n], tests);
      if r.None? then FirstAfter(bases[n], tests) else r
  }

  function RootCauseProblems(file: string, diff: Option<Artifact>, existing: Option<set<string>>, flip: bool)
    : seq<Problem>
  {
    (if file == "" then [NamesNoFile]
     else if existing.Some? && file !in existing.value then [FileMissing] else [])
    + (if file != "" && (diff.None? || file !in diff.value.files) then [FixElsewhere] else [])
    + (if !flip then [NoFlip] else [])
  }

  function RootCauseClaim(t: Task, v: View, existing: Option<set<string>>, flip: Option<seq<string>>): Claim {
    var core := t.kind == Bugfix;
    if v.rootCause.None? || v.rootCause.value.rootCause.None?
       || Text.Blank(v.rootCause.value.rootCause.value.statement) then
      Concluded(RootCauseSupported, core, NoHypothesis, [])
    else
      var problems := RootCauseProblems(v.rootCause.value.rootCause.value.file, v.diff, existing, flip.Some?);
      var ids := [v.rootCause.value.id] + (if v.diff.Some? then [v.diff.value.id] else [])
                 + (if flip.Some? then flip.value else []);
      Concluded(RootCauseSupported, core, if problems == [] then CrossChecked else NotCrossChecked(problems), ids)
  }

  predicate RunOK(a: Artifact) {
    a.passed == Some(true) && !a.timedOut
  }

  /** The string that groups repeated runs of one command. */
  function GroupKey(a: Artifact): string {
    a.repo + "|" + a.command
  }

  predicate Disagree(x: Artifact, y: Artifact) {
    GroupKey(x) == GroupKey(y) && RunOK(x) && !RunOK(y)
  }

  /** What the runs on the current state alone say against the change. */
  function RunTrouble(tests: seq<Artifact>): Option<Reason> {
    if exists x, y | x in tests && y in tests :: Disagree(x, y) then Some(Flaky)
    else if exists x | x in tests :: !RunOK(x) then Some(RunFails)
    else if exists x | x in tests :: x.truncated then Some(RunTruncated)
    else if exists x | x in tests :: x.tests == Some([]) then Some(NothingExecuted)
    else None
  }

  /** What the replay of the original tests says, when the author modified test files. */
  function ReplayTrouble(replays: seq<Artifact>): Option<Reason> {
    if replays == [] then Some(NoReplay)
    else if exists r | r in replays :: r.passed != Some(true) then Some(ReplayFails)
    else None
  }

  function ChangeClaim(t: Task, o: Source, v: View, testFiles: seq<string>, flip: Option<seq<string>>): Claim {
    if v.diff.None? || v.diff.value.files == [] then Concluded(ChangeVerified, true, NoChange, [])
    else
      var ids := [v.diff.value.id];
      if o.dirty then Concluded(ChangeVerified, true, DirtyTree, ids)
      else if !Current(o, v.diff.value) then Concluded(ChangeVerified, true, DiffElsewhere, ids)
      else if v.tests == [] then
        if v.staleRuns != [] then Concluded(ChangeVerified, true, RunsElsewhere, ids + Ids(v.staleRuns))
        else Concluded(ChangeVerified, true, NoRuns, ids)
      else
        match RunTrouble(v.tests)
        case Some(reason) => Concluded(ChangeVerified, true, reason, ids + Ids(v.tests))
        case None => ReplayedClaim(t, v, testFiles, flip, ids + Ids(v.tests))
  }

  /** Every current run is a complete pass; `ids` cites the change and those runs. */
  function ReplayedClaim(t: Task, v: View, testFiles: seq<string>, flip: Option<seq<string>>, ids: seq<string>): Claim {
    if testFiles == [] then FlippedClaim(t, v, flip, ids)
    else
      match ReplayTrouble(v.replays)
      case Some(NoReplay) => Concluded(ChangeVerified, true, NoReplay, ids)
      case Some(reason) => Concluded(ChangeVerified, true, reason, ids + Ids(v.replays))
      case None => FlippedClaim(t, v, flip, ids + Ids(v.replays))
  }

  function FlippedClaim(t: Task, v: View, flip: Option<seq<string>>, ids: seq<string>): Claim {
    if t.kind != Bugfix then Concluded(ChangeVerified, true, CommandsPass, ids)
    else if flip.Some? then Concluded(ChangeVerified, true, FlipConfirmed, ids + flip.value)
    else Concluded(ChangeVerified, true, if Repro(t, v.baselines) == [] then NoBaselineFailure else FlipIncomplete, ids)
  }

  predicate NotIndependent(v: View, review: Artifact) {
    v.diff.Some? && (v.diff.value.model == review.model || v.diff.value.model == "" || review.model == "")
  }

  function ChallengeClaim(o: Source, v: View): Claim {
    if v.review.None? then Concluded(IndependentChallenge, true, NoReview, [])
    else
      var r := v.review.value;
      var reason :=
        if !Current(o, r) then ReviewElsewhere
        else if r.verdict != Approve then ChangesAsked
        else if !Text.Blank(r.counterexample) then CounterexampleFound
        else if exists f | f in r.findings :: f.severity == "high" then HighFinding
        else if NotIndependent(v, r) then SameModel
        else if r.checked == [] then NothingChecked
        else NoCounterexample;
      Concluded(IndependentChallenge, true, reason, [r.id])
  }

  predicate NotExercised(a: Artifact) {
    a.outcome == OutcomeUnavailable || a.outcome == OutcomeTimeout || a.timedOut
  }

  /** The first run that is not a clean pass decides; None when all of them pass. */
  function FirstIntegrationTrouble(runs: seq<Artifact>): Option<Reason> {
    if runs == [] then None
    else
      var n := |runs| - 1;
      var r := FirstIntegrationTrouble(runs[..n]);
      if r.Some? then r
      else if NotExercised(runs[n]) then Some(IntegrationUnavailable)
      else if runs[n].passed != Some(true) then Some(IntegrationFails)
      else None
  }

  /** The first baseline integration run that failed, cited as a behaviour change. */
  function FailedBefore(runs: seq<Artifact>): seq<string> {
    if runs == [] then []
    else
      var n := |runs| - 1;
      var r := FailedBefore(runs[..n]);
      if r == [] && runs[n].passed == Some(false) then [runs[n].id] else r
  }

  function IntegrationClaim(configured: bool, v: View): Claim {
    if !configured then Concluded(IntegrationChecked, configured, NotConfigured, [])
    else if v.integ == [] then
      if v.integOld != [] then Concluded(IntegrationChecked, configured, IntegrationElsewhere, Ids(v.integOld))
      else Concluded(IntegrationChecked, configured, IntegrationNotRun, [])
    else
      match FirstIntegrationTrouble(v.integ)
      case Some(reason) => Concluded(IntegrationChecked, configured, reason, Ids(v.integ))
      case None => Concluded(IntegrationChecked, configured, IntegrationPasses, Ids(v.integ) + FailedBefore(v.integBase))
  }

  // ---------- change summary, gaps, risks, verdict ----------

  datatype ChangeSummary = ChangeSummary(
    files: seq<string>, testFiles: seq<string>, branch: string, commits: SHAs, author: string, diffArtifact: string)

  const NoChangeYet := ChangeSummary([], [], "", map[], "", "")

  function TestFilesOf(files: seq<string>): seq<string> {
    if files == [] then []
    else
      var n := |files| - 1;
      TestFilesOf(files[..n]) + if Text.IsTestFile(files[n]) then [files[n]] else []
  }

  function ChangeOf(v: View): ChangeSummary {
    if v.diff.None? then NoChangeYet
    else
      var d := v.diff.value;
      ChangeSummary(d.files, TestFilesOf(d.files), d.branch, d.commits, d.model, d.id)
  }

  /** The artifacts that show the reproduction failing on the base and passing now. */
  function FlipOf(t: Task, v: View): Option<seq<string>> {
    FirstFlip(Repro(t, v.baselines), v.tests)
  }

  function ClaimsOf(input: Input, v: View): seq<Claim> {
    [ReproducedClaim(input.task, v), RootCauseClaim(input.task, v, input.existing, FlipOf(input.task, v)),
     ChangeClaim(input.task, input.source, v, ChangeOf(v).testFiles, FlipOf(input.task, v)),
     ChallengeClaim(input.source, v),
     IntegrationClaim(input.integrationConfigured, v),
     Concluded(CrossServiceImpact, false, CrossServiceUnchecked, [])]
  }

  datatype Gap =
    | StaleGap(c: ClaimType) | MissingGap(c: ClaimType, reason: Reason) | NotCheckedGap(what: string)
    | IgnoredGap(count: nat) | UnobservedGap

  function ClaimGaps(claims: seq<Claim>): seq<Gap> {
    if claims == [] then []
    else
      var c := claims[|claims| - 1];
      ClaimGaps(claims[..|claims| - 1])
      + if c.status == Stale then [StaleGap(c.ctype)]
        else if c.status == Insufficient && c.reason.NamesGap() then [MissingGap(c.ctype, c.reason)]
        else []
  }

  function Contradictions(claims: seq<Claim>): seq<ClaimType> {
    if claims == [] then []
    else
      var c := claims[|claims| - 1];
      Contradictions(claims[..|claims| - 1]) + if c.status == Contradicted || c.status == Blocked then [c.ctype] else []
  }

  function NotCheckedGaps(what: seq<string>): seq<Gap> {
    seq(|what|, i requires 0 <= i < |what| => NotCheckedGap(what[i]))
  }

  function EvidenceGaps(o: Source, v: View): seq<Gap> {
    if v.review.Some? && Current(o, v.review.value) then NotCheckedGaps(v.review.value.notChecked) else []
  }

  function GapsOf(o: Source, v: View, claims: seq<Claim>): seq<Gap> {
    ClaimGaps(claims) + EvidenceGaps(o, v)
    + (if v.ignored > 0 then [IgnoredGap(v.ignored)] else [])
    + (if o.unknown then [UnobservedGap] else [])
  }

  datatype RiskText = FindingText(issue: string, file: string) | CounterexampleText(text: string)
                    | ModifiedTests(files: seq<string>) | NeededDecision(question: string, chosen: string)
                    | AgentReported(text: string)
  datatype Risk = Risk(severity: string, text: RiskText)

  function FindingRisks(fs: seq<Finding>): seq<Risk> {
    seq(|fs|, i requires 0 <= i < |fs| => Risk(fs[i].severity, FindingText(fs[i].issue, fs[i].file)))
  }

  function DecisionRisks(ds: seq<Decision>): seq<Risk> {
    if ds == [] then []
    else
      var d := ds[|ds| - 1];
      DecisionRisks(ds[..|ds| - 1]) + if d.resolved then [Risk("medium", NeededDecision(d.question, d.chosen))] else []
  }

  function ReportedRisks(es: seq<Evidence>): seq<Risk> {
    if es == [] then []
    else
      var e := es[|es| - 1];
      ReportedRisks(es[..|es| - 1])
      + if e.inspection
        then seq(|e.riskLines|, i requires 0 <= i < |e.riskLines| => Risk("unknown", AgentReported(e.riskLines[i])))
        else []
  }

  /** Any severity the table does not list ranks with "high". */
  function SeverityRank(s: string): nat {
    if s == "medium" then 1 else if s == "low" then 2 else if s == "unknown" then 3 else 0
  }

  function OfRank(rs: seq<Risk>, k: nat): seq<Risk> {
    if rs == [] then []
    else
      var n := |rs| - 1;
      OfRank(rs[..n], k) + if SeverityRank(rs[n].severity) == k then [rs[n]] else []
  }

  /** The stable sort by severity. */
  function BySeverity(rs: seq<Risk>): seq<Risk> {
    OfRank(rs, 0) + OfRank(rs, 1) + OfRank(rs, 2) + OfRank(rs, 3)
  }

  function ReviewRisks(v: View): seq<Risk> {
    if v.review.None? then []
    else
      FindingRisks(v.review.value.findings)
      + if Text.Blank(v.review.value.counterexample) then []
        else [Risk("high", CounterexampleText(v.review.value.counterexample))]
  }

  function UnsortedRisks(input: Input, v: View, testFiles: seq<string>): seq<Risk> {
    ReviewRisks(v)
    + (if testFiles != [] then [Risk("medium", ModifiedTests(testFiles))] else [])
    + DecisionRisks(input.decisions) + ReportedRisks(input.evidence)
  }

  function VerdictOf(status: TaskStatus, claims: seq<Claim>): ClaimStatus {
    if status == Failed then Blocked
    else if exists c | c in claims :: c.core && (c.status == Contradicted || c.status == Blocked) then Blocked
    else if exists c | c in claims :: c.core && c.status == Stale then Stale
    else if status != Done then Insufficient
    else if exists c | c in claims :: c.core && c.status == Insufficient then Insufficient
    else Supported
  }

  function Strongest(es: seq<Evidence>): nat {
    if es == [] then 1
    else
      var b := Strongest(es[..|es| - 1]);
      if es[|es| - 1].rank > b then es[|es| - 1].rank else b
  }

  datatype Packet = Packet(
    taskID: string, taskStatus: TaskStatus, base: SHAs, head: SHAs, dirty: bool,
    change: ChangeSummary, claims: seq<Claim>, contradictions: seq<ClaimType>,
    gaps: seq<Gap>, risks: seq<Risk>, verdict: ClaimStatus, confidence: nat)

  function PacketFrom(input: Input, v: View, change: ChangeSummary, claims: seq<Claim>): Packet {
    Packet(
      input.task.id, input.task.status, input.task.baseSHAs, input.source.shas, input.source.dirty,
      change, claims, Contradictions(claims),
      GapsOf(input.source, v, claims), BySeverity(UnsortedRisks(input, v, change.testFiles)),
      VerdictOf(input.task.status, claims), Strongest(input.evidence))
  }

  function PacketOf(input: Input): Packet {
    var v := Index(input.task, input.source, input.artifacts);
    PacketFrom(input, v, ChangeOf(v), ClaimsOf(input, v))
  }
}
