/** The packet builder as the program runs it: one pass that files every artifact, then
    one method per claim. Each method is proved against the function of `ProofSpec` that
    says what it must conclude. */
module ProofBuilder {
  import opened Domain
  import opened ProofSpec
  import Text

  class Builder {
    const input: Input
    var v: View
    var change: ChangeSummary

    constructor (input: Input)
      ensures this.input == input && v == EmptyView && change == NoChangeYet
    {
      this.input := input;
      v := EmptyView;
      change := NoChangeYet;
    }

    ghost predicate Indexed()
      reads this
    {
      v == Index(input.task, input.source, input.artifacts)
    }

    /** Files every artifact of the log into the view, in log order. */
    method FileArtifacts()
      requires v == EmptyView
      modifies this`v
      ensures Indexed()
    {
      ghost var log := Tagged(input.task, input.source, input.artifacts);
      for i := 0 to |input.artifacts|
        invariant v == FiledAll(log[..i])
      {
        FileOne(Normalized(input.artifacts[i]));
        assert log[..i + 1][..i] == log[..i];
      }
      assert log[..|log|] == log;
      FiledAllIsView(log);
    }

    method FileOne(a: Artifact)
      modifies this`v
      ensures v == Filed(old(v), Entry(SlotOf(input.task, input.source, a), a))
    {
      var t, o := input.task, input.source;
      if !Own(t, a) {
        v := v.(ignored := v.ignored + 1);
        return;
      }
      match a.kind
      case BaselineRun =>
        if OnBase(t, a) { v := v.(baselines := v.baselines + [a]); }
        else { v := v.(staleBase := v.staleBase + [a]); }
      case TestRun =>
        if Current(o, a) { v := v.(tests := v.tests + [a]); }
        else { v := v.(staleRuns := v.staleRuns + [a]); }
      case OriginalTestsRun =>
        if Current(o, a) { v := v.(replays := v.replays + [a]); }
      case IntegrationRun =>
        if Current(o, a) { v := v.(integ := v.integ + [a]); }
        else if OnBase(t, a) { v := v.(integBase := v.integBase + [a]); }
        else { v := v.(integOld := v.integOld + [a]); }
      case Diff => v := v.(diff := Some(a));
      case Review => v := v.(review := Some(a));
      case RootCause => v := v.(rootCause := Some(a));
      case OtherKind =>
    }

    /** Summarises the change of the last diff artifact. */
    method SummariseChange()
      requires change == NoChangeYet
      modifies this`change
      ensures change == ChangeOf(v)
    {
      if v.diff.None? { return; }
      var d := v.diff.value;
      var testFiles := TestFilesIn(d.files);
      change := ChangeSummary(d.files, testFiles, d.branch, d.commits, d.model, d.id);
    }

    method TestFilesIn(files: seq<string>) returns (out: seq<string>)
      ensures out == TestFilesOf(files)
    {
      out := [];
      for i := 0 to |files|
        invariant out == TestFilesOf(files[..i])
      {
        assert files[..i + 1][..i] == files[..i];
        if Text.IsTestFile(files[i]) { out := out + [files[i]]; }
      }
      assert files[..|files|] == files;
    }

    method IdsOf(arts: seq<Artifact>) returns (out: seq<string>)
      ensures out == Ids(arts)
    {
      out := [];
      for i := 0 to |arts|
        invariant out == Ids(arts[..i])
      {
        assert arts[..i + 1][..i] == arts[..i];
        out := out + [arts[i].id];
      }
      assert arts[..|arts|] == arts;
    }

    method ReproArtifacts(list: seq<Artifact>) returns (out: seq<Artifact>)
      ensures out == Repro(input.task, list)
    {
      out := [];
      for i := 0 to |list|
        invariant out == Repro(input.task, list[..i])
      {
        assert list[..i + 1][..i] == list[..i];
        if input.task.reproCommand != "" {
          if list[i].command == input.task.reproCommand { out := out + [list[i]]; }
        } else if !list[i].narrow {
          out := out + [list[i]];
        }
      }
      assert list[..|list|] == list;
    }

    method ClaimReproduced() returns (c: Claim)
      ensures c == ReproducedClaim(input.task, v)
    {
      var core := input.task.kind == Bugfix;
      if !core {
        var all := IdsOf(v.baselines);
        return Concluded(ProblemReproduced, core, NotABugfix, all);
      }
      var repro := ReproArtifacts(v.baselines);
      if |repro| == 0 {
        if |v.staleBase| > 0 {
          var stale := IdsOf(v.staleBase);
          return Concluded(ProblemReproduced, core, BaselineElsewhere, stale);
        }
        return Concluded(ProblemReproduced, core, NoBaseline, []);
      }
      var ids := IdsOf(repro);
      var a := FindWitness(repro);
      if a.passed == Some(true) && a.tests == Some([]) {
        return Concluded(ProblemReproduced, core, BaselineRanNothing, ids);
      }
      if a.passed == Some(true) {
        if input.task.reproCommand == "" {
          return Concluded(ProblemReproduced, core, BaselineGreen, ids);
        }
        return Concluded(ProblemReproduced, core, ReproGreen, ids);
      }
      if a.truncated { return Concluded(ProblemReproduced, core, BaselineTruncated, ids); }
      if a.timedOut { return Concluded(ProblemReproduced, core, BaselineTimedOut, ids); }
      if a.tests.Some? {
        var failed := TestsWith(a.tests.value, TestFail);
        if |failed| == 0 {
          return Concluded(ProblemReproduced, core, NoFailingTest, ids);
        }
      }
      return Concluded(ProblemReproduced, core, BaselineFails, ids);
    }

    method FindWitness(repro: seq<Artifact>) returns (a: Artifact)
      requires repro != []
      ensures a == Witness(repro)
    {
      a := repro[0];
      for i := 0 to |repro|
        invariant a == repro[0]
        invariant forall j | 0 <= j < i :: repro[j].passed != Some(false)
      {
        if repro[i].passed == Some(false) {
          WitnessIsFirstFailing(repro, i);
          return repro[i];
        }
      }
      WitnessOfGreen(repro);
    }

    method TestsWith(tests: seq<TestCase>, status: TestStatus) returns (names: seq<string>)
      ensures forall n :: n in names <==> exists tc | tc in tests :: tc.name == n && tc.status == status
      ensures names == [] <==> forall tc | tc in tests :: tc.status != status
    {
      names := [];
      for i := 0 to |tests|
        invariant forall n :: n in names <==> exists tc | tc in tests[..i] :: tc.name == n && tc.status == status
        invariant names == [] <==> forall tc | tc in tests[..i] :: tc.status != status
      {
        assert tests[..i + 1] == tests[..i] + [tests[i]];
        if tests[i].status == status { names := names + [tests[i].name]; }
      }
      assert tests[..|tests|] == tests;
    }

    method AllPassedNow(failedBefore: seq<string>, after: Option<seq<TestCase>>) returns (ok: bool)
      ensures ok <==> after.Some? && forall n | n in failedBefore :: TestCase(n, TestPass) in after.value
    {
      if after.None? { return false; }
      for i := 0 to |failedBefore|
        invariant forall n | n in failedBefore[..i] :: TestCase(n, TestPass) in after.value
      {
        var found := false;
        for j := 0 to |after.value|
          invariant found <==> TestCase(failedBefore[i], TestPass) in after.value[..j]
        {
          if after.value[j].name == failedBefore[i] && after.value[j].status == TestPass { found := true; }
        }
        if !found { return false; }
      }
      return true;
    }

    method BaselineFailedThenPassed() returns (flip: Option<seq<string>>)
      ensures flip == FlipOf(input.task, v)
    {
      var bases := ReproArtifacts(v.baselines);
      for i := 0 to |bases|
        invariant FirstFlip(bases[..i], v.tests).None?
      {
        assert bases[..i + 1][..i] == bases[..i];
        flip := PassedAfter(bases[i]);
        if flip.Some? {
          FirstFlipExtends(bases, v.tests, i + 1);
          return;
        }
      }
      assert bases[..|bases|] == bases;
      flip := None;
    }

    method PassedAfter(base: Artifact) returns (r: Option<seq<string>>)
      ensures r == FirstAfter(base, v.tests)
    {
      var eligible := !(base.passed.None? || base.passed.value || base.timedOut);
      var failed := [];
      if base.tests.Some? {
        failed := TestsWith(base.tests.value, TestFail);
        if |failed| == 0 { eligible := false; }
      }
      assert eligible <==> FailedForReal(base);
      for j := 0 to |v.tests|
        invariant FirstAfter(base, v.tests[..j]).None?
      {
        assert v.tests[..j + 1][..j] == v.tests[..j];
        var after := v.tests[j];
        if eligible && after.command == base.command && after.repo == base.repo && after.passed == Some(true) {
          var all := true;
          if base.tests.Some? { all := AllPassedNow(failed, after.tests); }
          assert all <==> FailuresNowPass(base, after) by {
            if base.tests.Some? {
              assert forall tc | tc in base.tests.value && tc.status == TestFail :: tc.name in failed;
            }
          }
          if all {
            FirstAfterExtends(base, v.tests, j + 1);
            return Some([base.id, after.id]);
          }
        }
      }
      assert v.tests[..|v.tests|] == v.tests;
      r := None;
    }

    method ClaimRootCause(flip: Option<seq<string>>) returns (c: Claim)
      ensures c == RootCauseClaim(input.task, v, input.existing, flip)
    {
      var core := input.task.kind == Bugfix;
      if v.rootCause.None? || v.rootCause.value.rootCause.None?
         || Text.Blank(v.rootCause.value.rootCause.value.statement) {
        return Concluded(RootCauseSupported, core, NoHypothesis, []);
      }
      var problems := FindProblems(v.rootCause.value.rootCause.value.file, flip.Some?);
      var ids := [v.rootCause.value.id] + (if v.diff.Some? then [v.diff.value.id] else [])
                 + (if flip.Some? then flip.value else []);
      if |problems| == 0 { return Concluded(RootCauseSupported, core, CrossChecked, ids); }
      return Concluded(RootCauseSupported, core, NotCrossChecked(problems), ids);
    }

    method FindProblems(file: string, flip: bool) returns (problems: seq<Problem>)
      ensures problems == RootCauseProblems(file, v.diff, input.existing, flip)
    {
      problems := [];
      if file == "" {
        problems := problems + [NamesNoFile];
      } else if input.existing.Some? && file !in input.existing.value {
        problems := problems + [FileMissing];
      }
      var touched := false;
      if v.diff.Some? {
        var files := v.diff.value.files;
        for i := 0 to |files|
          invariant touched <==> exists j | 0 <= j < i :: files[j] == file
        {
          if files[i] == file { touched := true; }
        }
      }
      if file != "" && !touched { problems := problems + [FixElsewhere]; }
      if !flip { problems := problems + [NoFlip]; }
    }

    /** Groups the current runs by command and scans the groups in whatever order the
        map yields them: the two answers do not depend on that order. */
    method CompareRuns() returns (flaky: bool, failing: bool)
      ensures flaky <==> exists x, y | x in v.tests && y in v.tests :: Disagree(x, y)
      ensures failing <==> exists x | x in v.tests :: !RunOK(x)
    {
      var byCmd: map<string, seq<Artifact>> := map[];
      for i := 0 to |v.tests|
        invariant forall k, a | k in byCmd && a in byCmd[k] :: a in v.tests && GroupKey(a) == k
        invariant forall a | a in v.tests[..i] :: GroupKey(a) in byCmd && a in byCmd[GroupKey(a)]
      {
        var k := GroupKey(v.tests[i]);
        byCmd := byCmd[k := (if k in byCmd then byCmd[k] else []) + [v.tests[i]]];
      }
      flaky, failing := false, false;
      var todo := byCmd.Keys;
      while todo != {}
        invariant todo <= byCmd.Keys
        invariant failing <==> exists x | x in v.tests && GroupKey(x) !in todo :: !RunOK(x)
        invariant flaky <==> exists x, y | x in v.tests && y in v.tests && GroupKey(x) !in todo :: Disagree(x, y)
      {
        var k :| k in todo;
        var passes, fails := CountRuns(byCmd[k]);
        if fails > 0 { failing := true; }
        if passes > 0 && fails > 0 {
          ghost var x :| x in byCmd[k] && RunOK(x);
          ghost var y :| y in byCmd[k] && !RunOK(y);
          assert Disagree(x, y);
          flaky := true;
        }
        todo := todo - {k};
      }
    }

    method CountRuns(group: seq<Artifact>) returns (passes: nat, fails: nat)
      ensures passes > 0 <==> exists x | x in group :: RunOK(x)
      ensures fails > 0 <==> exists x | x in group :: !RunOK(x)
      ensures passes + fails == |group|
    {
      passes, fails := 0, 0;
      for i := 0 to |group|
        invariant passes > 0 <==> exists j | 0 <= j < i :: RunOK(group[j])
        invariant fails > 0 <==> exists j | 0 <= j < i :: !RunOK(group[j])
        invariant passes + fails == i
      {
        var ok := group[i].passed == Some(true) && !group[i].timedOut;
        assert ok == RunOK(group[i]);
        if ok { passes := passes + 1; } else { fails := fails + 1; }
      }
    }

    /** Failure and disagreement first, then completeness, then whether anything ran. */
    method FindRunTrouble() returns (r: Option<Reason>)
      ensures r == RunTrouble(v.tests)
    {
      var flaky, failing := CompareRuns();
      if flaky { return Some(Flaky); }
      if failing { return Some(RunFails); }
      for i := 0 to |v.tests|
        invariant forall j | 0 <= j < i :: !v.tests[j].truncated
      {
        if v.tests[i].truncated { return Some(RunTruncated); }
      }
      for i := 0 to |v.tests|
        invariant forall j | 0 <= j < i :: v.tests[j].tests != Some([])
      {
        if v.tests[i].tests.Some? && |v.tests[i].tests.value| == 0 { return Some(NothingExecuted); }
      }
      return None;
    }

    method ClaimChangeVerified(flip: Option<seq<string>>) returns (c: Claim)
      ensures c == ChangeClaim(input.task, input.source, v, change.testFiles, flip)
    {
      if v.diff.None? || |v.diff.value.files| == 0 {
        return Concluded(ChangeVerified, true, NoChange, []);
      }
      var ids := [v.diff.value.id];
      if input.source.dirty { return Concluded(ChangeVerified, true, DirtyTree, ids); }
      if !Current(input.source, v.diff.value) { return Concluded(ChangeVerified, true, DiffElsewhere, ids); }
      if |v.tests| == 0 {
        if |v.staleRuns| > 0 {
          var stale := IdsOf(v.staleRuns);
          return Concluded(ChangeVerified, true, RunsElsewhere, ids + stale);
        }
        return Concluded(ChangeVerified, true, NoRuns, ids);
      }
      var runs := IdsOf(v.tests);
      var trouble := FindRunTrouble();
      if trouble.Some? { return Concluded(ChangeVerified, true, trouble.value, ids + runs); }
      c := JudgeReplays(flip, ids + runs);
    }

    method JudgeReplays(flip: Option<seq<string>>, cited: seq<string>) returns (c: Claim)
      ensures c == ReplayedClaim(input.task, v, change.testFiles, flip, cited)
    {
      var ids := cited;
      if |change.testFiles| > 0 {
        if |v.replays| == 0 { return Concluded(ChangeVerified, true, NoReplay, ids); }
        var replays := IdsOf(v.replays);
        ids := ids + replays;
        for i := 0 to |v.replays|
          invariant forall j | 0 <= j < i :: v.replays[j].passed == Some(true)
        {
          if v.replays[i].passed.None? || !v.replays[i].passed.value {
            return Concluded(ChangeVerified, true, ReplayFails, ids);
          }
        }
      }
      c := JudgeFlip(flip, ids);
    }

    method JudgeFlip(flip: Option<seq<string>>, ids: seq<string>) returns (c: Claim)
      ensures c == FlippedClaim(input.task, v, flip, ids)
    {
      if input.task.kind == Bugfix {
        if flip.Some? { return Concluded(ChangeVerified, true, FlipConfirmed, ids + flip.value); }
        var repro := ReproArtifacts(v.baselines);
        return Concluded(ChangeVerified, true, if |repro| == 0 then NoBaselineFailure else FlipIncomplete, ids);
      }
      return Concluded(ChangeVerified, true, CommandsPass, ids);
    }

    method ClaimChallenge() returns (c: Claim)
      ensures c == ChallengeClaim(input.source, v)
    {
      if v.review.None? { return Concluded(IndependentChallenge, true, NoReview, []); }
      var r := v.review.value;
      if !Current(input.source, r) { return Concluded(IndependentChallenge, true, ReviewElsewhere, [r.id]); }
      var high := 0;
      for i := 0 to |r.findings|
        invariant 0 <= high && (high > 0 <==> exists f | f in r.findings[..i] :: f.severity == "high")
      {
        assert r.findings[..i + 1] == r.findings[..i] + [r.findings[i]];
        if r.findings[i].severity == "high" { high := high + 1; }
      }
      assert r.findings[..|r.findings|] == r.findings;
      var sameModel := v.diff.Some? && (v.diff.value.model == r.model || v.diff.value.model == "" || r.model == "");
      var reason :=
        if r.verdict != Approve then ChangesAsked
        else if !Text.Blank(r.counterexample) then CounterexampleFound
        else if high > 0 then HighFinding
        else if sameModel then SameModel
        else if |r.checked| == 0 then NothingChecked
        else NoCounterexample;
      return Concluded(IndependentChallenge, true, reason, [r.id]);
    }

    method ClaimIntegration() returns (c: Claim)
      ensures c == IntegrationClaim(input.integrationConfigured, v)
    {
      var core := input.integrationConfigured;
      if !core { return Concluded(IntegrationChecked, core, NotConfigured, []); }
      if |v.integ| == 0 {
        if |v.integOld| > 0 {
          var old_ := IdsOf(v.integOld);
          return Concluded(IntegrationChecked, core, IntegrationElsewhere, old_);
        }
        return Concluded(IntegrationChecked, core, IntegrationNotRun, []);
      }
      var ids := IdsOf(v.integ);
      for i := 0 to |v.integ|
        invariant FirstIntegrationTrouble(v.integ[..i]).None?
      {
        assert v.integ[..i + 1][..i] == v.integ[..i];
        var a := v.integ[i];
        if a.outcome == OutcomeUnavailable || a.outcome == OutcomeTimeout || a.timedOut {
          TroubleExtends(v.integ, i + 1);
          return Concluded(IntegrationChecked, core, IntegrationUnavailable, ids);
        }
        if a.passed.None? || !a.passed.value {
          TroubleExtends(v.integ, i + 1);
          return Concluded(IntegrationChecked, core, IntegrationFails, ids);
        }
      }
      assert v.integ[..|v.integ|] == v.integ;
      for i := 0 to |v.integBase|
        invariant FailedBefore(v.integBase[..i]) == []
      {
        assert v.integBase[..i + 1][..i] == v.integBase[..i];
        if v.integBase[i].passed == Some(false) {
          FailedBeforeExtends(v.integBase, i + 1);
          return Concluded(IntegrationChecked, core, IntegrationPasses, ids + [v.integBase[i].id]);
        }
      }
      assert v.integBase[..|v.integBase|] == v.integBase;
      return Concluded(IntegrationChecked, core, IntegrationPasses, ids);
    }

    method Claims() returns (claims: seq<Claim>)
      requires change == ChangeOf(v)
      ensures claims == ClaimsOf(input, v)
    {
      var reproduced := ClaimReproduced();
      var flip := BaselineFailedThenPassed();
      var rootCause := ClaimRootCause(flip);
      var changed := ClaimChangeVerified(flip);
      var challenge := ClaimChallenge();
      var integration := ClaimIntegration();
      claims := [reproduced, rootCause, changed, challenge, integration,
                 Concluded(CrossServiceImpact, false, CrossServiceUnchecked, [])];
    }

    method GapsAndContradictions(claims: seq<Claim>) returns (gaps: seq<Gap>, contradictions: seq<ClaimType>)
      ensures gaps == GapsOf(input.source, v, claims) && contradictions == Contradictions(claims)
    {
      gaps, contradictions := SortClaims(claims);
      if v.review.Some? && Current(input.source, v.review.value) {
        gaps := AddNotChecked(gaps, v.review.value.notChecked);
      }
      if v.ignored > 0 { gaps := gaps + [IgnoredGap(v.ignored)]; }
      if input.source.unknown { gaps := gaps + [UnobservedGap]; }
    }

    method SortClaims(claims: seq<Claim>) returns (gaps: seq<Gap>, contradictions: seq<ClaimType>)
      ensures gaps == ClaimGaps(claims) && contradictions == Contradictions(claims)
    {
      gaps, contradictions := [], [];
      for i := 0 to |claims|
        invariant gaps == ClaimGaps(claims[..i]) && contradictions == Contradictions(claims[..i])
      {
        assert claims[..i + 1][..i] == claims[..i];
        match claims[i].status
        case Contradicted => contradictions := contradictions + [claims[i].ctype];
        case Blocked => contradictions := contradictions + [claims[i].ctype];
        case Stale => gaps := gaps + [StaleGap(claims[i].ctype)];
        case Insufficient =>
          if claims[i].reason.NamesGap() { gaps := gaps + [MissingGap(claims[i].ctype, claims[i].reason)]; }
        case Supported =>
      }
      assert claims[..|claims|] == claims;
    }

    method AddNotChecked(gaps: seq<Gap>, nc: seq<string>) returns (all: seq<Gap>)
      ensures all == gaps + NotCheckedGaps(nc)
    {
      all := gaps;
      for i := 0 to |nc|
        invariant all == gaps + NotCheckedGaps(nc[..i])
      {
        assert NotCheckedGaps(nc[..i + 1]) == NotCheckedGaps(nc[..i]) + [NotCheckedGap(nc[i])];
        all := all + [NotCheckedGap(nc[i])];
      }
      assert nc[..|nc|] == nc;
    }

    method CollectRisks() returns (risks: seq<Risk>)
      ensures risks == BySeverity(UnsortedRisks(input, v, change.testFiles))
    {
      risks := [];
      if v.review.Some? {
        risks := FindingRisks(v.review.value.findings);
        if !Text.Blank(v.review.value.counterexample) {
          risks := risks + [Risk("high", CounterexampleText(v.review.value.counterexample))];
        }
      }
      assert risks == ReviewRisks(v);
      if |change.testFiles| > 0 { risks := risks + [Risk("medium", ModifiedTests(change.testFiles))]; }
      ghost var soFar := risks;
      for i := 0 to |input.decisions|
        invariant risks == soFar + DecisionRisks(input.decisions[..i])
      {
        assert input.decisions[..i + 1][..i] == input.decisions[..i];
        var d := input.decisions[i];
        if d.resolved { risks := risks + [Risk("medium", NeededDecision(d.question, d.chosen))]; }
      }
      assert input.decisions[..|input.decisions|] == input.decisions;
      risks := BySeverity(risks + ReportedRisks(input.evidence));
    }

    method Confidence() returns (best: nat)
      ensures best == Strongest(input.evidence)
    {
      best := 1;
      for i := 0 to |input.evidence|
        invariant best == Strongest(input.evidence[..i])
      {
        assert input.evidence[..i + 1][..i] == input.evidence[..i];
        if input.evidence[i].rank > best { best := input.evidence[i].rank; }
      }
      assert input.evidence[..|input.evidence|] == input.evidence;
    }

    method Verdict(claims: seq<Claim>) returns (verdict: ClaimStatus)
      ensures verdict == VerdictOf(input.task.status, claims)
    {
      if input.task.status == Failed { return Blocked; }
      var notSupported, stale := 0, 0;
      for i := 0 to |claims|
        invariant 0 <= stale && 0 <= notSupported
        invariant forall c | c in claims[..i] :: c.core ==> c.status != Contradicted && c.status != Blocked
        invariant stale > 0 <==> exists c | c in claims[..i] :: c.core && c.status == Stale
        invariant notSupported > 0 <==> exists c | c in claims[..i] :: c.core && c.status == Insufficient
      {
        assert claims[..i + 1] == claims[..i] + [claims[i]];
        if !claims[i].core { continue; }
        match claims[i].status
        case Contradicted => return Blocked;
        case Blocked => return Blocked;
        case Stale => stale := stale + 1;
        case Insufficient => notSupported := notSupported + 1;
        case Supported =>
      }
      assert claims[..|claims|] == claims;
      if stale > 0 { return Stale; }
      if input.task.status != Done { return Insufficient; }
      if notSupported > 0 { return Insufficient; }
      return Supported;
    }
  }

  /** Builds the packet of an input, whatever order the command groups are visited in. */
  method Build(input: Input) returns (p: Packet)
    ensures p == PacketOf(input)
  {
    var b := new Builder(input);
    b.FileArtifacts();
    b.SummariseChange();
    var claims := b.Claims();
    var gaps, contradictions := b.GapsAndContradictions(claims);
    var risks := b.CollectRisks();
    var verdict := b.Verdict(claims);
    var best := b.Confidence();
    p := Packet(input.task.id, input.task.status, input.task.baseSHAs, input.source.shas, input.source.dirty,
                b.change, claims, contradictions, gaps, risks, verdict, best);
  }

  // ---------- filing one more artifact ----------

  function Filed(v: View, e: Entry): View {
    var a := e.artifact;
    match e.slot
    case Foreign => v.(ignored := v.ignored + 1)
    case Baselines => v.(baselines := v.baselines + [a])
    case StaleBase => v.(staleBase := v.staleBase + [a])
    case Tests => v.(tests := v.tests + [a])
    case StaleRuns => v.(staleRuns := v.staleRuns + [a])
    case Replays => v.(replays := v.replays + [a])
    case Integ => v.(integ := v.integ + [a])
    case IntegBase => v.(integBase := v.integBase + [a])
    case IntegOld => v.(integOld := v.integOld + [a])
    case Diffs => v.(diff := Some(a))
    case Reviews => v.(review := Some(a))
    case RootCauses => v.(rootCause := Some(a))
    case NoSlot => v
  }

  const EmptyView := View(0, [], [], [], [], [], [], [], [], None, None, None)

  function FiledAll(log: seq<Entry>): View {
    if log == [] then EmptyView else Filed(FiledAll(log[..|log| - 1]), log[|log| - 1])
  }

  lemma {:induction false} FiledAllIsView(log: seq<Entry>)
    ensures FiledAll(log) == ViewOf(log)
  {
    if log != [] {
      var n := |log| - 1;
      FiledAllIsView(log[..n]);
      ViewStep(log[..n], log[n]);
      assert log[..n] + [log[n]] == log;
    }
  }

  lemma RunsStep(log: seq<Entry>, e: Entry)
    ensures var v, w := ViewOf(log + [e]), Filed(ViewOf(log), e);
      && v.ignored == w.ignored && v.baselines == w.baselines && v.staleBase == w.staleBase
      && v.tests == w.tests && v.staleRuns == w.staleRuns && v.replays == w.replays
  {
    PickStep(log, e, Foreign);
    PickStep(log, e, Baselines);
    PickStep(log, e, StaleBase);
    PickStep(log, e, Tests);
    PickStep(log, e, StaleRuns);
    PickStep(log, e, Replays);
  }

  lemma ChecksStep(log: seq<Entry>, e: Entry)
    ensures var v, w := ViewOf(log + [e]), Filed(ViewOf(log), e);
      && v.integ == w.integ && v.integBase == w.integBase && v.integOld == w.integOld
      && v.diff == w.diff && v.review == w.review && v.rootCause == w.rootCause
  {
    PickStep(log, e, Integ);
    PickStep(log, e, IntegBase);
    PickStep(log, e, IntegOld);
    PickStep(log, e, Diffs);
    PickStep(log, e, Reviews);
    PickStep(log, e, RootCauses);
  }

  lemma ViewStep(log: seq<Entry>, e: Entry)
    ensures ViewOf(log + [e]) == Filed(ViewOf(log), e)
  {
    RunsStep(log, e);
    ChecksStep(log, e);
  }

  // ---------- scanning forward finds what the specification names ----------

  lemma {:induction false} WitnessOfGreen(repro: seq<Artifact>)
    requires repro != [] && forall j | 0 <= j < |repro| :: repro[j].passed != Some(false)
    ensures Witness(repro) == repro[0]
  {
    if |repro| > 1 { WitnessOfGreen(repro[..|repro| - 1]); }
  }

  lemma {:induction false} WitnessIsFirstFailing(repro: seq<Artifact>, i: nat)
    requires i < |repro| && repro[i].passed == Some(false)
    requires forall j | 0 <= j < i :: repro[j].passed != Some(false)
    ensures Witness(repro) == repro[i]
  {
    var n := |repro| - 1;
    if n == 0 {
    } else if i == n {
      WitnessOfGreen(repro[..n]);
    } else {
      WitnessIsFirstFailing(repro[..n], i);
    }
  }

  lemma {:induction false} FirstAfterExtends(base: Artifact, tests: seq<Artifact>, i: nat)
    requires i <= |tests| && FirstAfter(base, tests[..i]).Some?
    ensures FirstAfter(base, tests) == FirstAfter(base, tests[..i])
  {
    if i < |tests| {
      var n := |tests| - 1;
      assert tests[..n][..i] == tests[..i];
      FirstAfterExtends(base, tests[..n], i);
    } else {
      assert tests[..i] == tests;
    }
  }

  lemma {:induction false} FirstFlipExtends(bases: seq<Artifact>, tests: seq<Artifact>, i: nat)
    requires i <= |bases| && FirstFlip(bases[..i], tests).Some?
    ensures FirstFlip(bases, tests) == FirstFlip(bases[..i], tests)
  {
    if i < |bases| {
      var n := |bases| - 1;
      assert bases[..n][..i] == bases[..i];
      FirstFlipExtends(bases[..n], tests, i);
    } else {
      assert bases[..i] == bases;
    }
  }

  lemma {:induction false} TroubleExtends(runs: seq<Artifact>, i: nat)
    requires i <= |runs| && FirstIntegrationTrouble(runs[..i]).Some?
    ensures FirstIntegrationTrouble(runs) == FirstIntegrationTrouble(runs[..i])
  {
    if i < |runs| {
      var n := |runs| - 1;
      assert runs[..n][..i] == runs[..i];
      TroubleExtends(runs[..n], i);
    } else {
      assert runs[..i] == runs;
    }
  }

  lemma {:induction false} FailedBeforeExtends(runs: seq<Artifact>, i: nat)
    requires i <= |runs| && FailedBefore(runs[..i]) != []
    ensures FailedBefore(runs) == FailedBefore(runs[..i])
  {
    if i < |runs| {
      var n := |runs| - 1;
      assert runs[..n][..i] == runs[..i];
      FailedBeforeExtends(runs[..n], i);
    } else {
      assert runs[..i] == runs;
    }
  }
}
