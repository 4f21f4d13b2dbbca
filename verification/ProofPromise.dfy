/** What SUPPORTED promises, told over nothing but the fields of the task, the artifacts and
    the source state: no judgement of the builder or of its policies is used. */
module ProofPromise {
  import opened Domain
  import opened ProofSpec
  import opened ProofPolicy
  import opened ProofTheorems
  import Text

  // ---------- which artifacts count ----------

  /** Of this task, and from its worktree as far as either names one. */
  predicate Mine(t: Task, x: Artifact) {
    x.taskID == t.id && (x.worktreeRoot == "" || t.worktreeRoot == "" || x.worktreeRoot == t.worktreeRoot)
  }

  /** As many repositories, each at the same head; a blank one also matches a missing one. */
  predicate SameHeads(seen: SHAs, asked: SHAs) {
    && seen != map[] && |seen| == |asked|
    && forall k | k in seen :: if k in asked then asked[k] == seen[k] else seen[k] == ""
  }

  predicate SeenNow(o: Source, x: Artifact) {
    SameHeads(x.sourceSHAs, o.shas) && !x.sourceDirty && !o.dirty && !o.unknown
  }

  predicate SeenOnBase(t: Task, x: Artifact) {
    SameHeads(x.sourceSHAs, t.baseSHAs) && !x.sourceDirty
  }

  predicate Reproduces(t: Task, x: Artifact) {
    if t.reproCommand == "" then !x.narrow else x.command == t.reproCommand
  }

  /** Recorded for the task in a run of this kind on the code as it is. */
  ghost predicate Counted(input: Input, kind: ArtifactKind, x: Artifact) {
    x in input.artifacts && Mine(input.task, x) && x.kind == kind && SeenNow(input.source, x)
  }

  /** The last artifact of the kind the task has recorded. */
  ghost predicate LastFiled(input: Input, kind: ArtifactKind, i: nat) {
    && i < |input.artifacts| && Mine(input.task, input.artifacts[i]) && input.artifacts[i].kind == kind
    && forall j | i < j < |input.artifacts| :: !(Mine(input.task, input.artifacts[j]) && input.artifacts[j].kind == kind)
  }

  // ---------- what they must say ----------

  /** The runner says which tests ran, if only that none did. */
  predicate Reported(x: Artifact) {
    x.tests.Some? || x.testsParsed
  }

  predicate Says(x: Artifact, name: string, status: TestStatus) {
    x.tests.Some? && TestCase(name, status) in x.tests.value
  }

  predicate CleanRun(x: Artifact) {
    && x.passed == Some(true) && !x.timedOut && !x.truncated
    && (Reported(x) ==> x.tests.Some? && x.tests.value != [])
  }

  /** The reproduction failed on the recorded base. */
  ghost predicate FailsOnBase(input: Input, x: Artifact) {
    && Mine(input.task, x) && x.kind == BaselineRun && SeenOnBase(input.task, x) && Reproduces(input.task, x)
    && x.passed == Some(false)
  }

  ghost predicate RealFailure(x: Artifact) {
    !x.timedOut && (Reported(x) ==> exists n :: Says(x, n, TestFail))
  }

  /** `x` failed for real on the base; `y` is a run of the same command in the same repository
      on the code as it is, and passes every test that failed in `x`. */
  ghost predicate Flips(input: Input, x: Artifact, y: Artifact) {
    && x in input.artifacts && FailsOnBase(input, x) && RealFailure(x)
    && Counted(input, TestRun, y) && y.command == x.command && y.repo == x.repo && y.passed == Some(true)
    && (Reported(x) ==> Reported(y) && forall n :: Says(x, n, TestFail) ==> Says(y, n, TestPass))
  }

  ghost predicate Flipped(input: Input) {
    exists x, y :: Flips(input, x, y)
  }

  ghost predicate RunsPass(input: Input) {
    (exists x :: Counted(input, TestRun, x)) && forall x :: Counted(input, TestRun, x) ==> CleanRun(x)
  }

  ghost predicate ReplaysPass(input: Input) {
    && (exists x :: Counted(input, OriginalTestsRun, x))
    && forall x :: Counted(input, OriginalTestsRun, x) ==> x.passed == Some(true)
  }

  predicate SomeTestFile(files: seq<string>) {
    exists f | f in files :: Text.IsTestFile(f)
  }

  ghost predicate ChangeHolds(input: Input) {
    && RunsPass(input)
    && (input.task.kind == Bugfix ==> Flipped(input))
    && exists i: nat :: LastFiled(input, Diff, i) && CurrentDiff(input, input.artifacts[i])
  }

  ghost predicate CurrentDiff(input: Input, d: Artifact) {
    d.files != [] && SeenNow(input.source, d) && (SomeTestFile(d.files) ==> ReplaysPass(input))
  }

  predicate OnlySpace(s: string) {
    forall c | c in s :: Text.IsSpace(c)
  }

  /** Approved on the code as it is, without objection, with something checked. */
  predicate Approves(o: Source, r: Artifact) {
    && SeenNow(o, r) && r.verdict == Approve && OnlySpace(r.counterexample) && r.checked != []
    && forall f | f in r.findings :: f.severity != "high"
  }

  /** By another model than the author's, both of them named. */
  ghost predicate ByAnother(input: Input, r: Artifact) {
    forall k: nat :: LastFiled(input, Diff, k) ==>
      input.artifacts[k].model != "" && r.model != "" && input.artifacts[k].model != r.model
  }

  ghost predicate ReviewHolds(input: Input) {
    exists i: nat :: LastFiled(input, Review, i)
                     && Approves(input.source, input.artifacts[i]) && ByAnother(input, input.artifacts[i])
  }

  /** The first reproduction that failed on the base did so for real, with all its output. */
  ghost predicate ReproductionHolds(input: Input) {
    exists i: nat :: FirstFailure(input, i) && RealFailure(input.artifacts[i]) && !input.artifacts[i].truncated
  }

  ghost predicate FirstFailure(input: Input, i: nat) {
    && i < |input.artifacts| && FailsOnBase(input, input.artifacts[i])
    && forall j | 0 <= j < i :: !FailsOnBase(input, input.artifacts[j])
  }

  /** The hypothesis names an existing file that the change touches. */
  predicate Explains(existing: Option<set<string>>, h: Artifact, d: Artifact) {
    && h.rootCause.Some? && !OnlySpace(h.rootCause.value.statement)
    && h.rootCause.value.file != "" && h.rootCause.value.file in d.files
    && (existing.Some? ==> h.rootCause.value.file in existing.value)
  }

  ghost predicate Explained(input: Input) {
    exists h: nat, k: nat :: LastFiled(input, RootCause, h) && LastFiled(input, Diff, k)
                             && Explains(input.existing, input.artifacts[h], input.artifacts[k])
  }

  ghost predicate RootCauseHolds(input: Input) {
    Flipped(input) && Explained(input)
  }

  predicate CheckPasses(x: Artifact) {
    x.passed == Some(true) && !x.timedOut && x.outcome !in {OutcomeUnavailable, OutcomeTimeout}
  }

  ghost predicate IntegrationHolds(input: Input) {
    && (exists x :: Counted(input, IntegrationRun, x))
    && forall x :: Counted(input, IntegrationRun, x) ==> CheckPasses(x)
  }

  ghost predicate Promised(input: Input) {
    && input.task.status == Done && ChangeHolds(input) && ReviewHolds(input)
    && (input.task.kind == Bugfix ==> ReproductionHolds(input) && RootCauseHolds(input))
    && (input.integrationConfigured ==> IntegrationHolds(input))
  }

  // ---------- the builder's judgements are these ----------

  lemma MineIsOwn(t: Task, x: Artifact)
    ensures Own(t, x) <==> Mine(t, x)
  {
  }

  lemma SameHeadsIs(a: SHAs, b: SHAs)
    ensures SameSHAs(a, b) <==> SameHeads(a, b)
  {
    if SameHeads(a, b) {
      forall k | k in a ensures Lookup(b, k) == a[k] {}
    }
    if SameSHAs(a, b) {
      forall k | k in a ensures if k in b then b[k] == a[k] else a[k] == "" { assert Lookup(b, k) == a[k]; }
    }
  }

  lemma SeenNowIs(o: Source, x: Artifact)
    ensures Current(o, x) <==> SeenNow(o, x)
  {
    SameHeadsIs(x.sourceSHAs, o.shas);
  }

  lemma SeenOnBaseIs(t: Task, x: Artifact)
    ensures OnBase(t, x) <==> SeenOnBase(t, x)
  {
    SameHeadsIs(x.sourceSHAs, t.baseSHAs);
  }

  lemma CountedIsCurrent(input: Input, kind: ArtifactKind, x: Artifact)
    requires Counted(input, kind, x)
    ensures CurrentRun(input, kind, Normalized(x))
  {
    MineIsOwn(input.task, x);
    SeenNowIs(input.source, x);
    assert Filed(input, kind, x);
  }

  lemma CurrentIsCounted(input: Input, kind: ArtifactKind, a: Artifact) returns (x: Artifact)
    requires CurrentRun(input, kind, a)
    ensures Counted(input, kind, x) && a == Normalized(x)
  {
    x :| x in input.artifacts && Filed(input, kind, x) && a == Normalized(x);
    MineIsOwn(input.task, x);
    SeenNowIs(input.source, x);
  }

  lemma FiledIsMine(input: Input, kind: ArtifactKind, x: Artifact)
    ensures Filed(input, kind, x) <==> Mine(input.task, x) && x.kind == kind
  {
    MineIsOwn(input.task, x);
  }

  lemma LastFiledIs(input: Input, kind: ArtifactKind, i: nat)
    requires i < |input.artifacts|
    ensures LatestAt(input, kind, Normalized(input.artifacts[i]), i) <==> LastFiled(input, kind, i)
  {
    forall j | 0 <= j < |input.artifacts|
      ensures Filed(input, kind, input.artifacts[j]) <==>
              Mine(input.task, input.artifacts[j]) && input.artifacts[j].kind == kind
    {
      FiledIsMine(input, kind, input.artifacts[j]);
    }
  }

  lemma LastFiledIsLatest(input: Input, kind: ArtifactKind, i: nat)
    requires LastFiled(input, kind, i)
    ensures Latest(input, kind, Normalized(input.artifacts[i]))
  {
    LastFiledIs(input, kind, i);
  }

  lemma LatestIsLastFiled(input: Input, kind: ArtifactKind, a: Artifact) returns (i: nat)
    requires Latest(input, kind, a)
    ensures LastFiled(input, kind, i) && a == Normalized(input.artifacts[i])
  {
    i :| LatestAt(input, kind, a, i);
    LastFiledIs(input, kind, i);
  }

  lemma CleanRunIs(x: Artifact)
    ensures CleanPass(Normalized(x)) <==> CleanRun(x)
  {
  }

  lemma OnlySpaceIs(s: string)
    ensures Text.Blank(s) <==> OnlySpace(s)
  {
    if OnlySpace(s) {
      forall i | 0 <= i < |s| ensures Text.IsSpace(s[i]) { assert s[i] in s; }
    }
  }

  lemma SaysFailIs(x: Artifact)
    ensures HasFailingTest(Normalized(x)) <==> exists n :: Says(x, n, TestFail)
  {
    if HasFailingTest(Normalized(x)) {
      var tc :| tc in Normalized(x).tests.value && tc.status == TestFail;
      assert Says(x, tc.name, TestFail) by { assert tc == TestCase(tc.name, TestFail); }
    }
    if n :| Says(x, n, TestFail) {
      assert TestCase(n, TestFail) in Normalized(x).tests.value;
    }
  }

  lemma RealFailureIs(x: Artifact)
    requires x.passed == Some(false)
    ensures FailedForReal(Normalized(x)) <==> RealFailure(x)
  {
    SaysFailIs(x);
  }

  lemma FailsOnBaseIs(input: Input, x: Artifact)
    ensures FailedRepro(input, x) <==> FailsOnBase(input, x)
  {
    FiledIsMine(input, BaselineRun, x);
    SeenOnBaseIs(input.task, x);
  }

  // ---------- promise by promise ----------

  lemma RunsAre(input: Input)
    ensures RunsPolicy(input) <==> RunsPass(input)
  {
    if RunsPass(input) {
      var x :| Counted(input, TestRun, x);
      CountedIsCurrent(input, TestRun, x);
      forall a | CurrentRun(input, TestRun, a) ensures CleanPass(a) {
        var y := CurrentIsCounted(input, TestRun, a);
        CleanRunIs(y);
      }
    }
    if RunsPolicy(input) {
      var a :| CurrentRun(input, TestRun, a);
      var y := CurrentIsCounted(input, TestRun, a);
      forall x | Counted(input, TestRun, x) ensures CleanRun(x) {
        CountedIsCurrent(input, TestRun, x);
        CleanRunIs(x);
      }
    }
  }

  lemma ReplaysAre(input: Input)
    ensures ReplayPolicy(input) <==> ReplaysPass(input)
  {
    if ReplaysPass(input) {
      var x :| Counted(input, OriginalTestsRun, x);
      CountedIsCurrent(input, OriginalTestsRun, x);
      forall a | CurrentRun(input, OriginalTestsRun, a) ensures a.passed == Some(true) {
        var y := CurrentIsCounted(input, OriginalTestsRun, a);
      }
    }
    if ReplayPolicy(input) {
      var a :| CurrentRun(input, OriginalTestsRun, a);
      var y := CurrentIsCounted(input, OriginalTestsRun, a);
      forall x | Counted(input, OriginalTestsRun, x) ensures x.passed == Some(true) {
        CountedIsCurrent(input, OriginalTestsRun, x);
      }
    }
  }

  lemma ConfirmsIs(x: Artifact, y: Artifact)
    ensures Confirms(Normalized(x), Normalized(y)) <==>
            && x.passed == Some(false) && RealFailure(x)
            && y.command == x.command && y.repo == x.repo && y.passed == Some(true)
            && (Reported(x) ==> Reported(y) && forall n :: Says(x, n, TestFail) ==> Says(y, n, TestPass))
  {
    if x.passed == Some(false) { RealFailureIs(x); }
    if RealFailure(x) && Reported(x) { NowPassIs(x, y); }
  }

  /** What is said of the tests alone, as the builder keeps it. */
  lemma AllNowPass(before: seq<TestCase>, after: seq<TestCase>)
    ensures (forall tc | tc in before && tc.status == TestFail :: TestCase(tc.name, TestPass) in after) <==>
            forall n :: TestCase(n, TestFail) in before ==> TestCase(n, TestPass) in after
  {
    if forall n :: TestCase(n, TestFail) in before ==> TestCase(n, TestPass) in after {
      forall tc | tc in before && tc.status == TestFail ensures TestCase(tc.name, TestPass) in after {
        assert tc == TestCase(tc.name, TestFail);
      }
    }
  }

  lemma NowPassIs(x: Artifact, y: Artifact)
    requires RealFailure(x) && Reported(x)
    ensures FailuresNowPass(Normalized(x), Normalized(y)) <==>
            Reported(y) && forall n :: Says(x, n, TestFail) ==> Says(y, n, TestPass)
  {
    var n :| Says(x, n, TestFail);
    assert Normalized(x) == x;
    if Reported(y) { AllNowPass(x.tests.value, Normalized(y).tests.value); }
    assert Says(y, n, TestPass) ==> y.tests.Some?;
    if y.tests.Some? {
      assert Normalized(y) == y;
      forall m ensures Says(x, m, TestFail) <==> TestCase(m, TestFail) in x.tests.value {}
    } else if Reported(y) {
      assert TestCase(n, TestFail) in x.tests.value && TestCase(n, TestPass) !in Normalized(y).tests.value;
    }
  }

  /** A base failure and a current run confirm the fix exactly when one flips to the other. */
  lemma FlipsAre(input: Input)
    ensures FlipPolicy(input) <==> Flipped(input)
  {
    if FlipPolicy(input) {
      var base, after :| BaseRun(input, base) && CurrentRun(input, TestRun, after) && Confirms(base, after);
      var x, y := FlipOfPolicy(input, base, after);
    }
    if x, y :| Flips(input, x, y) {
      PolicyOfFlip(input, x, y);
    }
  }

  lemma FlipOfPolicy(input: Input, base: Artifact, after: Artifact) returns (x: Artifact, y: Artifact)
    requires BaseRun(input, base) && CurrentRun(input, TestRun, after) && Confirms(base, after)
    ensures Flips(input, x, y) && base == Normalized(x) && after == Normalized(y)
  {
    x :| x in input.artifacts && Filed(input, BaselineRun, x) && base == Normalized(x);
    y := CurrentIsCounted(input, TestRun, after);
    ConfirmsIs(x, y);
    FiledIsMine(input, BaselineRun, x);
    SeenOnBaseIs(input.task, x);
  }

  lemma PolicyOfFlip(input: Input, x: Artifact, y: Artifact)
    requires Flips(input, x, y)
    ensures FlipPolicy(input)
  {
    ConfirmsIs(x, y);
    FiledIsMine(input, BaselineRun, x);
    SeenOnBaseIs(input.task, x);
    CountedIsCurrent(input, TestRun, y);
    assert Logged(input, BaselineRun, Normalized(x));
    assert BaseRun(input, Normalized(x));
  }

  /** The builder reports a flip, for every input, exactly when the log holds one. */
  lemma FlipFound(input: Input)
    ensures FlipOf(input.task, ViewIn(input)).Some? <==> Flipped(input)
  {
    ViewRepresents(input);
    FlipExact(input, ViewIn(input));
    FlipsAre(input);
  }

  lemma CurrentDiffIs(input: Input, d: Artifact)
    ensures (d.files != [] && Current(input.source, d) && (TouchesTests(d) ==> ReplayPolicy(input)))
            <==> CurrentDiff(input, d)
  {
    SeenNowIs(input.source, d);
    ReplaysAre(input);
  }

  lemma ChangeOfPolicy(input: Input, d: Artifact)
    requires ChangeIsCurrent(input, d) && (TouchesTests(d) ==> ReplayPolicy(input))
    ensures exists i: nat :: LastFiled(input, Diff, i) && CurrentDiff(input, input.artifacts[i])
  {
    var i := LatestIsLastFiled(input, Diff, d);
    CurrentDiffIs(input, input.artifacts[i]);
  }

  lemma PolicyOfChange(input: Input, i: nat)
    requires LastFiled(input, Diff, i) && CurrentDiff(input, input.artifacts[i])
    ensures exists d :: ChangeIsCurrent(input, d) && (TouchesTests(d) ==> ReplayPolicy(input))
  {
    LastFiledIsLatest(input, Diff, i);
    CurrentDiffIs(input, input.artifacts[i]);
    assert ChangeIsCurrent(input, Normalized(input.artifacts[i]));
  }

  lemma ChangeIs(input: Input)
    ensures ChangePolicy(input) <==> ChangeHolds(input)
  {
    RunsAre(input);
    FlipsAre(input);
    if ChangePolicy(input) {
      var d :| ChangeIsCurrent(input, d) && JudgedSound(input, TouchesTests(d));
      ChangeOfPolicy(input, d);
    }
    if ChangeHolds(input) {
      var i: nat :| LastFiled(input, Diff, i) && CurrentDiff(input, input.artifacts[i]);
      PolicyOfChange(input, i);
      var d :| ChangeIsCurrent(input, d) && (TouchesTests(d) ==> ReplayPolicy(input));
      assert JudgedSound(input, TouchesTests(d));
    }
  }

  lemma ByAnotherIs(input: Input, r: Artifact)
    ensures (forall d :: Latest(input, Diff, d) ==> d.model != r.model && d.model != "" && r.model != "")
            <==> ByAnother(input, r)
  {
    if ByAnother(input, r) {
      forall d | Latest(input, Diff, d) ensures d.model != r.model && d.model != "" && r.model != "" {
        var k := LatestIsLastFiled(input, Diff, d);
      }
    }
    if forall d :: Latest(input, Diff, d) ==> d.model != r.model && d.model != "" && r.model != "" {
      forall k: nat | LastFiled(input, Diff, k)
        ensures input.artifacts[k].model != "" && r.model != "" && input.artifacts[k].model != r.model
      {
        LastFiledIsLatest(input, Diff, k);
      }
    }
  }

  lemma ApprovesIs(o: Source, r: Artifact)
    ensures Approves(o, r) <==>
            && Current(o, r) && r.verdict == Approve && Text.Blank(r.counterexample)
            && (forall f | f in r.findings :: f.severity != "high") && r.checked != []
  {
    SeenNowIs(o, r);
    OnlySpaceIs(r.counterexample);
  }

  /** The review policy of one artifact. */
  ghost predicate Upheld(input: Input, r: Artifact) {
    && Current(input.source, r) && r.verdict == Approve && Text.Blank(r.counterexample)
    && (forall f | f in r.findings :: f.severity != "high") && r.checked != []
    && forall d :: Latest(input, Diff, d) ==> d.model != r.model && d.model != "" && r.model != ""
  }

  lemma UpheldIs(input: Input, r: Artifact)
    ensures Upheld(input, r) <==> Approves(input.source, r) && ByAnother(input, r)
  {
    ApprovesIs(input.source, r);
    ByAnotherIs(input, r);
  }

  lemma PolicyUpholds(input: Input)
    ensures ReviewPolicy(input) <==> exists r :: Latest(input, Review, r) && Upheld(input, r)
  {
  }

  lemma ReviewIs(input: Input)
    ensures ReviewPolicy(input) <==> ReviewHolds(input)
  {
    PolicyUpholds(input);
    if r :| Latest(input, Review, r) && Upheld(input, r) {
      var i := LatestIsLastFiled(input, Review, r);
      UpheldIs(input, r);
      assert Approves(input.source, input.artifacts[i]) && ByAnother(input, input.artifacts[i]);
    }
    if i: nat :| LastFiled(input, Review, i)
                 && Approves(input.source, input.artifacts[i]) && ByAnother(input, input.artifacts[i]) {
      LastFiledIsLatest(input, Review, i);
      UpheldIs(input, Normalized(input.artifacts[i]));
    }
  }

  lemma ReproductionIs(input: Input)
    ensures ReproPolicy(input) <==> ReproductionHolds(input)
  {
    forall i | 0 <= i < |input.artifacts|
      ensures FailedRepro(input, input.artifacts[i]) <==> FailsOnBase(input, input.artifacts[i])
      ensures FailsOnBase(input, input.artifacts[i]) ==>
                (FailedForReal(Normalized(input.artifacts[i])) <==> RealFailure(input.artifacts[i]))
    {
      FailsOnBaseIs(input, input.artifacts[i]);
      if FailsOnBase(input, input.artifacts[i]) { RealFailureIs(input.artifacts[i]); }
    }
    if ReproPolicy(input) {
      var i :| 0 <= i < |input.artifacts|
        && FailedRepro(input, input.artifacts[i])
        && (forall j | 0 <= j < i :: !FailedRepro(input, input.artifacts[j]))
        && FailedForReal(Normalized(input.artifacts[i])) && !input.artifacts[i].truncated;
      assert FirstFailure(input, i);
    }
  }

  lemma ExplainsIs(input: Input, rc: Artifact, d: Artifact)
    ensures Located(input, rc, d) <==> Explains(input.existing, rc, d)
  {
    if rc.rootCause.Some? { OnlySpaceIs(rc.rootCause.value.statement); }
  }

  lemma LocatedIsExplained(input: Input, rc: Artifact, d: Artifact)
    requires Latest(input, RootCause, rc) && Latest(input, Diff, d) && Located(input, rc, d)
    ensures Explained(input)
  {
    var h := LatestIsLastFiled(input, RootCause, rc);
    var k := LatestIsLastFiled(input, Diff, d);
    ExplainsIs(input, rc, d);
    assert Explains(input.existing, input.artifacts[h], input.artifacts[k]);
  }

  lemma ExplainedIsLocated(input: Input)
    requires Explained(input)
    ensures exists rc, d :: Latest(input, RootCause, rc) && Latest(input, Diff, d) && Located(input, rc, d)
  {
    var h: nat, k: nat :| LastFiled(input, RootCause, h) && LastFiled(input, Diff, k)
                          && Explains(input.existing, input.artifacts[h], input.artifacts[k]);
    LastFiledIsLatest(input, RootCause, h);
    LastFiledIsLatest(input, Diff, k);
    ExplainsIs(input, Normalized(input.artifacts[h]), Normalized(input.artifacts[k]));
  }

  lemma ExplainedIs(input: Input)
    ensures (exists rc, d :: Latest(input, RootCause, rc) && Latest(input, Diff, d) && Located(input, rc, d))
            <==> Explained(input)
  {
    if rc, d :| Latest(input, RootCause, rc) && Latest(input, Diff, d) && Located(input, rc, d) {
      LocatedIsExplained(input, rc, d);
    }
    if Explained(input) { ExplainedIsLocated(input); }
  }

  lemma RootCauseIs(input: Input)
    ensures RootCausePolicy(input) <==> RootCauseHolds(input)
  {
    FlipsAre(input);
    ExplainedIs(input);
  }

  lemma IntegrationIs(input: Input)
    ensures IntegrationPolicy(input) <==> IntegrationHolds(input)
  {
    if IntegrationHolds(input) {
      var x :| Counted(input, IntegrationRun, x);
      CountedIsCurrent(input, IntegrationRun, x);
      forall a | CurrentRun(input, IntegrationRun, a) ensures !NotExercised(a) && a.passed == Some(true) {
        var y := CurrentIsCounted(input, IntegrationRun, a);
      }
    }
    if IntegrationPolicy(input) {
      var a :| CurrentRun(input, IntegrationRun, a);
      var y := CurrentIsCounted(input, IntegrationRun, a);
      forall x | Counted(input, IntegrationRun, x) ensures CheckPasses(x) {
        CountedIsCurrent(input, IntegrationRun, x);
      }
    }
  }

  /** For every input: the verdict is SUPPORTED exactly when the recorded fields say all of it. */
  lemma SupportedMeans(input: Input)
    ensures PacketOf(input).verdict == Supported <==> Promised(input)
  {
    SupportedExact(input);
    DeservedIs(input);
  }

  lemma DeservedIs(input: Input)
    ensures Deserved(input) <==> Promised(input)
  {
    ChangeIs(input);
    ReviewIs(input);
    ReproductionIs(input);
    RootCauseIs(input);
    IntegrationIs(input);
  }

  // ---------- a deleted test is no fix ----------

  /** However green the later run is: if it does not report the failed test as passing, the
      pair is no flip. */
  lemma DeletedTestIsNoFix(input: Input, x: Artifact, y: Artifact, name: string)
    requires Says(x, name, TestFail) && !Says(y, name, TestPass)
    ensures !Flips(input, x, y) && !Confirms(Normalized(x), Normalized(y))
  {
    ConfirmsIs(x, y);
  }
}
