/** What a packet means. The policies below quantify over the raw artifact log; none of
    them mentions the indexed view or the builder. The theorems say that each claim is
    SUPPORTED exactly when its policy holds. */
module ProofPolicy {
  import opened Domain
  import opened ProofSpec
  import Text

  // ---------- when two source states are the same ----------

  lemma EqualSizeSubset<T>(a: set<T>, b: set<T>)
    requires a <= b && |a| == |b|
    ensures a == b
  {
    assert b == a + (b - a);
  }

  /** A key longer than every key of the map, hence a fresh one. */
  ghost function FreshKey(keys: set<string>): (k: string)
    ensures k !in keys && forall x | x in keys :: |x| < |k|
    decreases keys
  {
    if keys == {} then "x"
    else
      var x :| x in keys;
      var k := FreshKey(keys - {x});
      if |x| < |k| then k else x + "x"
  }

  /** The comparison accepts nothing but the map itself exactly for the non-empty maps
      that hold no blank SHA. Against a blank one a missing key is taken for a match. */
  lemma SameSHAsMeansEqual(a: SHAs)
    requires |a| != 0
    ensures (forall b: SHAs :: SameSHAs(a, b) <==> a == b) <==> "" !in a.Values
  {
    if "" !in a.Values {
      forall b: SHAs ensures SameSHAs(a, b) <==> a == b {
        if SameSHAs(a, b) {
          forall k | k in a ensures k in b && b[k] == a[k] {
            assert a[k] in a.Values;
            assert Lookup(b, k) == a[k];
          }
          EqualSizeSubset(a.Keys, b.Keys);
        }
      }
    } else {
      var k :| k in a && a[k] == "";
      var unused := FreshKey(a.Keys);
      var rest := a - {k};
      var b := rest[unused := "abc"];
      assert a.Keys == rest.Keys + {k};
      assert b.Keys == rest.Keys + {unused};
      assert SameSHAs(a, b) && a != b;
    }
  }

  // ---------- the policies ----------

  ghost predicate Filed(input: Input, kind: ArtifactKind, x: Artifact) {
    Own(input.task, x) && x.kind == kind
  }

  /** The log holds this artifact of the task. */
  ghost predicate Logged(input: Input, kind: ArtifactKind, a: Artifact) {
    exists x | x in input.artifacts :: Filed(input, kind, x) && a == Normalized(x)
  }

  /** The artifact of that kind the task recorded last. */
  ghost predicate Latest(input: Input, kind: ArtifactKind, a: Artifact) {
    exists i: nat :: LatestAt(input, kind, a, i)
  }

  ghost predicate LatestAt(input: Input, kind: ArtifactKind, a: Artifact, i: nat) {
    && i < |input.artifacts| && Filed(input, kind, input.artifacts[i]) && a == Normalized(input.artifacts[i])
    && forall j | i < j < |input.artifacts| :: !Filed(input, kind, input.artifacts[j])
  }

  ghost predicate CurrentRun(input: Input, kind: ArtifactKind, a: Artifact) {
    Logged(input, kind, a) && Current(input.source, a)
  }

  ghost predicate BaseRun(input: Input, a: Artifact) {
    Logged(input, BaselineRun, a) && OnBase(input.task, a) && IsRepro(input.task, a)
  }

  ghost predicate CleanPass(a: Artifact) {
    a.passed == Some(true) && !a.timedOut && !a.truncated && a.tests != Some([])
  }

  ghost predicate RunsPolicy(input: Input) {
    && (exists a :: CurrentRun(input, TestRun, a))
    && forall a :: CurrentRun(input, TestRun, a) ==> CleanPass(a)
  }

  ghost predicate TouchesTests(d: Artifact) {
    exists f | f in d.files :: Text.IsTestFile(f)
  }

  /** The original tests were replayed on the current code, and every replay passed. */
  ghost predicate ReplayPolicy(input: Input) {
    && (exists r :: CurrentRun(input, OriginalTestsRun, r))
    && forall r :: CurrentRun(input, OriginalTestsRun, r) ==> r.passed == Some(true)
  }

  ghost predicate FlipPolicy(input: Input) {
    exists base, after :: BaseRun(input, base) && CurrentRun(input, TestRun, after) && Confirms(base, after)
  }

  /** The last recorded change exists and describes the code as it is now. */
  ghost predicate ChangeIsCurrent(input: Input, d: Artifact) {
    Latest(input, Diff, d) && d.files != [] && Current(input.source, d)
  }

  ghost predicate JudgedSound(input: Input, touched: bool) {
    RunsPolicy(input) && (touched ==> ReplayPolicy(input)) && (input.task.kind == Bugfix ==> FlipPolicy(input))
  }

  ghost predicate ChangePolicy(input: Input) {
    exists d :: ChangeIsCurrent(input, d) && JudgedSound(input, TouchesTests(d))
  }

  /** Something observed on the current code says the change is wrong. */
  ghost predicate RunsContradict(input: Input, touched: bool) {
    || (exists a :: CurrentRun(input, TestRun, a) && !RunOK(a))
    || (RunsPolicy(input) && touched && exists r :: CurrentRun(input, OriginalTestsRun, r) && r.passed != Some(true))
  }

  ghost predicate ContradictedPolicy(input: Input) {
    exists d :: ChangeIsCurrent(input, d) && RunsContradict(input, TouchesTests(d))
  }

  ghost predicate ReviewPolicy(input: Input) {
    exists r :: Latest(input, Review, r)
      && Current(input.source, r) && r.verdict == Approve && Text.Blank(r.counterexample)
      && (forall f | f in r.findings :: f.severity != "high") && r.checked != []
      && forall d :: Latest(input, Diff, d) ==> d.model != r.model && d.model != "" && r.model != ""
  }

  /** The hypothesis names an existing file, and the change touches that file. */
  ghost predicate Located(input: Input, rc: Artifact, d: Artifact) {
    && rc.rootCause.Some? && !Text.Blank(rc.rootCause.value.statement)
    && rc.rootCause.value.file != "" && rc.rootCause.value.file in d.files
    && (input.existing.Some? ==> rc.rootCause.value.file in input.existing.value)
  }

  ghost predicate RootCausePolicy(input: Input) {
    && FlipPolicy(input)
    && (exists rc, d :: Latest(input, RootCause, rc) && Latest(input, Diff, d) && Located(input, rc, d))
  }

  /** A run of the reproduction on the recorded base revision. */
  ghost predicate BaseRepro(input: Input, x: Artifact) {
    Filed(input, BaselineRun, x) && OnBase(input.task, x) && IsRepro(input.task, x)
  }

  ghost predicate FailedRepro(input: Input, x: Artifact) {
    BaseRepro(input, x) && x.passed == Some(false)
  }

  /** The first failing baseline of the reproduction failed for real, with complete output. */
  ghost predicate ReproPolicy(input: Input) {
    exists i | 0 <= i < |input.artifacts| ::
      && FailedRepro(input, input.artifacts[i])
      && (forall j | 0 <= j < i :: !FailedRepro(input, input.artifacts[j]))
      && FailedForReal(Normalized(input.artifacts[i])) && !input.artifacts[i].truncated
  }

  ghost predicate IntegrationPolicy(input: Input) {
    && (exists a :: CurrentRun(input, IntegrationRun, a))
    && forall a :: CurrentRun(input, IntegrationRun, a) ==> !NotExercised(a) && a.passed == Some(true)
  }

  /** Everything the program promises before it reports success. */
  ghost predicate Deserved(input: Input) {
    && input.task.status == Done
    && ChangePolicy(input) && ReviewPolicy(input)
    && (input.task.kind == Bugfix ==> ReproPolicy(input) && RootCausePolicy(input))
    && (input.integrationConfigured ==> IntegrationPolicy(input))
  }

  // ---------- the index loses nothing and invents nothing ----------

  lemma {:induction false} PickMembers(log: seq<Entry>, s: Slot, a: Artifact)
    ensures a in Pick(log, s) <==> exists i | 0 <= i < |log| :: log[i] == Entry(s, a)
  {
    if log != [] {
      var n := |log| - 1;
      PickMembers(log[..n], s, a);
      if exists i | 0 <= i < |log| :: log[i] == Entry(s, a) {
        var i :| 0 <= i < |log| && log[i] == Entry(s, a);
        if i < n { assert log[..n][i] == Entry(s, a); }
      }
    }
  }

  ghost predicate LastAt(log: seq<Entry>, s: Slot, a: Artifact, i: nat) {
    i < |log| && log[i] == Entry(s, a) && forall j | i < j < |log| :: log[j].slot != s
  }

  ghost predicate LastIn(log: seq<Entry>, s: Slot, a: Artifact) {
    exists i: nat :: LastAt(log, s, a, i)
  }

  lemma LastInStep(log: seq<Entry>, e: Entry, s: Slot, a: Artifact)
    ensures LastIn(log + [e], s, a) <==> if e.slot == s then e.artifact == a else LastIn(log, s, a)
  {
    var all := log + [e];
    forall i: nat | i < |log|
      ensures LastAt(all, s, a, i) <==> e.slot != s && LastAt(log, s, a, i)
    {
      LastAtStep(log, e, s, a, i);
    }
    assert LastAt(all, s, a, |log|) <==> e == Entry(s, a);
  }

  lemma LastAtStep(log: seq<Entry>, e: Entry, s: Slot, a: Artifact, i: nat)
    requires i < |log|
    ensures LastAt(log + [e], s, a, i) <==> e.slot != s && LastAt(log, s, a, i)
  {
    var all := log + [e];
    assert all[i] == log[i] && all[|log|] == e;
    assert forall j | i < j < |log| :: all[j] == log[j];
    if LastAt(all, s, a, i) {
      forall j | i < j < |log| ensures log[j].slot != s { assert all[j].slot != s; }
    }
  }

  lemma {:induction false} LastOfIsLast(log: seq<Entry>, s: Slot, a: Artifact)
    ensures LastOf(log, s) == Some(a) <==> LastIn(log, s, a)
  {
    if log != [] {
      var n := |log| - 1;
      LastOfIsLast(log[..n], s, a);
      LastInStep(log[..n], log[n], s, a);
      assert log[..n] + [log[n]] == log;
    }
  }

  ghost function LogOf(input: Input): seq<Entry> {
    Tagged(input.task, input.source, input.artifacts)
  }

  ghost function ViewIn(input: Input): View {
    Index(input.task, input.source, input.artifacts)
  }

  lemma InSlot(input: Input, s: Slot, a: Artifact)
    ensures a in Pick(LogOf(input), s) <==>
            exists x | x in input.artifacts :: EntryOf(input.task, input.source, x) == Entry(s, a)
  {
    PickMembers(LogOf(input), s, a);
    forall i | 0 <= i < |input.artifacts|
      ensures LogOf(input)[i] == EntryOf(input.task, input.source, input.artifacts[i])
    {
    }
    if a in Pick(LogOf(input), s) {
      var i :| 0 <= i < |LogOf(input)| && LogOf(input)[i] == Entry(s, a);
      assert input.artifacts[i] in input.artifacts;
    }
    if x :| x in input.artifacts && EntryOf(input.task, input.source, x) == Entry(s, a) {
      var i :| 0 <= i < |input.artifacts| && input.artifacts[i] == x;
      assert LogOf(input)[i] == Entry(s, a);
    }
  }

  lemma CurrentSlots(input: Input, x: Artifact)
    ensures SlotOf(input.task, input.source, x) == Tests <==>
              Filed(input, TestRun, x) && Current(input.source, Normalized(x))
    ensures SlotOf(input.task, input.source, x) == Replays <==>
              Filed(input, OriginalTestsRun, x) && Current(input.source, Normalized(x))
    ensures SlotOf(input.task, input.source, x) == Integ <==>
              Filed(input, IntegrationRun, x) && Current(input.source, Normalized(x))
    ensures SlotOf(input.task, input.source, x) == Baselines <==>
              Filed(input, BaselineRun, x) && OnBase(input.task, Normalized(x))
  {
  }

  lemma CurrentRuns(input: Input, a: Artifact)
    ensures a in ViewIn(input).tests <==> CurrentRun(input, TestRun, a)
    ensures a in ViewIn(input).replays <==> CurrentRun(input, OriginalTestsRun, a)
    ensures a in ViewIn(input).integ <==> CurrentRun(input, IntegrationRun, a)
    ensures a in ViewIn(input).baselines <==> Logged(input, BaselineRun, a) && OnBase(input.task, a)
  {
    InSlot(input, Tests, a);
    InSlot(input, Replays, a);
    InSlot(input, Integ, a);
    InSlot(input, Baselines, a);
    forall x | x in input.artifacts { CurrentSlots(input, x); }
  }

  lemma LatestIsLast(input: Input, a: Artifact)
    ensures ViewIn(input).diff == Some(a) <==> Latest(input, Diff, a)
    ensures ViewIn(input).review == Some(a) <==> Latest(input, Review, a)
    ensures ViewIn(input).rootCause == Some(a) <==> Latest(input, RootCause, a)
  {
    LatestInSlot(input, Diffs, Diff, a);
    LatestInSlot(input, Reviews, Review, a);
    LatestInSlot(input, RootCauses, RootCause, a);
  }

  lemma LatestInSlot(input: Input, s: Slot, kind: ArtifactKind, a: Artifact)
    requires forall x | x in input.artifacts :: SlotOf(input.task, input.source, x) == s <==> Filed(input, kind, x)
    ensures LastOf(LogOf(input), s) == Some(a) <==> Latest(input, kind, a)
  {
    LastOfIsLast(LogOf(input), s, a);
    forall i | 0 <= i < |input.artifacts|
      ensures Classified(input, kind, LogOf(input)[i], s, input.artifacts[i])
    {
      assert input.artifacts[i] in input.artifacts;
    }
    LastInIsLatest(input, kind, LogOf(input), s, a);
  }

  ghost predicate Classified(input: Input, kind: ArtifactKind, e: Entry, s: Slot, x: Artifact) {
    (e.slot == s <==> Filed(input, kind, x)) && e.artifact == Normalized(x)
  }

  lemma LastInIsLatest(input: Input, kind: ArtifactKind, log: seq<Entry>, s: Slot, a: Artifact)
    requires |log| == |input.artifacts|
    requires forall i | 0 <= i < |log| :: Classified(input, kind, log[i], s, input.artifacts[i])
    ensures LastIn(log, s, a) <==> Latest(input, kind, a)
  {
    forall i: nat ensures LastAt(log, s, a, i) <==> LatestAt(input, kind, a, i) {
      if i < |log| { LastAtIsLatest(input, kind, log, s, a, i); }
    }
  }

  lemma LastAtIsLatest(input: Input, kind: ArtifactKind, log: seq<Entry>, s: Slot, a: Artifact, i: nat)
    requires |log| == |input.artifacts| && i < |log|
    requires forall j | 0 <= j < |log| :: Classified(input, kind, log[j], s, input.artifacts[j])
    ensures LastAt(log, s, a, i) <==> LatestAt(input, kind, a, i)
  {
    assert Classified(input, kind, log[i], s, input.artifacts[i]);
    if LastAt(log, s, a, i) {
      forall j | i < j < |log| ensures !Filed(input, kind, input.artifacts[j]) {
        assert Classified(input, kind, log[j], s, input.artifacts[j]);
        assert log[j].slot != s;
      }
    }
    if LatestAt(input, kind, a, i) {
      forall j | i < j < |log| ensures log[j].slot != s {
        assert Classified(input, kind, log[j], s, input.artifacts[j]);
      }
    }
  }

  lemma {:induction false} ReproMembers(t: Task, list: seq<Artifact>, a: Artifact)
    ensures a in Repro(t, list) <==> a in list && IsRepro(t, a)
  {
    if list != [] {
      var n := |list| - 1;
      ReproMembers(t, list[..n], a);
      assert list == list[..n] + [list[n]];
    }
  }

  lemma {:induction false} TestFilesMember(files: seq<string>, f: string)
    ensures f in TestFilesOf(files) <==> f in files && Text.IsTestFile(f)
  {
    if files != [] {
      var n := |files| - 1;
      TestFilesMember(files[..n], f);
      assert files == files[..n] + [files[n]];
    }
  }

  lemma {:induction false} TestFilesExist(files: seq<string>)
    ensures TestFilesOf(files) != [] <==> exists f | f in files :: Text.IsTestFile(f)
  {
    if TestFilesOf(files) != [] {
      TestFilesMember(files, TestFilesOf(files)[0]);
    }
    if f :| f in files && Text.IsTestFile(f) {
      TestFilesMember(files, f);
    }
  }

  /** What the claims need to know about a view of the log. */
  ghost predicate Represents(input: Input, v: View) {
    && (forall a :: a in v.tests <==> CurrentRun(input, TestRun, a))
    && (forall a :: a in v.replays <==> CurrentRun(input, OriginalTestsRun, a))
    && (forall a :: a in v.integ <==> CurrentRun(input, IntegrationRun, a))
    && (forall a :: a in v.baselines <==> Logged(input, BaselineRun, a) && OnBase(input.task, a))
    && (forall a :: v.diff == Some(a) <==> Latest(input, Diff, a))
    && (forall a :: v.review == Some(a) <==> Latest(input, Review, a))
    && (forall a :: v.rootCause == Some(a) <==> Latest(input, RootCause, a))
  }

  lemma ViewRepresents(input: Input)
    ensures Represents(input, ViewIn(input))
  {
    var v := ViewIn(input);
    forall a
      ensures a in v.tests <==> CurrentRun(input, TestRun, a)
      ensures a in v.replays <==> CurrentRun(input, OriginalTestsRun, a)
      ensures a in v.integ <==> CurrentRun(input, IntegrationRun, a)
      ensures a in v.baselines <==> Logged(input, BaselineRun, a) && OnBase(input.task, a)
    {
      CurrentRuns(input, a);
    }
    forall a
      ensures v.diff == Some(a) <==> Latest(input, Diff, a)
      ensures v.review == Some(a) <==> Latest(input, Review, a)
      ensures v.rootCause == Some(a) <==> Latest(input, RootCause, a)
    {
      LatestIsLast(input, a);
    }
  }

  // ---------- each claim is its policy ----------

  lemma {:induction false} FirstAfterFound(base: Artifact, tests: seq<Artifact>)
    ensures FirstAfter(base, tests).Some? <==> exists after | after in tests :: Confirms(base, after)
  {
    if tests != [] {
      var n := |tests| - 1;
      FirstAfterFound(base, tests[..n]);
      assert tests == tests[..n] + [tests[n]];
    }
  }

  predicate Confirmed(base: Artifact, tests: seq<Artifact>) {
    FirstAfter(base, tests).Some?
  }

  lemma {:induction false} ConfirmedIsFound(bases: seq<Artifact>, tests: seq<Artifact>, base: Artifact)
    requires base in bases && Confirmed(base, tests)
    ensures FirstFlip(bases, tests).Some?
  {
    var n := |bases| - 1;
    assert bases == bases[..n] + [bases[n]];
    if base in bases[..n] { ConfirmedIsFound(bases[..n], tests, base); }
  }

  lemma {:induction false} FoundIsConfirmed(bases: seq<Artifact>, tests: seq<Artifact>) returns (base: Artifact)
    requires FirstFlip(bases, tests).Some?
    ensures base in bases && Confirmed(base, tests)
  {
    var n := |bases| - 1;
    if FirstFlip(bases[..n], tests).Some? {
      base := FoundIsConfirmed(bases[..n], tests);
    } else {
      base := bases[n];
    }
  }

  lemma {:induction false} FirstFlipFound(bases: seq<Artifact>, tests: seq<Artifact>)
    ensures FirstFlip(bases, tests).Some? <==>
            exists base, after | base in bases && after in tests :: Confirms(base, after)
  {
    if FirstFlip(bases, tests).Some? {
      var base := FoundIsConfirmed(bases, tests);
      FirstAfterFound(base, tests);
    }
    if base, after :| base in bases && after in tests && Confirms(base, after) {
      FirstAfterFound(base, tests);
      ConfirmedIsFound(bases, tests, base);
    }
  }

  lemma FlipExact(input: Input, v: View)
    requires Represents(input, v)
    ensures FlipOf(input.task, v).Some? <==> FlipPolicy(input)
  {
    var bases := Repro(input.task, v.baselines);
    FirstFlipFound(bases, v.tests);
    forall base ensures base in bases <==> BaseRun(input, base) {
      ReproMembers(input.task, v.baselines, base);
    }
    if FlipPolicy(input) {
      var base, after :| BaseRun(input, base) && CurrentRun(input, TestRun, after) && Confirms(base, after);
      assert base in bases && after in v.tests;
    }
  }

  lemma RunTroubleExact(input: Input, v: View)
    requires Represents(input, v)
    ensures v.tests != [] && RunTrouble(v.tests).None? <==> RunsPolicy(input)
    ensures RunTrouble(v.tests) in {Some(Flaky), Some(RunFails)} <==>
            exists a :: CurrentRun(input, TestRun, a) && !RunOK(a)
  {
    if v.tests != [] { assert v.tests[0] in v.tests; }
    assert RunTrouble(v.tests).None? <==> forall a | a in v.tests :: CleanPass(a);
    if RunsPolicy(input) {
      var a :| CurrentRun(input, TestRun, a);
      assert a in v.tests;
    }
  }

  lemma ReplayTroubleExact(input: Input, v: View)
    requires Represents(input, v)
    ensures ReplayTrouble(v.replays).None? <==> ReplayPolicy(input)
    ensures ReplayTrouble(v.replays) == Some(ReplayFails) <==>
            exists r :: CurrentRun(input, OriginalTestsRun, r) && r.passed != Some(true)
  {
    if v.replays != [] { assert v.replays[0] in v.replays; }
  }

  ghost function ChangeIn(input: Input, v: View): Claim {
    ChangeClaim(input.task, input.source, v, ChangeOf(v).testFiles, FlipOf(input.task, v))
  }

  lemma ReplayedExact(t: Task, v: View, testFiles: seq<string>, flip: Option<seq<string>>, ids: seq<string>)
    ensures var c := ReplayedClaim(t, v, testFiles, flip, ids);
      && (c.status == Supported <==>
            (testFiles == [] || ReplayTrouble(v.replays).None?) && (t.kind == Bugfix ==> flip.Some?))
      && (c.status == Contradicted <==> testFiles != [] && ReplayTrouble(v.replays) == Some(ReplayFails))
  {
  }

  lemma ChangeWithRuns(t: Task, o: Source, v: View, d: Artifact, testFiles: seq<string>, flip: Option<seq<string>>)
    requires v.diff == Some(d) && d.files != [] && Current(o, d) && v.tests != [] && RunTrouble(v.tests).None?
    ensures ChangeClaim(t, o, v, testFiles, flip) == ReplayedClaim(t, v, testFiles, flip, [d.id] + Ids(v.tests))
  {
  }

  lemma ChangeWithoutRuns(t: Task, o: Source, v: View, d: Artifact, testFiles: seq<string>, flip: Option<seq<string>>)
    requires v.diff == Some(d) && d.files != [] && Current(o, d) && (v.tests == [] || RunTrouble(v.tests).Some?)
    ensures var c := ChangeClaim(t, o, v, testFiles, flip);
      && c.status != Supported
      && (c.status == Contradicted <==> RunTrouble(v.tests) in {Some(Flaky), Some(RunFails)})
  {
  }

  /** `testFiles` and `flip` are whatever the builder extracted from the change and the runs. */
  lemma Judged(t: Task, o: Source, v: View, d: Artifact, testFiles: seq<string>, flip: Option<seq<string>>)
    requires v.diff == Some(d) && d.files != [] && Current(o, d)
    ensures var c := ChangeClaim(t, o, v, testFiles, flip);
      && (c.status == Supported <==>
            && v.tests != [] && RunTrouble(v.tests).None?
            && (testFiles == [] || ReplayTrouble(v.replays).None?) && (t.kind == Bugfix ==> flip.Some?))
      && (c.status == Contradicted <==>
            || RunTrouble(v.tests) in {Some(Flaky), Some(RunFails)}
            || (v.tests != [] && RunTrouble(v.tests).None? && testFiles != []
                && ReplayTrouble(v.replays) == Some(ReplayFails)))
  {
    if v.tests != [] && RunTrouble(v.tests).None? {
      ChangeWithRuns(t, o, v, d, testFiles, flip);
      ReplayedExact(t, v, testFiles, flip, [d.id] + Ids(v.tests));
    } else {
      ChangeWithoutRuns(t, o, v, d, testFiles, flip);
    }
  }

  lemma UnsupportedChange(t: Task, o: Source, v: View, testFiles: seq<string>, flip: Option<seq<string>>)
    requires v.diff.None? || v.diff.value.files == [] || !Current(o, v.diff.value)
    ensures ChangeClaim(t, o, v, testFiles, flip).status in {Stale, Insufficient}
  {
  }

  lemma OnlyLatest(input: Input, kind: ArtifactKind, a: Artifact, b: Artifact)
    requires Latest(input, kind, a) && Latest(input, kind, b)
    ensures a == b
  {
    var i: nat :| LatestAt(input, kind, a, i);
    var k: nat :| LatestAt(input, kind, b, k);
    assert i == k;
  }

  lemma PolicyOfCurrentChange(input: Input, d: Artifact)
    requires ChangeIsCurrent(input, d)
    ensures ChangePolicy(input) <==> JudgedSound(input, TouchesTests(d))
    ensures ContradictedPolicy(input) <==> RunsContradict(input, TouchesTests(d))
  {
    forall d' | Latest(input, Diff, d') ensures d' == d { OnlyLatest(input, Diff, d, d'); }
  }

  /** Change verified is SUPPORTED exactly under its declarative policy, and CONTRADICTED
      exactly when some run on the current code failed or timed out, or every run is a
      clean pass and a required replay of the original tests failed. */
  lemma ChangeVerifiedExact(input: Input, v: View)
    requires Represents(input, v)
    ensures ChangeIn(input, v).status == Supported <==> ChangePolicy(input)
    ensures ChangeIn(input, v).status == Contradicted <==> ContradictedPolicy(input)
  {
    var testFiles, flip := ChangeOf(v).testFiles, FlipOf(input.task, v);
    if v.diff.Some? && v.diff.value.files != [] && Current(input.source, v.diff.value) {
      var d := v.diff.value;
      assert ChangeIsCurrent(input, d);
      PolicyOfCurrentChange(input, d);
      FlipExact(input, v);
      TestFilesExist(d.files);
      RunTroubleExact(input, v);
      ReplayTroubleExact(input, v);
      CurrentChangeExact(input, v, d, testFiles, flip);
    } else {
      UnsupportedChange(input.task, input.source, v, testFiles, flip);
      assert forall d :: ChangeIsCurrent(input, d) ==> v.diff == Some(d);
    }
  }

  lemma CurrentChangeExact(input: Input, v: View, d: Artifact, testFiles: seq<string>, flip: Option<seq<string>>)
    requires v.diff == Some(d) && d.files != [] && Current(input.source, d)
    requires testFiles != [] <==> TouchesTests(d)
    requires flip.Some? <==> FlipPolicy(input)
    requires v.tests != [] && RunTrouble(v.tests).None? <==> RunsPolicy(input)
    requires RunTrouble(v.tests) in {Some(Flaky), Some(RunFails)} <==>
             exists a :: CurrentRun(input, TestRun, a) && !RunOK(a)
    requires ReplayTrouble(v.replays).None? <==> ReplayPolicy(input)
    requires ReplayTrouble(v.replays) == Some(ReplayFails) <==>
             exists r :: CurrentRun(input, OriginalTestsRun, r) && r.passed != Some(true)
    ensures var c := ChangeClaim(input.task, input.source, v, testFiles, flip);
      && (c.status == Supported <==> JudgedSound(input, TouchesTests(d)))
      && (c.status == Contradicted <==> RunsContradict(input, TouchesTests(d)))
  {
    Judged(input.task, input.source, v, d, testFiles, flip);
  }
}
