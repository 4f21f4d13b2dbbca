/** How packets of different logs relate: contradicting evidence cannot be outvoted, and
    foreign artifacts change nothing. */
module ProofGuarantees {
  import opened Domain
  import opened ProofSpec
  import opened ProofPolicy
  import opened ProofTheorems
  import Text

  // ---------- bad evidence is sticky ----------

  /** `later` extends the append-only log of the same task while the code stays put. */
  ghost predicate Extends(input: Input, later: Input) {
    && input.artifacts <= later.artifacts
    && later.task.id == input.task.id && later.task.worktreeRoot == input.task.worktreeRoot
    && later.source.shas == input.source.shas
  }

  lemma LoggedForever(input: Input, later: Input, kind: ArtifactKind, a: Artifact)
    requires Extends(input, later) && Logged(input, kind, a)
    ensures Logged(later, kind, a)
  {
    var x :| x in input.artifacts && Filed(input, kind, x) && a == Normalized(x);
    var i :| 0 <= i < |input.artifacts| && input.artifacts[i] == x;
    assert later.artifacts[i] == x;
  }

  /** Once a run on the current code failed or timed out, nothing appended to the log makes
      the packet SUPPORTED while the code stays at those SHAs. */
  lemma FailedRunIsSticky(input: Input, later: Input, a: Artifact)
    requires Extends(input, later) && CurrentRun(input, TestRun, a) && !RunOK(a)
    ensures !ChangePolicy(later) && PacketOf(later).verdict != Supported
  {
    LoggedForever(input, later, TestRun, a);
    if Current(later.source, a) {
      assert CurrentRun(later, TestRun, a) && !CleanPass(a);
    } else {
      assert forall d :: !ChangeIsCurrent(later, d);
    }
    SupportedExact(later);
  }

  /** A failed replay binds every extension whose latest diff touches test files, however
      many diffs were added since. */
  lemma FailedReplayIsSticky(input: Input, later: Input, r: Artifact)
    requires Extends(input, later)
    requires CurrentRun(input, OriginalTestsRun, r) && r.passed != Some(true)
    requires forall d :: Latest(later, Diff, d) ==> TouchesTests(d)
    ensures !ChangePolicy(later) && PacketOf(later).verdict != Supported
  {
    if ChangePolicy(later) {
      var d :| ChangeIsCurrent(later, d) && JudgedSound(later, TouchesTests(d));
      FailedReplayBinds(input, later, r, d);
    }
    SupportedExact(later);
  }

  /** Exactly how far it binds: once the change described by the latest diff is current, it
      is verified if and only if that diff touches no test file and the rest of the policy
      holds. */
  lemma FailedReplayBinds(input: Input, later: Input, r: Artifact, d: Artifact)
    requires Extends(input, later)
    requires CurrentRun(input, OriginalTestsRun, r) && r.passed != Some(true)
    requires ChangeIsCurrent(later, d)
    ensures ChangePolicy(later) <==>
              !TouchesTests(d) && RunsPolicy(later) && (later.task.kind == Bugfix ==> FlipPolicy(later))
  {
    LoggedForever(input, later, OriginalTestsRun, r);
    assert Current(later.source, r) by { assert SameSHAs(r.sourceSHAs, later.source.shas); }
    assert CurrentRun(later, OriginalTestsRun, r) && !ReplayPolicy(later);
    PolicyOfCurrentChange(later, d);
  }

  // ---------- foreign artifacts do not interfere ----------

  /** The task's own part of the log. */
  ghost function OwnLog(t: Task, arts: seq<Artifact>): (own: seq<Artifact>)
    ensures |own| <= |arts|
  {
    if arts == [] then []
    else
      var n := |arts| - 1;
      OwnLog(t, arts[..n]) + if Own(t, arts[n]) then [arts[n]] else []
  }

  lemma TaggedStep(t: Task, o: Source, arts: seq<Artifact>, a: Artifact)
    ensures Tagged(t, o, arts + [a]) == Tagged(t, o, arts) + [EntryOf(t, o, a)]
  {
  }

  lemma {:induction false} OnlyOwnIsPicked(t: Task, o: Source, arts: seq<Artifact>, s: Slot)
    requires s != Foreign
    ensures Pick(Tagged(t, o, arts), s) == Pick(Tagged(t, o, OwnLog(t, arts)), s)
    ensures LastOf(Tagged(t, o, arts), s) == LastOf(Tagged(t, o, OwnLog(t, arts)), s)
  {
    if arts != [] {
      var n := |arts| - 1;
      var own := OwnLog(t, arts[..n]);
      OnlyOwnIsPicked(t, o, arts[..n], s);
      TaggedStep(t, o, arts[..n], arts[n]);
      assert arts[..n] + [arts[n]] == arts;
      PickStep(Tagged(t, o, arts[..n]), EntryOf(t, o, arts[n]), s);
      if Own(t, arts[n]) {
        TaggedStep(t, o, own, arts[n]);
        PickStep(Tagged(t, o, own), EntryOf(t, o, arts[n]), s);
      } else {
        assert own + [] == own;
      }
    }
  }

  lemma {:induction false} ForeignAreCounted(t: Task, o: Source, arts: seq<Artifact>)
    ensures |Pick(Tagged(t, o, arts), Foreign)| == |arts| - |OwnLog(t, arts)|
  {
    if arts != [] {
      var n := |arts| - 1;
      ForeignAreCounted(t, o, arts[..n]);
      PickTagged(t, o, arts, Foreign);
    }
  }

  lemma PickTagged(t: Task, o: Source, arts: seq<Artifact>, s: Slot)
    requires arts != []
    ensures var n := |arts| - 1;
            Pick(Tagged(t, o, arts), s) ==
            if SlotOf(t, o, arts[n]) == s then Pick(Tagged(t, o, arts[..n]), s) + [Normalized(arts[n])]
            else Pick(Tagged(t, o, arts[..n]), s)
  {
    var n := |arts| - 1;
    TaggedStep(t, o, arts[..n], arts[n]);
    assert arts[..n] + [arts[n]] == arts;
    PickStep(Tagged(t, o, arts[..n]), EntryOf(t, o, arts[n]), s);
  }

  lemma ViewIgnoresForeign(t: Task, o: Source, arts: seq<Artifact>)
    ensures Index(t, o, arts) ==
            Index(t, o, OwnLog(t, arts)).(ignored := |arts| - |OwnLog(t, arts)|)
  {
    ForeignAreCounted(t, o, arts);
    OnlyOwnIsPicked(t, o, arts, Baselines);
    OnlyOwnIsPicked(t, o, arts, StaleBase);
    OnlyOwnIsPicked(t, o, arts, Tests);
    OnlyOwnIsPicked(t, o, arts, StaleRuns);
    OnlyOwnIsPicked(t, o, arts, Replays);
    OnlyOwnIsPicked(t, o, arts, Integ);
    OnlyOwnIsPicked(t, o, arts, IntegBase);
    OnlyOwnIsPicked(t, o, arts, IntegOld);
    OnlyOwnIsPicked(t, o, arts, Diffs);
    OnlyOwnIsPicked(t, o, arts, Reviews);
    OnlyOwnIsPicked(t, o, arts, RootCauses);
  }

  /** Two logs with the same own artifacts, however many foreign ones are mixed in and
      wherever they stand, give the same claims, change summary, risks and verdict. Their
      gaps differ at most in the one line that counts the ignored artifacts. */
  lemma ForeignDoesNotInterfere(input: Input, other: Input)
    requires other == input.(artifacts := other.artifacts)
    requires OwnLog(input.task, input.artifacts) == OwnLog(input.task, other.artifacts)
    ensures var p, q := PacketOf(input), PacketOf(other);
      && p == q.(gaps := p.gaps)
      && var m: nat, n: nat := |input.artifacts| - |OwnLog(input.task, input.artifacts)|,
                               |other.artifacts| - |OwnLog(input.task, other.artifacts)|;
         exists before, after :: Around(p.gaps, before, m, after) && Around(q.gaps, before, n, after)
  {
    var v, w := ViewIn(input), ViewIn(other);
    ViewIgnoresForeign(input.task, input.source, input.artifacts);
    ViewIgnoresForeign(input.task, input.source, other.artifacts);
    assert v == w.(ignored := v.ignored);
    SameClaims(input, v, w);
    assert ClaimsOf(other, w) == ClaimsOf(input, w);
    SamePacket(input, other, v, w, ChangeOf(v), ClaimsOf(input, v));
    SameGaps(input.source, v, w, ClaimsOf(input, v));
  }

  /** `gaps` is the same list around one line that counts `n` ignored artifacts, if any. */
  ghost predicate Around(gaps: seq<Gap>, before: seq<Gap>, n: nat, after: seq<Gap>) {
    gaps == before + (if n > 0 then [IgnoredGap(n)] else []) + after
  }

  lemma SameClaims(input: Input, v: View, w: View)
    requires v == w.(ignored := v.ignored)
    ensures ClaimsOf(input, v) == ClaimsOf(input, w) && ChangeOf(v) == ChangeOf(w)
    ensures ReviewRisks(v) == ReviewRisks(w) && EvidenceGaps(input.source, v) == EvidenceGaps(input.source, w)
  {
    SameClaim(input, v, w, FlipOf(input.task, v), ChangeOf(v).testFiles);
  }

  lemma SameClaim(input: Input, v: View, w: View, flip: Option<seq<string>>, testFiles: seq<string>)
    requires v == w.(ignored := v.ignored)
    ensures ReproducedClaim(input.task, v) == ReproducedClaim(input.task, w)
    ensures RootCauseClaim(input.task, v, input.existing, flip) == RootCauseClaim(input.task, w, input.existing, flip)
    ensures ChangeClaim(input.task, input.source, v, testFiles, flip)
            == ChangeClaim(input.task, input.source, w, testFiles, flip)
    ensures ChallengeClaim(input.source, v) == ChallengeClaim(input.source, w)
    ensures IntegrationClaim(input.integrationConfigured, v) == IntegrationClaim(input.integrationConfigured, w)
  {
    assert forall r :: NotIndependent(v, r) == NotIndependent(w, r);
  }

  lemma SameGaps(o: Source, v: View, w: View, claims: seq<Claim>)
    requires EvidenceGaps(o, v) == EvidenceGaps(o, w)
    ensures exists before, after ::
      Around(GapsOf(o, v, claims), before, v.ignored, after) && Around(GapsOf(o, w, claims), before, w.ignored, after)
  {
    var before := ClaimGaps(claims) + EvidenceGaps(o, v);
    var after := if o.unknown then [UnobservedGap] else [];
    assert Around(GapsOf(o, v, claims), before, v.ignored, after);
    assert Around(GapsOf(o, w, claims), before, w.ignored, after);
  }

  lemma SamePacket(input: Input, other: Input, v: View, w: View, change: ChangeSummary, claims: seq<Claim>)
    requires other == input.(artifacts := other.artifacts)
    requires ReviewRisks(v) == ReviewRisks(w)
    ensures var p, q := PacketFrom(input, v, change, claims), PacketFrom(other, w, change, claims);
      p == q.(gaps := p.gaps) && p.gaps == GapsOf(input.source, v, claims) && q.gaps == GapsOf(input.source, w, claims)
  {
    assert UnsortedRisks(input, v, change.testFiles) == UnsortedRisks(other, w, change.testFiles);
  }

  // ---------- where the stickiness and the reproduction policy end ----------

  const Here: SHAs := map["r" := "h"]

  const Observed := Artifact(
    "a", "t", OtherKind, "", Here, false, "r", "go test", None, false, false, false, None, false,
    [], "", OtherVerdict, NoOutcome, [], [], [], "", None, "", map[])

  const EditsTests := Observed.(kind := Diff, files := ["test_"])
  const Passes := Observed.(kind := TestRun, passed := Some(true))
  const ReplayFailed := Observed.(kind := OriginalTestsRun, passed := Some(false))
  const EditsMore := Observed.(kind := Diff, files := ["m"])

  lemma {:induction false} NoSlash(s: string)
    requires '/' !in s
    ensures Text.AfterLastSlash(s) == s && Text.TrimSlashes(s) == s
  {
    if s != "" {
      assert s[|s| - 1] in s;
      NoSlash(s[..|s| - 1]);
    }
  }

  lemma BaseOfName()
    ensures Text.Base("test_") == "test_" && Text.Base("m") == "m"
  {
    NoSlash("test_");
    NoSlash("m");
  }

  lemma LowerOfName()
    ensures Text.Lower("test_") == "test_" && Text.Lower("m") == "m"
  {
    assert "test_"[1..] == "est_" && "est_"[1..] == "st_" && "st_"[1..] == "t_" && "t_"[1..] == "_";
    assert Text.Lower("t_") == "t_";
    assert Text.Lower("est_") == "est_";
    assert "m"[1..] == "";
  }

  lemma TestsAreTouched()
    ensures TouchesTests(EditsTests) && !TouchesTests(EditsMore)
  {
    BaseOfName();
    LowerOfName();
    assert "test_" in EditsTests.files;
  }

  lemma ObservedHere(input: Input, x: Artifact)
    requires x in input.artifacts && x.taskID == input.task.id && x.worktreeRoot == "" && !x.testsParsed
    requires x.sourceSHAs == Here && !x.sourceDirty && input.source == Source(Here, false, false)
    ensures Filed(input, x.kind, x) && CurrentRun(input, x.kind, x)
  {
    assert Normalized(x) == x && SameSHAs(Here, Here);
  }

  lemma ShortLog(input: Input)
    requires input.task.kind == Change && input.task.id == "t" && input.source == Source(Here, false, false)
    requires input.artifacts == [EditsTests, Passes, ReplayFailed]
    ensures RunsPolicy(input) && ChangeIsCurrent(input, EditsTests) && CurrentRun(input, OriginalTestsRun, ReplayFailed)
  {
    var log := input.artifacts;
    assert log[0] == EditsTests && log[1] == Passes && log[2] == ReplayFailed;
    ObservedHere(input, Passes);
    ObservedHere(input, ReplayFailed);
    ObservedHere(input, EditsTests);
    OnlyPasses(input);
    assert LatestAt(input, Diff, EditsTests, 0);
  }

  lemma OnlyPasses(input: Input)
    requires input.artifacts == [EditsTests, Passes, ReplayFailed]
    ensures forall a :: CurrentRun(input, TestRun, a) ==> CleanPass(a)
  {
    forall a | CurrentRun(input, TestRun, a) ensures CleanPass(a) {
      var x :| x in input.artifacts && Filed(input, TestRun, x) && a == Normalized(x);
      assert x == Passes;
    }
  }

  /** Such logs exist: a failed replay, then a diff of one more file on the same code. */
  lemma ReplayIsForgotten(input: Input)
    requires input.task.kind == Change && input.task.id == "t" && input.source == Source(Here, false, false)
    requires input.artifacts == [EditsTests, Passes, ReplayFailed]
    ensures var later := input.(artifacts := input.artifacts + [EditsMore]);
      ChangeIn(input, ViewIn(input)).status == Contradicted && ChangeIn(later, ViewIn(later)).status == Supported
  {
    ShortLog(input);
    TestsAreTouched();
    var later := input.(artifacts := input.artifacts + [EditsMore]);
    assert ContradictedPolicy(input) by { assert RunsContradict(input, TouchesTests(EditsTests)); }
    assert Current(input.source, EditsMore) by { assert SameSHAs(Here, Here); }
    SameRuns(input, EditsMore);
    NewestDiff(input, EditsMore);
    FailedReplayBinds(input, later, ReplayFailed, EditsMore);
    ViewRepresents(input);
    ViewRepresents(later);
    ChangeVerifiedExact(input, ViewIn(input));
    ChangeVerifiedExact(later, ViewIn(later));
  }

  lemma NewestDiff(input: Input, e: Artifact)
    requires Filed(input, Diff, e) && Normalized(e) == e && e.files != [] && Current(input.source, e)
    ensures ChangeIsCurrent(input.(artifacts := input.artifacts + [e]), e)
  {
    var later := input.(artifacts := input.artifacts + [e]);
    assert later.artifacts[|input.artifacts|] == e;
    assert LatestAt(later, Diff, e, |input.artifacts|);
  }

  lemma SameRuns(input: Input, e: Artifact)
    requires e.kind == Diff
    ensures RunsPolicy(input.(artifacts := input.artifacts + [e])) <==> RunsPolicy(input)
  {
    var later := input.(artifacts := input.artifacts + [e]);
    forall a ensures CurrentRun(later, TestRun, a) <==> CurrentRun(input, TestRun, a) {
      if x :| x in later.artifacts && Filed(later, TestRun, x) && a == Normalized(x) {
        assert x in input.artifacts;
      }
      if x :| x in input.artifacts && Filed(input, TestRun, x) && a == Normalized(x) {
        assert x in later.artifacts && Filed(later, TestRun, x);
      }
    }
  }

  const BaseRevision: SHAs := map["r" := "b"]

  const Unrecorded := Artifact(
    "a", "t", BaselineRun, "", BaseRevision, false, "r", "go test", None, false, false, false, None, false,
    [], "", OtherVerdict, NoOutcome, [], [], [], "", None, "", map[])

  /** Such a log exists: one baseline without a recorded outcome is SUPPORTED as a
      reproduction although nothing failed. `ReproducedExact` says when that happens. */
  lemma UnrecordedOutcomeIsReproduced(input: Input)
    requires input.task.kind == Bugfix && input.task.id == "t" && input.task.reproCommand == ""
    requires input.task.baseSHAs == BaseRevision
    requires input.artifacts == [Unrecorded]
    ensures ReproducedClaim(input.task, ViewIn(input)).status == Supported
    ensures UnrecordedFailure(input) && !ReproPolicy(input)
  {
    UnrecordedIsBase(input);
    OnlyBaseSpeaks(input, Unrecorded);
    assert Normalized(Unrecorded) == Unrecorded && CountsAsFailure(Unrecorded);
    ReproducedExact(input, ViewIn(input));
  }

  lemma UnrecordedIsBase(input: Input)
    requires input.task.id == "t" && input.task.reproCommand == "" && input.task.baseSHAs == BaseRevision
    ensures BaseRepro(input, Unrecorded) && !FailedRepro(input, Unrecorded)
  {
  }

  lemma OnlyBaseSpeaks(input: Input, x: Artifact)
    requires input.artifacts == [x] && BaseRepro(input, x) && !FailedRepro(input, x)
    ensures Speaks(input, 0)
    ensures forall n: nat :: n < |input.artifacts| ==> !FailedRepro(input, input.artifacts[n])
  {
    assert input.artifacts[0] == x;
  }

  // ---------- risks ----------

  lemma {:induction false} OfRankConcat(xs: seq<Risk>, ys: seq<Risk>, k: nat)
    ensures OfRank(xs + ys, k) == OfRank(xs, k) + OfRank(ys, k)
    decreases |ys|
  {
    if ys == [] {
      assert xs + ys == xs;
    } else {
      var n := |ys| - 1;
      assert (xs + ys)[..|xs + ys| - 1] == xs + ys[..n];
      OfRankConcat(xs, ys[..n], k);
    }
  }

  /** `x` for the rank it belongs to, nothing for the others. */
  function Only(x: seq<Risk>, j: nat, k: nat): seq<Risk> {
    if j == k then x else []
  }

  lemma {:induction false} OfRankTwice(rs: seq<Risk>, j: nat, k: nat)
    ensures OfRank(OfRank(rs, j), k) == Only(OfRank(rs, k), j, k)
  {
    if rs != [] {
      var n := |rs| - 1;
      OfRankTwice(rs[..n], j, k);
      if SeverityRank(rs[n].severity) == j {
        OfRankConcat(OfRank(rs[..n], j), [rs[n]], k);
        OfRankOne(rs[n], k);
      } else {
        assert OfRank(rs, j) == OfRank(rs[..n], j);
      }
    }
  }

  lemma {:induction false} OfRankOne(r: Risk, k: nat)
    ensures OfRank([r], k) == if SeverityRank(r.severity) == k then [r] else []
  {
    assert [r][..0] == [];
  }

  lemma OnlyOne(x: seq<Risk>, k: nat)
    ensures Only(x, 0, k) + Only(x, 1, k) + Only(x, 2, k) + Only(x, 3, k) == if k <= 3 then x else []
  {
  }

  lemma {:induction false} OfRankOfFour(a: seq<Risk>, b: seq<Risk>, c: seq<Risk>, d: seq<Risk>, k: nat, x: seq<Risk>)
    requires OfRank(a, k) == Only(x, 0, k) && OfRank(b, k) == Only(x, 1, k)
    requires OfRank(c, k) == Only(x, 2, k) && OfRank(d, k) == Only(x, 3, k)
    ensures OfRank(a + b + c + d, k) == if k <= 3 then x else []
  {
    OfRankConcat(a + b + c, d, k);
    OfRankConcat(a + b, c, k);
    OfRankConcat(a, b, k);
    OnlyOne(x, k);
  }

  /** The sort is stable: the risks of one severity stand in the order they were found. */
  lemma {:induction false} SortIsStable(rs: seq<Risk>, k: nat)
    ensures OfRank(BySeverity(rs), k) == OfRank(rs, k)
  {
    OfRankTwice(rs, 0, k);
    OfRankTwice(rs, 1, k);
    OfRankTwice(rs, 2, k);
    OfRankTwice(rs, 3, k);
    OfRankOfFour(OfRank(rs, 0), OfRank(rs, 1), OfRank(rs, 2), OfRank(rs, 3), k, OfRank(rs, k));
    if k > 3 { NoHigherRank(rs, k); }
  }

  lemma {:induction false} NoHigherRank(rs: seq<Risk>, k: nat)
    requires k > 3
    ensures OfRank(rs, k) == []
  {
    if rs != [] { NoHigherRank(rs[..|rs| - 1], k); }
  }

  ghost function Ranked(rs: seq<Risk>): multiset<Risk> {
    multiset(OfRank(rs, 0)) + multiset(OfRank(rs, 1)) + multiset(OfRank(rs, 2)) + multiset(OfRank(rs, 3))
  }

  lemma {:induction false} OfRankSnoc(rs: seq<Risk>, k: nat)
    requires rs != []
    ensures var r := rs[|rs| - 1];
      multiset(OfRank(rs, k))
      == multiset(OfRank(rs[..|rs| - 1], k)) + if SeverityRank(r.severity) == k then multiset{r} else multiset{}
  {
  }

  lemma {:induction false} RanksPartition(rs: seq<Risk>)
    ensures Ranked(rs) == multiset(rs)
  {
    if rs != [] {
      var n := |rs| - 1;
      RanksPartition(rs[..n]);
      assert rs == rs[..n] + [rs[n]];
      OfRankSnoc(rs, 0);
      OfRankSnoc(rs, 1);
      OfRankSnoc(rs, 2);
      OfRankSnoc(rs, 3);
    }
  }

  /** Every risk is listed exactly as often as it was found. */
  lemma {:induction false} SortKeepsRisks(rs: seq<Risk>)
    ensures multiset(BySeverity(rs)) == multiset(rs) && |BySeverity(rs)| == |rs|
  {
    RanksPartition(rs);
    var s := BySeverity(rs);
    assert multiset(s) == Ranked(rs);
    assert |multiset(s)| == |s| && |multiset(rs)| == |rs|;
  }

  predicate Ascending(rs: seq<Risk>) {
    forall i, j | 0 <= i < j < |rs| :: SeverityRank(rs[i].severity) <= SeverityRank(rs[j].severity)
  }

  predicate AllOfRank(rs: seq<Risk>, lo: nat, hi: nat) {
    forall r | r in rs :: lo <= SeverityRank(r.severity) <= hi
  }

  lemma {:induction false} OfRankIs(rs: seq<Risk>, k: nat)
    ensures AllOfRank(OfRank(rs, k), k, k)
  {
    if rs != [] { OfRankIs(rs[..|rs| - 1], k); }
  }

  lemma {:induction false} JoinAscending(xs: seq<Risk>, ys: seq<Risk>, k: nat)
    requires Ascending(xs) && AllOfRank(xs, 0, k) && AllOfRank(ys, k + 1, k + 1)
    ensures Ascending(xs + ys) && AllOfRank(xs + ys, 0, k + 1)
  {
    var all := xs + ys;
    forall i, j | 0 <= i < j < |all| ensures SeverityRank(all[i].severity) <= SeverityRank(all[j].severity) {
      assert i >= |xs| ==> all[i] in ys;
      assert i < |xs| ==> all[i] in xs;
      assert j >= |xs| ==> all[j] in ys;
    }
  }

  /** The packet lists the most severe risks first. */
  lemma {:induction false} RisksBySeverity(rs: seq<Risk>)
    ensures Ascending(BySeverity(rs))
  {
    var a, b, c, d := OfRank(rs, 0), OfRank(rs, 1), OfRank(rs, 2), OfRank(rs, 3);
    OfRankIs(rs, 0);
    OfRankIs(rs, 1);
    OfRankIs(rs, 2);
    OfRankIs(rs, 3);
    assert Ascending(a) by { forall i | 0 <= i < |a| ensures SeverityRank(a[i].severity) == 0 { assert a[i] in a; } }
    JoinAscending(a, b, 0);
    JoinAscending(a + b, c, 1);
    JoinAscending(a + b + c, d, 2);
  }
}
