/** What else a packet tells its reader: why each claim was concluded as it was, which
    artifacts it cites, and what the gaps, contradictions, risks and the confidence are. */
module ProofDetails {
  import opened Domain
  import opened ProofSpec
  import opened ProofPolicy
  import opened ProofGuarantees
  import opened ProofPromise
  import opened ProofVerdicts
  import Text

  // ---------- the six claims ----------

  /** A fixed order; those about a bug and about services are core only for a bugfix or a
      configured check. */
  predicate InOrder(cs: seq<Claim>, bugfix: bool, configured: bool) {
    && |cs| == 6
    && cs[0].ctype == ProblemReproduced && cs[1].ctype == RootCauseSupported && cs[2].ctype == ChangeVerified
    && cs[3].ctype == IndependentChallenge && cs[4].ctype == IntegrationChecked && cs[5].ctype == CrossServiceImpact
    && (cs[0].core <==> bugfix) && (cs[1].core <==> bugfix) && cs[2].core && cs[3].core
    && (cs[4].core <==> configured) && !cs[5].core
  }

  /** The six claims; what is asked of a bugfix or of services says nothing elsewhere. */
  lemma SixClaims(input: Input, v: View)
    ensures var cs := ClaimsOf(input, v);
      && InOrder(cs, input.task.kind == Bugfix, input.integrationConfigured)
      && (!cs[0].core ==> cs[0].status == Insufficient) && (!cs[4].core ==> cs[4].status == Insufficient)
      && cs[5].status == Insufficient
  {
    var flip, testFiles := FlipOf(input.task, v), ChangeOf(v).testFiles;
    ChangeClaimIs(input.task, input.source, v, testFiles, flip);
    OtherClaimsAre(input, v, flip);
    OrderIs(ReproducedClaim(input.task, v), RootCauseClaim(input.task, v, input.existing, flip),
            ChangeClaim(input.task, input.source, v, testFiles, flip), ChallengeClaim(input.source, v),
            IntegrationClaim(input.integrationConfigured, v),
            Concluded(CrossServiceImpact, false, CrossServiceUnchecked, []),
            input.task.kind == Bugfix, input.integrationConfigured);
  }

  lemma OrderIs(a: Claim, b: Claim, c: Claim, d: Claim, e: Claim, f: Claim, bugfix: bool, configured: bool)
    requires a.ctype == ProblemReproduced && (a.core <==> bugfix) && b.ctype == RootCauseSupported && (b.core <==> bugfix)
    requires c.ctype == ChangeVerified && c.core && d.ctype == IndependentChallenge && d.core
    requires e.ctype == IntegrationChecked && (e.core <==> configured) && f.ctype == CrossServiceImpact && !f.core
    ensures InOrder([a, b, c, d, e, f], bugfix, configured)
  {
  }

  lemma ChangeClaimIs(t: Task, o: Source, v: View, testFiles: seq<string>, flip: Option<seq<string>>)
    ensures var c := ChangeClaim(t, o, v, testFiles, flip); c.ctype == ChangeVerified && c.core
  {
  }

  lemma OtherClaimsAre(input: Input, v: View, flip: Option<seq<string>>)
    ensures var c := ReproducedClaim(input.task, v);
      c.ctype == ProblemReproduced && (c.core <==> input.task.kind == Bugfix) && (!c.core ==> c.status == Insufficient)
    ensures var c := RootCauseClaim(input.task, v, input.existing, flip);
      c.ctype == RootCauseSupported && (c.core <==> input.task.kind == Bugfix)
    ensures var c := ChallengeClaim(input.source, v); c.ctype == IndependentChallenge && c.core
    ensures var c := IntegrationClaim(input.integrationConfigured, v);
      c.ctype == IntegrationChecked && (c.core <==> input.integrationConfigured) && (!c.core ==> c.status == Insufficient)
  {
  }

  // ---------- why ----------

  lemma ReproductionReasons(t: Task, a: Artifact)
    ensures var r, green := ReproReason(t, a), a.passed == Some(true);
      && (r == BaselineRanNothing <==> green && a.tests == Some([]))
      && (r == BaselineGreen <==> green && a.tests != Some([]) && t.reproCommand == "")
      && (r == ReproGreen <==> green && a.tests != Some([]) && t.reproCommand != "")
      && (r == BaselineTruncated <==> !green && a.truncated)
      && (r == BaselineTimedOut <==> !green && !a.truncated && a.timedOut)
      && (r == BaselineFails <==> !green && !a.truncated && !a.timedOut && (a.tests.Some? ==> HasFailingTest(a)))
  {
  }

  /** No reproduction on the recorded base: one on another base, or none at all. */
  lemma NoReproductionReasons(t: Task, v: View)
    ensures var r := ReproducedClaim(t, v).reason;
      && (r == NotABugfix <==> t.kind != Bugfix)
      && (r == BaselineElsewhere <==> t.kind == Bugfix && Repro(t, v.baselines) == [] && v.staleBase != [])
      && (r == NoBaseline <==> t.kind == Bugfix && Repro(t, v.baselines) == [] && v.staleBase == [])
  {
  }

  /** The problems of a hypothesis, each for its own reason. */
  lemma ProblemsAre(file: string, diff: Option<Artifact>, existing: Option<set<string>>, flip: bool)
    ensures var ps := RootCauseProblems(file, diff, existing, flip);
      && (NamesNoFile in ps <==> file == "")
      && (FileMissing in ps <==> file != "" && existing.Some? && file !in existing.value)
      && (FixElsewhere in ps <==> file != "" && (diff.None? || file !in diff.value.files))
      && (NoFlip in ps <==> !flip)
  {
  }

  lemma RootCauseReasons(t: Task, v: View, existing: Option<set<string>>, flip: Option<seq<string>>)
    ensures var r, h := RootCauseClaim(t, v, existing, flip).reason, v.rootCause;
      && (r == NoHypothesis <==>
            h.None? || h.value.rootCause.None? || Text.Blank(h.value.rootCause.value.statement))
      && (r.NotCrossChecked? ==>
            r.problems == RootCauseProblems(h.value.rootCause.value.file, v.diff, existing, flip.Some?)
            && r.problems != [])
      && (r == NoHypothesis || r.NotCrossChecked? || r == CrossChecked)
  {
  }

  /** Two runs of one command in one repository: one passes, the other does not. */
  predicate Disagreement(tests: seq<Artifact>) {
    exists x, y | x in tests && y in tests ::
      && x.repo + "|" + x.command == y.repo + "|" + y.command
      && x.passed == Some(true) && !x.timedOut && (y.passed != Some(true) || y.timedOut)
  }

  predicate Failure(tests: seq<Artifact>) {
    exists y | y in tests :: y.passed != Some(true) || y.timedOut
  }

  lemma TroubleReasons(tests: seq<Artifact>)
    ensures var r := RunTrouble(tests);
      var cut, idle := exists x | x in tests :: x.truncated, exists x | x in tests :: x.tests == Some([]);
      && (r == Some(Flaky) <==> Disagreement(tests))
      && (r == Some(RunFails) <==> Failure(tests) && !Disagreement(tests))
      && (r == Some(RunTruncated) <==> !Failure(tests) && cut)
      && (r == Some(NothingExecuted) <==> !Failure(tests) && !cut && idle)
      && (r == None <==> !Failure(tests) && !cut && !idle)
  {
    DisagreementIs(tests);
    FailureIs(tests);
  }

  lemma DisagreementIs(tests: seq<Artifact>)
    ensures (exists x, y | x in tests && y in tests :: Disagree(x, y)) <==> Disagreement(tests)
    ensures Disagreement(tests) ==> Failure(tests)
  {
    if x, y :| x in tests && y in tests && Disagree(x, y) {
      assert x.repo + "|" + x.command == y.repo + "|" + y.command;
    }
    if Disagreement(tests) {
      var x, y :| x in tests && y in tests
        && x.repo + "|" + x.command == y.repo + "|" + y.command
        && x.passed == Some(true) && !x.timedOut && (y.passed != Some(true) || y.timedOut);
      assert Disagree(x, y);
    }
  }

  lemma FailureIs(tests: seq<Artifact>)
    ensures (exists x | x in tests :: !RunOK(x)) <==> Failure(tests)
  {
  }

  /** Why a change is not verified before its runs are looked at. */
  lemma EarlyReasons(t: Task, o: Source, v: View, testFiles: seq<string>, flip: Option<seq<string>>)
    ensures var r, d := ChangeClaim(t, o, v, testFiles, flip).reason, v.diff;
      var made := d.Some? && d.value.files != [];
      && (r == NoChange <==> !made)
      && (r == DirtyTree <==> made && o.dirty)
      && (r == DiffElsewhere <==> made && !o.dirty && !Current(o, d.value))
      && (r == RunsElsewhere <==> made && Current(o, d.value) && v.tests == [] && v.staleRuns != [])
      && (r == NoRuns <==> made && Current(o, d.value) && v.tests == [] && v.staleRuns == [])
  {
    if v.diff.Some? && v.diff.value.files != [] && Current(o, v.diff.value) && v.tests != [] {
      TroubleReasons(v.tests);
      if RunTrouble(v.tests).None? {
        LateReasons(t, v, testFiles, flip, [v.diff.value.id] + Ids(v.tests));
      } else {
        NamedTrouble(v.tests);
      }
    }
  }

  lemma NamedTrouble(tests: seq<Artifact>)
    ensures RunTrouble(tests) in {None, Some(Flaky), Some(RunFails), Some(RunTruncated), Some(NothingExecuted)}
  {
  }

  /** And after: what the replays and the fix say. */
  lemma LateReasons(t: Task, v: View, testFiles: seq<string>, flip: Option<seq<string>>, ids: seq<string>)
    ensures var r := ReplayedClaim(t, v, testFiles, flip, ids).reason;
      var replayed := testFiles == [] || (v.replays != [] && forall a | a in v.replays :: a.passed == Some(true));
      && (r == NoReplay <==> testFiles != [] && v.replays == [])
      && (r == ReplayFails <==> testFiles != [] && exists a | a in v.replays :: a.passed != Some(true))
      && (r == CommandsPass <==> replayed && t.kind != Bugfix)
      && (r == FlipConfirmed <==> replayed && t.kind == Bugfix && flip.Some?)
      && (r == NoBaselineFailure <==> replayed && t.kind == Bugfix && flip.None? && Repro(t, v.baselines) == [])
      && (r == FlipIncomplete <==> replayed && t.kind == Bugfix && flip.None? && Repro(t, v.baselines) != [])
  {
    if v.replays != [] { assert v.replays[0] in v.replays; }
  }

  /** The first objection to a review, in this order. */
  lemma ReviewReasons(o: Source, v: View)
    ensures var reason, r := ChallengeClaim(o, v).reason, v.review;
      && (reason == NoReview <==> r.None?)
      && (reason == ReviewElsewhere <==> r.Some? && !Current(o, r.value))
      && (reason == ChangesAsked <==> r.Some? && Current(o, r.value) && r.value.verdict != Approve)
      && (r.Some? && Current(o, r.value) && r.value.verdict == Approve ==>
            if !Text.Blank(r.value.counterexample) then reason == CounterexampleFound
            else if exists f | f in r.value.findings :: f.severity == "high" then reason == HighFinding
            else if v.diff.Some? && (v.diff.value.model in {"", r.value.model} || r.value.model == "")
            then reason == SameModel
            else reason == if r.value.checked == [] then NothingChecked else NoCounterexample)
  {
  }

  // ---------- which artifacts ----------

  function IdsOf(arts: seq<Artifact>): seq<string> {
    seq(|arts|, i requires 0 <= i < |arts| => arts[i].id)
  }

  lemma {:induction false} IdsAre(arts: seq<Artifact>)
    ensures Ids(arts) == IdsOf(arts)
  {
    if arts != [] {
      var n := |arts| - 1;
      IdsAre(arts[..n]);
      assert IdsOf(arts) == IdsOf(arts[..n]) + [arts[n].id];
    }
  }

  /** The pair that is cited for a fix: the first base failure that is fixed at all, and the
      first run that fixes it. */
  predicate CitesFirst(bases: seq<Artifact>, tests: seq<Artifact>, i: nat, j: nat) {
    && i < |bases| && j < |tests| && Confirms(bases[i], tests[j])
    && (forall k | 0 <= k < j :: !Confirms(bases[i], tests[k]))
    && forall h, k | 0 <= h < i && 0 <= k < |tests| :: !Confirms(bases[h], tests[k])
  }

  lemma {:induction false} FirstAfterIs(base: Artifact, tests: seq<Artifact>, j: nat)
    requires j < |tests| && Confirms(base, tests[j]) && forall k | 0 <= k < j :: !Confirms(base, tests[k])
    ensures FirstAfter(base, tests) == Some([base.id, tests[j].id])
    decreases |tests|
  {
    var n := |tests| - 1;
    if j < n {
      FirstAfterIs(base, tests[..n], j);
    } else {
      NoneAfter(base, tests[..n]);
    }
  }

  lemma {:induction false} NoneAfter(base: Artifact, tests: seq<Artifact>)
    requires forall k | 0 <= k < |tests| :: !Confirms(base, tests[k])
    ensures FirstAfter(base, tests).None?
  {
    if tests != [] { NoneAfter(base, tests[..|tests| - 1]); }
  }

  lemma {:induction false} FlipCites(bases: seq<Artifact>, tests: seq<Artifact>, i: nat, j: nat)
    requires CitesFirst(bases, tests, i, j)
    ensures FirstFlip(bases, tests) == Some([bases[i].id, tests[j].id])
    decreases |bases|
  {
    var n := |bases| - 1;
    if i < n {
      FlipCites(bases[..n], tests, i, j);
    } else {
      NoFlipBefore(bases[..n], tests);
      FirstAfterIs(bases[n], tests, j);
    }
  }

  lemma {:induction false} NoFlipBefore(bases: seq<Artifact>, tests: seq<Artifact>)
    requires forall h, k | 0 <= h < |bases| && 0 <= k < |tests| :: !Confirms(bases[h], tests[k])
    ensures FirstFlip(bases, tests).None?
  {
    if bases != [] {
      var n := |bases| - 1;
      NoFlipBefore(bases[..n], tests);
      forall k | 0 <= k < |tests| ensures !Confirms(bases[n], tests[k]) {}
      NoneAfter(bases[n], tests);
    }
  }

  /** A claim about the reproduction cites the base runs it is about. */
  lemma ReproductionCites(t: Task, v: View)
    ensures ReproducedClaim(t, v).artifactIDs ==
            if t.kind != Bugfix then IdsOf(v.baselines)
            else if Repro(t, v.baselines) == [] then IdsOf(v.staleBase) else IdsOf(Repro(t, v.baselines))
  {
    IdsAre(v.baselines);
    IdsAre(v.staleBase);
    IdsAre(Repro(t, v.baselines));
  }

  /** A verified change cites the change, every run, the replays it needed and the fix. */
  lemma ChangeCites(t: Task, o: Source, v: View, testFiles: seq<string>, flip: Option<seq<string>>)
    requires ChangeClaim(t, o, v, testFiles, flip).status == Supported
    ensures v.diff.Some?
    ensures ChangeClaim(t, o, v, testFiles, flip).artifactIDs ==
            [v.diff.value.id] + IdsOf(v.tests) + (if testFiles == [] then [] else IdsOf(v.replays))
            + (if t.kind == Bugfix && flip.Some? then flip.value else [])
  {
    IdsAre(v.tests);
    IdsAre(v.replays);
    SupportedChange(t, o, v, testFiles, flip);
    ReplayedCites(t, v, testFiles, flip, [v.diff.value.id] + Ids(v.tests));
  }

  lemma SupportedChange(t: Task, o: Source, v: View, testFiles: seq<string>, flip: Option<seq<string>>)
    requires ChangeClaim(t, o, v, testFiles, flip).status == Supported
    ensures v.diff.Some?
    ensures ChangeClaim(t, o, v, testFiles, flip)
            == ReplayedClaim(t, v, testFiles, flip, [v.diff.value.id] + Ids(v.tests))
  {
    if v.diff.Some? && v.diff.value.files != [] && Current(o, v.diff.value) {
      if v.tests != [] && RunTrouble(v.tests).None? {
        ChangeWithRuns(t, o, v, v.diff.value, testFiles, flip);
      } else {
        ChangeWithoutRuns(t, o, v, v.diff.value, testFiles, flip);
      }
    } else {
      UnsupportedChange(t, o, v, testFiles, flip);
    }
  }

  lemma ReplayedCites(t: Task, v: View, testFiles: seq<string>, flip: Option<seq<string>>, ids: seq<string>)
    requires ReplayedClaim(t, v, testFiles, flip, ids).status == Supported
    ensures ReplayedClaim(t, v, testFiles, flip, ids).artifactIDs ==
            ids + (if testFiles == [] then [] else Ids(v.replays))
            + (if t.kind == Bugfix && flip.Some? then flip.value else [])
  {
  }

  /** A change whose runs say no cites them, and one without current runs the old ones. */
  lemma TroubleCites(t: Task, o: Source, v: View, testFiles: seq<string>, flip: Option<seq<string>>)
    requires v.diff.Some? && v.diff.value.files != [] && Current(o, v.diff.value)
    ensures v.tests == [] ==> ChangeClaim(t, o, v, testFiles, flip).artifactIDs
                              == [v.diff.value.id] + IdsOf(v.staleRuns)
    ensures v.tests != [] && RunTrouble(v.tests).Some? ==>
              ChangeClaim(t, o, v, testFiles, flip).artifactIDs == [v.diff.value.id] + IdsOf(v.tests)
  {
    IdsAre(v.tests);
    IdsAre(v.staleRuns);
  }

  lemma OthersCite(input: Input, v: View, flip: Option<seq<string>>)
    ensures v.review.Some? ==> ChallengeClaim(input.source, v).artifactIDs == [v.review.value.id]
    ensures var c := RootCauseClaim(input.task, v, input.existing, flip);
      c.reason != NoHypothesis ==>
        v.rootCause.Some?
        && c.artifactIDs == [v.rootCause.value.id] + (if v.diff.Some? then [v.diff.value.id] else [])
                            + (if flip.Some? then flip.value else [])
  {
  }

  lemma IntegrationCites(v: View)
    ensures var c := IntegrationClaim(true, v);
      && (v.integ == [] ==> c.artifactIDs == IdsOf(v.integOld))
      && (v.integ != [] && c.status != Supported ==> c.artifactIDs == IdsOf(v.integ))
      && (c.status == Supported ==> c.artifactIDs == IdsOf(v.integ) + FailedBefore(v.integBase))
  {
    IdsAre(v.integ);
    IdsAre(v.integOld);
    if v.integ != [] { TroubleStatus(v.integ); }
  }

  lemma {:induction false} TroubleStatus(runs: seq<Artifact>)
    ensures FirstIntegrationTrouble(runs).Some? ==> FirstIntegrationTrouble(runs).value.Status() != Supported
  {
    if runs != [] { TroubleStatus(runs[..|runs| - 1]); }
  }

  /** The runs of the service before the change: those of the recorded base. */
  lemma RunsBefore(input: Input, a: Artifact)
    ensures a in ViewIn(input).integBase <==>
            exists x | x in input.artifacts ::
              RunBefore(input, x) && a == Normalized(x)
  {
    InSlot(input, IntegBase, a);
    forall x | x in input.artifacts
      ensures EntryOf(input.task, input.source, x) == Entry(IntegBase, a) <==>
              RunBefore(input, x) && a == Normalized(x)
    {
      BeforeSlot(input, x);
    }
  }

  predicate RunBefore(input: Input, x: Artifact) {
    Mine(input.task, x) && x.kind == IntegrationRun && SeenOnBase(input.task, x) && !SeenNow(input.source, x)
  }

  lemma BeforeSlot(input: Input, x: Artifact)
    ensures SlotOf(input.task, input.source, x) == IntegBase <==> RunBefore(input, x)
  {
    MineIsOwn(input.task, x);
    SeenOnBaseIs(input.task, x);
    SeenNowIs(input.source, x);
  }

  /** The service's behaviour before the change is cited when it failed then: its first failure. */
  lemma {:induction false} FailedBeforeIs(runs: seq<Artifact>, i: nat)
    requires i < |runs| && runs[i].passed == Some(false) && forall j | 0 <= j < i :: runs[j].passed != Some(false)
    ensures FailedBefore(runs) == [runs[i].id]
    decreases |runs|
  {
    var n := |runs| - 1;
    if i < n { FailedBeforeIs(runs[..n], i); } else { NeverFailedBefore(runs[..n]); }
  }

  lemma {:induction false} NeverFailedBefore(runs: seq<Artifact>)
    requires forall j | 0 <= j < |runs| :: runs[j].passed != Some(false)
    ensures FailedBefore(runs) == []
  {
    if runs != [] { NeverFailedBefore(runs[..|runs| - 1]); }
  }

  // ---------- gaps and contradictions ----------

  lemma {:induction false} ClaimGapsAre(claims: seq<Claim>, g: Gap)
    requires forall c | c in claims :: c.status == c.reason.Status()
    ensures g in ClaimGaps(claims) <==>
            exists c | c in claims ::
              || (c.status == Stale && g == StaleGap(c.ctype))
              || (c.status == Insufficient && c.reason != NotABugfix && g == MissingGap(c.ctype, c.reason))
  {
    if claims != [] {
      var n := |claims| - 1;
      ClaimGapsAre(claims[..n], g);
      assert claims == claims[..n] + [claims[n]];
    }
  }

  lemma {:induction false} ContradictionsAre(claims: seq<Claim>, t: ClaimType)
    ensures t in Contradictions(claims) <==>
            exists c | c in claims :: c.ctype == t && c.status in {Contradicted, Blocked}
  {
    if claims != [] {
      var n := |claims| - 1;
      ContradictionsAre(claims[..n], t);
      assert claims == claims[..n] + [claims[n]];
    }
  }

  /** Every gap has one of five causes, and every cause leaves its gap. */
  lemma GapsAre(o: Source, v: View, claims: seq<Claim>, g: Gap)
    requires forall c | c in claims :: c.status == c.reason.Status()
    ensures g in GapsOf(o, v, claims) <==>
            || (exists c | c in claims :: c.status == Stale && g == StaleGap(c.ctype))
            || (exists c | c in claims :: c.status == Insufficient && c.reason != NotABugfix
                                          && g == MissingGap(c.ctype, c.reason))
            || (v.review.Some? && Current(o, v.review.value)
                && exists w | w in v.review.value.notChecked :: g == NotCheckedGap(w))
            || (v.ignored > 0 && g == IgnoredGap(v.ignored))
            || (o.unknown && g == UnobservedGap)
  {
    ClaimGapsAre(claims, g);
    if v.review.Some? { NotCheckedAre(v.review.value.notChecked, g); }
  }

  /** In particular the packet's own. */
  lemma GapsTold(input: Input, g: Gap)
    ensures var claims, v := ClaimsOf(input, ViewIn(input)), ViewIn(input);
      g in PacketOf(input).gaps <==>
        || (exists c | c in claims :: c.status == Stale && g == StaleGap(c.ctype))
        || (exists c | c in claims :: c.status == Insufficient && c.reason != NotABugfix
                                      && g == MissingGap(c.ctype, c.reason))
        || (v.review.Some? && Current(input.source, v.review.value)
            && exists w | w in v.review.value.notChecked :: g == NotCheckedGap(w))
        || (v.ignored > 0 && g == IgnoredGap(v.ignored))
        || (input.source.unknown && g == UnobservedGap)
  {
    var v := ViewIn(input);
    ClaimsAreConcluded(input, v);
    GapsAre(input.source, v, ClaimsOf(input, v), g);
  }

  lemma NotCheckedAre(what: seq<string>, g: Gap)
    ensures g in NotCheckedGaps(what) <==> exists w | w in what :: g == NotCheckedGap(w)
  {
    if w :| w in what && g == NotCheckedGap(w) {
      var i :| 0 <= i < |what| && what[i] == w;
      assert NotCheckedGaps(what)[i] == g;
    }
  }

  // ---------- risks ----------

  lemma {:induction false} DecisionRisksAre(ds: seq<Decision>, r: Risk)
    ensures r in DecisionRisks(ds) <==>
            exists d | d in ds :: d.resolved && r == Risk("medium", NeededDecision(d.question, d.chosen))
  {
    if ds != [] {
      DecisionRisksAre(ds[..|ds| - 1], r);
      assert ds == ds[..|ds| - 1] + [ds[|ds| - 1]];
    }
  }

  lemma LinesAre(lines: seq<string>, r: Risk)
    ensures r in seq(|lines|, i requires 0 <= i < |lines| => Risk("unknown", AgentReported(lines[i]))) <==>
            exists x | x in lines :: r == Risk("unknown", AgentReported(x))
  {
    if x :| x in lines && r == Risk("unknown", AgentReported(x)) {
      var i :| 0 <= i < |lines| && lines[i] == x;
      assert seq(|lines|, i requires 0 <= i < |lines| => Risk("unknown", AgentReported(lines[i])))[i] == r;
    }
  }

  predicate ReportedBy(e: Evidence, r: Risk) {
    e.inspection && exists x | x in e.riskLines :: r == Risk("unknown", AgentReported(x))
  }

  lemma {:induction false} ReportedRisksAre(es: seq<Evidence>, r: Risk)
    ensures r in ReportedRisks(es) <==> exists e | e in es :: ReportedBy(e, r)
  {
    if es != [] {
      var n := |es| - 1;
      ReportedRisksAre(es[..n], r);
      LinesAre(es[n].riskLines, r);
      assert es == es[..n] + [es[n]];
      assert ReportedBy(es[n], r) <==> (r in ReportedRisks(es) && r !in ReportedRisks(es[..n])) || ReportedBy(es[n], r);
    }
  }

  predicate FoundIn(review: Artifact, r: Risk) {
    || (exists f | f in review.findings :: r == Risk(f.severity, FindingText(f.issue, f.file)))
    || (!Text.Blank(review.counterexample) && r == Risk("high", CounterexampleText(review.counterexample)))
  }

  lemma FindingRisksAre(fs: seq<Finding>, r: Risk)
    ensures r in FindingRisks(fs) <==> exists f | f in fs :: r == Risk(f.severity, FindingText(f.issue, f.file))
  {
    if f :| f in fs && r == Risk(f.severity, FindingText(f.issue, f.file)) {
      var i :| 0 <= i < |fs| && fs[i] == f;
      assert FindingRisks(fs)[i] == r;
    }
  }

  lemma ReviewRisksAre(v: View, r: Risk)
    ensures r in ReviewRisks(v) <==> v.review.Some? && FoundIn(v.review.value, r)
  {
    if v.review.Some? { FindingRisksAre(v.review.value.findings, r); }
  }

  lemma SortedMembers(rs: seq<Risk>, r: Risk)
    ensures r in BySeverity(rs) <==> r in rs
  {
    SortKeepsRisks(rs);
    assert r in BySeverity(rs) <==> multiset(BySeverity(rs))[r] > 0;
    assert r in rs <==> multiset(rs)[r] > 0;
  }

  /** Every risk listed comes from the last review, from test files the author modified, from
      a decision a human had to take, or from an inspecting agent; and all of those are. */
  lemma RisksAre(input: Input, v: View, testFiles: seq<string>, r: Risk)
    ensures r in BySeverity(UnsortedRisks(input, v, testFiles)) <==>
            || (v.review.Some? && FoundIn(v.review.value, r))
            || (testFiles != [] && r == Risk("medium", ModifiedTests(testFiles)))
            || (exists d | d in input.decisions ::
                  d.resolved && r == Risk("medium", NeededDecision(d.question, d.chosen)))
            || (exists e | e in input.evidence :: ReportedBy(e, r))
  {
    SortedMembers(UnsortedRisks(input, v, testFiles), r);
    ReviewRisksAre(v, r);
    DecisionRisksAre(input.decisions, r);
    ReportedRisksAre(input.evidence, r);
  }

  /** After a medium risk come only medium, low and unknown ones, and so on; whatever else a
      severity says stands among the high ones. */
  lemma SeveritiesInOrder(rs: seq<Risk>, i: nat, j: nat)
    requires i < j < |BySeverity(rs)|
    ensures var a, b := BySeverity(rs)[i].severity, BySeverity(rs)[j].severity;
      && (a == "medium" ==> b in {"medium", "low", "unknown"})
      && (a == "low" ==> b in {"low", "unknown"}) && (a == "unknown" ==> b == "unknown")
  {
    RisksBySeverity(rs);
  }

  // ---------- the rest of the packet ----------

  lemma {:induction false} StrongestIsMax(es: seq<Evidence>)
    ensures Strongest(es) >= 1 && forall e | e in es :: e.rank <= Strongest(es)
    ensures Strongest(es) == 1 || exists e | e in es :: e.rank == Strongest(es)
  {
    if es != [] {
      var n := |es| - 1;
      StrongestIsMax(es[..n]);
      assert es == es[..n] + [es[n]];
    }
  }

  /** The change is that of the last diff of the log. */
  lemma ChangeTold(input: Input, i: nat)
    requires LastFiled(input, Diff, i)
    ensures var c, d := PacketOf(input).change, input.artifacts[i];
      && c.files == d.files && c.branch == d.branch && c.commits == d.commits && c.author == d.model
      && c.diffArtifact == d.id && forall f :: f in c.testFiles <==> f in d.files && Text.IsTestFile(f)
  {
    ViewRepresents(input);
    LastFiledIsLatest(input, Diff, i);
    var d := Normalized(input.artifacts[i]);
    assert ViewIn(input).diff == Some(d);
    forall f ensures f in TestFilesOf(d.files) <==> f in d.files && Text.IsTestFile(f) { TestFilesMember(d.files, f); }
  }

  lemma HeaderTold(input: Input)
    ensures var p := PacketOf(input);
      && p.taskID == input.task.id && p.taskStatus == input.task.status && p.base == input.task.baseSHAs
      && p.head == input.source.shas && p.dirty == input.source.dirty
  {
  }
}
