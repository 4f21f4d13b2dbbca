/** The other verdicts over the raw artifact log: evidence that says the opposite blocks the
    packet, evidence of another source state makes it stale. */
module ProofVerdicts {
  import opened Domain
  import opened ProofSpec
  import opened ProofPolicy
  import opened ProofTheorems
  import Text

  // ---------- evidence that says the opposite ----------

  /** The configured reproduction passes on the base, so it does not exercise the bug. */
  ghost predicate ReproContradicts(input: Input) {
    && input.task.reproCommand != ""
    && exists i: nat :: Speaks(input, i)
         && input.artifacts[i].passed == Some(true) && Normalized(input.artifacts[i]).tests != Some([])
  }

  ghost predicate Objects(r: Artifact) {
    r.verdict != Approve || !Text.Blank(r.counterexample) || exists f | f in r.findings :: f.severity == "high"
  }

  ghost predicate ReviewContradicts(input: Input) {
    exists r :: Latest(input, Review, r) && Current(input.source, r) && Objects(r)
  }

  ghost predicate CurrentCheck(input: Input, x: Artifact) {
    Filed(input, IntegrationRun, x) && Current(input.source, x)
  }

  predicate CleanCheck(x: Artifact) {
    !NotExercised(x) && x.passed == Some(true)
  }

  /** The first current integration run of the log that is not a clean pass. */
  ghost predicate FirstUnclean(input: Input, i: nat) {
    && i < |input.artifacts| && CurrentCheck(input, input.artifacts[i]) && !CleanCheck(input.artifacts[i])
    && forall j | 0 <= j < i :: CurrentCheck(input, input.artifacts[j]) ==> CleanCheck(input.artifacts[j])
  }

  /** That run did exercise the service, and failed. */
  ghost predicate IntegrationContradicts(input: Input) {
    exists i: nat :: FirstUnclean(input, i) && !NotExercised(input.artifacts[i])
  }

  /** Why a packet is blocked. */
  ghost predicate BlockedPolicy(input: Input) {
    || input.task.status == Failed
    || ContradictedPolicy(input) || ReviewContradicts(input)
    || (input.task.kind == Bugfix && ReproContradicts(input))
    || (input.integrationConfigured && IntegrationContradicts(input))
  }

  // ---------- evidence of another source state ----------

  ghost predicate ReproStale(input: Input) {
    && (forall n: nat :: n < |input.artifacts| ==> !BaseRepro(input, input.artifacts[n]))
    && exists x | x in input.artifacts :: Filed(input, BaselineRun, x) && !OnBase(input.task, x)
  }

  /** There is a change, but it or all of its test runs describe other code. */
  ghost predicate ChangeStale(input: Input) {
    exists d :: Latest(input, Diff, d) && d.files != []
      && (Current(input.source, d) ==>
            (exists a :: Logged(input, TestRun, a)) && !exists a :: CurrentRun(input, TestRun, a))
  }

  ghost predicate ReviewStale(input: Input) {
    exists r :: Latest(input, Review, r) && !Current(input.source, r)
  }

  ghost predicate OldCheck(input: Input, x: Artifact) {
    Filed(input, IntegrationRun, x) && !Current(input.source, x) && !OnBase(input.task, x)
  }

  ghost predicate IntegrationStale(input: Input) {
    && (forall a :: !CurrentRun(input, IntegrationRun, a))
    && exists x | x in input.artifacts :: OldCheck(input, x)
  }

  ghost predicate StalePolicy(input: Input) {
    || ChangeStale(input) || ReviewStale(input)
    || (input.task.kind == Bugfix && ReproStale(input))
    || (input.integrationConfigured && IntegrationStale(input))
  }

  // ---------- claim by claim ----------

  lemma ReproVerdicts(input: Input, v: View)
    requires v.baselines == Pick(LogOf(input), Baselines) && v.staleBase == Pick(LogOf(input), StaleBase)
    requires input.task.kind == Bugfix
    ensures ReproducedClaim(input.task, v).status == Contradicted <==> ReproContradicts(input)
    ensures ReproducedClaim(input.task, v).status == Stale <==> ReproStale(input)
  {
    if n: nat :| n < |input.artifacts| && BaseRepro(input, input.artifacts[n]) {
      var i := SomeSpeaks(input, n);
      SpokenVerdicts(input, v, i);
    } else {
      UnspokenVerdicts(input, v);
    }
  }

  lemma NoReproduction(t: Task, v: View)
    requires t.kind == Bugfix && Repro(t, v.baselines) == []
    ensures ReproducedClaim(t, v).status == if v.staleBase != [] then Stale else Insufficient
  {
  }

  lemma UnspokenVerdicts(input: Input, v: View)
    requires v.baselines == Pick(LogOf(input), Baselines) && v.staleBase == Pick(LogOf(input), StaleBase)
    requires input.task.kind == Bugfix
    requires forall n: nat :: n < |input.artifacts| ==> !BaseRepro(input, input.artifacts[n])
    ensures ReproducedClaim(input.task, v).status != Contradicted && !ReproContradicts(input)
    ensures ReproducedClaim(input.task, v).status == Stale <==> ReproStale(input)
  {
    NobodySpeaks(input, v);
    NoReproduction(input.task, v);
    StaleBaseRuns(input);
  }

  lemma SpokenVerdicts(input: Input, v: View, i: nat)
    requires v.baselines == Pick(LogOf(input), Baselines) && input.task.kind == Bugfix && Speaks(input, i)
    ensures ReproducedClaim(input.task, v).status == Contradicted <==> ReproContradicts(input)
    ensures ReproducedClaim(input.task, v).status != Stale && !ReproStale(input)
  {
    ReproducedBySpeaker(input, v, i);
    FailureIsSupported(input.task, Normalized(input.artifacts[i]));
    ReproContradictsAt(input, i);
  }

  lemma OneSpeaker(input: Input, i: nat)
    requires Speaks(input, i)
    ensures forall k: nat :: Speaks(input, k) ==> k == i
  {
    forall k: nat | Speaks(input, k) ensures k == i {
      var x, y := input.artifacts[i], input.artifacts[k];
      assert BaseRepro(input, x) && BaseRepro(input, y);
      assert x.passed == Some(false) ==> FailedRepro(input, x);
      assert y.passed == Some(false) ==> FailedRepro(input, y);
    }
  }

  lemma ReproContradictsAt(input: Input, i: nat)
    requires Speaks(input, i)
    ensures ReproContradicts(input) <==>
              input.task.reproCommand != "" && input.artifacts[i].passed == Some(true)
              && Normalized(input.artifacts[i]).tests != Some([])
  {
    OneSpeaker(input, i);
  }

  lemma StaleBaseRuns(input: Input)
    ensures Pick(LogOf(input), StaleBase) != [] <==>
            exists x | x in input.artifacts :: Filed(input, BaselineRun, x) && !OnBase(input.task, x)
  {
    var stale := Pick(LogOf(input), StaleBase);
    if stale != [] {
      InSlot(input, StaleBase, stale[0]);
      var x :| x in input.artifacts && EntryOf(input.task, input.source, x) == Entry(StaleBase, stale[0]);
    }
    if x :| x in input.artifacts && Filed(input, BaselineRun, x) && !OnBase(input.task, x) {
      InSlot(input, StaleBase, Normalized(x));
    }
  }

  lemma StaleTestRuns(input: Input)
    requires forall a :: !CurrentRun(input, TestRun, a)
    ensures Pick(LogOf(input), StaleRuns) != [] <==> exists a :: Logged(input, TestRun, a)
  {
    var stale := Pick(LogOf(input), StaleRuns);
    if stale != [] {
      InSlot(input, StaleRuns, stale[0]);
      var x :| x in input.artifacts && EntryOf(input.task, input.source, x) == Entry(StaleRuns, stale[0]);
      assert Logged(input, TestRun, Normalized(x));
    }
    if a :| Logged(input, TestRun, a) {
      var x :| x in input.artifacts && Filed(input, TestRun, x) && a == Normalized(x);
      assert !CurrentRun(input, TestRun, a);
      InSlot(input, StaleRuns, a);
    }
  }

  lemma OldSlot(input: Input, x: Artifact)
    ensures SlotOf(input.task, input.source, x) == IntegOld <==> OldCheck(input, x)
  {
  }

  lemma OldIntegrationRuns(input: Input)
    ensures Pick(LogOf(input), IntegOld) != [] <==>
            exists x | x in input.artifacts :: OldCheck(input, x)
  {
    var stale := Pick(LogOf(input), IntegOld);
    if stale != [] {
      InSlot(input, IntegOld, stale[0]);
      var x :| x in input.artifacts && EntryOf(input.task, input.source, x) == Entry(IntegOld, stale[0]);
      OldSlot(input, x);
    }
    if x :| x in input.artifacts && OldCheck(input, x) {
      OldSlot(input, x);
      assert EntryOf(input.task, input.source, x) == Entry(IntegOld, Normalized(x));
      InSlot(input, IntegOld, Normalized(x));
    }
  }

  lemma ReviewByParts(o: Source, v: View)
    ensures ChallengeClaim(o, v).status == Contradicted <==>
              v.review.Some? && Current(o, v.review.value) && Objects(v.review.value)
    ensures ChallengeClaim(o, v).status == Stale <==> v.review.Some? && !Current(o, v.review.value)
  {
  }

  lemma ReviewVerdicts(input: Input, v: View)
    requires forall a :: v.review == Some(a) <==> Latest(input, Review, a)
    ensures ChallengeClaim(input.source, v).status == Contradicted <==> ReviewContradicts(input)
    ensures ChallengeClaim(input.source, v).status == Stale <==> ReviewStale(input)
  {
    ReviewByParts(input.source, v);
    if v.review.Some? { assert Latest(input, Review, v.review.value); }
  }

  lemma ChangeByParts(t: Task, o: Source, v: View, testFiles: seq<string>, flip: Option<seq<string>>)
    ensures ChangeClaim(t, o, v, testFiles, flip).status == Stale <==>
              v.diff.Some? && v.diff.value.files != []
              && (Current(o, v.diff.value) ==> v.tests == [] && v.staleRuns != [])
  {
    if v.diff.Some? && v.tests != [] && RunTrouble(v.tests).None? {
      ReplayedNeverStale(t, v, testFiles, flip, [v.diff.value.id] + Ids(v.tests));
    }
  }

  lemma ReplayedNeverStale(t: Task, v: View, testFiles: seq<string>, flip: Option<seq<string>>, ids: seq<string>)
    ensures ReplayedClaim(t, v, testFiles, flip, ids).status != Stale
  {
  }

  lemma ChangeVerdicts(input: Input, v: View, testFiles: seq<string>, flip: Option<seq<string>>)
    requires forall a :: v.diff == Some(a) <==> Latest(input, Diff, a)
    requires forall a :: a in v.tests <==> CurrentRun(input, TestRun, a)
    requires v.staleRuns == Pick(LogOf(input), StaleRuns)
    ensures ChangeClaim(input.task, input.source, v, testFiles, flip).status == Stale <==> ChangeStale(input)
  {
    ChangeByParts(input.task, input.source, v, testFiles, flip);
    if v.tests == [] {
      assert forall a :: CurrentRun(input, TestRun, a) ==> a in v.tests;
      StaleTestRuns(input);
    } else {
      assert v.tests[0] in v.tests;
    }
    if v.diff.Some? { assert Latest(input, Diff, v.diff.value); }
  }

  /** The first integration run of the log that is not a clean pass decides. */
  lemma {:induction false} TroubleInLog(log: seq<Entry>, i: nat)
    requires i < |log| && log[i].slot == Integ && !CleanCheck(log[i].artifact)
    requires forall j | 0 <= j < i && log[j].slot == Integ :: CleanCheck(log[j].artifact)
    ensures FirstIntegrationTrouble(Pick(log, Integ)) ==
            Some(if NotExercised(log[i].artifact) then IntegrationUnavailable else IntegrationFails)
  {
    var n := |log| - 1;
    var before := Pick(log[..n], Integ);
    if i < n {
      TroubleInLog(log[..n], i);
      assert log[..n][i] == log[i];
      if log[n].slot == Integ {
        assert (before + [log[n].artifact])[..|before|] == before;
      } else {
        assert Pick(log, Integ) == before;
      }
    } else {
      CleanBefore(log[..n]);
      assert (before + [log[n].artifact])[..|before|] == before;
    }
  }

  lemma CleanBefore(log: seq<Entry>)
    requires forall j | 0 <= j < |log| && log[j].slot == Integ :: CleanCheck(log[j].artifact)
    ensures FirstIntegrationTrouble(Pick(log, Integ)).None?
  {
    var runs := Pick(log, Integ);
    forall a | a in runs ensures CleanCheck(a) {
      PickMembers(log, Integ, a);
    }
    TroubleFound(runs);
  }

  lemma ChecksAreEntries(input: Input, i: nat)
    requires i < |input.artifacts|
    ensures LogOf(input)[i].slot == Integ <==> CurrentCheck(input, input.artifacts[i])
    ensures CleanCheck(LogOf(input)[i].artifact) <==> CleanCheck(input.artifacts[i])
    ensures NotExercised(LogOf(input)[i].artifact) <==> NotExercised(input.artifacts[i])
  {
    CurrentSlots(input, input.artifacts[i]);
  }

  lemma UncleanDecides(input: Input, i: nat)
    requires FirstUnclean(input, i)
    ensures FirstIntegrationTrouble(Pick(LogOf(input), Integ)) ==
            Some(if NotExercised(input.artifacts[i]) then IntegrationUnavailable else IntegrationFails)
  {
    forall j: nat | j < |input.artifacts|
      ensures LogOf(input)[j].slot == Integ <==> CurrentCheck(input, input.artifacts[j])
      ensures CleanCheck(LogOf(input)[j].artifact) <==> CleanCheck(input.artifacts[j])
    {
      ChecksAreEntries(input, j);
    }
    ChecksAreEntries(input, i);
    TroubleInLog(LogOf(input), i);
  }

  lemma NoUnclean(input: Input)
    requires forall i: nat :: i < |input.artifacts| && CurrentCheck(input, input.artifacts[i]) ==>
             CleanCheck(input.artifacts[i])
    ensures FirstIntegrationTrouble(Pick(LogOf(input), Integ)).None?
  {
    forall j | 0 <= j < |LogOf(input)| && LogOf(input)[j].slot == Integ ensures CleanCheck(LogOf(input)[j].artifact) {
      ChecksAreEntries(input, j);
    }
    CleanBefore(LogOf(input));
  }

  lemma SomeUnclean(input: Input, n: nat) returns (i: nat)
    requires n < |input.artifacts| && CurrentCheck(input, input.artifacts[n]) && !CleanCheck(input.artifacts[n])
    ensures FirstUnclean(input, i)
  {
    var log := input.artifacts;
    var p := seq(|log|, j requires 0 <= j < |log| => CurrentCheck(input, log[j]) && !CleanCheck(log[j]));
    i := FirstSuch(p, n);
    forall j | 0 <= j < i ensures CurrentCheck(input, log[j]) ==> CleanCheck(log[j]) { assert !p[j]; }
  }

  lemma IntegrationByTrouble(v: View)
    ensures IntegrationClaim(true, v).status == Contradicted <==>
              v.integ != [] && FirstIntegrationTrouble(v.integ) == Some(IntegrationFails)
    ensures IntegrationClaim(true, v).status == Stale <==> v.integ == [] && v.integOld != []
  {
    TroubleIsNamed(v.integ);
  }

  lemma {:induction false} TroubleIsNamed(runs: seq<Artifact>)
    ensures FirstIntegrationTrouble(runs) in {None, Some(IntegrationUnavailable), Some(IntegrationFails)}
  {
    if runs != [] { TroubleIsNamed(runs[..|runs| - 1]); }
  }

  lemma ContradictsAt(input: Input, i: nat)
    requires FirstUnclean(input, i)
    ensures IntegrationContradicts(input) <==> !NotExercised(input.artifacts[i])
  {
    forall k: nat | FirstUnclean(input, k) ensures k == i {}
  }

  lemma TroubleExact(input: Input)
    ensures FirstIntegrationTrouble(Pick(LogOf(input), Integ)) == Some(IntegrationFails) <==>
            IntegrationContradicts(input)
  {
    if n: nat :| n < |input.artifacts| && CurrentCheck(input, input.artifacts[n]) && !CleanCheck(input.artifacts[n]) {
      var i := SomeUnclean(input, n);
      UncleanDecides(input, i);
      ContradictsAt(input, i);
    } else {
      NoUnclean(input);
    }
  }

  lemma IntegrationVerdicts(input: Input, v: View)
    requires v.integ == Pick(LogOf(input), Integ) && v.integOld == Pick(LogOf(input), IntegOld)
    requires forall a :: a in v.integ <==> CurrentRun(input, IntegrationRun, a)
    ensures IntegrationClaim(true, v).status == Contradicted <==> IntegrationContradicts(input)
    ensures IntegrationClaim(true, v).status == Stale <==> IntegrationStale(input)
  {
    IntegrationByTrouble(v);
    OldIntegrationRuns(input);
    TroubleExact(input);
    if v.integ != [] { assert v.integ[0] in v.integ; }
  }

  // ---------- the verdict ----------

  /** Some core claim of the packet has the status. */
  predicate SomeCore(input: Input, v: View, flip: Option<seq<string>>, testFiles: seq<string>, status: ClaimStatus) {
    || (input.task.kind == Bugfix &&
          (|| ReproducedClaim(input.task, v).status == status
           || RootCauseClaim(input.task, v, input.existing, flip).status == status))
    || ChangeClaim(input.task, input.source, v, testFiles, flip).status == status
    || ChallengeClaim(input.source, v).status == status
    || (input.integrationConfigured && IntegrationClaim(input.integrationConfigured, v).status == status)
  }

  lemma OneOfSix(a: Claim, b: Claim, c: Claim, d: Claim, e: Claim, f: Claim, status: ClaimStatus)
    ensures (exists x | x in [a, b, c, d, e, f] :: x.core && x.status == status) <==>
            || (a.core && a.status == status) || (b.core && b.status == status) || (c.core && c.status == status)
            || (d.core && d.status == status) || (e.core && e.status == status) || (f.core && f.status == status)
  {
    assert a in [a, b, c, d, e, f] && b in [a, b, c, d, e, f] && c in [a, b, c, d, e, f];
    assert d in [a, b, c, d, e, f] && e in [a, b, c, d, e, f] && f in [a, b, c, d, e, f];
  }

  lemma CoreOfClaims(input: Input, v: View, flip: Option<seq<string>>, testFiles: seq<string>, cross: Claim,
                     status: ClaimStatus)
    requires !cross.core
    ensures (exists x | x in [ReproducedClaim(input.task, v), RootCauseClaim(input.task, v, input.existing, flip),
                       ChangeClaim(input.task, input.source, v, testFiles, flip), ChallengeClaim(input.source, v),
                       IntegrationClaim(input.integrationConfigured, v), cross] :: x.core && x.status == status)
            <==> SomeCore(input, v, flip, testFiles, status)
  {
    CoreFlags(input, v, flip, testFiles);
    OneOfSix(ReproducedClaim(input.task, v), RootCauseClaim(input.task, v, input.existing, flip),
             ChangeClaim(input.task, input.source, v, testFiles, flip), ChallengeClaim(input.source, v),
             IntegrationClaim(input.integrationConfigured, v), cross, status);
  }

  lemma RootCauseNeverOpposes(t: Task, v: View, existing: Option<set<string>>, flip: Option<seq<string>>)
    ensures RootCauseClaim(t, v, existing, flip).status in {Supported, Insufficient}
  {
  }

  lemma CoreByPolicy(input: Input, v: View)
    requires v == ViewIn(input)
    ensures SomeCore(input, v, FlipOf(input.task, v), ChangeOf(v).testFiles, Contradicted) || input.task.status == Failed
            <==> BlockedPolicy(input)
    ensures SomeCore(input, v, FlipOf(input.task, v), ChangeOf(v).testFiles, Stale) <==> StalePolicy(input)
  {
    ViewRepresents(input);
    ChangeVerifiedExact(input, v);
    RootCauseNeverOpposes(input.task, v, input.existing, FlipOf(input.task, v));
    ReviewVerdicts(input, v);
    ChangeVerdicts(input, v, ChangeOf(v).testFiles, FlipOf(input.task, v));
    if input.task.kind == Bugfix { ReproVerdicts(input, v); }
    if input.integrationConfigured { IntegrationVerdicts(input, v); }
  }

  lemma NoClaimIsBlocked(claims: seq<Claim>)
    requires forall c | c in claims :: c.status == c.reason.Status()
    ensures forall c | c in claims :: c.status != Blocked
  {
  }

  lemma ClaimsAreConcluded(input: Input, v: View)
    ensures forall c | c in ClaimsOf(input, v) :: c.status == c.reason.Status()
  {
    var flip := FlipOf(input.task, v);
    ConcludedChange(input.task, input.source, v, ChangeOf(v).testFiles, flip);
    ConcludedOthers(input, v, flip);
  }

  lemma ConcludedOthers(input: Input, v: View, flip: Option<seq<string>>)
    ensures var c := ReproducedClaim(input.task, v); c.status == c.reason.Status()
    ensures var c := RootCauseClaim(input.task, v, input.existing, flip); c.status == c.reason.Status()
    ensures var c := ChallengeClaim(input.source, v); c.status == c.reason.Status()
    ensures var c := IntegrationClaim(input.integrationConfigured, v); c.status == c.reason.Status()
  {
  }

  lemma ConcludedChange(t: Task, o: Source, v: View, testFiles: seq<string>, flip: Option<seq<string>>)
    ensures var c := ChangeClaim(t, o, v, testFiles, flip); c.status == c.reason.Status()
  {
  }

  /** For every input: the packet is BLOCKED iff the task failed or some evidence on the
      current state says the opposite of a core claim; otherwise it is STALE iff a core claim
      rests on another source state. With `SupportedExact`, everything else is INSUFFICIENT. */
  lemma VerdictExact(input: Input)
    ensures PacketOf(input).verdict == Blocked <==> BlockedPolicy(input)
    ensures PacketOf(input).verdict == Stale <==> !BlockedPolicy(input) && StalePolicy(input)
  {
    var v := ViewIn(input);
    var flip, testFiles := FlipOf(input.task, v), ChangeOf(v).testFiles;
    var cross := Concluded(CrossServiceImpact, false, CrossServiceUnchecked, []);
    CoreOfClaims(input, v, flip, testFiles, cross, Contradicted);
    CoreOfClaims(input, v, flip, testFiles, cross, Stale);
    ClaimsAreConcluded(input, v);
    NoClaimIsBlocked(ClaimsOf(input, v));
    CoreByPolicy(input, v);
  }
}
