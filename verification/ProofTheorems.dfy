/** The remaining claims, and what a SUPPORTED verdict is worth. */
module ProofTheorems {
  import opened Domain
  import opened ProofSpec
  import opened ProofPolicy
  import Text

  // ---------- Problem reproduced ----------

  predicate ReproEntry(t: Task, e: Entry) {
    e.slot == Baselines && IsRepro(t, e.artifact)
  }

  predicate FailedEntry(t: Task, e: Entry) {
    ReproEntry(t, e) && e.artifact.passed == Some(false)
  }

  /** The entry the claim rests on: the first failed reproduction of the log, or without a
      failed one the first reproduction. */
  predicate SpeaksAt(t: Task, log: seq<Entry>, i: nat) {
    && i < |log| && ReproEntry(t, log[i])
    && (forall j | 0 <= j < i :: !FailedEntry(t, log[j]))
    && (log[i].artifact.passed != Some(false) ==>
          (forall j | 0 <= j < i :: !ReproEntry(t, log[j])) && forall j | 0 <= j < |log| :: !FailedEntry(t, log[j]))
  }

  lemma {:induction false} WitnessIsMember(repro: seq<Artifact>)
    requires repro != []
    ensures Witness(repro) in repro
  {
    if |repro| > 1 { WitnessIsMember(repro[..|repro| - 1]); }
  }

  lemma WitnessStep(repro: seq<Artifact>, x: Artifact)
    ensures Witness(repro + [x]) ==
            if repro == [] || (Witness(repro).passed != Some(false) && x.passed == Some(false)) then x else Witness(repro)
  {
    assert (repro + [x])[..|repro|] == repro;
  }

  lemma ReproStep(t: Task, log: seq<Entry>)
    requires log != []
    ensures var n := |log| - 1;
            var before := Repro(t, Pick(log[..n], Baselines));
            Repro(t, Pick(log, Baselines)) == if ReproEntry(t, log[n]) then before + [log[n].artifact] else before
  {
    var n := |log| - 1;
    var picked := Pick(log[..n], Baselines);
    if log[n].slot == Baselines {
      var all := picked + [log[n].artifact];
      assert Pick(log, Baselines) == all && all[..|all| - 1] == picked;
      assert Repro(t, picked) + [] == Repro(t, picked);
    } else {
      assert Pick(log, Baselines) == picked;
    }
  }

  /** The reproductions the builder keeps are the entries of the log, no more. */
  lemma ReproInLog(t: Task, log: seq<Entry>, w: Artifact) returns (j: nat)
    requires w in Repro(t, Pick(log, Baselines))
    ensures j < |log| && log[j] == Entry(Baselines, w) && ReproEntry(t, log[j])
  {
    ReproMembers(t, Pick(log, Baselines), w);
    PickMembers(log, Baselines, w);
    j :| 0 <= j < |log| && log[j] == Entry(Baselines, w);
  }

  lemma SpeaksBefore(t: Task, log: seq<Entry>, i: nat)
    requires SpeaksAt(t, log, i) && i < |log| - 1
    ensures SpeaksAt(t, log[..|log| - 1], i)
  {
    assert forall j | 0 <= j < |log| - 1 :: log[..|log| - 1][j] == log[j];
  }

  /** One more entry of the log: the witness stays, or the new run takes its place. */
  lemma WitnessOf(before: seq<Artifact>, now: seq<Artifact>, x: Artifact, kept: bool, w: Artifact)
    requires now == if kept then before + [x] else before
    requires if before != [] && w == Witness(before) then
               w.passed == Some(false) || !kept || x.passed != Some(false)
             else
               kept && w == x && (before != [] ==> Witness(before).passed != Some(false) && x.passed == Some(false))
    ensures now != [] && Witness(now) == w
  {
    WitnessStep(before, x);
  }

  /** The witness is the entry that speaks, whatever else ran. */
  lemma {:induction false} WitnessInLog(t: Task, log: seq<Entry>, i: nat)
    requires SpeaksAt(t, log, i)
    ensures Repro(t, Pick(log, Baselines)) != []
    ensures Witness(Repro(t, Pick(log, Baselines))) == log[i].artifact
  {
    var n := |log| - 1;
    var before, now := Repro(t, Pick(log[..n], Baselines)), Repro(t, Pick(log, Baselines));
    ReproStep(t, log);
    if i < n {
      SpeaksBefore(t, log, i);
      WitnessInLog(t, log[..n], i);
      assert log[..n][i] == log[i];
    } else if before != [] {
      SpeaksLast(t, log, before);
    }
    WitnessOf(before, now, log[n].artifact, ReproEntry(t, log[n]), log[i].artifact);
  }

  lemma SpeaksLast(t: Task, log: seq<Entry>, before: seq<Artifact>)
    requires log != [] && SpeaksAt(t, log, |log| - 1)
    requires before == Repro(t, Pick(log[..|log| - 1], Baselines)) && before != []
    ensures Witness(before).passed != Some(false) && log[|log| - 1].artifact.passed == Some(false)
  {
    WitnessIsMember(before);
    var j := ReproInLog(t, log[..|log| - 1], Witness(before));
    assert log[j] == log[..|log| - 1][j];
  }

  lemma EntriesAreRuns(input: Input, i: nat)
    requires i < |input.artifacts|
    ensures ReproEntry(input.task, LogOf(input)[i]) <==> BaseRepro(input, input.artifacts[i])
    ensures FailedEntry(input.task, LogOf(input)[i]) <==> FailedRepro(input, input.artifacts[i])
  {
    CurrentSlots(input, input.artifacts[i]);
  }

  /** The base run the claim rests on, in the raw log. */
  ghost predicate Speaks(input: Input, i: nat) {
    && i < |input.artifacts| && BaseRepro(input, input.artifacts[i])
    && (forall j | 0 <= j < i :: !FailedRepro(input, input.artifacts[j]))
    && (input.artifacts[i].passed != Some(false) ==>
          && (forall j | 0 <= j < i :: !BaseRepro(input, input.artifacts[j]))
          && forall j | 0 <= j < |input.artifacts| :: !FailedRepro(input, input.artifacts[j]))
  }

  lemma SpeaksInLog(input: Input, i: nat)
    requires Speaks(input, i)
    ensures SpeaksAt(input.task, LogOf(input), i)
  {
    forall j: nat | j < |input.artifacts|
      ensures ReproEntry(input.task, LogOf(input)[j]) <==> BaseRepro(input, input.artifacts[j])
      ensures FailedEntry(input.task, LogOf(input)[j]) <==> FailedRepro(input, input.artifacts[j])
    {
      EntriesAreRuns(input, j);
    }
  }

  lemma {:induction false} FirstSuch(p: seq<bool>, n: nat) returns (i: nat)
    requires n < |p| && p[n]
    ensures i <= n && p[i] && forall j | 0 <= j < i :: !p[j]
  {
    if j :| 0 <= j < n && p[j] { i := FirstSuch(p, j); } else { i := n; }
  }

  /** Some base run speaks as soon as there is one at all. */
  lemma SomeSpeaks(input: Input, n: nat) returns (i: nat)
    requires n < |input.artifacts| && BaseRepro(input, input.artifacts[n])
    ensures Speaks(input, i)
  {
    var log := input.artifacts;
    if k :| 0 <= k < |log| && FailedRepro(input, log[k]) {
      var p := seq(|log|, j requires 0 <= j < |log| => FailedRepro(input, log[j]));
      i := FirstSuch(p, k);
      forall j | 0 <= j < i ensures !FailedRepro(input, log[j]) { assert !p[j]; }
    } else {
      var p := seq(|log|, j requires 0 <= j < |log| => BaseRepro(input, log[j]));
      i := FirstSuch(p, n);
      forall j | 0 <= j < i ensures !BaseRepro(input, log[j]) { assert !p[j]; }
    }
  }

  /** The run is taken as a real and completely reported failure. */
  predicate CountsAsFailure(a: Artifact) {
    a.passed != Some(true) && !a.truncated && !a.timedOut && (a.tests.Some? ==> HasFailingTest(a))
  }

  lemma FailureIsSupported(t: Task, a: Artifact)
    ensures ReproReason(t, a).Status() == Supported <==> CountsAsFailure(a)
    ensures ReproReason(t, a).Status() == Contradicted <==>
              a.passed == Some(true) && a.tests != Some([]) && t.reproCommand != ""
    ensures ReproReason(t, a).Status() != Stale
  {
  }

  /** The claim of a bugfix rests on the base run that speaks and on nothing else. */
  lemma ReproducedBySpeaker(input: Input, v: View, i: nat)
    requires v.baselines == Pick(LogOf(input), Baselines) && input.task.kind == Bugfix && Speaks(input, i)
    ensures ReproducedClaim(input.task, v).reason == ReproReason(input.task, Normalized(input.artifacts[i]))
    ensures ReproducedClaim(input.task, v).status == ReproReason(input.task, Normalized(input.artifacts[i])).Status()
  {
    SpeaksInLog(input, i);
    WitnessInLog(input.task, LogOf(input), i);
  }

  lemma NobodySpeaks(input: Input, v: View)
    requires v.baselines == Pick(LogOf(input), Baselines)
    requires forall n: nat :: n < |input.artifacts| ==> !BaseRepro(input, input.artifacts[n])
    ensures Repro(input.task, v.baselines) == []
  {
    var repro := Repro(input.task, v.baselines);
    if repro != [] {
      var j := ReproInLog(input.task, LogOf(input), repro[0]);
      EntriesAreRuns(input, j);
    }
  }

  /** No base run of the reproduction is recorded as failed, but the first one has no
      recorded outcome and otherwise looks like a failure. */
  ghost predicate UnrecordedFailure(input: Input) {
    && (forall n: nat :: n < |input.artifacts| ==> !FailedRepro(input, input.artifacts[n]))
    && exists i: nat :: Speaks(input, i) && CountsAsFailure(Normalized(input.artifacts[i]))
  }

  lemma SpeakerDecides(input: Input, i: nat)
    requires Speaks(input, i)
    ensures ReproPolicy(input) || UnrecordedFailure(input) <==> CountsAsFailure(Normalized(input.artifacts[i]))
  {
    var log := input.artifacts;
    if log[i].passed == Some(false) {
      assert FailedRepro(input, log[i]);
      assert forall k | 0 <= k < |log| && FailedRepro(input, log[k])
          && (forall j | 0 <= j < k :: !FailedRepro(input, log[j])) :: k == i;
    } else {
      forall k: nat | Speaks(input, k) ensures k == i {
        assert BaseRepro(input, log[k]) && BaseRepro(input, log[i]);
      }
    }
  }

  /** Exactly when the claim is SUPPORTED, and exactly when that departs from its policy:
      only over a first base run without a recorded outcome. */
  lemma ReproducedExact(input: Input, v: View)
    requires v.baselines == Pick(LogOf(input), Baselines) && input.task.kind == Bugfix
    ensures ReproducedClaim(input.task, v).status == Supported <==> ReproPolicy(input) || UnrecordedFailure(input)
    ensures (ReproducedClaim(input.task, v).status == Supported <==> ReproPolicy(input)) <==> !UnrecordedFailure(input)
  {
    if n: nat :| n < |input.artifacts| && BaseRepro(input, input.artifacts[n]) {
      var i := SomeSpeaks(input, n);
      ReproducedBySpeaker(input, v, i);
      FailureIsSupported(input.task, Normalized(input.artifacts[i]));
      SpeakerDecides(input, i);
    } else {
      NobodySpeaks(input, v);
      assert !ReproPolicy(input) && !UnrecordedFailure(input);
    }
  }

  // ---------- the other claims ----------

  lemma ChallengeByParts(o: Source, v: View)
    ensures ChallengeClaim(o, v).status == Supported <==>
            && v.review.Some? && Current(o, v.review.value)
            && v.review.value.verdict == Approve && Text.Blank(v.review.value.counterexample)
            && (forall f | f in v.review.value.findings :: f.severity != "high")
            && v.review.value.checked != [] && !NotIndependent(v, v.review.value)
  {
  }

  lemma ChallengeExact(input: Input, v: View)
    requires Represents(input, v)
    ensures ChallengeClaim(input.source, v).status == Supported <==> ReviewPolicy(input)
  {
    ChallengeByParts(input.source, v);
    if v.review.Some? {
      var r := v.review.value;
      assert Latest(input, Review, r);
      forall r' | Latest(input, Review, r') ensures r' == r { OnlyLatest(input, Review, r, r'); }
      assert (forall d :: Latest(input, Diff, d) ==> d.model != r.model && d.model != "" && r.model != "")
        <==> !NotIndependent(v, r);
    }
  }

  lemma {:induction false} TroubleFound(runs: seq<Artifact>)
    ensures FirstIntegrationTrouble(runs).None? <==> forall a | a in runs :: !NotExercised(a) && a.passed == Some(true)
    ensures FirstIntegrationTrouble(runs).Some? ==> FirstIntegrationTrouble(runs).value.Status() != Supported
  {
    if runs != [] {
      var n := |runs| - 1;
      TroubleFound(runs[..n]);
      assert runs == runs[..n] + [runs[n]];
    }
  }

  lemma IntegrationByParts(v: View)
    ensures IntegrationClaim(true, v).status == Supported <==> v.integ != [] && FirstIntegrationTrouble(v.integ).None?
  {
    TroubleFound(v.integ);
  }

  lemma IntegrationExact(input: Input, v: View)
    requires Represents(input, v)
    ensures IntegrationClaim(true, v).status == Supported <==> IntegrationPolicy(input)
  {
    IntegrationByParts(v);
    TroubleFound(v.integ);
    if v.integ == [] {
      assert forall a :: CurrentRun(input, IntegrationRun, a) ==> a in v.integ;
    } else {
      assert v.integ[0] in v.integ;
    }
  }

  lemma RootCauseByParts(input: Input, v: View, flip: Option<seq<string>>)
    ensures RootCauseClaim(input.task, v, input.existing, flip).status == Supported <==>
            flip.Some? && v.rootCause.Some? && v.diff.Some? && Located(input, v.rootCause.value, v.diff.value)
  {
    if v.rootCause.Some? && v.rootCause.value.rootCause.Some? {
      var file := v.rootCause.value.rootCause.value.file;
      var problems := RootCauseProblems(file, v.diff, input.existing, flip.Some?);
      assert problems == [] <==>
             && file != "" && (input.existing.Some? ==> file in input.existing.value)
             && v.diff.Some? && file in v.diff.value.files && flip.Some?;
    }
  }

  lemma RootCauseExact(input: Input, v: View, flip: Option<seq<string>>)
    requires Represents(input, v)
    requires flip.Some? <==> FlipPolicy(input)
    ensures RootCauseClaim(input.task, v, input.existing, flip).status == Supported <==> RootCausePolicy(input)
  {
    RootCauseByParts(input, v, flip);
    if RootCausePolicy(input) {
      var rc, d :| Latest(input, RootCause, rc) && Latest(input, Diff, d) && Located(input, rc, d);
      assert v.rootCause == Some(rc) && v.diff == Some(d);
    }
  }

  // ---------- the verdict ----------

  lemma VerdictSupported(status: TaskStatus, claims: seq<Claim>)
    ensures VerdictOf(status, claims) == Supported <==>
            status == Done && forall c | c in claims :: c.core ==> c.status == Supported
  {
  }

  lemma CoreOfSix(a: Claim, b: Claim, c: Claim, d: Claim, e: Claim, f: Claim)
    ensures (forall x | x in [a, b, c, d, e, f] :: x.core ==> x.status == Supported) <==>
            && (a.core ==> a.status == Supported) && (b.core ==> b.status == Supported)
            && (c.core ==> c.status == Supported) && (d.core ==> d.status == Supported)
            && (e.core ==> e.status == Supported) && (f.core ==> f.status == Supported)
  {
    assert a in [a, b, c, d, e, f] && b in [a, b, c, d, e, f] && c in [a, b, c, d, e, f];
    assert d in [a, b, c, d, e, f] && e in [a, b, c, d, e, f] && f in [a, b, c, d, e, f];
  }

  lemma CoreFlags(input: Input, v: View, flip: Option<seq<string>>, testFiles: seq<string>)
    ensures ReproducedClaim(input.task, v).core <==> input.task.kind == Bugfix
    ensures RootCauseClaim(input.task, v, input.existing, flip).core <==> input.task.kind == Bugfix
    ensures ChangeClaim(input.task, input.source, v, testFiles, flip).core
    ensures ChallengeClaim(input.source, v).core
    ensures IntegrationClaim(input.integrationConfigured, v).core <==> input.integrationConfigured
  {
  }

  /** The statuses that decide the verdict of a finished task. */
  predicate CoreSupported(input: Input, v: View, flip: Option<seq<string>>, testFiles: seq<string>) {
    && (input.task.kind == Bugfix ==>
          && ReproducedClaim(input.task, v).status == Supported
          && RootCauseClaim(input.task, v, input.existing, flip).status == Supported)
    && ChangeClaim(input.task, input.source, v, testFiles, flip).status == Supported
    && ChallengeClaim(input.source, v).status == Supported
    && (input.integrationConfigured ==> IntegrationClaim(input.integrationConfigured, v).status == Supported)
  }

  lemma CoreClaims(input: Input, v: View, flip: Option<seq<string>>, testFiles: seq<string>, cross: Claim)
    requires !cross.core
    ensures VerdictOf(input.task.status,
                      [ReproducedClaim(input.task, v), RootCauseClaim(input.task, v, input.existing, flip),
                       ChangeClaim(input.task, input.source, v, testFiles, flip), ChallengeClaim(input.source, v),
                       IntegrationClaim(input.integrationConfigured, v), cross]) == Supported <==>
            input.task.status == Done && CoreSupported(input, v, flip, testFiles)
  {
    var a := ReproducedClaim(input.task, v);
    var b := RootCauseClaim(input.task, v, input.existing, flip);
    var c := ChangeClaim(input.task, input.source, v, testFiles, flip);
    var d := ChallengeClaim(input.source, v);
    var e := IntegrationClaim(input.integrationConfigured, v);
    VerdictSupported(input.task.status, [a, b, c, d, e, cross]);
    CoreOfSix(a, b, c, d, e, cross);
    CoreFlags(input, v, flip, testFiles);
  }

  lemma CoreExact(input: Input, v: View)
    requires Represents(input, v) && v.baselines == Pick(LogOf(input), Baselines)
    ensures CoreSupported(input, v, FlipOf(input.task, v), ChangeOf(v).testFiles) && input.task.status == Done <==>
            Deserved(input)
  {
    ChangeVerifiedExact(input, v);
    ChallengeExact(input, v);
    if input.integrationConfigured { IntegrationExact(input, v); }
    if input.task.kind == Bugfix {
      FlipExact(input, v);
      RootCauseExact(input, v, FlipOf(input.task, v));
      if FlipPolicy(input) { ReproducedUnderFlip(input, v); }
    }
  }

  lemma FlipHasFailure(input: Input) returns (n: nat)
    requires FlipPolicy(input)
    ensures n < |input.artifacts| && FailedRepro(input, input.artifacts[n])
  {
    var base, after :| BaseRun(input, base) && CurrentRun(input, TestRun, after) && Confirms(base, after);
    n := FailedBase(input, base);
  }

  lemma FailedBase(input: Input, base: Artifact) returns (n: nat)
    requires BaseRun(input, base) && base.passed == Some(false)
    ensures n < |input.artifacts| && FailedRepro(input, input.artifacts[n])
  {
    var x :| x in input.artifacts && Filed(input, BaselineRun, x) && base == Normalized(x);
    n :| n < |input.artifacts| && input.artifacts[n] == x;
  }

  lemma ReproducedUnderFlip(input: Input, v: View)
    requires v.baselines == Pick(LogOf(input), Baselines) && input.task.kind == Bugfix && FlipPolicy(input)
    ensures ReproducedClaim(input.task, v).status == Supported <==> ReproPolicy(input)
  {
    var n := FlipHasFailure(input);
    ReproducedExact(input, v);
  }

  /** The verdict is SUPPORTED exactly when everything the program promises holds of the
      artifact log, for every log. */
  lemma SupportedExact(input: Input)
    ensures PacketOf(input).verdict == Supported <==> Deserved(input)
  {
    var v := ViewIn(input);
    ViewRepresents(input);
    CoreClaims(input, v, FlipOf(input.task, v), ChangeOf(v).testFiles,
               Concluded(CrossServiceImpact, false, CrossServiceUnchecked, []));
    CoreExact(input, v);
  }
}
