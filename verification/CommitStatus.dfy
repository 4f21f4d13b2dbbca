/** The commit status derived from a packet, and the end-to-end guarantee behind a green one. */
module CommitStatus {
  import opened Domain
  import opened ProofSpec
  import opened ProofPolicy
  import opened ProofTheorems
  import opened ProofGuarantees
  import opened ProofPromise
  import ProofBuilder
  import Text

  datatype State = Success | Failure
  datatype Description =
    | NoPacket
    | NotVerified(lastHead: string)
    | Summary(verdict: ClaimStatus, supported: nat, core: nat, gaps: nat, risks: nat)
  datatype Status = Status(state: State, description: Description)

  function CorePlaces(claims: seq<Claim>): set<nat> {
    set i: nat | i < |claims| && claims[i].core
  }

  function SupportedPlaces(claims: seq<Claim>): set<nat> {
    set i: nat | i < |claims| && claims[i].core && claims[i].status == Supported
  }

  lemma CoreStep(claims: seq<Claim>, c: Claim)
    ensures |CorePlaces(claims + [c])| == |CorePlaces(claims)| + if c.core then 1 else 0
  {
    var all, n := claims + [c], |claims|;
    assert forall i: nat | i < n :: all[i] == claims[i];
    assert CorePlaces(all) == CorePlaces(claims) + if c.core then {n} else {};
  }

  lemma SupportedStep(claims: seq<Claim>, c: Claim)
    ensures |SupportedPlaces(claims + [c])|
            == |SupportedPlaces(claims)| + if c.core && c.status == Supported then 1 else 0
  {
    var all, n := claims + [c], |claims|;
    assert forall i: nat | i < n :: all[i] == claims[i];
    assert SupportedPlaces(all) == SupportedPlaces(claims) + if c.core && c.status == Supported then {n} else {};
  }

  /** A packet speaks for `repo` at the head it names, if its tree was clean and all is supported. */
  predicate Green(p: Packet, repo: string) {
    Lookup(p.head, repo) != "" && !p.dirty && p.verdict == Supported
  }

  /** Maps a packet to the status of one specific commit. */
  method BuildStatus(p: Option<Packet>, repo: string, sha: string) returns (st: Status)
    ensures st.state == Success <==> p.Some? && Green(p.value, repo) && Lookup(p.value.head, repo) == sha
    ensures st.description ==
            if p.None? then NoPacket
            else if sha == "" || Lookup(p.value.head, repo) != sha || p.value.dirty then
              NotVerified(Lookup(p.value.head, repo))
            else Summary(p.value.verdict, |SupportedPlaces(p.value.claims)|, |CorePlaces(p.value.claims)|,
                         |p.value.gaps|, |p.value.risks|)
  {
    if p.None? { return Status(Failure, NoPacket); }
    var head := Lookup(p.value.head, repo);
    if head == "" || head != sha || p.value.dirty { return Status(Failure, NotVerified(head)); }
    var claims := p.value.claims;
    var sup, core := 0, 0;
    for i := 0 to |claims|
      invariant sup == |SupportedPlaces(claims[..i])| && core == |CorePlaces(claims[..i])|
    {
      CoreStep(claims[..i], claims[i]);
      SupportedStep(claims[..i], claims[i]);
      assert claims[..i] + [claims[i]] == claims[..i + 1];
      if claims[i].core {
        core := core + 1;
        if claims[i].status == Supported { sup := sup + 1; }
      }
    }
    assert claims[..|claims|] == claims;
    st := Status(if p.value.verdict == Supported then Success else Failure,
                 Summary(p.value.verdict, sup, core, |p.value.gaps|, |p.value.risks|));
  }

  // ---------- which packet is reported ----------

  /** The parts of a packet that make a new version when they change. */
  predicate SameContent(p: Packet, q: Packet) {
    && p.taskStatus == q.taskStatus && p.verdict == q.verdict
    && p.base == q.base && p.head == q.head && p.dirty == q.dirty
    && p.claims == q.claims && p.gaps == q.gaps && p.risks == q.risks && p.change == q.change
  }

  /** The same packet, up to what follows from the rest or decides nothing. */
  predicate DiffersAtMost(p: Packet, q: Packet) {
    p == q.(taskID := p.taskID, contradictions := p.contradictions, confidence := p.confidence)
  }

  lemma SameContentIs(p: Packet, q: Packet)
    ensures SameContent(p, q) <==> DiffersAtMost(p, q)
  {
  }

  /** While the task is active the packet stored last is shown, or a preview if there is none;
      otherwise the one built now, stored as a new version when it differs from the last.
      `stored` is None when the stored packets cannot be read. */
  function Shown(active: bool, built: Packet, stored: Option<seq<Packet>>, written: bool): Option<Packet> {
    var last := if stored.Some? && stored.value != [] then Some(stored.value[|stored.value| - 1]) else None;
    if active then Some(if last.Some? then last.value else built)
    else if stored.None? then None
    else if last.Some? && SameContent(last.value, built) then last
    else if written then Some(built) else None
  }

  method SnapshotPacket(input: Input, stored: Option<seq<Packet>>, written: bool)
    returns (p: Option<Packet>, built: Packet)
    ensures built == PacketOf(input) && p == Shown(input.task.status.Active(), built, stored, written)
    ensures input.task.status.Active() ==>
              p == Some(if stored in {None, Some([])} then built else stored.value[|stored.value| - 1])
    ensures !input.task.status.Active() ==>
              if stored.None? then p.None?
              else if stored.value != [] && DiffersAtMost(stored.value[|stored.value| - 1], built)
              then p == Some(stored.value[|stored.value| - 1])
              else p == if written then Some(built) else None
  {
    built := ProofBuilder.Build(input);
    if stored.Some? && stored.value != [] { SameContentIs(stored.value[|stored.value| - 1], built); }
    if input.task.status.Active() {
      if stored.Some? && stored.value != [] { return Some(stored.value[|stored.value| - 1]), built; }
      return Some(built), built;
    }
    if stored.None? { return None, built; }
    if stored.value != [] && SameContent(stored.value[|stored.value| - 1], built) {
      return Some(stored.value[|stored.value| - 1]), built;
    }
    return if written then Some(built) else None, built;
  }

  /** What a packet says about the input it was built from. */
  ghost predicate Describes(p: Packet, input: Input) {
    p.head == input.source.shas && p.dirty == input.source.dirty && (p.verdict == Supported <==> Deserved(input))
  }

  lemma PacketDescribes(input: Input)
    ensures Describes(PacketOf(input), input)
  {
    SupportedExact(input);
  }

  /** The clean tree was at that commit, and the log deserved a green. */
  ghost predicate Backs(input: Input, repo: string, sha: string) {
    sha != "" && Lookup(input.source.shas, repo) == sha && !input.source.dirty && Deserved(input)
  }

  lemma ActiveIsNotDeserved(input: Input)
    ensures input.task.status.Active() ==> !Deserved(input)
  {
  }

  predicate StoredGreen(stored: Option<seq<Packet>>, repo: string) {
    stored.Some? && stored.value != [] && Green(stored.value[|stored.value| - 1], repo)
  }

  /** When the packet that is shown is green. */
  lemma GreenExactly(input: Input, built: Packet, stored: Option<seq<Packet>>, written: bool, repo: string)
    requires Describes(built, input) && Shown(input.task.status.Active(), built, stored, written).Some?
    ensures var p := Shown(input.task.status.Active(), built, stored, written).value;
      Green(p, repo) <==>
        if input.task.status.Active() then StoredGreen(stored, repo)
        else Backs(input, repo, Lookup(input.source.shas, repo))
  {
    ActiveIsNotDeserved(input);
  }

  /** The stored packets describe moments at which the task was at rest. */
  ghost predicate StoredAt(stored: seq<Packet>, moments: seq<Input>) {
    && |stored| == |moments|
    && forall i | 0 <= i < |stored| :: !moments[i].task.status.Active() && Describes(stored[i], moments[i])
  }

  /** A green is always backed by some log: for a task at rest by the present one, for an
      active task by the one of the moment the last packet was stored, and by no other. */
  lemma GreenIsBacked(input: Input, built: Packet, stored: seq<Packet>, moments: seq<Input>, written: bool, repo: string)
    requires Describes(built, input) && StoredAt(stored, moments)
    requires Shown(input.task.status.Active(), built, Some(stored), written).Some?
    ensures var p := Shown(input.task.status.Active(), built, Some(stored), written).value;
      Green(p, repo) <==>
        if !input.task.status.Active() then Backs(input, repo, Lookup(p.head, repo))
        else moments != [] && Backs(moments[|moments| - 1], repo, Lookup(p.head, repo))
  {
    if !input.task.status.Active() {
      GreenExactly(input, built, Some(stored), written, repo);
    } else if moments != [] {
      var last := |stored| - 1;
      assert Describes(stored[last], moments[last]);
      GreenDescribed(stored[last], moments[last], repo);
    } else {
      ActiveIsNotDeserved(input);
    }
  }

  lemma GreenDescribed(p: Packet, input: Input, repo: string)
    requires Describes(p, input)
    ensures Green(p, repo) <==> Backs(input, repo, Lookup(p.head, repo))
  {
  }

  /** Every core claim of the packet is supported if its verdict is. */
  ghost predicate AllCounted(p: Packet) {
    p.verdict == Supported ==> |SupportedPlaces(p.claims)| == |CorePlaces(p.claims)|
  }

  lemma AllCoreCounted(claims: seq<Claim>)
    requires forall c | c in claims :: c.core ==> c.status == Supported
    ensures |SupportedPlaces(claims)| == |CorePlaces(claims)|
  {
    forall i: nat | i < |claims| ensures claims[i].core ==> claims[i].status == Supported {
      assert claims[i] in claims;
    }
    assert SupportedPlaces(claims) == CorePlaces(claims);
  }

  lemma SupportedAreCounted(status: TaskStatus, claims: seq<Claim>)
    ensures VerdictOf(status, claims) == Supported ==> |SupportedPlaces(claims)| == |CorePlaces(claims)|
  {
    VerdictSupported(status, claims);
    if VerdictOf(status, claims) == Supported { AllCoreCounted(claims); }
  }

  lemma SupportedIsCounted(input: Input)
    ensures AllCounted(PacketOf(input))
  {
    SupportedAreCounted(input.task.status, PacketOf(input).claims);
  }

  /** The commit a packet is reported for. */
  function TargetOf(p: Packet, repo: string, prHead: string): string {
    if Lookup(p.head, repo) == "" then prHead else Lookup(p.head, repo)
  }

  /** Whatever the status is, it goes to the head the reported packet names, or to the head of
      the pull request if it names none. */
  ghost function Target(input: Input, stored: Option<seq<Packet>>, repo: string, prHead: string): string {
    var heads := if input.task.status.Active() && stored.Some? && stored.value != []
                 then stored.value[|stored.value| - 1].head else input.source.shas;
    if repo in heads && heads[repo] != "" then heads[repo] else prHead
  }

  /** The status posted for a pull request, and the commit it is posted to: green for a task
      at rest iff its artifact log deserves it now, for an active task iff the packet stored
      last is green, whatever the log has come to say since. */
  method PostedStatus(input: Input, stored: Option<seq<Packet>>, written: bool, repo: string, prHead: string)
    returns (r: Option<(string, Status)>)
    ensures input.task.status.Active() ==> r.Some?
    ensures r.Some? ==> r.value.0 == Target(input, stored, repo, prHead)
    ensures r.Some? && !input.task.status.Active() ==>
      && (r.value.1.state == Success <==> Backs(input, repo, Lookup(input.source.shas, repo)))
      && (r.value.1.state == Success ==>
            && r.value.0 == Lookup(input.source.shas, repo)
            && r.value.1.description.Summary? && r.value.1.description.supported == r.value.1.description.core)
    ensures r.Some? && input.task.status.Active() ==>
      && (r.value.1.state == Success <==> StoredGreen(stored, repo))
      && (r.value.1.state == Success ==> r.value.0 == Lookup(stored.value[|stored.value| - 1].head, repo))
  {
    var p, built := SnapshotPacket(input, stored, written);
    if p.None? { return None; }
    PacketDescribes(input);
    SupportedIsCounted(input);
    r := Report(input, built, p.value, stored, written, repo, prHead);
  }

  method Report(ghost input: Input, ghost built: Packet, p: Packet, ghost stored: Option<seq<Packet>>,
                ghost written: bool, repo: string, prHead: string)
    returns (r: Option<(string, Status)>)
    requires Describes(built, input) && AllCounted(built)
    requires Shown(input.task.status.Active(), built, stored, written) == Some(p)
    ensures r.Some? && r.value.0 == Target(input, stored, repo, prHead)
    ensures !input.task.status.Active() ==>
      && (r.value.1.state == Success <==> Backs(input, repo, Lookup(input.source.shas, repo)))
      && (r.value.1.state == Success ==>
            && r.value.0 == Lookup(input.source.shas, repo)
            && r.value.1.description.Summary? && r.value.1.description.supported == r.value.1.description.core)
    ensures input.task.status.Active() ==>
      && (r.value.1.state == Success <==> StoredGreen(stored, repo))
      && (r.value.1.state == Success ==> r.value.0 == Lookup(stored.value[|stored.value| - 1].head, repo))
  {
    var sha := TargetOf(p, repo, prHead);
    var st := BuildStatus(Some(p), repo, sha);
    GreenExactly(input, built, stored, written, repo);
    r := Some((sha, st));
  }

  // ---------- a green that the present log contradicts ----------

  const Change := Observed.(kind := Diff, files := ["m"], model := "x")
  const Approves := Observed.(kind := Review, model := "y", verdict := Approve, checked := ["m"])
  const Fails := Observed.(kind := TestRun, passed := Some(false))

  const AtRest := Input(
    Task("t", TaskKind.Change, "", 1, Done, "", map[]), [Change, Passes, Approves], Source(Here, false, false),
    [], [], None, false)

  /** The task is verified again on the same commit, and a test run fails. */
  const Reverifying := AtRest.(
    task := AtRest.task.(status := Verifying), artifacts := AtRest.artifacts + [Change, Fails])

  lemma AtRestRuns()
    ensures RunsPolicy(AtRest)
  {
    assert AtRest.artifacts[1] == Passes;
    ObservedHere(AtRest, Passes);
    forall a | CurrentRun(AtRest, TestRun, a) ensures CleanPass(a) {
      var x :| x in AtRest.artifacts && Filed(AtRest, TestRun, x) && a == Normalized(x);
      assert x == Passes;
    }
  }

  lemma AtRestChange()
    ensures ChangeIsCurrent(AtRest, Change) && forall d :: Latest(AtRest, Diff, d) ==> d == Change
  {
    assert AtRest.artifacts[0] == Change && AtRest.artifacts[1] == Passes && AtRest.artifacts[2] == Approves;
    ObservedHere(AtRest, Change);
    assert LatestAt(AtRest, Diff, Change, 0);
    forall d | Latest(AtRest, Diff, d) ensures d == Change { OnlyLatest(AtRest, Diff, Change, d); }
  }

  lemma AtRestReview()
    ensures ReviewPolicy(AtRest)
  {
    assert AtRest.artifacts[2] == Approves;
    ObservedHere(AtRest, Approves);
    assert LatestAt(AtRest, Review, Approves, 2);
    AtRestChange();
    assert Approves.checked != [] && Text.Blank(Approves.counterexample);
  }

  lemma AtRestDeserves()
    ensures Deserved(AtRest)
  {
    AtRestRuns();
    AtRestChange();
    AtRestReview();
    PlainName();
    assert JudgedSound(AtRest, TouchesTests(Change));
  }

  lemma PlainName()
    ensures !TouchesTests(Change)
  {
    assert "m"[..0] == "" && Text.Base("m") == "m" && Text.Lower("m") == "m";
  }

  /** While the second verification runs, the packet stored before it is still reported: the
      commit stays green although a run on it has failed. */
  lemma GreenOutlivesEvidence(stored: Packet, built: Packet)
    requires stored == PacketOf(AtRest) && built == PacketOf(Reverifying)
    ensures var p := Shown(true, built, Some([stored]), true);
      p.Some? && Green(p.value, "r") && Lookup(p.value.head, "r") == "h" && Lookup(Reverifying.source.shas, "r") == "h"
    ensures Reverifying.task.status.Active() && CurrentRun(Reverifying, TestRun, Fails) && !RunOK(Fails)
    ensures !Deserved(Reverifying) && built.verdict != Supported
  {
    AtRestDeserves();
    PacketDescribes(AtRest);
    PacketDescribes(Reverifying);
    ActiveIsNotDeserved(Reverifying);
    StoredGreenIsShown(AtRest, stored, built, "r");
    FailsIsCurrent();
  }

  /** A stored green is reported for as long as the task is active. */
  lemma StoredGreenIsShown(before: Input, stored: Packet, built: Packet, repo: string)
    requires Describes(stored, before) && Deserved(before) && !before.source.dirty
    requires Lookup(before.source.shas, repo) != ""
    ensures var p := Shown(true, built, Some([stored]), true);
      p.Some? && Green(p.value, repo) && Lookup(p.value.head, repo) == Lookup(before.source.shas, repo)
  {
  }

  lemma FailsIsCurrent()
    ensures CurrentRun(Reverifying, TestRun, Fails) && !RunOK(Fails)
  {
    assert Reverifying.artifacts[4] == Fails;
    ObservedHere(Reverifying, Fails);
  }

  // ---------- what a green says ----------

  /** The artifact was observed on a clean tree with `repo` at `sha`, unless its own stamp
      holds a blank SHA. */
  ghost predicate SeenOn(a: Artifact, repo: string, sha: string) {
    && !a.sourceDirty
    && (repo in a.sourceSHAs ==> a.sourceSHAs[repo] == sha)
    && ("" !in a.sourceSHAs.Values ==> repo in a.sourceSHAs)
  }

  lemma CurrentIsSeen(o: Source, a: Artifact, repo: string, sha: string)
    requires Current(o, a) && Lookup(o.shas, repo) == sha && sha != ""
    ensures SeenOn(a, repo, sha)
  {
    if "" !in a.sourceSHAs.Values {
      SameSHAsMeansEqual(a.sourceSHAs);
      assert SameSHAs(a.sourceSHAs, o.shas);
    }
  }

  /** What a green status lets its reader conclude about the commit. */
  ghost predicate Earned(input: Input, repo: string, sha: string) {
    && input.task.status == Done
    && (exists d :: Latest(input, Diff, d) && d.files != [] && SeenOn(d, repo, sha))
    && (exists r :: Latest(input, Review, r) && SeenOn(r, repo, sha) && IndependentApproval(input, r))
    && (exists a :: CurrentRun(input, TestRun, a))
    && (forall a :: CurrentRun(input, TestRun, a) ==> SeenOn(a, repo, sha) && CleanPass(a))
    && (input.task.kind == Bugfix ==> exists x, y :: Flips(input, x, y) && SeenOn(y, repo, sha))
  }

  ghost predicate IndependentApproval(input: Input, r: Artifact) {
    && r.verdict == Approve && Text.Blank(r.counterexample) && r.checked != []
    && (forall f | f in r.findings :: f.severity != "high")
    && forall d :: Latest(input, Diff, d) ==> d.model != r.model && d.model != "" && r.model != ""
  }

  /** Never a fake green: for every artifact log, a success status is backed by evidence
      observed on exactly the reported commit. */
  lemma NeverAFakeGreen(input: Input, repo: string, sha: string)
    ensures PacketOf(input).verdict == Supported && Lookup(input.source.shas, repo) == sha && sha != "" ==>
              Earned(input, repo, sha)
  {
    SupportedExact(input);
    if Deserved(input) && Lookup(input.source.shas, repo) == sha && sha != "" {
      DeservedIsEarned(input, repo, sha);
    }
  }

  lemma DeservedIsEarned(input: Input, repo: string, sha: string)
    requires Deserved(input) && Lookup(input.source.shas, repo) == sha && sha != ""
    ensures Earned(input, repo, sha)
  {
    var d :| ChangeIsCurrent(input, d) && JudgedSound(input, TouchesTests(d));
    CurrentIsSeen(input.source, d, repo, sha);
    GreenReview(input, repo, sha);
    forall a | CurrentRun(input, TestRun, a) ensures SeenOn(a, repo, sha) {
      CurrentIsSeen(input.source, a, repo, sha);
    }
    if input.task.kind == Bugfix { GreenFlip(input, repo, sha); }
  }

  lemma GreenFlip(input: Input, repo: string, sha: string)
    requires FlipPolicy(input) && Lookup(input.source.shas, repo) == sha && sha != ""
    ensures exists x, y :: Flips(input, x, y) && SeenOn(y, repo, sha)
  {
    FlipsAre(input);
    var x, y :| Flips(input, x, y);
    SeenNowIs(input.source, y);
    CurrentIsSeen(input.source, y, repo, sha);
  }

  lemma GreenReview(input: Input, repo: string, sha: string)
    requires ReviewPolicy(input) && Lookup(input.source.shas, repo) == sha && sha != ""
    ensures exists r :: Latest(input, Review, r) && SeenOn(r, repo, sha) && IndependentApproval(input, r)
  {
    var r :| Latest(input, Review, r)
      && Current(input.source, r) && r.verdict == Approve && Text.Blank(r.counterexample)
      && (forall f | f in r.findings :: f.severity != "high") && r.checked != []
      && forall d :: Latest(input, Diff, d) ==> d.model != r.model && d.model != "" && r.model != "";
    CurrentIsSeen(input.source, r, repo, sha);
  }

  /** The same of what is posted: a green commit was earned, by the present log of a task at
      rest, or by the log of the moment the packet was stored. */
  lemma PostedGreenIsEarned(input: Input, built: Packet, stored: seq<Packet>, moments: seq<Input>, written: bool,
                            repo: string)
    requires Describes(built, input) && StoredAt(stored, moments)
    requires Shown(input.task.status.Active(), built, Some(stored), written).Some?
    ensures var p := Shown(input.task.status.Active(), built, Some(stored), written).value;
      Green(p, repo) ==>
        if input.task.status.Active() then moments != [] && Earned(moments[|moments| - 1], repo, Lookup(p.head, repo))
        else Earned(input, repo, Lookup(p.head, repo))
  {
    GreenIsBacked(input, built, stored, moments, written, repo);
    var p := Shown(input.task.status.Active(), built, Some(stored), written).value;
    if Green(p, repo) {
      DeservedIsEarned(if input.task.status.Active() then moments[|moments| - 1] else input, repo, Lookup(p.head, repo));
    }
  }
}
