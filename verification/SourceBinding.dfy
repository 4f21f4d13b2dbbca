/** Binding evidence to a source state: a run is stamped with the heads observed before it,
    and marked dirty if the tree is observed to differ afterwards. Worktrees change at any
    time; every git call sees whatever is there at that moment. */
module SourceBinding {
  import opened Domain
  import opened ProofSpec
  import opened ProofPolicy
  import opened ProofTheorems

  /** Per git call and repository: HEAD, whether there are uncommitted changes, and whether
      the call works at all. */
  datatype World = World(head: (nat, string) -> string, dirty: (nat, string) -> bool, works: nat -> bool)

  datatype Observation = Observation(shas: SHAs, dirty: bool)

  // ---------- specification ----------

  /** What is observed by two git calls per repository, the first of them at time `start`. */
  function Observed(w: World, start: nat, repos: seq<string>): Option<Observation> {
    if repos == [] then Some(Observation(map[], false))
    else
      var n := |repos| - 1;
      var at, before := start + 2 * n, Observed(w, start, repos[..n]);
      if before.None? || !w.works(at) || !w.works(at + 1) then None
      else Some(Observation(before.value.shas[repos[n] := w.head(at, repos[n])],
                            before.value.dirty || w.dirty(at + 1, repos[n])))
  }

  predicate Unmoved(before: Observation, after: Option<Observation>) {
    after.Some? && !after.value.dirty && forall k | k in before.shas :: Lookup(after.value.shas, k) == before.shas[k]
  }

  // ---------- the program ----------

  class Worktrees {
    const world: World
    var clock: nat

    constructor (world: World)
      ensures this.world == world && clock == 0
    {
      this.world := world;
      clock := 0;
    }

    method Heads(repos: seq<string>) returns (r: Option<Observation>)
      modifies this`clock
      ensures r == Observed(world, old(clock), repos) && clock >= old(clock)
    {
      var heads: SHAs, dirty := map[], false;
      for i := 0 to |repos|
        invariant Observed(world, old(clock), repos[..i]) == Some(Observation(heads, dirty))
        invariant clock == old(clock) + 2 * i
      {
        assert repos[..i + 1][..i] == repos[..i];
        if !world.works(clock) || !world.works(clock + 1) {
          Unobserved(world, old(clock), repos, i + 1);
          return None;
        }
        heads := heads[repos[i] := world.head(clock, repos[i])];
        clock := clock + 1;
        if world.dirty(clock, repos[i]) { dirty := true; }
        clock := clock + 1;
      }
      assert repos[..|repos|] == repos;
      return Some(Observation(heads, dirty));
    }
  }

  lemma {:induction false} Unobserved(w: World, start: nat, repos: seq<string>, n: nat)
    requires n <= |repos| && Observed(w, start, repos[..n]).None?
    ensures Observed(w, start, repos).None?
    decreases |repos|
  {
    if n < |repos| {
      assert repos[..|repos| - 1][..n] == repos[..n];
      Unobserved(w, start, repos[..|repos| - 1], n);
    } else {
      assert repos[..n] == repos;
    }
  }

  /** The part of an artifact that is stamped in place. */
  class Stamp {
    var sourceSHAs: SHAs
    var sourceDirty: bool

    constructor ()
      ensures sourceSHAs == map[] && !sourceDirty
    {
      sourceSHAs, sourceDirty := map[], false;
    }

    /** The heads are compared in no particular order. */
    method BindSource(trees: Worktrees, repos: seq<string>, before: Observation)
      modifies this, trees`clock
      ensures sourceSHAs == before.shas
      ensures sourceDirty <==> before.dirty || !Unmoved(before, Observed(trees.world, old(trees.clock), repos))
    {
      sourceSHAs, sourceDirty := before.shas, before.dirty;
      var after := trees.Heads(repos);
      if after.None? {
        sourceDirty := true;
        return;
      }
      if after.value.dirty { sourceDirty := true; }
      var todo := before.shas.Keys;
      while todo != {}
        invariant todo <= before.shas.Keys && sourceSHAs == before.shas
        invariant sourceDirty <==>
          (before.dirty || after.value.dirty
           || exists k | k in before.shas && k !in todo :: Lookup(after.value.shas, k) != before.shas[k])
        decreases |todo|
      {
        var k :| k in todo;
        todo := todo - {k};
        if Lookup(after.value.shas, k) != before.shas[k] { sourceDirty := true; }
      }
    }
  }

  // ---------- theorems ----------

  /** `a` was stamped by two observations of the task's repositories, at `t0` and at `t1`. */
  ghost predicate BoundBy(w: World, repos: seq<string>, t0: nat, t1: nat, a: Artifact) {
    && Observed(w, t0, repos).Some?
    && var before := Observed(w, t0, repos).value;
       a.sourceSHAs == before.shas
       && (a.sourceDirty <==> before.dirty || !Unmoved(before, Observed(w, t1, repos)))
  }

  /** At both ends of the run `repo` was seen at `sha`. */
  ghost predicate SeenAt(w: World, repos: seq<string>, t0: nat, t1: nat, repo: string, sha: string) {
    exists i | 0 <= i < |repos| ::
      repos[i] == repo && w.head(t0 + 2 * i, repo) == sha && w.head(t1 + 2 * i, repo) == sha
  }

  /** Every look at any worktree found no uncommitted change. */
  ghost predicate SeenClean(w: World, repos: seq<string>, start: nat) {
    forall i | 0 <= i < |repos| :: !w.dirty(start + 2 * i + 1, repos[i])
  }

  lemma {:induction false} ObservedClean(w: World, start: nat, repos: seq<string>)
    requires Observed(w, start, repos).Some?
    ensures !Observed(w, start, repos).value.dirty <==> SeenClean(w, repos, start)
    ensures forall r :: r in Observed(w, start, repos).value.shas <==> r in repos
    decreases |repos|
  {
    if repos != [] {
      var n := |repos| - 1;
      ObservedClean(w, start, repos[..n]);
      assert forall i | 0 <= i < n :: repos[..n][i] == repos[i];
      assert repos == repos[..n] + [repos[n]];
    }
  }

  /** Where the stamp for a repository comes from: its last mention, in both observations. */
  lemma {:induction false} ObservedHead(w: World, t0: nat, t1: nat, repos: seq<string>, repo: string) returns (i: nat)
    requires Observed(w, t0, repos).Some? && Observed(w, t1, repos).Some? && repo in repos
    ensures i < |repos| && repos[i] == repo
    ensures var a, b := Observed(w, t0, repos).value.shas, Observed(w, t1, repos).value.shas;
      repo in a && a[repo] == w.head(t0 + 2 * i, repo) && repo in b && b[repo] == w.head(t1 + 2 * i, repo)
    decreases |repos|
  {
    var n := |repos| - 1;
    if repos[n] == repo {
      i := n;
    } else {
      assert repos == repos[..n] + [repos[n]];
      i := ObservedHead(w, t0, t1, repos[..n], repo);
    }
  }

  /** The second observation can only downgrade: an artifact counts as current exactly when
      its first stamp does and the tree was then seen clean and unmoved. */
  lemma BindingOnlyDowngrades(w: World, repos: seq<string>, t0: nat, t1: nat, o: Source, a: Artifact)
    requires BoundBy(w, repos, t0, t1, a)
    ensures var before := Observed(w, t0, repos).value;
      Current(o, a) <==> Current(o, a.(sourceDirty := before.dirty)) && Unmoved(before, Observed(w, t1, repos))
  {
  }

  /** The bracket: if the builder takes a bound artifact as current, then before and after
      the command every worktree was seen clean, and each repository was seen at exactly
      the head the packet names, whatever happened to the tree at other times. */
  lemma CurrentIsBracketed(w: World, repos: seq<string>, t0: nat, t1: nat, o: Source, a: Artifact)
    requires BoundBy(w, repos, t0, t1, a) && Current(o, a)
    ensures SeenClean(w, repos, t0) && SeenClean(w, repos, t1)
    ensures forall r | r in repos :: SeenAt(w, repos, t0, t1, r, Lookup(o.shas, r))
  {
    ObservedClean(w, t0, repos);
    ObservedClean(w, t1, repos);
    forall r | r in repos ensures SeenAt(w, repos, t0, t1, r, Lookup(o.shas, r)) {
      var i := ObservedHead(w, t0, t1, repos, r);
      assert r in a.sourceSHAs && Lookup(o.shas, r) == a.sourceSHAs[r];
    }
  }

  /** The other way round, when git never reports a blank head: seen clean and at the
      packet's heads at both ends, a run of the task is current. */
  lemma BracketedIsCurrent(w: World, repos: seq<string>, t0: nat, t1: nat, o: Source, a: Artifact)
    requires BoundBy(w, repos, t0, t1, a) && Observed(w, t1, repos).Some?
    requires repos != [] && !o.unknown && !o.dirty && o.shas.Keys == (set r | r in repos)
    requires SeenClean(w, repos, t0) && SeenClean(w, repos, t1)
    requires forall i | 0 <= i < |repos| ::
      w.head(t0 + 2 * i, repos[i]) == w.head(t1 + 2 * i, repos[i]) == o.shas[repos[i]]
    ensures Current(o, a)
  {
    ObservedClean(w, t0, repos);
    ObservedClean(w, t1, repos);
    var before, after := Observed(w, t0, repos).value, Observed(w, t1, repos).value;
    forall k | k in before.shas ensures Lookup(after.shas, k) == before.shas[k] == Lookup(o.shas, k) {
      var i := ObservedHead(w, t0, t1, repos, k);
    }
    assert before.shas.Keys == o.shas.Keys;
    assert repos[0] in before.shas;
  }

  /** An artifact for which no observation succeeded carries no stamp and is never current,
      nor ever counted as seen on the base. */
  lemma UnstampedNeverCounts(t: Task, o: Source, a: Artifact)
    requires a.sourceSHAs == map[]
    ensures !Current(o, a) && !OnBase(t, a)
  {
  }

  // ---------- what a single look afterwards is worth ----------

  /** The head of a repository as seen from `start` on; a repeated name counts where it is last. */
  function HeadAt(w: World, start: nat, repos: seq<string>, repo: string): string
    requires repo in repos
  {
    var n := |repos| - 1;
    if repos[n] == repo then w.head(start + 2 * n, repo)
    else
      assert repos == repos[..n] + [repos[n]];
      HeadAt(w, start, repos[..n], repo)
  }

  lemma {:induction false} ObservedHeads(w: World, start: nat, repos: seq<string>)
    requires Observed(w, start, repos).Some?
    ensures var shas := Observed(w, start, repos).value.shas;
      shas.Keys == (set r | r in repos) && forall r | r in repos :: shas[r] == HeadAt(w, start, repos, r)
    decreases |repos|
  {
    if repos != [] {
      var n := |repos| - 1;
      assert repos == repos[..n] + [repos[n]];
      ObservedHeads(w, start, repos[..n]);
    }
  }

  /** The heads can be observed exactly when both calls work for every repository. */
  lemma {:induction false} ObservedExactly(w: World, start: nat, repos: seq<string>)
    ensures Observed(w, start, repos).Some? <==> forall t: nat | start <= t < start + 2 * |repos| :: w.works(t)
    decreases |repos|
  {
    if repos != [] {
      var n := |repos| - 1;
      ObservedExactly(w, start, repos[..n]);
    }
  }

  /** The packet names exactly the repositories of the task, at the heads seen from `start` on. */
  ghost predicate HeadsSeen(w: World, start: nat, repos: seq<string>, shas: SHAs) {
    shas.Keys == (set r | r in repos) && forall r | r in repos :: shas[r] == HeadAt(w, start, repos, r)
  }

  /** A review or a diff is stamped by one look after the fact. */
  ghost predicate StampedBy(w: World, repos: seq<string>, end: nat, a: Artifact) {
    && Observed(w, end, repos).Some?
    && a.sourceSHAs == Observed(w, end, repos).value.shas && a.sourceDirty == Observed(w, end, repos).value.dirty
  }

  /** Exactly when such an artifact counts as current: that look found the trees clean and at
      the packet's heads. Nothing earlier enters. */
  lemma SingleStampExactly(w: World, repos: seq<string>, end: nat, o: Source, a: Artifact)
    requires StampedBy(w, repos, end, a) && repos != []
    requires forall r | r in repos :: HeadAt(w, end, repos, r) != ""
    ensures Current(o, a) <==> !o.unknown && !o.dirty && SeenClean(w, repos, end) && HeadsSeen(w, end, repos, o.shas)
  {
    ObservedClean(w, end, repos);
    ObservedHeads(w, end, repos);
    var shas := a.sourceSHAs;
    assert repos[0] in shas;
    forall v | v in shas.Values ensures v != "" {
      var k :| k in shas && shas[k] == v;
    }
    SameSHAsMeansEqual(shas);
    assert SameSHAs(shas, o.shas) <==> shas == o.shas;
  }

  /** The same of an artifact that is bound by two looks: both found the trees clean and at
      the packet's heads. */
  lemma BoundExactly(w: World, repos: seq<string>, t0: nat, t1: nat, o: Source, a: Artifact)
    requires BoundBy(w, repos, t0, t1, a) && repos != []
    requires forall r | r in repos :: HeadAt(w, t0, repos, r) != ""
    ensures Current(o, a) <==>
      && !o.unknown && !o.dirty
      && SeenClean(w, repos, t0) && HeadsSeen(w, t0, repos, o.shas)
      && Observed(w, t1, repos).Some? && SeenClean(w, repos, t1) && HeadsSeen(w, t1, repos, o.shas)
  {
    var before, after := Observed(w, t0, repos).value, Observed(w, t1, repos);
    var first := a.(sourceDirty := before.dirty);
    SingleStampExactly(w, repos, t0, o, first);
    BindingOnlyDowngrades(w, repos, t0, t1, o, a);
    ObservedHeads(w, t0, repos);
    if after.Some? {
      ObservedClean(w, t1, repos);
      ObservedHeads(w, t1, repos);
    }
  }

  /** Git calls 0 and 1 find the tree dirty and at another head, later ones find it clean at "h". */
  const MovedOnce := World(
    (k: nat, r: string) => if k < 2 then "old" else "h", (k: nat, r: string) => k < 2, (k: nat) => true)

  /** A tree that was dirty and elsewhere while a review was made: the review is current all
      the same, where a run bound at both ends is not, whatever the packet. */
  lemma SingleStampMissesMoves(review: Artifact, run: Artifact, o: Source)
    requires StampedBy(MovedOnce, ["r"], 2, review) && BoundBy(MovedOnce, ["r"], 0, 2, run)
    ensures Observed(MovedOnce, 0, ["r"]) == Some(Observation(map["r" := "old"], true))
    ensures Current(Source(map["r" := "h"], false, false), review)
    ensures !Current(o, run)
  {
    var repos := ["r"];
    assert repos[..0] == [];
    assert Observed(MovedOnce, 0, repos) == Some(Observation(map["r" := "old"], true));
    assert Observed(MovedOnce, 2, repos) == Some(Observation(map["r" := "h"], false));
  }

  /** End to end: behind a SUPPORTED packet, every test run that counts was bracketed by
      sightings of exactly the packet's heads, and passed cleanly. */
  lemma SupportedRunsAreBracketed(input: Input, w: World, repos: seq<string>, t0: Artifact -> nat, t1: Artifact -> nat)
    ensures PacketOf(input).verdict == Supported ==>
      forall a :: CurrentRun(input, TestRun, a) && BoundBy(w, repos, t0(a), t1(a), a) ==>
        && CleanPass(a) && SeenClean(w, repos, t0(a)) && SeenClean(w, repos, t1(a))
        && forall r | r in repos :: SeenAt(w, repos, t0(a), t1(a), r, Lookup(input.source.shas, r))
  {
    SupportedExact(input);
    forall a | Deserved(input) && CurrentRun(input, TestRun, a) && BoundBy(w, repos, t0(a), t1(a), a)
      ensures CleanPass(a) && SeenClean(w, repos, t0(a)) && SeenClean(w, repos, t1(a))
      ensures forall r | r in repos :: SeenAt(w, repos, t0(a), t1(a), r, Lookup(input.source.shas, r))
    {
      CurrentIsBracketed(w, repos, t0(a), t1(a), input.source, a);
    }
  }
}
