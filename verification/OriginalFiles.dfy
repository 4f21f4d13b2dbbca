/** Replaying the original tests: the base version of the listed files is swapped into the
    worktrees, a body runs, and the current version is put back. Git and the file system
    may fail at any call; a cancelled context is the case where every later git call fails. */
module OriginalFiles {
  import opened Domain

  datatype Path = Path(repo: string, rel: string)
  type Content = string
  type Tree = map<Path, Content>

  /** The files of all worktrees and git's index of them. */
  datatype Work = Work(files: Tree, index: Tree)

  /** What the world does: per listed file, whether git finds it at base, checks it out, and
      whether it can be moved aside; per repository, whether git can restore; per file moved
      aside, whether it can be moved back. */
  datatype Fate = Fate(cat: nat -> bool, checkout: nat -> bool, move: nat -> bool,
                       restore: string -> bool, back: Path -> bool)

  datatype Env = Env(head: Tree, base: Tree, fate: Fate)

  const SUFFIX := ".orc-aside"

  function Aside(p: Path): Path {
    Path(p.repo, p.rel + SUFFIX)
  }

  /** Splits "repo/path" at the first slash; None without one. */
  function Cut(f: string): (r: Option<Path>)
    ensures r.Some? <==> '/' in f
    ensures r.Some? ==> f == r.value.repo + "/" + r.value.rel && '/' !in r.value.repo
  {
    if f == "" then None
    else if f[0] == '/' then Some(Path("", f[1..]))
    else
      var rest := Cut(f[1..]);
      if rest.None? then None else Some(Path([f[0]] + rest.value.repo, rest.value.rel))
  }

  // ---------- specification ----------

  function CheckOut(w: Work, tree: Tree, paths: set<Path>): Work
    requires paths <= tree.Keys
  {
    var taken := map p | p in paths :: tree[p];
    Work(w.files + taken, w.index + taken)
  }

  function Move(files: Tree, from: Path, to: Path): Tree
    requires from in files
  {
    (files - {from})[to := files[from]]
  }

  /** The swap so far: what was checked out from base and what was moved aside. */
  datatype Swap = Swap(w: Work, checkedOut: seq<Path>, aside: seq<Path>, failed: bool)

  function SwapOne(env: Env, s: Swap, i: nat, file: string): Swap {
    var cut := Cut(file);
    if s.failed || cut.None? then s
    else
      var p := cut.value;
      if env.fate.cat(i) && p in env.base then
        if env.fate.checkout(i) then s.(w := CheckOut(s.w, env.base, {p}), checkedOut := s.checkedOut + [p])
        else s.(failed := true)
      else if p !in s.w.files then s
      else if env.fate.move(i) then
        s.(w := s.w.(files := Move(s.w.files, p, Aside(p))), aside := s.aside + [p])
      else s.(failed := true)
  }

  function SwapAll(env: Env, w: Work, files: seq<string>): Swap {
    if files == [] then Swap(w, [], [], false)
    else SwapOne(env, SwapAll(env, w, files[..|files| - 1]), |files| - 1, files[|files| - 1])
  }

  /** Git restores the listed paths of one repository all together or not at all: it refuses
      if one of them does not exist at HEAD. */
  predicate Restorable(env: Env, checkedOut: seq<Path>, repo: string) {
    env.fate.restore(repo) && forall p | p in checkedOut && p.repo == repo :: p in env.head
  }

  function Restored(env: Env, checkedOut: seq<Path>): (r: set<Path>)
    ensures r <= env.head.Keys
  {
    set p | p in checkedOut && Restorable(env, checkedOut, p.repo)
  }

  /** Moves the files back in reverse order; also says whether every move worked. */
  function PutBack(env: Env, files: Tree, aside: seq<Path>): (Tree, bool)
    decreases |aside|
  {
    if aside == [] then (files, true)
    else
      var p, rest := aside[|aside| - 1], aside[..|aside| - 1];
      if env.fate.back(p) && Aside(p) in files then PutBack(env, Move(files, Aside(p), p), rest)
      else (PutBack(env, files, rest).0, false)
  }

  /** The worktrees after the deferred restoration. */
  function Undone(env: Env, s: Swap): Work {
    var w := CheckOut(s.w, env.head, Restored(env, s.checkedOut));
    w.(files := PutBack(env, w.files, s.aside).0)
  }

  /** Whether the restoration reports no error of its own. */
  predicate UndoneCleanly(env: Env, s: Swap) {
    var w := CheckOut(s.w, env.head, Restored(env, s.checkedOut));
    AllRestorable(env, s.checkedOut, {}) && PutBack(env, w.files, s.aside).1
  }

  // ---------- the program ----------

  class Checkout {
    var files: Tree
    var index: Tree
    const env: Env

    constructor (env: Env, w: Work)
      ensures Contents() == w && this.env == env
    {
      files, index := w.files, w.index;
      this.env := env;
    }

    function Contents(): Work
      reads this
    {
      Work(files, index)
    }

    /** `seen` is what the body finds, if it runs at all; the body leaves the trees alone. */
    method WithOriginalFiles(list: seq<string>) returns (seen: Option<Work>, restoreOk: bool)
      modifies this
      ensures var s := SwapAll(env, old(Contents()), list);
        && seen == (if s.failed then None else Some(s.w))
        && Contents() == Undone(env, s) && restoreOk == UndoneCleanly(env, s)
    {
      var restoreCheckout: map<string, set<Path>> := map[];
      var aside: seq<Path> := [];
      var failed := false;
      ghost var checkedOut: seq<Path> := [];
      for i := 0 to |list|
        invariant SwapAll(env, old(Contents()), list[..i]) == Swap(Contents(), checkedOut, aside, failed)
        invariant Groups(restoreCheckout, checkedOut)
      {
        assert list[..i + 1][..i] == list[..i];
        var cut := Cut(list[i]);
        if !failed && cut.Some? {
          var p := cut.value;
          if env.fate.cat(i) && p in env.base {
            if env.fate.checkout(i) {
              GitCheckout(env.base, {p});
              restoreCheckout := AddTo(restoreCheckout, p, checkedOut);
              checkedOut := checkedOut + [p];
            } else {
              failed := true;
            }
          } else if p in files {
            if env.fate.move(i) {
              files := Move(files, p, Aside(p));
              aside := aside + [p];
            } else {
              failed := true;
            }
          }
        }
      }
      assert list[..|list|] == list;
      seen := if failed then None else Some(Work(files, index));
      restoreOk := RestoreCheckouts(restoreCheckout, checkedOut);
      var backOk := MoveBack(aside);
      restoreOk := restoreOk && backOk;
    }

    /** `git checkout <tree> -- <paths>`: files and index together. */
    method GitCheckout(tree: Tree, paths: set<Path>)
      requires paths <= tree.Keys
      modifies this
      ensures Contents() == CheckOut(old(Contents()), tree, paths)
    {
      var taken := map p | p in paths :: tree[p];
      files, index := files + taken, index + taken;
    }

    /** The repositories are restored in no particular order. */
    method RestoreCheckouts(groups: map<string, set<Path>>, ghost checkedOut: seq<Path>) returns (ok: bool)
      requires Groups(groups, checkedOut)
      modifies this
      ensures Contents() == CheckOut(old(Contents()), env.head, Restored(env, checkedOut))
      ensures ok <==> AllRestorable(env, checkedOut, {})
    {
      ok := true;
      var todo := groups.Keys;
      RestoreNone(env, Contents(), groups, checkedOut);
      while todo != {}
        invariant todo <= groups.Keys
        invariant Contents() == RestoredSoFar(env, old(Contents()), checkedOut, todo)
        invariant ok <==> AllRestorable(env, checkedOut, todo)
        decreases |todo|
      {
        var repo :| repo in todo;
        RestoreNext(env, old(Contents()), groups, checkedOut, todo, repo);
        if env.fate.restore(repo) && groups[repo] <= env.head.Keys {
          GitCheckout(env.head, groups[repo]);
        } else {
          ok := false;
        }
        todo := todo - {repo};
      }
      RestoreDone(env, old(Contents()), checkedOut);
    }

    method MoveBack(aside: seq<Path>) returns (ok: bool)
      modifies this`files
      ensures (files, ok) == PutBack(env, old(files), aside)
    {
      ok := true;
      var i := |aside|;
      assert aside[..i] == aside;
      while i > 0
        invariant 0 <= i <= |aside|
        invariant PutBack(env, old(files), aside).0 == PutBack(env, files, aside[..i]).0
        invariant PutBack(env, old(files), aside).1 == (ok && PutBack(env, files, aside[..i]).1)
      {
        i := i - 1;
        assert aside[..i + 1][..i] == aside[..i];
        if env.fate.back(aside[i]) && Aside(aside[i]) in files {
          files := Move(files, Aside(aside[i]), aside[i]);
        } else {
          ok := false;
        }
      }
    }
  }

  predicate Groups(groups: map<string, set<Path>>, checkedOut: seq<Path>) {
    && (forall p | p in checkedOut :: p.repo in groups && p in groups[p.repo])
    && (forall r, p | r in groups && p in groups[r] :: p.repo == r && p in checkedOut)
    && (forall r | r in groups :: groups[r] != {})
  }

  function AddTo(groups: map<string, set<Path>>, p: Path, ghost checkedOut: seq<Path>): (r: map<string, set<Path>>)
    requires Groups(groups, checkedOut)
    ensures Groups(r, checkedOut + [p])
  {
    groups[p.repo := (if p.repo in groups then groups[p.repo] else {}) + {p}]
  }

  /** What is restored once only the repositories in `todo` are left. */
  function RestoredBut(env: Env, checkedOut: seq<Path>, todo: set<string>): (r: set<Path>)
    ensures r <= env.head.Keys
  {
    set p | p in Restored(env, checkedOut) && p.repo !in todo
  }

  lemma GroupRestorable(env: Env, groups: map<string, set<Path>>, checkedOut: seq<Path>, repo: string)
    requires Groups(groups, checkedOut) && repo in groups
    ensures Restorable(env, checkedOut, repo) <==> env.fate.restore(repo) && groups[repo] <= env.head.Keys
  {
    if env.fate.restore(repo) && groups[repo] <= env.head.Keys {
      forall p | p in checkedOut && p.repo == repo ensures p in env.head {
        assert p in groups[repo];
      }
    }
    if Restorable(env, checkedOut, repo) {
      forall p | p in groups[repo] ensures p in env.head {
        assert p in checkedOut && p.repo == repo;
      }
    }
  }

  predicate AllRestorable(env: Env, checkedOut: seq<Path>, todo: set<string>) {
    forall p | p in checkedOut && p.repo !in todo :: Restorable(env, checkedOut, p.repo)
  }

  function RestoredSoFar(env: Env, w: Work, checkedOut: seq<Path>, todo: set<string>): Work {
    CheckOut(w, env.head, RestoredBut(env, checkedOut, todo))
  }

  lemma RestoreNone(env: Env, w: Work, groups: map<string, set<Path>>, checkedOut: seq<Path>)
    requires Groups(groups, checkedOut)
    ensures RestoredSoFar(env, w, checkedOut, groups.Keys) == w
  {
    assert RestoredBut(env, checkedOut, groups.Keys) == {};
  }

  lemma RestoreDone(env: Env, w: Work, checkedOut: seq<Path>)
    ensures RestoredSoFar(env, w, checkedOut, {}) == CheckOut(w, env.head, Restored(env, checkedOut))
  {
    assert RestoredBut(env, checkedOut, {}) == Restored(env, checkedOut);
  }

  lemma CheckOutMore(w: Work, tree: Tree, first: set<Path>, second: set<Path>)
    requires first <= tree.Keys && second <= tree.Keys
    ensures CheckOut(CheckOut(w, tree, first), tree, second) == CheckOut(w, tree, first + second)
  {
    OverlayMore(w.files, tree, first, second);
    OverlayMore(w.index, tree, first, second);
  }

  lemma OverlayMore(files: Tree, tree: Tree, first: set<Path>, second: set<Path>)
    requires first <= tree.Keys && second <= tree.Keys
    ensures files + (map p | p in first :: tree[p]) + (map p | p in second :: tree[p])
            == files + (map p | p in first + second :: tree[p])
  {
  }

  lemma RestoreNext(env: Env, w: Work, groups: map<string, set<Path>>, checkedOut: seq<Path>, todo: set<string>,
                    repo: string)
    requires Groups(groups, checkedOut) && repo in todo && repo in groups
    ensures var restored := RestoredSoFar(env, w, checkedOut, todo - {repo});
      if env.fate.restore(repo) && groups[repo] <= env.head.Keys then
        && restored == CheckOut(RestoredSoFar(env, w, checkedOut, todo), env.head, groups[repo])
        && (AllRestorable(env, checkedOut, todo) <==> AllRestorable(env, checkedOut, todo - {repo}))
      else
        restored == RestoredSoFar(env, w, checkedOut, todo) && !AllRestorable(env, checkedOut, todo - {repo})
  {
    GroupRestorable(env, groups, checkedOut, repo);
    var before, after := RestoredBut(env, checkedOut, todo), RestoredBut(env, checkedOut, todo - {repo});
    if Restorable(env, checkedOut, repo) {
      assert after == before + groups[repo];
      CheckOutMore(w, env.head, before, groups[repo]);
    } else {
      assert after == before;
      var p :| p in groups[repo];
      assert p in checkedOut && p.repo == repo;
    }
  }

  // ---------- what the swap does to the trees ----------

  function Asides(aside: seq<Path>): set<Path> {
    set p | p in aside :: Aside(p)
  }

  predicate Distinct(ps: seq<Path>) {
    forall i, j | 0 <= i < j < |ps| :: ps[i] != ps[j]
  }

  /** The trees hold exactly what HEAD holds, apart from files git does not track. */
  predicate Clean(env: Env, w: Work) {
    && w.index == env.head
    && forall p | p in env.head :: p in w.files && w.files[p] == env.head[p]
  }

  /** Distinct entries, none of which is or clashes with a file that is set aside. */
  predicate Suitable(w: Work, list: seq<string>) {
    && (forall i, j | 0 <= i < j < |list| :: list[i] != list[j])
    && (forall i | 0 <= i < |list| && Cut(list[i]).Some? ::
          Aside(Cut(list[i]).value) !in w.files && !Listed(list, Aside(Cut(list[i]).value)))
  }

  predicate Listed(list: seq<string>, p: Path) {
    exists i :: 0 <= i < |list| && Cut(list[i]) == Some(p)
  }

  function Members(ps: seq<Path>): set<Path> {
    set p | p in ps
  }

  lemma Snoc(ps: seq<Path>, p: Path)
    ensures Members(ps + [p]) == Members(ps) + {p} && Asides(ps + [p]) == Asides(ps) + {Aside(p)}
  {
  }

  /** What was checked out exists at base, what was moved aside existed before. */
  predicate Parts(env: Env, files: Tree, checkedOut: set<Path>, aside: seq<Path>) {
    && Distinct(aside)
    && checkedOut <= env.base.Keys && checkedOut !! Members(aside) && checkedOut !! Asides(aside)
    && Members(aside) <= files.Keys && Asides(aside) !! files.Keys && Asides(aside) !! Members(aside)
  }

  /** Base content where base was checked out, nothing where a file was moved aside, its
      content under the aside name, and everything else as before. */
  predicate SwappedFiles(env: Env, before: Tree, after: Tree, checkedOut: set<Path>, aside: seq<Path>)
    requires Parts(env, before, checkedOut, aside)
  {
    && after.Keys == before.Keys - Members(aside) + Asides(aside) + checkedOut
    && (forall p | p in checkedOut :: after[p] == env.base[p])
    && (forall p | p in aside :: after[Aside(p)] == before[p])
    && (forall p | p in before && p !in aside && p !in checkedOut :: after[p] == before[p])
  }

  predicate SwappedIndex(env: Env, before: Tree, after: Tree, checkedOut: set<Path>)
    requires checkedOut <= env.base.Keys
  {
    && after.Keys == before.Keys + checkedOut
    && (forall p | p in after :: after[p] == if p in checkedOut then env.base[p] else before[p])
  }

  predicate Swapped(env: Env, w: Work, s: Swap) {
    && Parts(env, w.files, Members(s.checkedOut), s.aside)
    && SwappedFiles(env, w.files, s.w.files, Members(s.checkedOut), s.aside)
    && SwappedIndex(env, w.index, s.w.index, Members(s.checkedOut))
  }

  lemma AsideInjective(p: Path, q: Path)
    ensures Aside(p) == Aside(q) ==> p == q
  {
    if Aside(p) == Aside(q) {
      assert p.rel == Aside(p).rel[..|p.rel|] && q.rel == Aside(q).rel[..|q.rel|];
      assert |Aside(p).rel| == |p.rel| + |SUFFIX| && |Aside(q).rel| == |q.rel| + |SUFFIX|;
    }
  }

  lemma TakeOne(tree: Tree, p: Path)
    requires p in tree
    ensures (map q | q in {p} :: tree[q]) == map[p := tree[p]]
  {
  }

  lemma ChecksOutFile(env: Env, before: Tree, after: Tree, checkedOut: set<Path>, aside: seq<Path>, p: Path)
    requires Parts(env, before, checkedOut, aside) && SwappedFiles(env, before, after, checkedOut, aside)
    requires p in env.base && p !in aside && p !in Asides(aside)
    ensures Parts(env, before, checkedOut + {p}, aside)
    ensures SwappedFiles(env, before, after + map[p := env.base[p]], checkedOut + {p}, aside)
  {
    forall q | q in aside ensures Aside(q) in Asides(aside) {}
  }

  lemma ChecksOutIndex(env: Env, before: Tree, after: Tree, checkedOut: set<Path>, p: Path)
    requires checkedOut <= env.base.Keys && SwappedIndex(env, before, after, checkedOut) && p in env.base
    ensures SwappedIndex(env, before, after + map[p := env.base[p]], checkedOut + {p})
  {
  }

  lemma CheckOutOne(w: Work, tree: Tree, p: Path)
    requires p in tree
    ensures CheckOut(w, tree, {p}) == Work(w.files + map[p := tree[p]], w.index + map[p := tree[p]])
  {
    TakeOne(tree, p);
  }

  lemma ChecksOut(env: Env, w: Work, s: Swap, p: Path)
    requires Swapped(env, w, s) && p in env.base && p !in s.aside && p !in Asides(s.aside)
    ensures Swapped(env, w, s.(w := CheckOut(s.w, env.base, {p}), checkedOut := s.checkedOut + [p]))
  {
    CheckOutOne(s.w, env.base, p);
    TakesFromBase(env, w, s, p, CheckOut(s.w, env.base, {p}));
  }

  lemma TakesFromBase(env: Env, w: Work, s: Swap, p: Path, now: Work)
    requires Swapped(env, w, s) && p in env.base && p !in s.aside && p !in Asides(s.aside)
    requires now == Work(s.w.files + map[p := env.base[p]], s.w.index + map[p := env.base[p]])
    ensures Swapped(env, w, s.(w := now, checkedOut := s.checkedOut + [p]))
  {
    Snoc(s.checkedOut, p);
    ChecksOutFile(env, w.files, s.w.files, Members(s.checkedOut), s.aside, p);
    ChecksOutIndex(env, w.index, s.w.index, Members(s.checkedOut), p);
  }

  lemma MovesParts(env: Env, before: Tree, checkedOut: set<Path>, aside: seq<Path>, p: Path)
    requires Parts(env, before, checkedOut, aside)
    requires p in before && p !in checkedOut && p !in aside && p !in Asides(aside)
    requires Aside(p) !in before && Aside(p) !in checkedOut && Aside(p) !in aside
    ensures Parts(env, before, checkedOut, aside + [p])
  {
    Snoc(aside, p);
    forall q | q in aside ensures Aside(q) != Aside(p) { AsideInjective(p, q); }
  }

  lemma MovesFile(env: Env, before: Tree, after: Tree, checkedOut: set<Path>, aside: seq<Path>, p: Path)
    requires Parts(env, before, checkedOut, aside) && SwappedFiles(env, before, after, checkedOut, aside)
    requires p in after && p !in checkedOut && p !in aside && p !in Asides(aside)
    requires Aside(p) !in before && Aside(p) !in checkedOut && Aside(p) !in aside
    ensures Parts(env, before, checkedOut, aside + [p])
    ensures SwappedFiles(env, before, Move(after, p, Aside(p)), checkedOut, aside + [p])
  {
    MovesParts(env, before, checkedOut, aside, p);
    Snoc(aside, p);
    forall q | q in aside ensures Aside(q) != Aside(p) && Aside(q) in Asides(aside) { AsideInjective(p, q); }
  }

  lemma MovesAside(env: Env, w: Work, s: Swap, p: Path)
    requires Swapped(env, w, s) && p in s.w.files && p !in s.checkedOut && p !in s.aside && p !in Asides(s.aside)
    requires Aside(p) !in w.files && Aside(p) !in s.checkedOut && Aside(p) !in s.aside
    ensures Swapped(env, w, s.(w := s.w.(files := Move(s.w.files, p, Aside(p))), aside := s.aside + [p]))
  {
    MovesFile(env, w.files, s.w.files, Members(s.checkedOut), s.aside, p);
  }

  /** What the first `n` entries came to, unless the swap was given up. */
  predicate Covered(env: Env, w: Work, s: Swap, list: seq<string>, n: nat)
    requires n <= |list|
  {
    forall i | 0 <= i < n && Cut(list[i]).Some? ::
      var p := Cut(list[i]).value;
      if env.fate.cat(i) && p in env.base then p in s.checkedOut else p in s.aside || p !in w.files
  }

  predicate OnlyListed(s: Swap, list: seq<string>) {
    (forall p | p in s.checkedOut :: Listed(list, p)) && forall p | p in s.aside :: Listed(list, p)
  }

  predicate SwapIs(env: Env, w: Work, s: Swap, list: seq<string>) {
    Swapped(env, w, s) && OnlyListed(s, list) && (!s.failed ==> Covered(env, w, s, list, |list|))
  }

  lemma {:induction false} SwapAllIs(env: Env, w: Work, list: seq<string>)
    requires Suitable(w, list)
    ensures SwapIs(env, w, SwapAll(env, w, list), list)
    decreases |list|
  {
    if list == [] {
      assert Asides([]) == {} && Members([]) == {};
    } else {
      var n := |list| - 1;
      SuitablePrefix(w, list, n);
      SwapAllIs(env, w, list[..n]);
      SwapNext(env, w, SwapAll(env, w, list[..n]), list);
    }
  }

  lemma SwapNext(env: Env, w: Work, s: Swap, list: seq<string>)
    requires list != [] && Suitable(w, list) && SwapIs(env, w, s, list[..|list| - 1])
    ensures SwapIs(env, w, SwapOne(env, s, |list| - 1, list[|list| - 1]), list)
  {
    var n := |list| - 1;
    StillListed(env, s, list);
    if Cut(list[n]).Some? && !s.failed {
      NewEntry(env, w, s, list, Cut(list[n]).value);
      NextSwapped(env, w, s, list, n);
    } else if !s.failed {
      CoveredMore(env, w, s, s, list, n);
    }
  }

  lemma StillListed(env: Env, s: Swap, list: seq<string>)
    requires list != [] && OnlyListed(s, list[..|list| - 1])
    ensures OnlyListed(SwapOne(env, s, |list| - 1, list[|list| - 1]), list)
  {
    var n := |list| - 1;
    forall p | Listed(list[..n], p) ensures Listed(list, p) { ListedMore(list, n, p); }
    if Cut(list[n]).Some? { assert Listed(list, Cut(list[n]).value); }
  }

  lemma SuitablePrefix(w: Work, list: seq<string>, n: nat)
    requires Suitable(w, list) && n <= |list|
    ensures Suitable(w, list[..n])
  {
    var before := list[..n];
    forall i | 0 <= i < |before| && Cut(before[i]).Some? ensures !Listed(before, Aside(Cut(before[i]).value)) {
      if Listed(before, Aside(Cut(before[i]).value)) { ListedMore(list, n, Aside(Cut(before[i]).value)); }
    }
  }

  lemma CoveredMore(env: Env, w: Work, s: Swap, s': Swap, list: seq<string>, n: nat)
    requires n < |list| && Covered(env, w, s, list[..n], n)
    requires Members(s.checkedOut) <= Members(s'.checkedOut) && Members(s.aside) <= Members(s'.aside)
    requires Cut(list[n]).Some? ==>
      var p := Cut(list[n]).value;
      if env.fate.cat(n) && p in env.base then p in s'.checkedOut else p in s'.aside || p !in w.files
    ensures Covered(env, w, s', list, n + 1)
  {
    forall i | 0 <= i < n + 1 && Cut(list[i]).Some?
      ensures var q := Cut(list[i]).value;
        if env.fate.cat(i) && q in env.base then q in s'.checkedOut else q in s'.aside || q !in w.files
    {
      if i < n {
        assert list[..n][i] == list[i];
        var q := Cut(list[i]).value;
        assert q in s.checkedOut ==> q in Members(s.checkedOut);
        assert q in s.aside ==> q in Members(s.aside);
      }
    }
  }

  lemma ListedMore(list: seq<string>, n: nat, p: Path)
    requires n <= |list| && Listed(list[..n], p)
    ensures Listed(list, p)
  {
    var i :| 0 <= i < n && Cut(list[..n][i]) == Some(p);
    assert Cut(list[i]) == Some(p);
  }

  lemma NotListedBefore(list: seq<string>, n: nat, p: Path)
    requires n < |list| && Cut(list[n]) == Some(p)
    requires forall i, j | 0 <= i < j < |list| :: list[i] != list[j]
    ensures !Listed(list[..n], p)
  {
    forall i | 0 <= i < n ensures Cut(list[..n][i]) != Some(p) {
      assert list[i] != list[n] && list[n] == p.repo + "/" + p.rel;
    }
  }

  /** The next entry was not handled before, and neither was its aside name. */
  lemma NewEntry(env: Env, w: Work, s: Swap, list: seq<string>, p: Path)
    requires list != [] && Suitable(w, list) && Cut(list[|list| - 1]) == Some(p)
    requires OnlyListed(s, list[..|list| - 1])
    ensures p !in s.checkedOut && p !in s.aside && p !in Asides(s.aside)
    ensures Aside(p) !in w.files && Aside(p) !in s.checkedOut && Aside(p) !in s.aside
  {
    var n := |list| - 1;
    NotListedBefore(list, n, p);
    assert Listed(list, p);
    forall q | q in s.aside ensures Aside(q) != p {
      ListedMore(list, n, q);
    }
    if Listed(list[..n], Aside(p)) { ListedMore(list, n, Aside(p)); }
  }

  lemma NextSwapped(env: Env, w: Work, s: Swap, list: seq<string>, n: nat)
    requires n == |list| - 1 && Cut(list[n]).Some? && !s.failed
    requires var p := Cut(list[n]).value;
      && p !in s.checkedOut && p !in s.aside && p !in Asides(s.aside)
      && Aside(p) !in w.files && Aside(p) !in s.checkedOut && Aside(p) !in s.aside
    requires Swapped(env, w, s) && Covered(env, w, s, list[..n], n)
    ensures var s' := SwapOne(env, s, n, list[n]);
      Swapped(env, w, s') && (!s'.failed ==> Covered(env, w, s', list, |list|))
  {
    var p := Cut(list[n]).value;
    var s' := SwapOne(env, s, n, list[n]);
    Snoc(s.checkedOut, p);
    Snoc(s.aside, p);
    if env.fate.cat(n) && p in env.base {
      if env.fate.checkout(n) { ChecksOut(env, w, s, p); }
    } else if p in s.w.files {
      if env.fate.move(n) { MovesAside(env, w, s, p); }
    }
    if !s'.failed { CoveredMore(env, w, s, s', list, n); }
  }

  // ---------- what the restoration does ----------

  predicate Hidden(files: Tree, aside: seq<Path>) {
    Distinct(aside) && Asides(aside) <= files.Keys && Asides(aside) !! Members(aside)
  }

  /** The hidden files are back under their names and nothing else moved. */
  predicate IsPutBack(files: Tree, aside: seq<Path>, r: Tree)
    requires Hidden(files, aside)
  {
    && r.Keys == files.Keys - Asides(aside) + Members(aside)
    && (forall p | p in aside :: Aside(p) in Asides(aside) && r[p] == files[Aside(p)])
    && (forall p | p in files && p !in Members(aside) && p !in Asides(aside) :: r[p] == files[p])
  }

  lemma LastOfHidden(files: Tree, aside: seq<Path>)
    requires Hidden(files, aside) && aside != []
    ensures var p, rest := aside[|aside| - 1], aside[..|aside| - 1];
      && Aside(p) in files && Aside(p) !in Asides(rest) && p !in rest && p != Aside(p)
      && p !in Asides(rest) && Aside(p) !in rest
      && Asides(aside) == Asides(rest) + {Aside(p)} && Members(aside) == Members(rest) + {p}
      && Hidden(Move(files, Aside(p), p), rest)
  {
    var p, rest := aside[|aside| - 1], aside[..|aside| - 1];
    assert aside == rest + [p];
    Snoc(rest, p);
    assert p in Members(aside) && Aside(p) in Asides(aside);
    forall q | q in rest ensures Aside(q) != Aside(p) { AsideInjective(p, q); }
    assert Asides(rest) <= Move(files, Aside(p), p).Keys;
  }

  /** The files that can be moved back. */
  function Kept(env: Env, aside: seq<Path>): (r: seq<Path>)
    ensures forall p | p in r :: p in aside && env.fate.back(p)
    ensures forall p | p in aside && env.fate.back(p) :: p in r
  {
    if aside == [] then []
    else
      var n := |aside| - 1;
      assert aside == aside[..n] + [aside[n]];
      Kept(env, aside[..n]) + if env.fate.back(aside[n]) then [aside[n]] else []
  }

  lemma {:induction false} KeptDistinct(env: Env, aside: seq<Path>)
    requires Distinct(aside)
    ensures Distinct(Kept(env, aside))
  {
    if aside != [] {
      KeptDistinct(env, aside[..|aside| - 1]);
      assert aside[|aside| - 1] !in aside[..|aside| - 1];
    }
  }

  lemma KeptHidden(env: Env, files: Tree, aside: seq<Path>)
    requires Hidden(files, aside)
    ensures Hidden(files, Kept(env, aside))
  {
    KeptDistinct(env, aside);
    assert Members(Kept(env, aside)) <= Members(aside) && Asides(Kept(env, aside)) <= Asides(aside);
  }

  lemma HiddenRest(files: Tree, aside: seq<Path>)
    requires Hidden(files, aside) && aside != []
    ensures Hidden(files, aside[..|aside| - 1])
  {
    var rest := aside[..|aside| - 1];
    assert Members(rest) <= Members(aside) && Asides(rest) <= Asides(aside);
  }

  lemma KeptStep(env: Env, aside: seq<Path>)
    requires aside != []
    ensures var p, rest := aside[|aside| - 1], aside[..|aside| - 1];
      Kept(env, aside) == Kept(env, rest) + if env.fate.back(p) then [p] else []
  {
  }

  /** The last file is moved back first. */
  lemma PutBackFirst(env: Env, files: Tree, aside: seq<Path>, r: Tree)
    requires Hidden(files, aside) && aside != [] && env.fate.back(aside[|aside| - 1])
    requires var p, rest := aside[|aside| - 1], aside[..|aside| - 1];
      Aside(p) in files && Hidden(Move(files, Aside(p), p), Kept(env, rest))
      && IsPutBack(Move(files, Aside(p), p), Kept(env, rest), r)
    ensures Hidden(files, Kept(env, aside)) && IsPutBack(files, Kept(env, aside), r)
  {
    KeptHidden(env, files, aside);
    KeptStep(env, aside);
    assert Kept(env, aside)[..|Kept(env, aside)| - 1] == Kept(env, aside[..|aside| - 1]);
    PutBackLast(files, Kept(env, aside), r);
  }

  lemma {:induction false} PutBackIs(env: Env, files: Tree, aside: seq<Path>)
    requires Hidden(files, aside)
    ensures Hidden(files, Kept(env, aside)) && IsPutBack(files, Kept(env, aside), PutBack(env, files, aside).0)
    ensures PutBack(env, files, aside).1 <==> forall p | p in aside :: env.fate.back(p)
    decreases |aside|
  {
    KeptHidden(env, files, aside);
    if aside == [] {
      assert Asides([]) == {} && Members([]) == {};
    } else {
      var p, rest := aside[|aside| - 1], aside[..|aside| - 1];
      assert aside == rest + [p];
      LastOfHidden(files, aside);
      if env.fate.back(p) {
        PutBackIs(env, Move(files, Aside(p), p), rest);
        PutBackFirst(env, files, aside, PutBack(env, files, aside).0);
      } else {
        HiddenRest(files, aside);
        KeptStep(env, aside);
        PutBackIs(env, files, rest);
      }
    }
  }

  lemma PutBackLast(files: Tree, aside: seq<Path>, r: Tree)
    requires Hidden(files, aside) && aside != []
    requires var p, rest := aside[|aside| - 1], aside[..|aside| - 1];
      Aside(p) in files && Hidden(Move(files, Aside(p), p), rest) && IsPutBack(Move(files, Aside(p), p), rest, r)
    ensures IsPutBack(files, aside, r)
  {
    var p, rest := aside[|aside| - 1], aside[..|aside| - 1];
    LastOfHidden(files, aside);
    forall q | q in aside ensures Aside(q) in Asides(aside) && q in r && r[q] == files[Aside(q)] {
      if q != p { assert q in rest; }
    }
  }

  // ---------- theorems ----------

  /** Exactly what the body sees of a listed file: the base version if git finds it there, and
      nothing otherwise. */
  lemma BodySeesBase(env: Env, w: Work, list: seq<string>, i: nat)
    requires Suitable(w, list) && !SwapAll(env, w, list).failed && i < |list| && Cut(list[i]).Some?
    ensures var seen, p := SwapAll(env, w, list).w.files, Cut(list[i]).value;
      && (p in seen <==> env.fate.cat(i) && p in env.base)
      && (p in seen ==> seen[p] == env.base[p])
      && ((p in seen <==> p in env.base) <==> env.fate.cat(i) || p !in env.base)
  {
    SwapAllIs(env, w, list);
    var s := SwapAll(env, w, list);
    var p := Cut(list[i]).value;
    assert if env.fate.cat(i) && p in env.base then p in s.checkedOut else p in s.aside || p !in w.files;
    assert Listed(list, p);
    forall q | q in s.aside ensures Aside(q) != p {
      var j :| 0 <= j < |list| && Cut(list[j]) == Some(q);
    }
    if p in s.checkedOut { OncePerEntry(env, w, list, i); }
  }

  /** A listed file is only checked out when git finds it at base. */
  lemma OncePerEntry(env: Env, w: Work, list: seq<string>, i: nat)
    requires Suitable(w, list) && i < |list| && Cut(list[i]).Some?
    ensures Cut(list[i]).value in SwapAll(env, w, list).checkedOut ==> env.fate.cat(i) && Cut(list[i]).value in env.base
  {
    CheckedOutWas(env, w, list, Cut(list[i]).value);
    if Cut(list[i]).value in SwapAll(env, w, list).checkedOut {
      var j :| 0 <= j < |list| && Cut(list[j]) == Some(Cut(list[i]).value)
               && env.fate.cat(j) && Cut(list[i]).value in env.base;
      assert list[i] == list[j];
    }
  }

  lemma {:induction false} CheckedOutWas(env: Env, w: Work, list: seq<string>, p: Path)
    ensures p in SwapAll(env, w, list).checkedOut ==>
              exists j :: 0 <= j < |list| && Cut(list[j]) == Some(p) && env.fate.cat(j) && p in env.base
    decreases |list|
  {
    if list != [] {
      var n := |list| - 1;
      CheckedOutWas(env, w, list[..n], p);
      var s := SwapAll(env, w, list[..n]);
      if p in s.checkedOut {
        var j :| 0 <= j < n && Cut(list[..n][j]) == Some(p) && env.fate.cat(j) && p in env.base;
        assert Cut(list[j]) == Some(p);
      }
    }
  }

  /** An entry "repo/rel" names the file `rel` of that repository, however deep it is. */
  lemma {:induction false} CutsAtFirstSlash(repo: string, rel: string)
    requires '/' !in repo
    ensures Cut(repo + "/" + rel) == Some(Path(repo, rel))
  {
    var f := repo + "/" + rel;
    if repo == "" {
      assert f[0] == '/' && f[1..] == rel;
    } else {
      assert repo[0] in repo && f[0] == repo[0];
      assert f[1..] == repo[1..] + "/" + rel;
      CutsAtFirstSlash(repo[1..], rel);
      assert [repo[0]] + repo[1..] == repo;
    }
  }

  /** The same of an entry by name: the body sees the file of the repository the entry starts
      with at its base version, if git finds it there, and does not see it otherwise. */
  lemma BodySeesEntry(env: Env, w: Work, list: seq<string>, i: nat, repo: string, rel: string)
    requires Suitable(w, list) && !SwapAll(env, w, list).failed && i < |list|
    requires '/' !in repo && list[i] == repo + "/" + rel
    ensures var seen, p := SwapAll(env, w, list).w.files, Path(repo, rel);
      if env.fate.cat(i) && p in env.base then p in seen && seen[p] == env.base[p] else p !in seen
  {
    CutsAtFirstSlash(repo, rel);
    BodySeesBase(env, w, list, i);
  }

  /** Everything that is neither listed nor the aside name of a listed file stays as it was. */
  lemma BodySeesTheRest(env: Env, w: Work, list: seq<string>, p: Path)
    requires Suitable(w, list) && !Listed(list, p) && forall q | Listed(list, q) :: p != Aside(q)
    ensures var seen := SwapAll(env, w, list).w.files;
      (p in seen <==> p in w.files) && (p in seen ==> seen[p] == w.files[p])
  {
    SwapAllIs(env, w, list);
    forall q | q in SwapAll(env, w, list).aside ensures Aside(q) != p { assert Listed(list, q); }
  }

  function AsideSet(ps: set<Path>): set<Path> {
    set p | p in ps :: Aside(p)
  }

  /** The trees are as before, apart from base content left over in `left` and the files of
      `stuck`, which stay under their aside names. */
  predicate LeftOver(env: Env, before: Tree, after: Tree, checkedOut: set<Path>, left: set<Path>, stuck: set<Path>)
    requires left <= checkedOut <= env.base.Keys && stuck <= before.Keys
  {
    && after.Keys == before.Keys + checkedOut - stuck + AsideSet(stuck)
    && (forall p | p in stuck :: after[Aside(p)] == before[p])
    && (forall p | p in left && p !in AsideSet(stuck) && p in after :: after[p] == env.base[p])
    && forall p | p in after && p !in left && p !in AsideSet(stuck) :: p in before && after[p] == before[p]
  }

  lemma StuckAsides(aside: seq<Path>, kept: seq<Path>)
    ensures AsideSet(Members(aside) - Members(kept)) == Asides(aside) - Asides(kept)
  {
    forall p, q | p in aside && q in kept ensures Aside(p) == Aside(q) ==> p == q { AsideInjective(p, q); }
  }

  /** The swapped files with everything put back that could be. */
  predicate Restoring(env: Env, before: Tree, swapped: Tree, checkedOut: set<Path>, aside: seq<Path>,
                  restored: set<Path>, middle: Tree, kept: seq<Path>, after: Tree)
  {
    && Parts(env, before, checkedOut, aside) && SwappedFiles(env, before, swapped, checkedOut, aside)
    && restored <= checkedOut && restored <= env.head.Keys
    && (forall p | p in env.head :: p in before && before[p] == env.head[p])
    && middle == swapped + (map p | p in restored :: env.head[p])
    && Members(kept) <= Members(aside) && Hidden(middle, kept) && IsPutBack(middle, kept, after)
  }

  lemma NamesLeft(env: Env, before: Tree, swapped: Tree, checkedOut: set<Path>, aside: seq<Path>,
                  restored: set<Path>, middle: Tree, kept: seq<Path>, after: Tree)
    requires Restoring(env, before, swapped, checkedOut, aside, restored, middle, kept, after)
    ensures var stuck := Members(aside) - Members(kept);
      after.Keys == before.Keys + checkedOut - stuck + AsideSet(stuck)
  {
    StuckAsides(aside, kept);
    assert middle.Keys == before.Keys - Members(aside) + Asides(aside) + checkedOut;
  }

  lemma StuckContent(env: Env, before: Tree, swapped: Tree, checkedOut: set<Path>, aside: seq<Path>,
                  restored: set<Path>, middle: Tree, kept: seq<Path>, after: Tree)
    requires Restoring(env, before, swapped, checkedOut, aside, restored, middle, kept, after)
    ensures forall p | p in Members(aside) - Members(kept) :: Aside(p) in after && after[Aside(p)] == before[p]
  {
    StuckAsides(aside, kept);
    forall p | p in Members(aside) - Members(kept) ensures Aside(p) in after && after[Aside(p)] == before[p] {
      assert Aside(p) in AsideSet(Members(aside) - Members(kept));
      assert Aside(p) !in checkedOut && Aside(p) !in Members(kept) && Aside(p) in middle;
    }
  }

  lemma OtherContent(env: Env, before: Tree, swapped: Tree, checkedOut: set<Path>, aside: seq<Path>,
                  restored: set<Path>, middle: Tree, kept: seq<Path>, after: Tree)
    requires Restoring(env, before, swapped, checkedOut, aside, restored, middle, kept, after)
    ensures forall p | p in after && p !in Asides(aside) ::
      if p in checkedOut - restored then after[p] == env.base[p] else p in before && after[p] == before[p]
  {
    forall p | p in after && p !in Asides(aside)
      ensures if p in checkedOut - restored then after[p] == env.base[p] else p in before && after[p] == before[p]
    {
      if p in Members(kept) {
        assert p in kept && p in aside && Aside(p) in Asides(kept) && Aside(p) in Asides(aside);
        assert Aside(p) !in checkedOut;
      } else {
        assert p !in Asides(kept);
      }
    }
  }

  lemma FilesLeft(env: Env, before: Tree, swapped: Tree, checkedOut: set<Path>, aside: seq<Path>,
                  restored: set<Path>, middle: Tree, kept: seq<Path>, after: Tree)
    requires Restoring(env, before, swapped, checkedOut, aside, restored, middle, kept, after)
    ensures LeftOver(env, before, after, checkedOut, checkedOut - restored, Members(aside) - Members(kept))
  {
    StuckAsides(aside, kept);
    NamesLeft(env, before, swapped, checkedOut, aside, restored, middle, kept, after);
    StuckContent(env, before, swapped, checkedOut, aside, restored, middle, kept, after);
    OtherContent(env, before, swapped, checkedOut, aside, restored, middle, kept, after);
    KeptNotAside(env, before, checkedOut, aside, kept, after);
  }

  /** The aside names of the files that were moved back are gone. */
  lemma KeptNotAside(env: Env, before: Tree, checkedOut: set<Path>, aside: seq<Path>, kept: seq<Path>, after: Tree)
    requires Parts(env, before, checkedOut, aside) && Members(kept) <= Members(aside)
    requires after.Keys == before.Keys + checkedOut - (Members(aside) - Members(kept)) + (Asides(aside) - Asides(kept))
    ensures forall p | p in after && p in Asides(aside) :: p in Asides(aside) - Asides(kept)
  {
  }

  lemma IndexLeft(env: Env, before: Tree, swapped: Tree, checkedOut: set<Path>, restored: set<Path>, after: Tree)
    requires checkedOut <= env.base.Keys && SwappedIndex(env, before, swapped, checkedOut)
    requires restored <= checkedOut && restored <= env.head.Keys && before == env.head
    requires after == swapped + (map p | p in restored :: env.head[p])
    ensures LeftOver(env, before, after, checkedOut, checkedOut - restored, {})
  {
  }

  function Unrestored(env: Env, s: Swap): set<Path> {
    Members(s.checkedOut) - Restored(env, s.checkedOut)
  }

  function Stuck(env: Env, s: Swap): set<Path> {
    Members(s.aside) - Members(Kept(env, s.aside))
  }

  function Middle(env: Env, s: Swap): Tree {
    CheckOut(s.w, env.head, Restored(env, s.checkedOut)).files
  }

  lemma MiddleHides(env: Env, w: Work, s: Swap)
    requires Swapped(env, w, s)
    ensures Hidden(Middle(env, s), s.aside)
  {
    assert Restored(env, s.checkedOut) <= Members(s.checkedOut);
  }

  predicate Leaves(env: Env, w: Work, s: Swap, r: Work) {
    && Members(s.checkedOut) <= env.base.Keys && Stuck(env, s) <= w.files.Keys
    && LeftOver(env, w.files, r.files, Members(s.checkedOut), Unrestored(env, s), Stuck(env, s))
    && LeftOver(env, w.index, r.index, Members(s.checkedOut), Unrestored(env, s), {})
  }

  /** What the restoration leaves, whatever fails: base content in exactly the files that were
      checked out and not restored, exactly the files that could not be moved back under their
      aside names, and nothing else. */
  lemma UndoneLeaves(env: Env, w: Work, list: seq<string>)
    requires Clean(env, w) && Suitable(w, list)
    ensures var s := SwapAll(env, w, list); Leaves(env, w, s, Undone(env, s))
  {
    SwapAllIs(env, w, list);
    var s := SwapAll(env, w, list);
    MiddleHides(env, w, s);
    PutBackIs(env, Middle(env, s), s.aside);
    FilesLeft(env, w.files, s.w.files, Members(s.checkedOut), s.aside, Restored(env, s.checkedOut),
              Middle(env, s), Kept(env, s.aside), Undone(env, s).files);
    IndexLeft(env, w.index, s.w.index, Members(s.checkedOut), Restored(env, s.checkedOut), Undone(env, s).index);
  }

  predicate Harmless(env: Env, p: Path) {
    p in env.head && p in env.base && (env.fate.restore(p.repo) || env.base[p] == env.head[p])
  }

  /** Every file taken from base can be given back, and every file moved aside moved back. */
  predicate AllHarmless(env: Env, s: Swap) {
    (forall p | p in s.checkedOut :: Harmless(env, p)) && forall p | p in s.aside :: env.fate.back(p)
  }

  lemma NothingStuck(env: Env, w: Work, s: Swap)
    requires Parts(env, w.files, Members(s.checkedOut), s.aside) && Leaves(env, w, s, w)
    ensures Stuck(env, s) == {} && forall p | p in s.aside :: env.fate.back(p)
  {
    var stuck := Stuck(env, s);
    assert AsideSet(stuck) <= Asides(s.aside) && AsideSet(stuck) <= w.files.Keys;
    assert AsideSet(stuck) == {};
    assert forall p | p in stuck :: Aside(p) in AsideSet(stuck);
    forall p | p in s.aside ensures env.fate.back(p) {
      assert p in Members(s.aside);
    }
  }

  lemma PerfectIsHarmless(env: Env, w: Work, s: Swap)
    requires Clean(env, w) && Parts(env, w.files, Members(s.checkedOut), s.aside) && Leaves(env, w, s, w)
    ensures AllHarmless(env, s)
  {
    NothingStuck(env, w, s);
    forall p | p in s.checkedOut ensures p in env.head && p in env.base {
      assert p in Members(s.checkedOut);
    }
    forall p | p in s.checkedOut ensures Harmless(env, p) {
      if !env.fate.restore(p.repo) {
        assert p in Unrestored(env, s) && p in w.index;
      }
    }
  }

  lemma NothingLeft(env: Env, before: Tree, after: Tree, checkedOut: set<Path>, left: set<Path>)
    requires left <= checkedOut <= env.base.Keys && LeftOver(env, before, after, checkedOut, left, {})
    requires checkedOut <= before.Keys && forall p | p in left :: before[p] == env.base[p]
    ensures after == before
  {
    assert AsideSet({}) == {};
    assert after.Keys == before.Keys;
    forall p | p in after ensures after[p] == before[p] {}
  }

  lemma HarmlessFiles(env: Env, w: Work, s: Swap)
    requires Clean(env, w) && AllHarmless(env, s) && Members(s.checkedOut) <= env.base.Keys
    ensures Members(s.checkedOut) <= w.files.Keys && Members(s.checkedOut) <= w.index.Keys
    ensures forall p | p in Unrestored(env, s) :: w.files[p] == w.index[p] == env.base[p]
  {
    forall p | p in Members(s.checkedOut) ensures p in env.head { assert Harmless(env, p); }
    forall p | p in Unrestored(env, s) ensures env.base[p] == env.head[p] { assert Harmless(env, p); }
  }

  lemma HarmlessIsPerfect(env: Env, w: Work, s: Swap, r: Work)
    requires Clean(env, w) && Leaves(env, w, s, r) && AllHarmless(env, s)
    ensures r == w
  {
    forall p | p in s.aside ensures p in Members(Kept(env, s.aside)) {}
    assert Stuck(env, s) == {};
    HarmlessFiles(env, w, s);
    NothingLeft(env, w.files, r.files, Members(s.checkedOut), Unrestored(env, s));
    NothingLeft(env, w.index, r.index, Members(s.checkedOut), Unrestored(env, s));
  }

  /** Exactly when the swap leaves no trace, whatever step of it failed: every file checked
      out from base exists at HEAD, git can restore its repository or there was nothing to
      restore, and every file moved aside can be moved back. */
  lemma UndoIsPerfectExactly(env: Env, w: Work, list: seq<string>)
    requires Clean(env, w) && Suitable(w, list)
    ensures var s := SwapAll(env, w, list); Undone(env, s) == w <==> AllHarmless(env, s)
  {
    var s := SwapAll(env, w, list);
    SwapAllIs(env, w, list);
    UndoneLeaves(env, w, list);
    if Undone(env, s) == w { PerfectIsHarmless(env, w, s); }
    if AllHarmless(env, s) { HarmlessIsPerfect(env, w, s, Undone(env, s)); }
  }

  /** Without any failure the undo is perfect if and only if no listed file exists at base
      but not at HEAD. A deleted test file is such a file: its base version stays behind. */
  lemma UndoneUnlessDeleted(env: Env, w: Work, list: seq<string>)
    requires Clean(env, w) && Suitable(w, list) && forall p :: env.fate.back(p)
    requires forall i: nat :: env.fate.cat(i) && env.fate.checkout(i) && env.fate.move(i)
    requires forall r :: env.fate.restore(r)
    ensures Undone(env, SwapAll(env, w, list)) == w
            <==> forall p | p in env.base && Listed(list, p) :: p in env.head
  {
    SwapAllIs(env, w, list);
    NothingFails(env, w, list);
    UndoIsPerfectExactly(env, w, list);
    AllTakenFromBase(env, w, SwapAll(env, w, list), list);
  }

  lemma AllTakenFromBase(env: Env, w: Work, s: Swap, list: seq<string>)
    requires OnlyListed(s, list) && Covered(env, w, s, list, |list|) && Members(s.checkedOut) <= env.base.Keys
    requires forall i: nat :: env.fate.cat(i)
    requires forall p :: env.fate.back(p)
    requires forall r :: env.fate.restore(r)
    ensures AllHarmless(env, s) <==> forall p | p in env.base && Listed(list, p) :: p in env.head
  {
    forall p | p in env.base && Listed(list, p) ensures p in s.checkedOut {
      var i :| 0 <= i < |list| && Cut(list[i]) == Some(p);
    }
    forall p | p in s.checkedOut ensures p in env.base && Listed(list, p) {
      assert p in Members(s.checkedOut);
    }
  }

  lemma {:induction false} NothingFails(env: Env, w: Work, list: seq<string>)
    requires forall i: nat :: env.fate.cat(i) && env.fate.checkout(i) && env.fate.move(i)
    ensures !SwapAll(env, w, list).failed
    decreases |list|
  {
    if list != [] { NothingFails(env, w, list[..|list| - 1]); }
  }

  /** Whether git or the file system refuses the entry, given what was there before. */
  predicate Refused(env: Env, w: Work, i: nat, file: string) {
    Cut(file).Some? &&
    if env.fate.cat(i) && Cut(file).value in env.base then !env.fate.checkout(i)
    else Cut(file).value in w.files && !env.fate.move(i)
  }

  /** The body runs unless some entry is refused. */
  lemma {:induction false} BodyRunsExactly(env: Env, w: Work, list: seq<string>)
    requires Suitable(w, list)
    ensures SwapAll(env, w, list).failed <==> exists i: nat :: i < |list| && Refused(env, w, i, list[i])
  {
    if list != [] {
      var n := |list| - 1;
      SuitablePrefix(w, list, n);
      BodyRunsExactly(env, w, list[..n]);
      assert forall i | 0 <= i < n :: list[..n][i] == list[i];
      if !SwapAll(env, w, list[..n]).failed && Cut(list[n]).Some? {
        NotThereYet(env, w, list);
      }
      assert SwapAll(env, w, list).failed <==> SwapAll(env, w, list[..n]).failed || Refused(env, w, n, list[n]);
    }
  }

  /** An entry finds its own file as it was before the swap. */
  lemma NotThereYet(env: Env, w: Work, list: seq<string>)
    requires list != [] && Suitable(w, list) && Cut(list[|list| - 1]).Some?
    ensures var p := Cut(list[|list| - 1]).value;
      p in SwapAll(env, w, list[..|list| - 1]).w.files <==> p in w.files
  {
    var n := |list| - 1;
    SuitablePrefix(w, list, n);
    SwapAllIs(env, w, list[..n]);
    var s, p := SwapAll(env, w, list[..n]), Cut(list[n]).value;
    NewEntry(env, w, s, list, p);
    assert p !in Members(s.checkedOut) && p !in Members(s.aside);
  }

  /** The files of one repository are restored together or not at all: one of them missing at
      HEAD keeps all of them at base. */
  lemma RestoredTogether(env: Env, checkedOut: seq<Path>, p: Path)
    requires p in checkedOut
    ensures p in Restored(env, checkedOut) <==>
              env.fate.restore(p.repo) && forall q | q in checkedOut && q.repo == p.repo :: q in env.head
  {
  }

  lemma AllRestored(env: Env, checkedOut: seq<Path>)
    ensures AllRestorable(env, checkedOut, {}) <==> Members(checkedOut) == Restored(env, checkedOut)
  {
    if Members(checkedOut) == Restored(env, checkedOut) {
      forall p | p in checkedOut ensures Restorable(env, checkedOut, p.repo) {
        assert p in Members(checkedOut);
      }
    }
  }

  lemma AllMovedBack(env: Env, w: Work, s: Swap)
    requires Swapped(env, w, s)
    ensures PutBack(env, Middle(env, s), s.aside).1 <==> forall p | p in s.aside :: env.fate.back(p)
  {
    MiddleHides(env, w, s);
    PutBackIs(env, Middle(env, s), s.aside);
  }

  /** The restoration reports an error exactly if some file was not restored or moved back. */
  lemma ReportsExactly(env: Env, w: Work, list: seq<string>)
    requires Suitable(w, list)
    ensures var s := SwapAll(env, w, list);
      UndoneCleanly(env, s) <==> Members(s.checkedOut) == Restored(env, s.checkedOut)
                                 && forall p | p in s.aside :: env.fate.back(p)
  {
    SwapAllIs(env, w, list);
    AllRestored(env, SwapAll(env, w, list).checkedOut);
    AllMovedBack(env, w, SwapAll(env, w, list));
  }

  /** A restoration that reports no error has left no trace. */
  lemma NoSilentLeftovers(env: Env, w: Work, list: seq<string>)
    requires Clean(env, w) && Suitable(w, list) && UndoneCleanly(env, SwapAll(env, w, list))
    ensures Undone(env, SwapAll(env, w, list)) == w
  {
    var s := SwapAll(env, w, list);
    SwapAllIs(env, w, list);
    MiddleHides(env, w, s);
    PutBackIs(env, Middle(env, s), s.aside);
    forall p | p in s.checkedOut ensures Harmless(env, p) {
      assert Restorable(env, s.checkedOut, p.repo) && p in Members(s.checkedOut);
    }
    UndoIsPerfectExactly(env, w, list);
  }
}
