/** The event log of a task, appended to by several processes. Each process caches the
    last sequence number and the file size it goes with; `AppendEvent` runs under the
    task's lock, so an append is one step and a run is a list of steps by any processes. */
module Events {

  /** An event line: its sequence number and its length in bytes, newline included. */
  datatype Line = Line(number: nat, size: nat)

  /** `lastSeq == 0` means unknown. */
  datatype Cache = Cache(eventsSize: nat, lastSeq: nat)

  const Unknown := Cache(0, 0)

  /** `StoredThenError`: the line is in the file although the append reports an error. */
  datatype Write = Stored | StoredThenError | Lost

  /** What the file system does to one append of a line of `size` bytes. */
  datatype Fate = Fate(sizeKnown: bool, readable: bool, size: nat, write: Write, sizeKnownAfter: bool)
  {
    predicate Valid() { size > 0 }
  }

  // ---------- specification ----------

  function Size(lines: seq<Line>): nat {
    if lines == [] then 0 else Size(lines[..|lines| - 1]) + lines[|lines| - 1].size
  }

  function Max(lines: seq<Line>): nat {
    if lines == [] then 0
    else
      var before := Max(lines[..|lines| - 1]);
      if lines[|lines| - 1].number > before then lines[|lines| - 1].number else before
  }

  /** The cached number an append starts from; 0 if the file must be read. */
  function Trusted(lines: seq<Line>, c: Cache, f: Fate): nat {
    if f.sizeKnown && Size(lines) != c.eventsSize then 0 else c.lastSeq
  }

  predicate Proceeds(lines: seq<Line>, c: Cache, f: Fate) {
    Trusted(lines, c, f) != 0 || f.readable
  }

  /** The number the next event gets. */
  function Numbered(lines: seq<Line>, c: Cache, f: Fate): nat {
    (if Trusted(lines, c, f) == 0 then Max(lines) else Trusted(lines, c, f)) + 1
  }

  function Appended(lines: seq<Line>, c: Cache, f: Fate): (r: (seq<Line>, Cache)) {
    if !Proceeds(lines, c, f) then (lines, c.(lastSeq := 0))
    else
      var n := Numbered(lines, c, f);
      var lines' := if f.write.Lost? then lines else lines + [Line(n, f.size)];
      (lines', Cache(if f.write.Stored? && f.sizeKnownAfter then Size(lines') else c.eventsSize, n))
  }

  // ---------- the program ----------

  class EventFile {
    var lines: seq<Line>

    constructor ()
      ensures lines == []
    {
      lines := [];
    }
  }

  /** One process's lock entry for the task. */
  class TaskLock {
    var eventsSize: nat
    var lastSeq: nat

    constructor ()
      ensures Contents() == Unknown
    {
      eventsSize, lastSeq := 0, 0;
    }

    function Contents(): Cache
      reads this
    {
      Cache(eventsSize, lastSeq)
    }

    method AppendEvent(file: EventFile, f: Fate) returns (number: nat, ok: bool)
      modifies this, file
      ensures (file.lines, Contents()) == Appended(old(file.lines), old(Contents()), f)
      ensures ok <==> Proceeds(old(file.lines), old(Contents()), f) && f.write.Stored?
      ensures ok ==> file.lines == old(file.lines) + [Line(number, f.size)]
      ensures var mustRead := old(lastSeq) == 0 || (f.sizeKnown && Size(old(file.lines)) != old(eventsSize));
        && (ok <==> (mustRead ==> f.readable) && f.write.Stored?)
        && (mustRead && !f.readable ==> file.lines == old(file.lines) && lastSeq == 0)
        && (!mustRead && ok ==> number == old(lastSeq) + 1)
        && (ok && f.sizeKnownAfter ==> eventsSize == Size(file.lines))
    {
      number := 0;
      if f.sizeKnown && Size(file.lines) != eventsSize { lastSeq := 0; }
      if lastSeq == 0 {
        if !f.readable { return 0, false; }
        for i := 0 to |file.lines|
          invariant file.lines == old(file.lines) && eventsSize == old(eventsSize)
          invariant lastSeq == Max(file.lines[..i])
        {
          assert file.lines[..i + 1][..i] == file.lines[..i];
          if file.lines[i].number > lastSeq { lastSeq := file.lines[i].number; }
        }
        assert file.lines[..|file.lines|] == file.lines;
      }
      lastSeq := lastSeq + 1;
      if f.write.Lost? { return 0, false; }
      file.lines := file.lines + [Line(lastSeq, f.size)];
      if f.write.StoredThenError? { return 0, false; }
      if f.sizeKnownAfter { eventsSize := Size(file.lines); }
      return lastSeq, true;
    }
  }

  // ---------- runs ----------

  datatype Step = Append(process: nat, fate: Fate) | Restart(process: nat)

  /** A process that never touched the task knows nothing about its log. */
  datatype World = World(lines: seq<Line>, caches: map<nat, Cache>)

  function CacheOf(w: World, process: nat): Cache {
    if process in w.caches then w.caches[process] else Unknown
  }

  function Next(w: World, step: Step): World {
    match step
    case Restart(p) => w.(caches := w.caches[p := Unknown])
    case Append(p, f) =>
      var r := Appended(w.lines, CacheOf(w, p), f);
      World(r.0, w.caches[p := r.1])
  }

  function Run(w: World, steps: seq<Step>): World
    decreases |steps|
  {
    if steps == [] then w else Run(Next(w, steps[0]), steps[1..])
  }

  /** The size of an existing file can be asked for. */
  predicate SizesKnown(steps: seq<Step>) {
    forall s | s in steps && s.Append? :: s.fate.Valid() && s.fate.sizeKnown
  }

  predicate NothingLost(steps: seq<Step>) {
    forall s | s in steps && s.Append? :: !s.fate.write.Lost?
  }

  // ---------- the invariant ----------

  /** Whenever the cached size is the file's size, the cached number covers every stored one;
      `exact` says it is the largest one, which holds as long as no line is lost. */
  predicate CacheOK(lines: seq<Line>, c: Cache, exact: bool) {
    && c.eventsSize <= Size(lines)
    && (c.eventsSize == Size(lines) && c.lastSeq != 0 ==>
          c.lastSeq >= Max(lines) && (exact ==> c.lastSeq == Max(lines)))
  }

  predicate Increasing(lines: seq<Line>) {
    forall i, j | 0 <= i < j < |lines| :: lines[i].number < lines[j].number
  }

  predicate Consecutive(lines: seq<Line>) {
    forall i | 0 <= i < |lines| :: lines[i].number == i + 1
  }

  ghost predicate Inv(w: World, exact: bool) {
    && (forall p | p in w.caches :: CacheOK(w.lines, w.caches[p], exact))
    && Increasing(w.lines) && (exact ==> Consecutive(w.lines))
  }

  lemma {:induction false} MaxBounds(lines: seq<Line>)
    ensures forall i | 0 <= i < |lines| :: lines[i].number <= Max(lines)
  {
    if lines != [] { MaxBounds(lines[..|lines| - 1]); }
  }

  lemma {:induction false} MaxOfConsecutive(lines: seq<Line>)
    requires Consecutive(lines)
    ensures Max(lines) == |lines|
  {
    if lines != [] { MaxOfConsecutive(lines[..|lines| - 1]); }
  }

  lemma Grown(lines: seq<Line>, l: Line)
    ensures Size(lines + [l]) == Size(lines) + l.size
    ensures Max(lines + [l]) == if l.number > Max(lines) then l.number else Max(lines)
  {
    assert (lines + [l])[..|lines|] == lines;
  }

  /** The number given to an event is above every stored one; without losses it is what an
      uncached scan of the file would give. */
  lemma NumberIsFresh(lines: seq<Line>, c: Cache, f: Fate, exact: bool)
    requires CacheOK(lines, c, exact) && f.sizeKnown
    ensures Numbered(lines, c, f) > Max(lines)
    ensures exact ==> Numbered(lines, c, f) == Max(lines) + 1
  {
  }

  /** A stored line outdates every cache but that of its own process. */
  lemma CacheStays(lines: seq<Line>, l: Line, c: Cache, exact: bool)
    requires CacheOK(lines, c, exact) && l.size > 0
    ensures CacheOK(lines + [l], c, exact)
  {
    Grown(lines, l);
  }

  lemma OwnCache(lines: seq<Line>, c: Cache, f: Fate, exact: bool)
    requires CacheOK(lines, c, exact) && f.Valid() && f.sizeKnown && (exact ==> !f.write.Lost?)
    ensures var r := Appended(lines, c, f); CacheOK(r.0, r.1, exact)
  {
    NumberIsFresh(lines, c, f, exact);
    Grown(lines, Line(Numbered(lines, c, f), f.size));
  }

  lemma LinesKept(lines: seq<Line>, c: Cache, f: Fate, exact: bool)
    requires CacheOK(lines, c, exact) && f.sizeKnown && Increasing(lines) && (exact ==> Consecutive(lines))
    ensures var lines' := Appended(lines, c, f).0; Increasing(lines') && (exact ==> Consecutive(lines'))
  {
    NumberIsFresh(lines, c, f, exact);
    MaxBounds(lines);
    if exact { MaxOfConsecutive(lines); }
  }

  lemma StepKeeps(w: World, step: Step, exact: bool)
    requires Inv(w, exact) && SizesKnown([step]) && (exact ==> NothingLost([step]))
    ensures Inv(Next(w, step), exact)
  {
    if step.Append? {
      assert step in [step];
      var c, f := CacheOf(w, step.process), step.fate;
      assert CacheOK(w.lines, c, exact);
      OwnCache(w.lines, c, f, exact);
      LinesKept(w.lines, c, f, exact);
      forall p | p in w.caches ensures CacheOK(Appended(w.lines, c, f).0, w.caches[p], exact) {
        CacheStays(w.lines, Line(Numbered(w.lines, c, f), f.size), w.caches[p], exact);
      }
    }
  }

  lemma {:induction false} RunKeeps(w: World, steps: seq<Step>, exact: bool)
    requires Inv(w, exact) && SizesKnown(steps) && (exact ==> NothingLost(steps))
    ensures Inv(Run(w, steps), exact)
    decreases |steps|
  {
    if steps != [] {
      assert steps[0] in steps;
      StepKeeps(w, steps[0], exact);
      RunKeeps(Next(w, steps[0]), steps[1..], exact);
    }
  }

  // ---------- theorems ----------

  predicate Stores(lines: seq<Line>, c: Cache, f: Fate) {
    Proceeds(lines, c, f) && !f.write.Lost?
  }

  /** The file is read, or the trusted number covers every stored one. */
  predicate Covers(lines: seq<Line>, c: Cache, f: Fate) {
    Trusted(lines, c, f) == 0 || Trusted(lines, c, f) >= Max(lines)
  }

  /** The file is read, or the trusted number is the largest stored one. */
  predicate Exact(lines: seq<Line>, c: Cache, f: Fate) {
    Trusted(lines, c, f) in {0, Max(lines)}
  }

  /** Exactly when the next number is above every stored one, and when it is the next one. */
  lemma FreshExactly(lines: seq<Line>, c: Cache, f: Fate)
    ensures Numbered(lines, c, f) > Max(lines) <==> Covers(lines, c, f)
    ensures Numbered(lines, c, f) == Max(lines) + 1 <==> Exact(lines, c, f)
  {
  }

  /** Every step of the run that stores a line covers the stored numbers. */
  predicate AlwaysCovers(w: World, steps: seq<Step>)
    decreases |steps|
  {
    steps != [] ==>
      && (steps[0].Append? && Stores(w.lines, CacheOf(w, steps[0].process), steps[0].fate) ==>
            Covers(w.lines, CacheOf(w, steps[0].process), steps[0].fate))
      && AlwaysCovers(Next(w, steps[0]), steps[1..])
  }

  predicate AlwaysExact(w: World, steps: seq<Step>)
    decreases |steps|
  {
    steps != [] ==>
      && (steps[0].Append? && Stores(w.lines, CacheOf(w, steps[0].process), steps[0].fate) ==>
            Exact(w.lines, CacheOf(w, steps[0].process), steps[0].fate))
      && AlwaysExact(Next(w, steps[0]), steps[1..])
  }

  lemma {:induction false} MaxOfIncreasing(lines: seq<Line>)
    requires Increasing(lines) && lines != []
    ensures Max(lines) == lines[|lines| - 1].number
  {
    var before := lines[..|lines| - 1];
    if before != [] {
      MaxOfIncreasing(before);
      assert before[|before| - 1] == lines[|lines| - 2];
    }
  }

  lemma AppendKeepsOrder(lines: seq<Line>, l: Line)
    requires l.number > 0
    ensures Increasing(lines + [l]) <==> Increasing(lines) && l.number > Max(lines)
  {
    var all := lines + [l];
    if Increasing(all) {
      forall i, j | 0 <= i < j < |lines| ensures lines[i].number < lines[j].number {
        assert all[i] == lines[i] && all[j] == lines[j];
      }
      if lines != [] {
        MaxOfIncreasing(lines);
        assert all[|lines| - 1].number < all[|lines|].number;
      }
    }
    MaxBounds(lines);
  }

  lemma AppendKeepsCount(lines: seq<Line>, l: Line)
    ensures Consecutive(lines + [l]) <==> Consecutive(lines) && l.number == Max(lines) + 1
  {
    var all := lines + [l];
    if Consecutive(all) {
      forall i | 0 <= i < |lines| ensures lines[i].number == i + 1 { assert all[i] == lines[i]; }
      assert all[|lines|] == l;
    }
    if Consecutive(lines) { MaxOfConsecutive(lines); }
  }

  lemma {:induction false} OrderExactly(w: World, steps: seq<Step>)
    ensures Increasing(Run(w, steps).lines) <==> Increasing(w.lines) && AlwaysCovers(w, steps)
    decreases |steps|
  {
    if steps != [] {
      OrderExactly(Next(w, steps[0]), steps[1..]);
      if steps[0].Append? {
        var c, f := CacheOf(w, steps[0].process), steps[0].fate;
        FreshExactly(w.lines, c, f);
        AppendKeepsOrder(w.lines, Line(Numbered(w.lines, c, f), f.size));
      }
    }
  }

  lemma {:induction false} CountExactly(w: World, steps: seq<Step>)
    ensures Consecutive(Run(w, steps).lines) <==> Consecutive(w.lines) && AlwaysExact(w, steps)
    decreases |steps|
  {
    if steps != [] {
      CountExactly(Next(w, steps[0]), steps[1..]);
      if steps[0].Append? {
        var c, f := CacheOf(w, steps[0].process), steps[0].fate;
        FreshExactly(w.lines, c, f);
        AppendKeepsCount(w.lines, Line(Numbered(w.lines, c, f), f.size));
      }
    }
  }

  /** Any interleaving of any processes, with restarts, failing sizes, reads and appends: the
      stored numbers strictly increase if and only if no step trusts a number below a stored
      one, and they are 1..n if and only if no step trusts another than the largest. */
  lemma NumbersIncrease(steps: seq<Step>)
    ensures var w := World([], map[]);
      && (Increasing(Run(w, steps).lines) <==> AlwaysCovers(w, steps))
      && (Consecutive(Run(w, steps).lines) <==> AlwaysExact(w, steps))
  {
    OrderExactly(World([], map[]), steps);
    CountExactly(World([], map[]), steps);
  }

  /** That is so in every run in which the size of the file can always be asked for, and for
      the second part no line is lost. */
  lemma KnownSizesSuffice(steps: seq<Step>)
    requires SizesKnown(steps)
    ensures AlwaysCovers(World([], map[]), steps) && Increasing(Run(World([], map[]), steps).lines)
    ensures NothingLost(steps) ==>
              AlwaysExact(World([], map[]), steps) && Consecutive(Run(World([], map[]), steps).lines)
  {
    NumbersIncrease(steps);
    RunKeeps(World([], map[]), steps, false);
    if NothingLost(steps) { RunKeeps(World([], map[]), steps, true); }
  }

  /** Exactly when the cache does not show: the append stores what a process that reads the
      whole file would store. */
  lemma CacheRefinesScan(lines: seq<Line>, c: Cache, f: Fate)
    requires Stores(lines, c, f)
    ensures Appended(lines, c, f).0 == Appended(lines, Unknown, f.(readable := true)).0 <==> Exact(lines, c, f)
  {
    var n, m := Numbered(lines, c, f), Numbered(lines, Unknown, f.(readable := true));
    assert (lines + [Line(n, f.size)])[|lines|] == Line(n, f.size);
    assert (lines + [Line(m, f.size)])[|lines|] == Line(m, f.size);
    FreshExactly(lines, c, f);
  }

  /** A lost line burns its number: the next event skips it. */
  lemma LostLineLeavesGap(size: nat)
    requires size > 0
    ensures var lost := Fate(true, true, size, Lost, true);
      Run(World([], map[]), [Append(0, lost), Append(0, lost.(write := Stored))]).lines == [Line(2, size)]
  {
    var lost := Fate(true, true, size, Lost, true);
    var a, b := Append(0, lost), Append(0, lost.(write := Stored));
    var w1 := Next(World([], map[]), a);
    assert w1 == World([], map[0 := Cache(0, 1)]);
    var w2 := Next(w1, b);
    assert w2.lines == [Line(2, size)];
    assert [a, b][1..] == [b] && [b][1..] == [];
    assert Run(World([], map[]), [a, b]) == Run(w1, [b]) == Run(w2, []);
  }

  /** Why the size must be known: a process that cannot stat the file trusts its cache and
      repeats a number that another process has used. */
  lemma UnknownSizeRepeats(size: nat)
    requires size > 0
    ensures var f := Fate(true, true, size, Stored, true);
      Run(World([], map[]), [Append(0, f), Append(1, f), Append(0, f.(sizeKnown := false))]).lines
      == [Line(1, size), Line(2, size), Line(2, size)]
  {
    var f := Fate(true, true, size, Stored, true);
    var a, b, c := Append(0, f), Append(1, f), Append(0, f.(sizeKnown := false));
    var w1 := Next(World([], map[]), a);
    Grown([], Line(1, size));
    assert [] + [Line(1, size)] == [Line(1, size)];
    assert w1 == World([Line(1, size)], map[0 := Cache(size, 1)]);
    var w2 := Next(w1, b);
    assert w2.lines == [Line(1, size), Line(2, size)];
    var w3 := Next(w2, c);
    assert w3.lines == [Line(1, size), Line(2, size), Line(2, size)];
    assert [a, b, c][1..] == [b, c] && [b, c][1..] == [c] && [c][1..] == [];
    assert Run(World([], map[]), [a, b, c]) == Run(w1, [b, c]) == Run(w2, [c]) == Run(w3, []);
  }
}
