/** Compare-and-swap on the stored task snapshot. A save is one step: it runs under the
    task's mutex and file lock. Reading and changing the copy in memory are steps of their own. */
module Snapshots {
  datatype Snapshot<+T> = Snapshot(version: nat, content: T)

  datatype SaveError = NoError | CannotRead | Conflict | WriteFailed

  // ---------- the program ----------

  /** A task snapshot in a caller's memory. */
  class Copy<T> {
    var version: nat
    var content: T

    constructor (s: Snapshot<T>)
      ensures Value() == s
    {
      version, content := s.version, s.content;
    }

    function Value(): Snapshot<T>
      reads this
    {
      Snapshot(version, content)
    }
  }

  class TaskFile<T> {
    var stored: Snapshot<T>

    constructor (content: T)
      ensures stored == Snapshot(1, content)
    {
      stored := Snapshot(1, content);
    }

    method GetTask() returns (t: Copy<T>)
      ensures fresh(t) && t.Value() == stored
    {
      t := new Copy(stored);
    }

    /** Stores the copy if it is based on the stored version, and bumps both. On any error
        neither the file nor the copy's version changes. */
    method SaveTask(t: Copy<T>, readable: bool, written: bool) returns (err: SaveError)
      modifies this, t
      ensures t.content == old(t.content)
      ensures err == NoError <==> readable && written && old(stored.version) == old(t.version)
      ensures err == NoError ==> stored == t.Value() && t.version == old(t.version) + 1
      ensures err != NoError ==> stored == old(stored) && t.version == old(t.version)
      ensures err == Conflict <==> readable && old(stored.version) != old(t.version)
      ensures err == CannotRead <==> !readable
    {
      if !readable { return CannotRead; }
      var cur := stored;
      if cur.version != t.version { return Conflict; }
      t.version := t.version + 1;
      if !written {
        t.version := t.version - 1;
        return WriteFailed;
      }
      stored := t.Value();
      return NoError;
    }
  }

  // ---------- any number of read-modify-save clients ----------

  /** What a client holds: the snapshot it read or last saved, its copy, and the updates
      that turn one into the other. */
  datatype Client<!T> = Client(base: Snapshot<T>, t: Snapshot<T>, updates: seq<T -> T>)

  /** `committed` is history: the updates of every successful save, in order. */
  datatype State<!T> = State(disk: Snapshot<T>, clients: map<nat, Client<T>>, saves: nat, committed: seq<T -> T>)

  datatype Act<!T> = Read | Update(f: T -> T) | Save(readable: bool, written: bool)
  datatype Action<!T> = Action(client: nat, act: Act<T>)

  predicate Succeeds<T>(s: State<T>, a: Action<T>) {
    a.act.Save? && a.client in s.clients && a.act.readable && a.act.written
    && s.clients[a.client].t.version == s.disk.version
  }

  function Next<T>(s: State<T>, a: Action<T>): State<T> {
    match a.act
    case Read => s.(clients := s.clients[a.client := Client(s.disk, s.disk, [])])
    case Update(f) =>
      if a.client !in s.clients then s
      else
        var c := s.clients[a.client];
        s.(clients := s.clients[a.client := c.(t := c.t.(content := f(c.t.content)), updates := c.updates + [f])])
    case Save(_, _) =>
      if !Succeeds(s, a) then s
      else
        var c := s.clients[a.client];
        var stored := c.t.(version := c.t.version + 1);
        State(stored, s.clients[a.client := Client(stored, stored, [])], s.saves + 1, s.committed + c.updates)
  }

  function Run<T>(s: State<T>, actions: seq<Action<T>>): State<T>
    decreases |actions|
  {
    if actions == [] then s else Run(Next(s, actions[0]), actions[1..])
  }

  function Start<T>(content: T): State<T> {
    State(Snapshot(1, content), map[], 0, [])
  }

  function ApplyAll<T>(x: T, fs: seq<T -> T>): T {
    if fs == [] then x else fs[|fs| - 1](ApplyAll(x, fs[..|fs| - 1]))
  }

  lemma {:induction false} ApplyConcat<T>(x: T, fs: seq<T -> T>, gs: seq<T -> T>)
    ensures ApplyAll(x, fs + gs) == ApplyAll(ApplyAll(x, fs), gs)
    decreases |gs|
  {
    if gs == [] {
      assert fs + gs == fs;
    } else {
      assert (fs + gs)[..|fs + gs| - 1] == fs + gs[..|gs| - 1];
      ApplyConcat(x, fs, gs[..|gs| - 1]);
    }
  }

  ghost predicate ClientOK<T>(s: State<T>, c: Client<T>) {
    && c.base.version <= s.disk.version && (c.base.version == s.disk.version ==> c.base == s.disk)
    && c.t.version == c.base.version && c.t.content == ApplyAll(c.base.content, c.updates)
  }

  ghost predicate Inv<T>(s: State<T>, initial: T) {
    && (forall c | c in s.clients :: ClientOK(s, s.clients[c]))
    && s.disk == Snapshot(1 + s.saves, ApplyAll(initial, s.committed))
  }

  lemma NextKeeps<T>(s: State<T>, a: Action<T>, initial: T)
    requires Inv(s, initial)
    ensures Inv(Next(s, a), initial)
  {
    if a.client in s.clients {
      var c := s.clients[a.client];
      assert ClientOK(s, c);
      if a.act.Update? {
        assert (c.updates + [a.act.f])[..|c.updates|] == c.updates;
      }
      ApplyConcat(initial, s.committed, c.updates);
    }
  }

  lemma {:induction false} RunKeeps<T>(s: State<T>, actions: seq<Action<T>>, initial: T)
    requires Inv(s, initial)
    ensures Inv(Run(s, actions), initial)
    decreases |actions|
  {
    if actions != [] {
      NextKeeps(s, actions[0], initial);
      RunKeeps(Next(s, actions[0]), actions[1..], initial);
    }
  }

  /** No lost update, in any interleaving: the version counts the successful saves, and the
      stored content is the initial content with the updates of exactly those saves applied,
      one whole save after another. */
  lemma NoLostUpdate<T>(initial: T, actions: seq<Action<T>>)
    ensures var s := Run(Start(initial), actions);
      s.disk == Snapshot(1 + s.saves, ApplyAll(initial, s.committed))
  {
    RunKeeps(Start(initial), actions, initial);
  }

  /** Each successful save was computed from the snapshot it replaces. */
  lemma SaveReplacesItsBase<T>(initial: T, actions: seq<Action<T>>, a: Action<T>)
    requires Succeeds(Run(Start(initial), actions), a)
    ensures var s := Run(Start(initial), actions);
      && s.clients[a.client].base == s.disk
      && Next(s, a).disk == Snapshot(s.disk.version + 1, ApplyAll(s.disk.content, s.clients[a.client].updates))
  {
    RunKeeps(Start(initial), actions, initial);
    var s := Run(Start(initial), actions);
    assert ClientOK(s, s.clients[a.client]);
  }

  /** Saving is refused exactly when somebody else saved since the copy was read. */
  lemma ConflictMeansOvertaken<T>(initial: T, actions: seq<Action<T>>, client: nat)
    requires client in Run(Start(initial), actions).clients
    ensures var s := Run(Start(initial), actions);
      Succeeds(s, Action(client, Save(true, true))) <==> s.clients[client].base == s.disk
  {
    RunKeeps(Start(initial), actions, initial);
    var s := Run(Start(initial), actions);
    assert ClientOK(s, s.clients[client]);
  }

  // ---------- counters ----------

  ghost predicate Increments(fs: seq<int -> int>) {
    forall i, x | 0 <= i < |fs| :: fs[i](x) == x + 1
  }

  lemma {:induction false} IncrementsAdd(x: int, fs: seq<int -> int>)
    requires Increments(fs)
    ensures ApplyAll(x, fs) == x + |fs|
  {
    if fs != [] { IncrementsAdd(x, fs[..|fs| - 1]); }
  }

  ghost predicate OnlyIncrements(s: State<int>) {
    Increments(s.committed) && forall c | c in s.clients :: Increments(s.clients[c].updates)
  }

  lemma {:induction false} RunIncrements(s: State<int>, actions: seq<Action<int>>)
    requires OnlyIncrements(s)
    requires forall a | a in actions && a.act.Update? :: forall x :: a.act.f(x) == x + 1
    ensures OnlyIncrements(Run(s, actions))
    decreases |actions|
  {
    if actions != [] {
      assert actions[0] in actions;
      RunIncrements(Next(s, actions[0]), actions[1..]);
    }
  }

  /** n increments saved by concurrent clients raise the counter by exactly n. */
  lemma CounterIsExact(initial: int, actions: seq<Action<int>>)
    requires forall a | a in actions && a.act.Update? :: forall x :: a.act.f(x) == x + 1
    ensures var s := Run(Start(initial), actions); s.disk.content == initial + |s.committed|
  {
    NoLostUpdate(initial, actions);
    RunIncrements(Start(initial), actions);
    IncrementsAdd(initial, Run(Start(initial), actions).committed);
  }
}
