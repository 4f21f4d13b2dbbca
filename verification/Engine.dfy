/** The engine's operations on a stored task, each run from start to end without anyone else
    in between. `Lifecycle` interleaves the same operations step by step; what they do to a
    snapshot is stated by the same functions. */
module Engine {
  import opened Domain
  import opened Workflow
  import Lifecycle
  import S = Snapshots
  import D = Decisions

  /** The part of a task that these operations read and write. */
  datatype Data = Data(p: Progress, resume: Option<TaskStatus>, notes: seq<nat>)

  /** Whether the snapshot can be read back and written during one save. */
  datatype Io = Io(readable: bool, written: bool)
  {
    predicate Works() { readable && written }
  }

  function SnapOf(s: S.Snapshot<Data>): Lifecycle.Snap {
    Lifecycle.Snap(s.version, s.content.p, s.content.resume, s.content.notes)
  }

  /** The effect of an option; None if the decision does not offer it. */
  function EffectOf(options: seq<D.Choice>, option: string): Option<Effect> {
    if options == [] then Some(if option == "abort" then Abort else Continue)
    else
      var found := Lookup(options, option);
      if found == Some(Continue) && option == "abort" then Some(Abort) else found
  }

  /** The effect of the first option with that ID. */
  function Lookup(options: seq<D.Choice>, option: string): Option<Effect> {
    if options == [] then None
    else
      var before := Lookup(options[..|options| - 1], option);
      if before.Some? then before
      else if options[|options| - 1].id == option then Some(options[|options| - 1].effect) else None
  }

  /** A decision without options of its own offers to go on or to abort. */
  function WithOptions(d: D.Record): (r: D.Record)
    ensures r.options != [] && (d.options != [] ==> r == d)
    ensures d.options == [] ==>
              EffectOf(r.options, "proceed") == Some(Continue) && EffectOf(r.options, "abort") == Some(Abort)
    ensures d.options == [] ==> r == d.(options := [D.Choice("proceed", Continue), D.Choice("abort", Abort)])
  {
    if d.options != [] then d
    else
      var options := [D.Choice("proceed", Continue), D.Choice("abort", Abort)];
      assert options[..1] == [D.Choice("proceed", Continue)] && options[..1][..0] == [];
      assert "proceed" != "abort" by { assert "proceed"[0] != "abort"[0]; }
      assert Lookup(options[..1], "proceed") == Some(Continue);
      assert Lookup(options[..1], "abort").None?;
      d.(options := options)
  }

  /** An abort fails the task, an acceptance completes it, anything else goes back to the
      recorded phase; only an extension touches the step count. */
  predicate MovedBy(e: Effect, returnTo: TaskStatus, was: Lifecycle.Snap, now: Lifecycle.Snap) {
    && now.version == was.version + 1 && now.resume == was.resume
    && (now.p.status == Failed <==> e.Abort? || (!e.Accept? && returnTo == Failed))
    && (e.Accept? ==> now.p.status == Done) && (e.Continue? || e.Extend? ==> now.p.status == returnTo)
    && now.p == was.p.(status := now.p.status, steps := if e.Extend? then 0 else was.p.steps)
  }

  class Engine {
    const file: S.TaskFile<Data>
    const decisions: D.DecisionFile

    constructor (file: S.TaskFile<Data>, decisions: D.DecisionFile)
      ensures this.file == file && this.decisions == decisions
    {
      this.file, this.decisions := file, decisions;
    }

    function Disk(): Lifecycle.Snap
      reads file
    {
      SnapOf(file.stored)
    }

    method SetStatus(t: S.Copy<Data>, status: TaskStatus, io: Io) returns (ok: bool)
      modifies file, t
      ensures t.content == old(t.content).(p := old(t.content.p).(status := status))
      ensures ok <==> io.Works() && old(file.stored.version) == old(t.version)
      ensures ok ==> Disk() == Lifecycle.Stored(Lifecycle.WithStatus(old(SnapOf(t.Value())), status))
      ensures !ok ==> file.stored == old(file.stored) && t.version == old(t.version)
    {
      t.content := t.content.(p := t.content.p.(status := status));
      var err := file.SaveTask(t, io.readable, io.written);
      ok := err == S.NoError;
    }

    /** An active task becomes interrupted, with the phase it was in to come back to. */
    method MarkInterrupted(io: Io)
      modifies file
      ensures Disk() == if old(Disk()).p.status.Active() && io.Works()
                        then Lifecycle.Stored(Lifecycle.Interrupt(old(Disk()))) else old(Disk())
      ensures old(Disk()).p.status.Active() && io.Works() ==>
                Disk().p == old(Disk()).p.(status := Interrupted) && Disk().resume == Some(old(Disk()).p.status)
                && Disk().notes == old(Disk()).notes
    {
      var t := file.GetTask();
      if !t.content.p.status.Active() { return; }
      t.content := t.content.(resume := Some(t.content.p.status));
      var ok := SetStatus(t, Interrupted, io);
    }

    /** Restart recovery of one task from a copy that was scanned earlier: it needs the lease,
        and a snapshot that moved since the scan is left alone. */
    method Recover(t: S.Copy<Data>, leaseFree: bool, io: Io)
      modifies file, t
      ensures Disk() == if old(t.content.p.status).Active() && leaseFree && io.Works()
                           && old(t.version) == old(file.stored.version)
                        then Lifecycle.Stored(Lifecycle.Interrupt(old(SnapOf(t.Value())))) else old(Disk())
    {
      if !t.content.p.status.Active() || !leaseFree { return; }
      t.content := t.content.(resume := Some(t.content.p.status));
      var ok := SetStatus(t, Interrupted, io);
    }

    /** Only an interrupted task resumes. */
    method Resume(io: Io) returns (ok: bool)
      modifies file
      ensures ok <==> old(Disk()).p.status == Interrupted && io.Works()
      ensures Disk() == if ok then Lifecycle.Stored(Lifecycle.Resumed(old(Disk()))) else old(Disk())
      ensures ok ==> Disk().p == old(Disk()).p.(status := Disk().p.status) && Disk().resume.None?
                     && Disk().notes == old(Disk()).notes
      ensures ok ==> Disk().p.status == if old(Disk()).resume in {None, Some(Understanding)} then Pending
                                        else old(Disk()).resume.value
    {
      var t := file.GetTask();
      if t.content.p.status != Interrupted { return false; }
      var to := Pending;
      if t.content.resume.Some? && t.content.resume.value != Understanding { to := t.content.resume.value; }
      t.content := t.content.(resume := None);
      ok := SetStatus(t, to, io);
    }

    /** Verification starts over on whatever the worktree holds, from any resting status but
        an open decision; its loop budgets are fresh and its step count is not. */
    method Reverify(hasWorktree: bool, io: Io) returns (ok: bool)
      modifies file
      ensures ok <==> !old(Disk()).p.status.Active() && old(Disk()).p.status != AwaitingDecision
                      && hasWorktree && io.Works()
      ensures Disk() == if ok then Lifecycle.Stored(Lifecycle.Reverified(old(Disk()))) else old(Disk())
      ensures ok ==>
                Disk().p == old(Disk()).p.(status := Verifying, fixAttempts := 0, reviewRounds := 0)
                && Disk().resume.None? && Disk().notes == old(Disk()).notes
    {
      var t := file.GetTask();
      if t.content.p.status.Active() || t.content.p.status == AwaitingDecision { return false; }
      if !hasWorktree { return false; }
      t.content := t.content.(p := t.content.p.(fixAttempts := 0, reviewRounds := 0), resume := None);
      ok := SetStatus(t, Verifying, io);
    }

    /** Records a decision, which always offers something, and pauses the task on it. A decision
        stays recorded even if the pause cannot be stored. */
    method RequireDecision(t: S.Copy<Data>, d: D.Record, created: Io, io: Io) returns (ok: bool)
      modifies file, decisions, t
      ensures decisions.list
              == if created.Works() then old(decisions.list) + [WithOptions(d)] else old(decisions.list)
      ensures ok <==> created.Works() && io.Works() && old(file.stored.version) == old(t.version)
      ensures Disk() == if ok then Lifecycle.Stored(Lifecycle.WithStatus(old(SnapOf(t.Value())), AwaitingDecision))
                        else old(Disk())
    {
      var full := d;
      if d.options == [] { full := d.(options := [D.Choice("proceed", Continue), D.Choice("abort", Abort)]); }
      var ok0 := decisions.CreateDecision(full, created.readable, created.written);
      if !ok0 { return false; }
      ok := SetStatus(t, AwaitingDecision, io);
    }

    /** Records the human's choice and moves the task. The choice counts only while the task
        awaits a decision, for an open decision that offers the option; once recorded it is
        applied to exactly the snapshot that was read. `look` says whether the decisions can
        be read at first. */
    method ResolveDecision(id: nat, option: string, look: bool, record: Io, checkReadable: bool, io: Io)
      returns (ok: bool)
      modifies file, decisions
      ensures var k := D.IndexOf(old(decisions.list), id);
        var known := look && old(Disk()).p.status == AwaitingDecision && k < |old(decisions.list)|
                     && old(decisions.list)[k].open && EffectOf(old(decisions.list)[k].options, option).Some?;
        if !(known && record.Works()) then
          !ok && decisions.list == old(decisions.list) && Disk() == old(Disk())
        else
          var d := old(decisions.list)[k];
          && decisions.list == old(decisions.list)[k := d.(open := false, chosen := option)]
          && (ok <==> io.Works())
          && Disk() == if ok
                       then Lifecycle.Stored(
                              Lifecycle.Decided(old(Disk()), id, EffectOf(d.options, option).value, d.returnTo))
                       else old(Disk())
      ensures ok ==>
        var k := D.IndexOf(old(decisions.list), id);
        && k < |old(decisions.list)| && EffectOf(old(decisions.list)[k].options, option).Some?
        && MovedBy(EffectOf(old(decisions.list)[k].options, option).value, old(decisions.list)[k].returnTo,
                   old(Disk()), Disk())
        && Disk().notes == old(Disk()).notes + [id]
    {
      var t := file.GetTask();
      if t.content.p.status != AwaitingDecision { return false; }
      var found := decisions.GetDecision(id, look);
      if found.None? || !found.value.open { return false; }
      var d := found.value;
      var effect := Continue;
      if d.options != [] {
        var offered := FindOption(d.options, option);
        if offered.None? { return false; }
        effect := offered.value;
      }
      if effect == Continue && option == "abort" { effect := Abort; }
      var resolved := d.(open := false, chosen := option);
      var err := decisions.SaveDecision(resolved, checkReadable, record.readable, record.written);
      if err != D.NoError { return false; }
      t.content := t.content.(notes := t.content.notes + [id]);
      match effect
      case Abort => ok := SetStatus(t, Failed, io);
      case Accept => ok := SetStatus(t, Done, io);
      case Extend =>
        t.content := t.content.(p := t.content.p.(steps := 0));
        ok := SetStatus(t, d.returnTo, io);
      case Continue => ok := SetStatus(t, d.returnTo, io);
    }

    method FindOption(options: seq<D.Choice>, option: string) returns (effect: Option<Effect>)
      ensures effect == Lookup(options, option)
    {
      effect := None;
      for i := 0 to |options|
        invariant effect.None? && Lookup(options[..i], option).None?
      {
        assert options[..i + 1][..i] == options[..i];
        if options[i].id == option {
          effect := Some(options[i].effect);
          FoundFirst(options, i + 1, option);
          return;
        }
      }
      assert options[..|options|] == options;
    }
  }

  lemma {:induction false} FoundFirst(options: seq<D.Choice>, n: nat, option: string)
    requires n <= |options| && Lookup(options[..n], option).Some?
    ensures Lookup(options, option) == Lookup(options[..n], option)
    decreases |options|
  {
    if n == |options| {
      assert options[..n] == options;
    } else {
      assert options[..|options| - 1][..n] == options[..n];
      FoundFirst(options[..|options| - 1], n, option);
    }
  }

  /** The option that counts is the first with that ID. */
  lemma {:induction false} LookupIsFirst(options: seq<D.Choice>, option: string, k: nat)
    requires k < |options| && options[k].id == option && forall j | 0 <= j < k :: options[j].id != option
    ensures Lookup(options, option) == Some(options[k].effect)
    decreases |options|
  {
    var n := |options| - 1;
    if k < n {
      LookupIsFirst(options[..n], option, k);
    } else {
      NotOffered(options[..n], option);
    }
  }

  lemma {:induction false} NotOffered(options: seq<D.Choice>, option: string)
    requires forall j | 0 <= j < |options| :: options[j].id != option
    ensures Lookup(options, option).None?
  {
    if options != [] { NotOffered(options[..|options| - 1], option); }
  }

  /** What choosing an option does: what the first option of that ID says, and an "abort" that
      says nothing aborts. A decision without options takes any answer. */
  lemma ChoiceMeans(options: seq<D.Choice>, option: string, k: nat)
    requires k < |options| && options[k].id == option && forall j | 0 <= j < k :: options[j].id != option
    ensures EffectOf(options, option)
            == Some(if options[k].effect == Continue && option == "abort" then Abort else options[k].effect)
    ensures EffectOf([], option) == Some(if option == "abort" then Abort else Continue)
  {
    LookupIsFirst(options, option, k);
  }

  lemma NoSuchChoice(options: seq<D.Choice>, option: string)
    requires options != [] && forall j | 0 <= j < |options| :: options[j].id != option
    ensures EffectOf(options, option).None?
  {
    NotOffered(options, option);
  }
}
