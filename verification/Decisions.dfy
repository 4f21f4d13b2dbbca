/** The decision records of a task: one JSON file, rewritten as a whole under the task's lock. */
module Decisions {
  import opened Domain

  datatype Choice = Choice(id: string, effect: Effect)
  datatype Record = Record(id: nat, open: bool, chosen: string, options: seq<Choice>, returnTo: TaskStatus)

  datatype SaveError = NoError | AlreadyResolved | CannotRead | NotFound | WriteFailed

  /** The position of the first record with that ID; the length if there is none. */
  function IndexOf(list: seq<Record>, id: nat): (k: nat)
    ensures k <= |list| && (k < |list| ==> list[k].id == id)
    ensures forall j | 0 <= j < k :: list[j].id != id
  {
    if list == [] then 0
    else
      var before := IndexOf(list[..|list| - 1], id);
      if before < |list| - 1 || list[|list| - 1].id == id then before else |list|
  }

  // ---------- the program ----------

  class DecisionFile {
    var list: seq<Record>

    constructor ()
      ensures list == []
    {
      list := [];
    }

    method Find(id: nat) returns (k: nat)
      ensures k == IndexOf(list, id)
    {
      k := 0;
      while k < |list|
        invariant k <= |list| && forall j | 0 <= j < k :: list[j].id != id
      {
        if list[k].id == id { return; }
        k := k + 1;
      }
    }

    method CreateDecision(d: Record, readable: bool, written: bool) returns (ok: bool)
      modifies this
      ensures list == if ok then old(list) + [d] else old(list)
      ensures ok <==> readable && written
    {
      ok := readable && written;
      if ok { list := list + [d]; }
    }

    method GetDecision(id: nat, readable: bool) returns (d: Option<Record>)
      ensures d.Some? <==> readable && IndexOf(list, id) < |list|
      ensures d.Some? ==> d.value == list[IndexOf(list, id)]
    {
      if !readable { return None; }
      var k := Find(id);
      return if k < |list| then Some(list[k]) else None;
    }

    /** A resolution is refused if the stored record is no longer open. The check and the
        rewrite read the file separately, and an error of the first reading is ignored. */
    method SaveDecision(d: Record, checkReadable: bool, readable: bool, written: bool) returns (err: SaveError)
      modifies this
      ensures list == Saved(old(list), d, checkReadable, readable, written)
      ensures err == NoError <==> Accepts(old(list), d, checkReadable, readable, written)
      ensures err == AlreadyResolved <==>
                !d.open && checkReadable && IndexOf(old(list), d.id) < |old(list)|
                && !old(list)[IndexOf(old(list), d.id)].open
    {
      if !d.open {
        var cur := GetDecision(d.id, checkReadable);
        if cur.Some? && !cur.value.open { return AlreadyResolved; }
      }
      if !readable { return CannotRead; }
      var k := Find(d.id);
      if k == |list| { return NotFound; }
      if !written { return WriteFailed; }
      list := list[k := d];
      return NoError;
    }
  }

  // ---------- specification ----------

  predicate Accepts(list: seq<Record>, d: Record, checkReadable: bool, readable: bool, written: bool) {
    var k := IndexOf(list, d.id);
    k < |list| && readable && written && (d.open || !checkReadable || list[k].open)
  }

  function Saved(list: seq<Record>, d: Record, checkReadable: bool, readable: bool, written: bool): seq<Record> {
    if Accepts(list, d, checkReadable, readable, written) then list[IndexOf(list, d.id) := d] else list
  }

  datatype Call = Create(d: Record, readable: bool, written: bool)
                | Save(d: Record, checkReadable: bool, readable: bool, written: bool)

  function After(list: seq<Record>, c: Call): seq<Record> {
    match c
    case Create(d, readable, written) => if readable && written then list + [d] else list
    case Save(d, checkReadable, readable, written) => Saved(list, d, checkReadable, readable, written)
  }

  function Run(list: seq<Record>, calls: seq<Call>): seq<Record>
    decreases |calls|
  {
    if calls == [] then list else Run(After(list, calls[0]), calls[1..])
  }

  /** The resolution slips past the check: it is written although the check could not read. */
  predicate SlipsPast(c: Call) {
    c.Save? && !c.checkReadable && c.readable && c.written
  }

  /** Decisions are saved only to resolve them, and none slips past the check. */
  predicate Checked(calls: seq<Call>) {
    forall c | c in calls && c.Save? :: !c.d.open && !SlipsPast(c)
  }

  // ---------- theorems ----------

  lemma {:induction false} IndexKept(list: seq<Record>, more: seq<Record>, id: nat)
    requires IndexOf(list, id) < |list| <= |more| && forall i | 0 <= i < |list| :: more[i].id == list[i].id
    ensures IndexOf(more, id) == IndexOf(list, id)
  {
  }

  /** Exactly when a different resolution replaces a recorded one. */
  lemma OverwritesExactly(list: seq<Record>, d: Record, checkReadable: bool, readable: bool, written: bool)
    requires IndexOf(list, d.id) < |list| && !list[IndexOf(list, d.id)].open
    requires !d.open && d != list[IndexOf(list, d.id)]
    ensures Saved(list, d, checkReadable, readable, written) != list
            <==> SlipsPast(Save(d, checkReadable, readable, written))
  {
    var k := IndexOf(list, d.id);
    assert list[k := d][k] == d;
  }

  /** First writer wins: once a decision is resolved its record never changes again, so at
      most one of any number of resolutions is ever recorded. */
  lemma {:induction false} ResolutionIsFinal(list: seq<Record>, calls: seq<Call>, id: nat)
    requires Checked(calls) && IndexOf(list, id) < |list| && !list[IndexOf(list, id)].open
    ensures var end := Run(list, calls);
      IndexOf(end, id) == IndexOf(list, id) < |end| && end[IndexOf(end, id)] == list[IndexOf(list, id)]
    decreases |calls|
  {
    if calls != [] {
      assert calls[0] in calls;
      IndexKept(list, After(list, calls[0]), id);
      ResolutionIsFinal(After(list, calls[0]), calls[1..], id);
    }
  }

  function Resolutions(list: seq<Record>, calls: seq<Call>, id: nat): nat
    decreases |calls|
  {
    if calls == [] then 0
    else
      var c := calls[0];
      (if c.Save? && c.d.id == id && Accepts(list, c.d, c.checkReadable, c.readable, c.written) then 1 else 0)
      + Resolutions(After(list, c), calls[1..], id)
  }

  lemma {:induction false} ResolvedOnce(list: seq<Record>, calls: seq<Call>, id: nat)
    requires Checked(calls)
    ensures var k := IndexOf(list, id);
      Resolutions(list, calls, id) <= if k < |list| && !list[k].open then 0 else 1
    decreases |calls|
  {
    if calls != [] {
      var c, k := calls[0], IndexOf(list, id);
      assert c in calls;
      if k < |list| { IndexKept(list, After(list, c), id); }
      ResolvedOnce(After(list, c), calls[1..], id);
    }
  }

  /** Why the check must be able to read: if only its reading fails, a second resolution of
      the same decision is recorded over the first. */
  lemma {:induction false} UncheckedResolutionOverwrites(list: seq<Record>, first: Record, second: Record)
    requires IndexOf(list, first.id) < |list| && list[IndexOf(list, first.id)].open
    requires !first.open && !second.open && first.id == second.id
    ensures var calls := [Save(first, true, true, true), Save(second, false, true, true)];
      Resolutions(list, calls, first.id) == 2 && Run(list, calls) == list[IndexOf(list, first.id) := second]
  {
    var k := IndexOf(list, first.id);
    var a, b := Save(first, true, true, true), Save(second, false, true, true);
    var list1 := list[k := first];
    IndexKept(list, list1, first.id);
    assert After(list, a) == list1 && After(list1, b) == list1[k := second];
    assert [a, b][1..] == [b] && [b][1..] == [];
    assert Run(list, [a, b]) == Run(list1, [b]) == Run(list1[k := second], []) == list[k := second];
    assert Resolutions(list1[k := second], [], first.id) == 0;
    assert Resolutions(list1, [b], first.id) == 1;
  }
}
