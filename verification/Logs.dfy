/** Reading append-only logs back: the tolerance for a torn final line, and the fold that
    keeps the last record of every agent run. */
module Logs {

  /** A line of the file: empty, decodable, or not. */
  datatype Line<+T> = Empty | Record(value: T) | Broken

  function Records<T>(lines: seq<Line<T>>): seq<T> {
    if lines == [] then []
    else
      var n := |lines| - 1;
      Records(lines[..n]) + if lines[n].Record? then [lines[n].value] else []
  }

  /** Line `i` is not a record and real data follows it. */
  predicate CorruptAt<T>(lines: seq<Line<T>>, i: int) {
    0 <= i < |lines| && lines[i].Broken? && exists j :: i < j < |lines| && !lines[j].Empty?
  }

  /** Reading fails exactly if something follows a broken line; what comes back is then the
      records before the first broken line, and otherwise every record of the file. */
  method ReadJSONL<T>(lines: seq<Line<T>>) returns (out: seq<T>, ok: bool)
    ensures ok <==> forall i :: !CorruptAt(lines, i)
    ensures ok ==> out == Records(lines)
    ensures !ok ==> exists i :: CorruptAt(lines, i) && out == Records(lines[..i])
                                && forall j | 0 <= j < i :: !lines[j].Broken?
  {
    out := [];
    ghost var broken := -1;
    var pending := false;
    for i := 0 to |lines|
      invariant out == Records(lines[..i])
      invariant pending <==> broken >= 0
      invariant broken < i
      invariant pending ==> lines[broken].Broken? && out == Records(lines[..broken])
      invariant forall j | 0 <= j < i && lines[j].Broken? :: pending && j == broken
      invariant pending ==> forall j | broken < j < i :: lines[j].Empty?
    {
      assert lines[..i + 1][..i] == lines[..i];
      if lines[i].Empty? { continue; }
      if pending {
        assert CorruptAt(lines, broken);
        return out, false;
      }
      if lines[i].Broken? {
        pending, broken := true, i;
        continue;
      }
      out := out + [lines[i].value];
    }
    assert lines[..|lines|] == lines;
    ok := true;
  }

  /** A crash in the middle of an append costs at most the record being appended: whatever
      was appended completely before is read back, in order. */
  method ReadAfterCrash<T>(records: seq<T>, torn: bool) returns (out: seq<T>, ok: bool)
    ensures ok && out == records
  {
    var lines := seq(|records|, i requires 0 <= i < |records| => Record(records[i])) + if torn then [Broken] else [];
    out, ok := ReadJSONL(lines);
    CompleteRecords(records, torn);
  }

  lemma {:induction false} RecordsOf<T>(records: seq<T>)
    ensures Records(seq(|records|, i requires 0 <= i < |records| => Record(records[i]))) == records
    decreases |records|
  {
    var lines := seq(|records|, i requires 0 <= i < |records| => Record(records[i]));
    if records != [] {
      var n := |records| - 1;
      RecordsOf(records[..n]);
      assert lines[..n] == seq(n, i requires 0 <= i < n => Record(records[..n][i]));
    }
  }

  lemma CompleteRecords<T>(records: seq<T>, torn: bool)
    ensures var lines := seq(|records|, i requires 0 <= i < |records| => Record(records[i]))
                         + if torn then [Broken] else [];
      Records(lines) == records && forall i :: !CorruptAt(lines, i)
  {
    RecordsOf(records);
    var lines := seq(|records|, i requires 0 <= i < |records| => Record(records[i]));
    if torn {
      assert (lines + [Broken])[..|records|] == lines;
    } else {
      assert lines + [] == lines;
    }
  }

  // ---------- agent runs: updates are appended, the last one wins ----------

  datatype AgentRun = AgentRun(id: string, status: string)

  function LastOf(log: seq<AgentRun>, id: string): (r: int)
    ensures -1 <= r < |log|
    ensures r >= 0 ==> log[r].id == id && forall j | r < j < |log| :: log[j].id != id
    ensures r < 0 ==> forall j | 0 <= j < |log| :: log[j].id != id
  {
    if log == [] then -1
    else if log[|log| - 1].id == id then |log| - 1
    else LastOf(log[..|log| - 1], id)
  }

  function FirstOf(log: seq<AgentRun>, id: string): (r: nat)
    ensures r <= |log| && (r < |log| ==> log[r].id == id) && forall j | 0 <= j < r :: log[j].id != id
  {
    if log == [] then 0
    else
      var before := FirstOf(log[..|log| - 1], id);
      if before < |log| - 1 || log[|log| - 1].id == id then before else |log|
  }

  /** One record per run: the one appended last, in the order the runs first appeared. */
  ghost predicate LastWins(log: seq<AgentRun>, out: seq<AgentRun>) {
    InOrder(log, out) && (forall r | r in out :: IsLast(log, r)) && forall r | r in log :: Covers(out, r.id)
  }

  predicate InOrder(log: seq<AgentRun>, out: seq<AgentRun>) {
    forall i, j | 0 <= i < j < |out| :: FirstOf(log, out[i].id) < FirstOf(log, out[j].id)
  }

  predicate IsLast(log: seq<AgentRun>, r: AgentRun) {
    LastOf(log, r.id) >= 0 && r == log[LastOf(log, r.id)]
  }

  predicate Covers(out: seq<AgentRun>, id: string) {
    exists i :: 0 <= i < |out| && out[i].id == id
  }

  function Merge(out: seq<AgentRun>, r: AgentRun): seq<AgentRun> {
    var k := FirstOf(out, r.id);
    if k < |out| then out[k := r] else out + [r]
  }

  function Merged(log: seq<AgentRun>): seq<AgentRun> {
    if log == [] then [] else Merge(Merged(log[..|log| - 1]), log[|log| - 1])
  }

  method Runs(log: seq<AgentRun>) returns (out: seq<AgentRun>)
    ensures out == Merged(log) && LastWins(log, out)
  {
    var byID: map<string, nat> := map[];
    out := [];
    for i := 0 to |log|
      invariant out == Merged(log[..i])
      invariant forall id | id in byID :: byID[id] < |out| && out[byID[id]].id == id
      invariant forall k | 0 <= k < |out| :: out[k].id in byID && byID[out[k].id] == k
    {
      var r := log[i];
      assert log[..i + 1][..i] == log[..i];
      assert r.id in byID ==> FirstOf(out, r.id) == byID[r.id];
      if r.id in byID {
        out := out[byID[r.id] := r];
      } else {
        byID := byID[r.id := |out|];
        out := out + [r];
      }
    }
    assert log[..|log|] == log;
    MergedLastWins(log);
  }

  /** The fold over the log keeps exactly one record per run, the last. */
  lemma {:induction false} MergedLastWins(log: seq<AgentRun>)
    ensures LastWins(log, Merged(log))
    decreases |log|
  {
    if log != [] {
      var before, r := log[..|log| - 1], log[|log| - 1];
      MergedLastWins(before);
      var out := Merged(before);
      var k := FirstOf(out, r.id);
      assert log == before + [r];
      if k < |out| { Replace(before, out, k, r); } else { Add(before, out, r); }
    }
  }

  lemma {:induction false} Extended(log: seq<AgentRun>, r: AgentRun, id: string)
    ensures LastOf(log + [r], id) == if r.id == id then |log| else LastOf(log, id)
    ensures FirstOf(log + [r], id)
            == if FirstOf(log, id) < |log| then FirstOf(log, id) else if r.id == id then |log| else |log| + 1
  {
    assert (log + [r])[..|log|] == log;
  }

  lemma {:induction false} KeepsOthers(log: seq<AgentRun>, r: AgentRun, x: AgentRun)
    requires x.id != r.id && IsLast(log, x)
    ensures FirstOf(log + [r], x.id) == FirstOf(log, x.id) < |log| && IsLast(log + [r], x)
  {
    Extended(log, r, x.id);
  }

  lemma {:induction false} Replace(log: seq<AgentRun>, out: seq<AgentRun>, k: nat, r: AgentRun)
    requires LastWins(log, out) && k < |out| && out[k].id == r.id
    ensures LastWins(log + [r], out[k := r])
  {
    var out' := out[k := r];
    Extended(log, r, r.id);
    forall i | 0 <= i < |out|
      ensures out'[i].id == out[i].id && FirstOf(log + [r], out'[i].id) == FirstOf(log, out[i].id)
      ensures IsLast(log + [r], out'[i])
    {
      assert out[i] in out && IsLast(log, out[i]);
      if i != k {
        assert FirstOf(log, out[i].id) != FirstOf(log, out[k].id);
        KeepsOthers(log, r, out[i]);
      }
    }
    forall x | x in log + [r] ensures Covers(out', x.id) {
      if x in log {
        var i :| 0 <= i < |out| && out[i].id == x.id;
        assert out'[i].id == x.id;
      } else {
        assert out'[k].id == x.id;
      }
    }
  }

  lemma {:induction false} AddInOrder(log: seq<AgentRun>, out: seq<AgentRun>, r: AgentRun)
    requires InOrder(log, out) && (forall x | x in out :: IsLast(log, x) && x.id != r.id) && FirstOf(log, r.id) == |log|
    ensures InOrder(log + [r], out + [r])
  {
    var out' := out + [r];
    Extended(log, r, r.id);
    forall i, j | 0 <= i < j < |out'| ensures FirstOf(log + [r], out'[i].id) < FirstOf(log + [r], out'[j].id) {
      assert out[i] in out;
      KeepsOthers(log, r, out[i]);
      if j < |out| {
        assert out[j] in out;
        KeepsOthers(log, r, out[j]);
        assert FirstOf(log, out[i].id) < FirstOf(log, out[j].id);
      } else {
        assert out'[j] == r;
      }
    }
  }

  lemma {:induction false} Add(log: seq<AgentRun>, out: seq<AgentRun>, r: AgentRun)
    requires LastWins(log, out) && forall i | 0 <= i < |out| :: out[i].id != r.id
    ensures LastWins(log + [r], out + [r])
  {
    var out' := out + [r];
    Extended(log, r, r.id);
    assert FirstOf(log, r.id) == |log|;
    AddInOrder(log, out, r);
    forall x | x in out' ensures IsLast(log + [r], x) {
      if x in out { KeepsOthers(log, r, x); }
    }
    forall x | x in log + [r] ensures Covers(out', x.id) {
      if x in log {
        var i :| 0 <= i < |out| && out[i].id == x.id;
        assert out'[i].id == x.id;
      } else {
        assert out'[|out|].id == x.id;
      }
    }
  }
}
