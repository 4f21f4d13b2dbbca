/** Packet versions and the human verdicts pinned to them. Several processes build packets
    and record verdicts at once; choosing the next version and appending it happens under
    the packet lock and is one step, everything else is a step of its own. */
module Packets {
  import opened Domain

  /** A persisted packet. Its fingerprint stands for its decision-relevant content. */
  datatype Packet = Packet(version: nat, fingerprint: string)

  /** `built` is history: the fingerprint computed by the call that recorded the verdict. */
  datatype Verdict = Verdict(packetVersion: nat, expected: int, built: string)

  datatype Write = Stored | StoredThenError | Lost

  // ---------- specification ----------

  function NextVersion(existing: seq<Packet>, fingerprint: string): (r: (Packet, bool)) {
    if existing != [] && existing[|existing| - 1].fingerprint == fingerprint then (existing[|existing| - 1], false)
    else (Packet(|existing| + 1, fingerprint), true)
  }

  /** The packet log after a snapshot taken under the lock. */
  function Logged(existing: seq<Packet>, fingerprint: string, readable: bool, write: Write): seq<Packet> {
    var (p, isNew) := NextVersion(existing, fingerprint);
    if readable && isNew && !write.Lost? then existing + [p] else existing
  }

  /** What the snapshot hands back; None on an error. */
  function Given(existing: seq<Packet>, fingerprint: string, readable: bool, write: Write): Option<Packet> {
    var (p, isNew) := NextVersion(existing, fingerprint);
    if !readable || (isNew && !write.Stored?) then None else Some(p)
  }

  // ---------- the program ----------

  class PacketLog {
    var packets: seq<Packet>
    var verdicts: seq<Verdict>

    constructor ()
      ensures packets == [] && verdicts == []
    {
      packets, verdicts := [], [];
    }

    /** The part of a snapshot that runs under the packet lock. */
    method Snapshot(fingerprint: string, readable: bool, write: Write) returns (p: Option<Packet>)
      modifies this`packets
      ensures packets == Logged(old(packets), fingerprint, readable, write)
      ensures p == Given(old(packets), fingerprint, readable, write)
      ensures var same := old(packets) != [] && old(packets)[|old(packets)| - 1].fingerprint == fingerprint;
        p.Some? <==> readable && (same || write.Stored?)
    {
      if !readable { return None; }
      if packets != [] && packets[|packets| - 1].fingerprint == fingerprint {
        return Some(packets[|packets| - 1]);
      }
      var made := Packet(|packets| + 1, fingerprint);
      if write.Lost? { return None; }
      packets := packets + [made];
      return if write.StoredThenError? then None else Some(made);
    }

    method AddVerdict(v: Verdict, write: Write) returns (ok: bool)
      modifies this`verdicts
      ensures verdicts == if write.Lost? then old(verdicts) else old(verdicts) + [v]
      ensures ok == write.Stored?
    {
      if !write.Lost? { verdicts := verdicts + [v]; }
      ok := write.Stored?;
    }

    /** Nobody else in between: the verdict names the current last version, which carries
        the content just built and is the version the human saw. */
    method RecordVerdict(active: bool, fingerprint: string, expected: int, readable: bool, write: Write, vote: Write)
      returns (v: Option<Verdict>)
      modifies this
      ensures packets == if active then old(packets) else Logged(old(packets), fingerprint, readable, write)
      ensures var given := Given(old(packets), fingerprint, readable, write);
        var votes := !active && given.Some? && (expected > 0 ==> given.value.version == expected);
        && verdicts == (if votes && !vote.Lost?
                        then old(verdicts) + [Verdict(given.value.version, expected, fingerprint)] else old(verdicts))
        && (v.Some? <==> votes && vote.Stored?)
      ensures v.Some? ==>
        && packets != [] && packets[|packets| - 1].fingerprint == fingerprint
        && v.value == Verdict(packets[|packets| - 1].version, expected, fingerprint)
    {
      if active { return None; }
      var p := Snapshot(fingerprint, readable, write);
      if p.None? { return None; }
      if expected > 0 && p.value.version != expected { return None; }
      var made := Verdict(p.value.version, expected, fingerprint);
      var ok := AddVerdict(made, vote);
      return if ok then Some(made) else None;
    }
  }

  // ---------- any number of callers ----------

  /** Why a packet is built: to show it, or to decide on the version the human expects. */
  datatype Purpose = Show | Decide(expected: int)

  datatype Local =
    | Idle
    | Built(fingerprint: string, purpose: Purpose)
    | Holding(version: nat, expected: int, built: string)

  datatype State = State(packets: seq<Packet>, verdicts: seq<Verdict>, callers: map<nat, Local>)

  /** A task seen as active is never snapshotted for a decision, and showing it persists
      nothing, so only calls that saw an inactive task appear here. The fingerprint of a
      build is arbitrary: the task, its artifacts and its worktree change at any time. */
  datatype Act =
    | Build(fingerprint: string, purpose: Purpose)
    | UnderLock(readable: bool, write: Write)
    | Vote(write: Write)
    | Leave

  datatype Action = Action(who: nat, act: Act)

  function LocalOf(s: State, who: nat): Local {
    if who in s.callers then s.callers[who] else Idle
  }

  function Next(s: State, a: Action): State {
    var local := LocalOf(s, a.who);
    match a.act
    case Build(fp, purpose) =>
      if local.Idle? then s.(callers := s.callers[a.who := Built(fp, purpose)]) else s
    case UnderLock(readable, write) =>
      if !local.Built? then s
      else
        var given := Given(s.packets, local.fingerprint, readable, write);
        var decides := given.Some? && local.purpose.Decide?
                       && !(local.purpose.expected > 0 && given.value.version != local.purpose.expected);
        State(Logged(s.packets, local.fingerprint, readable, write), s.verdicts,
              s.callers[a.who := if decides then Holding(given.value.version, local.purpose.expected, local.fingerprint)
                                 else Idle])
    case Vote(write) =>
      if !local.Holding? then s
      else
        var v := Verdict(local.version, local.expected, local.built);
        State(s.packets, if write.Lost? then s.verdicts else s.verdicts + [v], s.callers[a.who := Idle])
    case Leave => s.(callers := s.callers[a.who := Idle])
  }

  function Run(s: State, actions: seq<Action>): State
    decreases |actions|
  {
    if actions == [] then s else Run(Next(s, actions[0]), actions[1..])
  }

  const Empty := State([], [], map[])

  // ---------- the invariant ----------

  /** Versions are 1..n and every version differs from the one before it. */
  predicate History(packets: seq<Packet>) {
    && (forall i | 0 <= i < |packets| :: packets[i].version == i + 1)
    && (forall i | 0 < i < |packets| :: packets[i].fingerprint != packets[i - 1].fingerprint)
  }

  /** `version` is persisted, carries the content that was built and is what was expected. */
  predicate Pinned(packets: seq<Packet>, version: nat, expected: int, built: string) {
    1 <= version <= |packets| && packets[version - 1].fingerprint == built && (expected > 0 ==> version == expected)
  }

  predicate Inv(s: State) {
    && History(s.packets)
    && (forall v | v in s.verdicts :: Pinned(s.packets, v.packetVersion, v.expected, v.built))
    && (forall c | c in s.callers && s.callers[c].Holding? ::
          Pinned(s.packets, s.callers[c].version, s.callers[c].expected, s.callers[c].built))
  }

  /** A snapshot extends the history, and what it hands back is the last version, with
      the content that was built. */
  lemma SnapshotExtends(existing: seq<Packet>, fingerprint: string, readable: bool, write: Write)
    requires History(existing)
    ensures var packets := Logged(existing, fingerprint, readable, write);
      && History(packets) && existing <= packets
      && var given := Given(existing, fingerprint, readable, write);
         given.Some? ==> packets != [] && given.value == packets[|packets| - 1]
                         && given.value == Packet(|packets|, fingerprint)
  {
  }

  lemma NextKeeps(s: State, a: Action)
    requires Inv(s)
    ensures Inv(Next(s, a)) && s.packets <= Next(s, a).packets && s.verdicts <= Next(s, a).verdicts
  {
    var local := LocalOf(s, a.who);
    if a.act.UnderLock? && local.Built? {
      SnapshotExtends(s.packets, local.fingerprint, a.act.readable, a.act.write);
    }
  }

  lemma {:induction false} RunKeeps(s: State, actions: seq<Action>)
    requires Inv(s)
    ensures Inv(Run(s, actions)) && s.packets <= Run(s, actions).packets && s.verdicts <= Run(s, actions).verdicts
    decreases |actions|
  {
    if actions != [] {
      NextKeeps(s, actions[0]);
      RunKeeps(Next(s, actions[0]), actions[1..]);
    }
  }

  lemma {:induction false} RunConcat(s: State, first: seq<Action>, second: seq<Action>)
    ensures Run(s, first + second) == Run(Run(s, first), second)
    decreases |first|
  {
    if first == [] {
      assert first + second == second;
    } else {
      assert (first + second)[1..] == first[1..] + second;
      RunConcat(Next(s, first[0]), first[1..], second);
    }
  }

  // ---------- theorems ----------

  /** In every interleaving the versions are 1..n, neighbours differ, and what was ever
      stored is never changed by anything that happens later. */
  lemma PacketHistory(before: seq<Action>, after: seq<Action>)
    ensures History(Run(Empty, before).packets)
    ensures Run(Empty, before).packets <= Run(Empty, before + after).packets
    ensures Run(Empty, before).verdicts <= Run(Empty, before + after).verdicts
  {
    RunKeeps(Empty, before);
    RunConcat(Empty, before, after);
    RunKeeps(Run(Empty, before), after);
  }

  /** Every stored verdict names a persisted version that has the content its own call
      built, and that is the version the human had seen whenever one was given. */
  lemma VerdictsArePinned(actions: seq<Action>)
    ensures var s := Run(Empty, actions);
      forall v | v in s.verdicts ::
        && 1 <= v.packetVersion <= |s.packets|
        && s.packets[v.packetVersion - 1] == Packet(v.packetVersion, v.built)
        && (v.expected > 0 ==> v.packetVersion == v.expected)
  {
    RunKeeps(Empty, actions);
  }

  /** What pinning does not give: the check and the vote are two steps. A verdict names the
      last version when it is stored if and only if nothing was stored in between. */
  lemma VoteNamesLastExactly(s: State, voter: nat, actions: seq<Action>)
    requires Inv(s) && LocalOf(s, voter).Holding? && LocalOf(s, voter).version == |s.packets|
    requires forall a | a in actions :: a.who != voter
    ensures var s' := Run(s, actions);
      && LocalOf(s', voter) == LocalOf(s, voter)
      && Next(s', Action(voter, Vote(Stored))).verdicts
         == s'.verdicts + [Verdict(|s.packets|, LocalOf(s, voter).expected, LocalOf(s, voter).built)]
      && (|s.packets| == |s'.packets| <==> s'.packets == s.packets)
  {
    OthersDoNotVote(s, voter, actions);
    RunKeeps(s, actions);
  }

  lemma {:induction false} OthersDoNotVote(s: State, voter: nat, actions: seq<Action>)
    requires forall a | a in actions :: a.who != voter
    ensures LocalOf(Run(s, actions), voter) == LocalOf(s, voter)
    decreases |actions|
  {
    if actions != [] {
      assert actions[0] in actions;
      OthersDoNotVote(Next(s, actions[0]), voter, actions[1..]);
    }
  }

  /** A voter always checks against the version that is last at that moment. */
  lemma HoldsLastVersion(s: State, voter: nat, readable: bool, write: Write)
    requires Inv(s) && LocalOf(s, voter).Built?
    ensures var s' := Next(s, Action(voter, UnderLock(readable, write)));
      LocalOf(s', voter).Holding? ==> LocalOf(s', voter).version == |s'.packets|
  {
    SnapshotExtends(s.packets, LocalOf(s, voter).fingerprint, readable, write);
  }

  function Overtaking(): seq<Action> {
    [Action(0, Build("x", Decide(1))), Action(0, UnderLock(true, Stored)),
     Action(1, Build("y", Show)), Action(1, UnderLock(true, Stored)), Action(0, Vote(Stored))]
  }

  /** Five steps from an empty history in which a verdict names version 1 of 2. */
  lemma VerdictMayBeOvertaken()
    ensures Run(Empty, Overtaking()).packets == [Packet(1, "x"), Packet(2, "y")]
    ensures Run(Empty, Overtaking()).verdicts == [Verdict(1, 1, "x")]
  {
    var all := Overtaking();
    var s1 := Next(Empty, all[0]);
    assert s1 == State([], [], map[0 := Built("x", Decide(1))]);
    var s2 := Next(s1, all[1]);
    assert s2 == State([Packet(1, "x")], [], map[0 := Holding(1, 1, "x")]);
    var s3 := Next(s2, all[2]);
    assert s3 == State([Packet(1, "x")], [], map[0 := Holding(1, 1, "x"), 1 := Built("y", Show)]);
    var s4 := Next(s3, all[3]);
    assert s4.packets == [Packet(1, "x"), Packet(2, "y")] && LocalOf(s4, 0) == Holding(1, 1, "x");
    var s5 := Next(s4, all[4]);
    assert all[1..][1..] == all[2..] && all[2..][1..] == all[3..] && all[3..][1..] == all[4..] && all[4..][1..] == [];
    assert Run(s4, all[4..]) == Run(s5, []);
    assert Run(s2, all[2..]) == Run(s3, all[3..]) == Run(s4, all[4..]);
    assert Run(Empty, all) == Run(s1, all[1..]) == Run(s2, all[2..]);
  }
}
