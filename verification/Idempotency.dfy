/** Duplicate suppression on task creation: a creator first reserves its key under the key
    file's lock and creates the task afterwards; the loser of a race returns the winner's. */
module Idempotency {
  /** A provisional task ID; every creator draws a new one. */
  type TaskID = nat
  type Key = string

  // ---------- the program ----------

  class KeyFile {
    var claims: map<Key, TaskID>

    constructor ()
      ensures claims == map[]
    {
      claims := map[];
    }

    /** A file that cannot be read or decoded counts as empty. */
    method ClaimIdempotencyKey(key: Key, id: TaskID, readable: bool, written: bool)
      returns (owner: TaskID, duplicate: bool, ok: bool)
      modifies this
      ensures claims == Claimed(old(claims), key, id, readable, written)
      ensures duplicate <==> readable && key in old(claims)
      ensures ok <==> duplicate || written
      ensures ok ==> key in claims && owner == claims[key]
    {
      var m: map<Key, TaskID> := map[];
      if readable { m := claims; }
      if key in m { return m[key], true, true; }
      m := m[key := id];
      if written { claims := m; }
      return id, false, written;
    }
  }

  function Claimed(claims: map<Key, TaskID>, key: Key, id: TaskID, readable: bool, written: bool): map<Key, TaskID> {
    var m := if readable then claims else map[];
    if key in m || !written then claims else m[key := id]
  }

  // ---------- any number of creators ----------

  datatype Creator =
    | Idle
    | Claiming(key: Key, id: TaskID)
    | Winner(key: Key, id: TaskID)
    | Waiting(key: Key, owner: TaskID)

  /** `drawn` holds the IDs handed out so far, `tasks` who created what, and `returned` what
      creators gave back to their callers. */
  datatype State = State(
    claims: map<Key, TaskID>, creators: map<nat, Creator>, drawn: set<TaskID>,
    tasks: seq<(Key, TaskID)>, returned: seq<(Key, TaskID)>)

  /** `Create` may fail before or after the task is stored; `Quit` is a crash or a timeout. */
  datatype Act =
    | Begin(key: Key, id: TaskID) | Claim(readable: bool, written: bool)
    | Create(stored: bool, ok: bool) | Poll | Quit

  datatype Action = Action(who: nat, act: Act)

  function CreatorOf(s: State, who: nat): Creator {
    if who in s.creators then s.creators[who] else Idle
  }

  function At(s: State, who: nat, c: Creator): State {
    s.(creators := s.creators[who := c])
  }

  function Next(s: State, a: Action): State {
    var c := CreatorOf(s, a.who);
    match a.act
    case Begin(key, id) =>
      if c.Idle? && id !in s.drawn then At(s.(drawn := s.drawn + {id}), a.who, Claiming(key, id)) else s
    case Claim(readable, written) =>
      if !c.Claiming? then s
      else if readable && c.key in s.claims then At(s, a.who, Waiting(c.key, s.claims[c.key]))
      else if !written then At(s, a.who, Idle)
      else At(s.(claims := Claimed(s.claims, c.key, c.id, readable, written)), a.who, Winner(c.key, c.id))
    case Create(stored, ok) =>
      if !c.Winner? then s
      else if !stored then At(s, a.who, Idle)
      else
        At(s.(tasks := s.tasks + [(c.key, c.id)],
              returned := s.returned + if ok then [(c.key, c.id)] else []), a.who, Idle)
    case Poll =>
      if c.Waiting? && (c.key, c.owner) in s.tasks
      then At(s.(returned := s.returned + [(c.key, c.owner)]), a.who, Idle) else s
    case Quit => At(s, a.who, Idle)
  }

  function Run(s: State, actions: seq<Action>): State
    decreases |actions|
  {
    if actions == [] then s else Run(Next(s, actions[0]), actions[1..])
  }

  const Nothing := State(map[], map[], {}, [], [])

  /** Some reservation is changed or dropped by the step. */
  predicate Forgets(s: State, a: Action) {
    exists k | k in s.claims :: k !in Next(s, a).claims || Next(s, a).claims[k] != s.claims[k]
  }

  /** No step of the run forgets a reservation. */
  predicate Remembers(s: State, actions: seq<Action>)
    decreases |actions|
  {
    actions != [] ==> !Forgets(s, actions[0]) && Remembers(Next(s, actions[0]), actions[1..])
  }

  // ---------- the invariant ----------

  predicate CreatorOK(s: State, c: Creator) {
    match c
    case Idle => true
    case Claiming(_, id) => id in s.drawn && id !in s.claims.Values && forall t | t in s.tasks :: t.1 != id
    case Winner(key, id) => key in s.claims && s.claims[key] == id && forall t | t in s.tasks :: t.1 != id
    case Waiting(key, owner) => key in s.claims && s.claims[key] == owner
  }

  predicate OneEach(tasks: seq<(Key, TaskID)>) {
    forall i, j | 0 <= i < j < |tasks| :: tasks[i].0 != tasks[j].0 && tasks[i].1 != tasks[j].1
  }

  predicate Inv(s: State) {
    && (forall c | c in s.creators :: CreatorOK(s, s.creators[c]))
    && (forall b, c | b in s.creators && c in s.creators && b != c ::
          s.creators[b].Claiming? || s.creators[b].Winner? ==>
          s.creators[c].Claiming? || s.creators[c].Winner? ==> s.creators[b].id != s.creators[c].id)
    && s.claims.Values <= s.drawn
    && (forall j, k | j in s.claims && k in s.claims && j != k :: s.claims[j] != s.claims[k])
    && (forall t | t in s.tasks :: t.0 in s.claims && s.claims[t.0] == t.1)
    && OneEach(s.tasks)
    && (forall r | r in s.returned :: r in s.tasks)
  }

  lemma ClaimKeeps(s: State, who: nat, written: bool)
    requires Inv(s)
    ensures Inv(Next(s, Action(who, Claim(true, written))))
  {
    var c := CreatorOf(s, who);
    if c.Claiming? && c.key !in s.claims && written {
      var s' := Next(s, Action(who, Claim(true, written)));
      assert CreatorOK(s, c);
      assert forall k | k in s.claims :: s.claims[k] in s.claims.Values;
      assert s'.claims.Values == s.claims.Values + {c.id} by {
        assert forall k | k in s.claims :: k in s'.claims && s'.claims[k] == s.claims[k];
        assert s'.claims[c.key] == c.id;
      }
      forall b | b in s'.creators && b != who ensures CreatorOK(s', s'.creators[b]) {
        assert CreatorOK(s, s.creators[b]);
      }
    }
  }

  lemma CreateKeeps(s: State, who: nat, stored: bool, ok: bool)
    requires Inv(s)
    ensures Inv(Next(s, Action(who, Create(stored, ok))))
  {
    var c := CreatorOf(s, who);
    if c.Winner? && stored {
      var s' := Next(s, Action(who, Create(stored, ok)));
      assert CreatorOK(s, c);
      forall b | b in s'.creators && b != who ensures CreatorOK(s', s'.creators[b]) {
        assert CreatorOK(s, s.creators[b]);
      }
      forall t | t in s.tasks ensures t.0 != c.key {
        assert s.claims[t.0] == t.1 && t.1 != c.id;
      }
    }
  }

  lemma BeginKeeps(s: State, who: nat, key: Key, id: TaskID)
    requires Inv(s)
    ensures Inv(Next(s, Action(who, Begin(key, id))))
  {
    forall k | k in s.claims ensures s.claims[k] in s.claims.Values {}
    assert forall t | t in s.tasks :: s.claims[t.0] in s.claims.Values;
  }

  /** Exactly when a claim changes or drops a reservation that is held: the key file cannot be
      read but can be written. */
  lemma ForgetsExactly(s: State, who: nat, readable: bool, written: bool, k: Key)
    requires Inv(s) && CreatorOf(s, who).Claiming? && k in s.claims
    ensures var s' := Next(s, Action(who, Claim(readable, written)));
      k !in s'.claims || s'.claims[k] != s.claims[k] <==> !readable && written
  {
    assert CreatorOK(s, s.creators[who]) && s.claims[k] in s.claims.Values;
  }

  lemma OnlyClaimsForget(s: State, a: Action)
    requires Inv(s)
    ensures Forgets(s, a) <==>
              a.act.Claim? && CreatorOf(s, a.who).Claiming? && !a.act.readable && a.act.written && s.claims != map[]
  {
    if a.act.Claim? && CreatorOf(s, a.who).Claiming? {
      forall k | k in s.claims
        ensures k !in Next(s, a).claims || Next(s, a).claims[k] != s.claims[k] <==> !a.act.readable && a.act.written
      {
        ForgetsExactly(s, a.who, a.act.readable, a.act.written, k);
      }
      if s.claims != map[] { var k :| k in s.claims; }
    }
  }

  lemma NextKeeps(s: State, a: Action)
    requires Inv(s) && !Forgets(s, a)
    ensures Inv(Next(s, a))
  {
    match a.act
    case Claim(readable, written) =>
      OnlyClaimsForget(s, a);
      ClaimKeeps(s, a.who, written);
      if !readable && CreatorOf(s, a.who).Claiming? && written {
        assert Next(s, a) == Next(s, Action(a.who, Claim(true, true)));
      } else if !readable && CreatorOf(s, a.who).Claiming? {
        IdleKeeps(s, a.who);
      }
    case Create(stored, ok) => CreateKeeps(s, a.who, stored, ok);
    case Begin(key, id) => BeginKeeps(s, a.who, key, id);
    case _ =>
  }

  lemma IdleKeeps(s: State, who: nat)
    requires Inv(s)
    ensures Inv(At(s, who, Idle))
  {
  }

  lemma {:induction false} RunKeeps(s: State, actions: seq<Action>)
    requires Inv(s) && Remembers(s, actions)
    ensures Inv(Run(s, actions))
    decreases |actions|
  {
    if actions != [] {
      NextKeeps(s, actions[0]);
      RunKeeps(Next(s, actions[0]), actions[1..]);
    }
  }

  // ---------- theorems ----------

  /** However creators race, crash and retry: as long as no reservation is forgotten, at most
      one task is ever created per key, and all callers that get a task for a key get that
      one. `OnlyClaimsForget` says which steps forget. */
  lemma OneTaskPerKey(actions: seq<Action>)
    requires Remembers(Nothing, actions)
    ensures var s := Run(Nothing, actions);
      && OneEach(s.tasks)
      && (forall i, j | 0 <= i < |s.returned| && 0 <= j < |s.returned| && s.returned[i].0 == s.returned[j].0 ::
            s.returned[i] == s.returned[j])
      && forall r | r in s.returned :: r in s.tasks
  {
    RunKeeps(Nothing, actions);
    var s := Run(Nothing, actions);
    forall i, j | 0 <= i < |s.returned| && 0 <= j < |s.returned| && s.returned[i].0 == s.returned[j].0
      ensures s.returned[i] == s.returned[j]
    {
      assert s.returned[i] in s.tasks && s.returned[j] in s.tasks;
    }
  }

  /** The key is reserved, but whoever reserved it is gone and created nothing. */
  predicate Orphaned(s: State, key: Key) {
    && key in s.claims && (forall t | t in s.tasks :: t.0 != key)
    && forall c | c in s.creators :: !(s.creators[c].Winner? && s.creators[c].key == key)
  }

  lemma OrphanStep(s: State, a: Action, key: Key)
    requires Inv(s) && !Forgets(s, a) && Orphaned(s, key) && forall r | r in s.returned :: r.0 != key
    ensures Orphaned(Next(s, a), key) && forall r | r in Next(s, a).returned :: r.0 != key
  {
    OnlyClaimsForget(s, a);
    match a.act
    case Claim(readable, written) => OrphanClaim(s, a.who, readable, written, key);
    case Create(stored, ok) => OrphanCreate(s, a.who, stored, ok, key);
    case Poll => OrphanPoll(s, a.who, key);
    case _ =>
  }

  lemma OrphanClaim(s: State, who: nat, readable: bool, written: bool, key: Key)
    requires Inv(s) && Orphaned(s, key) && (CreatorOf(s, who).Claiming? && !readable ==> !written || s.claims == map[])
    ensures Orphaned(Next(s, Action(who, Claim(readable, written))), key)
  {
  }

  lemma OrphanCreate(s: State, who: nat, stored: bool, ok: bool, key: Key)
    requires Inv(s) && Orphaned(s, key) && forall r | r in s.returned :: r.0 != key
    ensures var s' := Next(s, Action(who, Create(stored, ok)));
      Orphaned(s', key) && forall r | r in s'.returned :: r.0 != key
  {
  }

  lemma OrphanPoll(s: State, who: nat, key: Key)
    requires Orphaned(s, key) && forall r | r in s.returned :: r.0 != key
    ensures var s' := Next(s, Action(who, Poll)); Orphaned(s', key) && forall r | r in s'.returned :: r.0 != key
  {
  }

  /** The price of never creating twice: the key of a crashed creator stays reserved, and no
      later creator, however many there are, ever gets a task for it. */
  lemma {:induction false} OrphanStays(s: State, actions: seq<Action>, key: Key)
    requires Inv(s) && Orphaned(s, key) && Remembers(s, actions) && forall r | r in s.returned :: r.0 != key
    ensures Orphaned(Run(s, actions), key) && forall r | r in Run(s, actions).returned :: r.0 != key
    decreases |actions|
  {
    if actions != [] {
      OrphanStep(s, actions[0], key);
      NextKeeps(s, actions[0]);
      OrphanStays(Next(s, actions[0]), actions[1..], key);
    }
  }

  function Sharing(): seq<Action> {
    [Action(0, Begin("k", 7)), Action(0, Claim(true, true)), Action(1, Begin("k", 8)), Action(1, Claim(true, true)),
     Action(0, Create(true, true)), Action(1, Poll)]
  }

  /** Two creators of one key, from the start: one task, and both return it. */
  lemma SecondGetsTheFirst()
    ensures Run(Nothing, Sharing()).tasks == [("k", 7)]
    ensures Run(Nothing, Sharing()).returned == [("k", 7), ("k", 7)]
  {
    var all := Sharing();
    var s1 := Next(Nothing, all[0]);
    var s2 := Next(s1, all[1]);
    assert s2.claims == map["k" := 7] && CreatorOf(s2, 0) == Winner("k", 7) && s2.drawn == {7};
    var s3 := Next(s2, all[2]);
    assert CreatorOf(s3, 1) == Claiming("k", 8) && CreatorOf(s3, 0) == Winner("k", 7);
    var s4 := Next(s3, all[3]);
    assert CreatorOf(s4, 1) == Waiting("k", 7) && CreatorOf(s4, 0) == Winner("k", 7);
    var s5 := Next(s4, all[4]);
    assert s5.tasks == [("k", 7)] && s5.returned == [("k", 7)] && CreatorOf(s5, 1) == Waiting("k", 7);
    var s6 := Next(s5, all[5]);
    assert ("k", 7) in s5.tasks && s6.returned == [("k", 7), ("k", 7)];
    assert all[1..][1..] == all[2..] && all[2..][1..] == all[3..] && all[3..][1..] == all[4..];
    assert all[4..][1..] == all[5..] && all[5..][1..] == [];
    assert Run(s4, all[4..]) == Run(s5, all[5..]) == Run(s6, []);
    assert Run(s2, all[2..]) == Run(s3, all[3..]) == Run(s4, all[4..]);
    assert Run(Nothing, all) == Run(s1, all[1..]) == Run(s2, all[2..]);
  }

  function Forgetting(): seq<Action> {
    [Action(0, Begin("k", 7)), Action(0, Claim(true, true)), Action(0, Create(true, true)),
     Action(1, Begin("k", 8)), Action(1, Claim(false, true)), Action(1, Create(true, true))]
  }

  /** Two creators of one key, from the start: the second cannot read the key file, overwrites
      it, and a second task is created. */
  lemma UnreadableFileForgets()
    ensures Run(Nothing, Forgetting()).tasks == [("k", 7), ("k", 8)]
    ensures Run(Nothing, Forgetting()).returned == [("k", 7), ("k", 8)]
  {
    var all := Forgetting();
    var s1 := Next(Nothing, all[0]);
    var s2 := Next(s1, all[1]);
    assert s2.claims == map["k" := 7] && CreatorOf(s2, 0) == Winner("k", 7) && s2.drawn == {7};
    var s3 := Next(s2, all[2]);
    assert s3.tasks == [("k", 7)] && s3.returned == [("k", 7)] && s3.claims == map["k" := 7];
    var s4 := Next(s3, all[3]);
    assert CreatorOf(s4, 1) == Claiming("k", 8);
    var s5 := Next(s4, all[4]);
    assert CreatorOf(s5, 1) == Winner("k", 8) && s5.tasks == [("k", 7)];
    var s6 := Next(s5, all[5]);
    assert all[1..][1..] == all[2..] && all[2..][1..] == all[3..] && all[3..][1..] == all[4..];
    assert all[4..][1..] == all[5..] && all[5..][1..] == [];
    assert Run(s4, all[4..]) == Run(s5, all[5..]) == Run(s6, []);
    assert Run(s2, all[2..]) == Run(s3, all[3..]) == Run(s4, all[4..]);
    assert Run(Nothing, all) == Run(s1, all[1..]) == Run(s2, all[2..]);
  }
}
