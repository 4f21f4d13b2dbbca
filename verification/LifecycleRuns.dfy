/** Runs of `Lifecycle` worth knowing: how a retry can complete a task, how an answered task
    can get stuck, and exactly when a waiting task can still move. */
module LifecycleRuns {
  import opened Domain
  import opened Workflow
  import opened Lifecycle
  import opened LifecycleSafety

  lemma Unfold(cfg: Config, s: State, a: Action, rest: seq<Action>)
    ensures Execute(cfg, s, [a] + rest) == Execute(cfg, Do(cfg, s, a), rest)
  {
    assert ([a] + rest)[1..] == rest;
  }

  lemma TwoActions(cfg: Config, s: State, a: Action, b: Action)
    ensures Execute(cfg, s, [a] + ([b] + [])) == Do(cfg, Do(cfg, s, a), b)
  {
    Unfold(cfg, s, a, [b] + []);
    Unfold(cfg, Do(cfg, s, a), b, []);
  }

  lemma ThreeActions(cfg: Config, s: State, a: Action, b: Action, c: Action)
    ensures Execute(cfg, s, [a] + ([b] + ([c] + []))) == Do(cfg, Do(cfg, Do(cfg, s, a), b), c)
  {
    Unfold(cfg, s, a, [b] + ([c] + []));
    TwoActions(cfg, Do(cfg, s, a), b, c);
  }

  /** The engine fails to store an approved review and asks for a decision instead. */
  function FailedFinish(e: nat, d: nat): seq<Action> {
    [Action(e, Finish(Reviewed(true), false))] + ([Action(e, Handle(d, true))] + ([Action(e, AskSave(true))] + []))
  }

  /** A human picks an option without effect ("retry the step") for decision `d`. */
  function PlainRetry(r: nat, d: nat): seq<Action> {
    [Action(r, ResolveTask(d))] + ([Action(r, ResolveRead)] + ([Action(r, RecordDecision(true))]
    + ([Action(r, CommitDecision(Continue, true))] + [])))
  }

  lemma FinishFails(cfg: Config, s: State, e: nat, t: Snap)
    requires s.lease == Some(e) && PcOf(s, e) == Working(s.disk, t) && t.version == s.disk.version
    requires t.p.status == Reviewing
    ensures Do(cfg, s, Action(e, Finish(Reviewed(true), false)))
            == At(s.(ioFailed := true, approved := true), e, Erring(s.disk, WithStatus(t, Done)))
  {
  }

  lemma FailureAsks(cfg: Config, s: State, e: nat, t: Snap, d: nat)
    requires PcOf(s, e) == Erring(s.disk, t) && d !in s.decisions
    ensures Do(cfg, s, Action(e, Handle(d, true)))
            == At(Opened(s, d, t.p.status), e, Asking(s.disk, WithStatus(t, AwaitingDecision), Handler))
  {
  }

  lemma QuestionStored(cfg: Config, s: State, e: nat, t: Snap)
    requires s.lease == Some(e) && PcOf(s, e) == Asking(s.disk, t, Handler) && t.version == s.disk.version
    ensures Do(cfg, s, Action(e, AskSave(true))) == Gone(s.(disk := Stored(t)), e)
  {
  }

  lemma FailedFinishAsks(cfg: Config, s: State, e: nat, d: nat, t: Snap)
    requires Inv(s) && PcOf(s, e) == Working(s.disk, t) && t.p.status == Reviewing && d !in s.decisions
    ensures var s' := Execute(cfg, s, FailedFinish(e, d));
      && s'.disk.p.status == AwaitingDecision && s'.accepted == s.accepted
      && d in s'.decisions && s'.decisions[d] == Decision(true, Done)
      && forall r | r != e :: PcOf(s', r) == PcOf(s, r)
  {
    Enter(s, e);
    FinishFails(cfg, s, e, t);
    var done := WithStatus(t, Done);
    var s1 := At(s.(ioFailed := true, approved := true), e, Erring(s.disk, done));
    FailureAsks(cfg, s1, e, done, d);
    var asks := WithStatus(done, AwaitingDecision);
    QuestionStored(cfg, At(Opened(s1, d, Done), e, Asking(s.disk, asks, Handler)), e, asks);
    ThreeActions(cfg, s, Action(e, Finish(Reviewed(true), false)), Action(e, Handle(d, true)), Action(e, AskSave(true)));
  }

  lemma ResolverReads(cfg: Config, s: State, r: nat, d: nat)
    requires PcOf(s, r) == Idle && s.disk.p.status == AwaitingDecision && d in s.decisions && s.decisions[d].open
    ensures Do(cfg, Do(cfg, s, Action(r, ResolveTask(d))), Action(r, ResolveRead))
            == At(At(s, r, Resolving(s.disk, d)), r, DecisionRead(s.disk, d))
  {
  }

  lemma ResolverDecides(cfg: Config, s: State, r: nat, d: nat)
    requires PcOf(s, r) == DecisionRead(s.disk, d) && d in s.decisions && s.decisions[d].open
    ensures var s' := Do(cfg, Do(cfg, s, Action(r, RecordDecision(true))), Action(r, CommitDecision(Continue, true)));
      s'.disk.p.status == s.decisions[d].returnTo && s'.accepted == s.accepted
      && s'.disk.version == s.disk.version + 1
  {
    assert Do(cfg, s, Action(r, RecordDecision(true))) == At(Closed(s, r, d), r, Recorded(s.disk, d));
  }

  lemma PlainRetryMoves(cfg: Config, s: State, r: nat, d: nat)
    requires PcOf(s, r) == Idle && s.disk.p.status == AwaitingDecision && d in s.decisions && s.decisions[d].open
    ensures var s' := Execute(cfg, s, PlainRetry(r, d));
      s'.disk.p.status == s.decisions[d].returnTo && s'.accepted == s.accepted
      && s'.disk.version == s.disk.version + 1
  {
    ResolverReads(cfg, s, r, d);
    var s1 := Do(cfg, s, Action(r, ResolveTask(d)));
    var s2 := At(At(s, r, Resolving(s.disk, d)), r, DecisionRead(s.disk, d));
    ResolverDecides(cfg, s2, r, d);
    var s3 := Do(cfg, s2, Action(r, RecordDecision(true)));
    var tail4 := [Action(r, CommitDecision(Continue, true))] + [];
    var tail3 := [Action(r, RecordDecision(true))] + tail4;
    Unfold(cfg, s, Action(r, ResolveTask(d)), [Action(r, ResolveRead)] + tail3);
    Unfold(cfg, s1, Action(r, ResolveRead), tail3);
    Unfold(cfg, s2, Action(r, RecordDecision(true)), tail4);
    Unfold(cfg, s3, Action(r, CommitDecision(Continue, true)), []);
  }

  /** How a decision comes to lead back to Done: storing an approved review fails, and a plain
      "retry the step" then completes the task. */
  lemma RetryCompletes(cfg: Config, s: State, e: nat, r: nat, d: nat, t: Snap)
    requires Inv(s) && PcOf(s, e) == Working(s.disk, t) && t.p.status == Reviewing && d !in s.decisions
    requires e != r && PcOf(s, r) == Idle
    ensures var s' := Execute(cfg, s, FailedFinish(e, d) + PlainRetry(r, d));
      s'.disk.p.status == Done && s'.accepted == s.accepted
  {
    FailedFinishAsks(cfg, s, e, d, t);
    PlainRetryMoves(cfg, Execute(cfg, s, FailedFinish(e, d)), r, d);
    ExecuteConcat(cfg, s, FailedFinish(e, d), PlainRetry(r, d));
  }

  /** The task waits for a human, but every decision it could be given is already resolved. */
  predicate Stranded(s: State) {
    && s.disk.p.status == AwaitingDecision
    && (forall d | d in s.decisions :: !s.decisions[d].open)
    && (forall a | a in s.actors :: Waits(s.actors[a]))
  }

  predicate Waits(pc: Local) {
    pc.Idle? || pc.Leased? || pc.Resolving?
  }

  lemma EngineWaits(cfg: Config, s: State, who: nat, pc: Local, act: Act)
    requires s.disk.p.status == AwaitingDecision && Waits(pc)
    ensures var s' := DoEngine(cfg, s, who, pc, act);
      s' == s || s' == Gone(s, who) || s' == At(s.(lease := Some(who)), who, Leased)
  {
  }

  lemma OthersWait(cfg: Config, s: State, who: nat, pc: Local, act: Act)
    requires s.disk.p.status == AwaitingDecision && Waits(pc) && !act.RevokeRead?
    ensures var s' := DoOthers(cfg, s, who, pc, act); s' == s || s' == Gone(s, who)
  {
  }

  lemma ResolverWaits(cfg: Config, s: State, who: nat, pc: Local, act: Act)
    requires Stranded(s) && Waits(pc)
    ensures var s' := DoResolve(cfg, s, who, pc, act);
      s' == s || s' == Gone(s, who) || (act.ResolveTask? && s' == At(s, who, Resolving(s.disk, act.d)))
  {
  }

  lemma StrandedLeaves(s: State, s': State, who: nat, lease: Option<nat>, pc: Local)
    requires Stranded(s) && Waits(pc) && (s' == s || s' == Gone(s, who) || s' == At(s.(lease := lease), who, pc))
    ensures Stranded(s') && s'.disk == s.disk
  {
  }

  lemma StrandedStep(cfg: Config, s: State, a: Action)
    requires Stranded(s) && !a.act.RevokeRead?
    ensures Stranded(Do(cfg, s, a)) && Do(cfg, s, a).disk == s.disk
  {
    var pc, s' := PcOf(s, a.who), Do(cfg, s, a);
    assert Waits(pc);
    if ByEngine(a.act) {
      EngineWaits(cfg, s, a.who, pc, a.act);
      StrandedLeaves(s, s', a.who, Some(a.who), Leased);
    } else if ByResolver(a.act) {
      ResolverWaits(cfg, s, a.who, pc, a.act);
      StrandedLeaves(s, s', a.who, s.lease, if a.act.ResolveTask? then Resolving(s.disk, a.act.d) else Idle);
    } else {
      OthersWait(cfg, s, a.who, pc, a.act);
      StrandedLeaves(s, s', a.who, s.lease, Idle);
    }
  }

  lemma {:induction false} StrandedForGood(cfg: Config, s: State, schedule: seq<Action>)
    requires Stranded(s) && NoRevocation(schedule)
    ensures Execute(cfg, s, schedule).disk == s.disk
    decreases |schedule|
  {
    if schedule != [] {
      assert schedule[0] in schedule;
      StrandedStep(cfg, s, schedule[0]);
      StrandedForGood(cfg, Do(cfg, s, schedule[0]), schedule[1..]);
    }
  }

  lemma Strands(cfg: Config, s: State, who: nat, d: nat, last: Act)
    requires s.disk.p.status == AwaitingDecision && PcOf(s, who) == DecisionRead(s.disk, d)
    requires d in s.decisions && s.decisions[d].open && NeverStored(last)
    requires forall e | e in s.decisions && e != d :: !s.decisions[e].open
    requires forall a | a in s.actors && a != who :: Waits(s.actors[a])
    ensures var s' := Do(cfg, Do(cfg, s, Action(who, RecordDecision(true))), Action(who, last));
      Stranded(s') && s'.disk == s.disk
  {
    var s1 := At(Closed(s, who, d), who, Recorded(s.disk, d));
    assert Do(cfg, s, Action(who, RecordDecision(true))) == s1;
    LeavesUnstored(cfg, s1, who, d, last);
    assert PcOf(s1, who) == Recorded(s.disk, d);
  }

  lemma LeavesUnstored(cfg: Config, s: State, who: nat, d: nat, last: Act)
    requires PcOf(s, who) == Recorded(s.disk, d) && d in s.decisions && NeverStored(last)
    ensures Do(cfg, s, Action(who, last)) == Gone(if last.Abandon? then s else s.(ioFailed := true), who)
  {
  }

  /** The resolver dies, or its snapshot write fails. */
  predicate NeverStored(act: Act) {
    act.Abandon? || (act.CommitDecision? && !act.written)
  }

  /** At most once is not exactly once: a choice that is recorded but never reaches the
      snapshot leaves a task that nothing but a revocation ever moves again. */
  lemma UnstoredChoiceStrands(cfg: Config, s: State, who: nat, d: nat, last: Act, schedule: seq<Action>)
    requires s.disk.p.status == AwaitingDecision && PcOf(s, who) == DecisionRead(s.disk, d)
    requires d in s.decisions && s.decisions[d].open && NeverStored(last)
    requires forall e | e in s.decisions && e != d :: !s.decisions[e].open
    requires forall a | a in s.actors && a != who :: Waits(s.actors[a])
    requires NoRevocation(schedule)
    ensures Execute(cfg, s, [Action(who, RecordDecision(true))] + ([Action(who, last)] + schedule)).disk == s.disk
  {
    Strands(cfg, s, who, d, last);
    var s1 := Do(cfg, s, Action(who, RecordDecision(true)));
    Unfold(cfg, s, Action(who, RecordDecision(true)), [Action(who, last)] + schedule);
    Unfold(cfg, s1, Action(who, last), schedule);
    StrandedForGood(cfg, Do(cfg, s1, Action(who, last)), schedule);
  }

  predicate NoRevocation(schedule: seq<Action>) {
    forall a | a in schedule :: !a.act.RevokeRead?
  }

  predicate MovesIt(cfg: Config, s: State, schedule: seq<Action>) {
    NoRevocation(schedule) && Execute(cfg, s, schedule).disk != s.disk
  }

  lemma NothingMovesIt(cfg: Config, s: State)
    requires Stranded(s)
    ensures forall schedule :: !MovesIt(cfg, s, schedule)
  {
    forall schedule | NoRevocation(schedule) ensures !MovesIt(cfg, s, schedule) {
      StrandedForGood(cfg, s, schedule);
    }
  }

  lemma RetryMovesIt(cfg: Config, s: State, r: nat, d: nat)
    requires PcOf(s, r) == Idle && s.disk.p.status == AwaitingDecision && d in s.decisions && s.decisions[d].open
    ensures MovesIt(cfg, s, PlainRetry(r, d))
  {
    PlainRetryMoves(cfg, s, r, d);
    PlainRetryRevokesNothing(r, d);
  }

  lemma PlainRetryRevokesNothing(r: nat, d: nat)
    ensures NoRevocation(PlainRetry(r, d))
  {
  }

  /** Exactly when a waiting task can still move: with nobody in the middle of anything, some
      schedule without a revocation changes it if and only if some decision is still open. */
  lemma MovableExactly(cfg: Config, s: State, r: nat)
    requires s.disk.p.status == AwaitingDecision && PcOf(s, r) == Idle
    requires forall a | a in s.actors :: Waits(s.actors[a])
    ensures (exists schedule :: MovesIt(cfg, s, schedule)) <==> exists d | d in s.decisions :: s.decisions[d].open
  {
    if d :| d in s.decisions && s.decisions[d].open {
      RetryMovesIt(cfg, s, r, d);
    } else {
      NothingMovesIt(cfg, s);
    }
  }

  // ---------- pauses and revocations ----------

  predicate Drives(s: State, e: nat) {
    s.lease == Some(e) && PcOf(s, e) == Leased
  }

  lemma BreakErrs(cfg: Config, s: State, e: nat, t: Snap, counted: bool)
    requires PcOf(s, e) == Working(s.disk, t) && t.p.status.Active()
    ensures Do(cfg, s, Action(e, Break(counted)))
            == At(s, e, Erring(s.disk, WithStatus(t.(p := Planned(cfg, t.p, StepError(counted))), t.p.status)))
  {
  }

  /** A failed step pauses the task on a decision that leads back to its phase, and its work
      is counted. */
  lemma StepErrorPauses(cfg: Config, s: State, e: nat, d: nat, t: Snap, counted: bool)
    requires s.lease == Some(e) && PcOf(s, e) == Working(s.disk, t) && t.p.status.Active()
    requires t.version == s.disk.version && d !in s.decisions
    ensures var s' := Execute(cfg, s, [Action(e, Break(counted))] + ([Action(e, Handle(d, true))]
                                      + ([Action(e, AskSave(true))] + [])));
      && s'.disk == Stored(t.(p := Planned(cfg, t.p, StepError(counted)))) && s'.disk.p.status == AwaitingDecision
      && s'.decisions == s.decisions[d := Decision(true, t.p.status)] && s'.lease.None?
  {
    var failed := WithStatus(t.(p := Planned(cfg, t.p, StepError(counted))), t.p.status);
    var asks := WithStatus(failed, AwaitingDecision);
    BreakErrs(cfg, s, e, t, counted);
    var s1 := At(s, e, Erring(s.disk, failed));
    FailureAsks(cfg, s1, e, failed, d);
    QuestionStored(cfg, At(Opened(s1, d, t.p.status), e, Asking(s.disk, asks, Handler)), e, asks);
    ThreeActions(cfg, s, Action(e, Break(counted)), Action(e, Handle(d, true)), Action(e, AskSave(true)));
  }

  lemma BudgetAsks(cfg: Config, s: State, e: nat, d: nat)
    requires Drives(s, e) && Running(s.disk.p.status) && s.disk.p.steps >= cfg.maxSteps && d !in s.decisions
    ensures Do(cfg, s, Action(e, LoopRead(d)))
            == At(Opened(s, d, s.disk.p.status), e, Asking(s.disk, WithStatus(s.disk, AwaitingDecision), Budget))
  {
  }

  /** A task that has used up its steps waits for a human, who may send it back where it was. */
  lemma BudgetPauses(cfg: Config, s: State, e: nat, d: nat)
    requires Drives(s, e) && Running(s.disk.p.status) && s.disk.p.steps >= cfg.maxSteps && d !in s.decisions
    ensures var s' := Execute(cfg, s, [Action(e, LoopRead(d))] + ([Action(e, AskSave(true))] + []));
      && s'.disk == Stored(WithStatus(s.disk, AwaitingDecision)) && s'.lease.None?
      && s'.decisions == s.decisions[d := Decision(true, s.disk.p.status)]
  {
    BudgetAsks(cfg, s, e, d);
    TwoActions(cfg, s, Action(e, LoopRead(d)), Action(e, AskSave(true)));
  }

  /** A revocation that comes too late reads again and then fails the task. */
  lemma RevocationRetries(cfg: Config, s: State, who: nat, base: Snap)
    requires PcOf(s, who) == Revoking(base, false) && base.version != s.disk.version && !s.disk.p.status.Terminal()
    ensures var s' := Execute(cfg, s, [Action(who, RevokeSave(true))] + ([Action(who, RevokeReread)]
                                      + ([Action(who, RevokeSave(true))] + [])));
      s'.disk == Stored(WithStatus(s.disk, Failed))
  {
    var s1, s2 := At(s, who, Rereading), At(At(s, who, Rereading), who, Revoking(s.disk, true));
    assert Do(cfg, s, Action(who, RevokeSave(true))) == s1;
    assert Do(cfg, s1, Action(who, RevokeReread)) == s2;
    ThreeActions(cfg, s, Action(who, RevokeSave(true)), Action(who, RevokeReread), Action(who, RevokeSave(true)));
  }

  // ---------- both from the start ----------

  /** What a step of `e` leaves alone. */
  predicate OthersSame(s: State, s': State, e: nat) {
    && s'.lease == s.lease && s'.decisions == s.decisions && s'.accepted == s.accepted
    && s'.actors.Keys == s.actors.Keys + {e}
    && forall r | r in s.actors && r != e :: s'.actors[r] == s.actors[r]
  }

  function OneStep(e: nat, o: Outcome): seq<Action> {
    [Action(e, LoopRead(0))] + ([Action(e, Finish(o, true))] + [])
  }

  function Counted(t: Snap): Snap {
    t.(p := t.p.(steps := t.p.steps + 1))
  }

  lemma LoopLeads(cfg: Config, s: State, e: nat)
    requires Drives(s, e) && s.disk.p.status.Active() && s.disk.p.steps < cfg.maxSteps
    ensures Do(cfg, s, Action(e, LoopRead(0))) == At(s, e, Working(s.disk, Counted(s.disk)))
  {
  }

  lemma OthersSameAt(s: State, e: nat, pc: Local, s': State)
    requires OthersSame(At(s, e, pc), s', e)
    ensures OthersSame(s, s', e)
  {
  }

  /** What a finished step of `e` leaves: `e` still drives, and only the snapshot changed. */
  predicate Finished(s: State, s': State, e: nat, p: Progress) {
    Drives(s', e) && OthersSame(s, s', e) && s'.disk == Stored(s.disk.(p := p))
  }

  lemma StepLeads(cfg: Config, s: State, e: nat, o: Outcome)
    requires Drives(s, e) && s.disk.p.status.Active() && s.disk.p.steps < cfg.maxSteps && Fits(s.disk.p.status, o)
    requires Next(cfg, s.disk.p, o).status != AwaitingDecision
    ensures Finished(s, Execute(cfg, s, OneStep(e, o)), e, Next(cfg, s.disk.p, o))
  {
    LoopLeads(cfg, s, e);
    CountedLeads(cfg, s, At(s, e, Working(s.disk, Counted(s.disk))), e, Counted(s.disk), o, Next(cfg, s.disk.p, o));
    TwoActions(cfg, s, Action(e, LoopRead(0)), Action(e, Finish(o, true)));
  }

  lemma CountedLeads(cfg: Config, s: State, s1: State, e: nat, t: Snap, o: Outcome, p: Progress)
    requires Drives(s, e) && t == Counted(s.disk) && s1 == At(s, e, Working(s.disk, t))
    requires t.p.status.Active() && Fits(t.p.status, o) && p == Planned(cfg, t.p, o) && p.status != AwaitingDecision
    ensures Finished(s, Do(cfg, s1, Action(e, Finish(o, true))), e, p)
  {
    FinishLeads(cfg, s1, e, t, o, p);
    FinishedStep(s, Do(cfg, s1, Action(e, Finish(o, true))), e, Working(s.disk, t), t, p);
  }

  lemma FinishedStep(s: State, s': State, e: nat, pc: Local, t: Snap, p: Progress)
    requires Drives(s', e) && OthersSame(At(s, e, pc), s', e) && s'.disk == Stored(t.(p := p))
    requires t == Counted(s.disk)
    ensures Finished(s, s', e, p)
  {
    OthersSameAt(s, e, pc, s');
  }

  lemma FinishLeads(cfg: Config, s: State, e: nat, t: Snap, o: Outcome, p: Progress)
    requires s.lease == Some(e) && e in s.actors && s.actors[e] == Working(s.disk, t) && t.version == s.disk.version
    requires t.p.status.Active() && Fits(t.p.status, o) && p == Planned(cfg, t.p, o) && p.status != AwaitingDecision
    ensures var s' := Do(cfg, s, Action(e, Finish(o, true)));
      Drives(s', e) && OthersSame(s, s', e) && s'.disk == Stored(t.(p := p))
  {
    assert Do(cfg, s, Action(e, Finish(o, true))) == SaveFinished(s, e, s.disk, t.(p := p), o, true);
  }

  /** A task nobody has touched yet, and nobody doing anything. */
  predicate Untouched(s: State) {
    Init(s) && s.disk.p == Fresh(false) && s.actors == map[]
  }

  function Begin(e: nat): seq<Action> {
    [Action(e, Lock)] + ([Action(e, LoopRead(0))] + ([Action(e, MidSave(true))] + []))
  }

  lemma BeginLeads(cfg: Config, s: State, e: nat)
    requires Untouched(s) && cfg.maxSteps > 0
    ensures var s' := Execute(cfg, s, Begin(e));
      && s'.lease == Some(e) && s'.actors == map[e := Working(s'.disk, s'.disk)]
      && s'.disk.p == Fresh(false).(status := Understanding, steps := 1) && s'.disk.notes == []
      && s'.decisions == map[] && !s'.accepted
  {
    var t := s.disk.(p := s.disk.p.(steps := 1));
    var s1 := At(s.(lease := Some(e)), e, Leased);
    assert Do(cfg, s, Action(e, Lock)) == s1;
    var s2 := At(s1, e, Working(s.disk, t));
    assert Do(cfg, s1, Action(e, LoopRead(0))) == s2;
    var stored := Stored(WithStatus(t, Understanding));
    var s3 := At(s2.(disk := stored), e, Working(stored, stored));
    assert Do(cfg, s2, Action(e, MidSave(true))) == s3;
    ThreeActions(cfg, s, Action(e, Lock), Action(e, LoopRead(0)), Action(e, MidSave(true)));
  }

  /** The shortest way to a review. */
  function ToReview(e: nat): seq<Action> {
    Begin(e) + ([Action(e, Finish(Researched(false, false), true))]
    + (OneStep(e, Developed(true, false)) + (OneStep(e, Tested(true, true)) + ([Action(e, LoopRead(0))] + []))))
  }

  lemma ToReviewLeads(cfg: Config, s: State, e: nat)
    requires Untouched(s) && cfg.maxSteps >= 4
    ensures var s' := Execute(cfg, s, ToReview(e));
      && s'.lease == Some(e) && s'.actors.Keys == {e} && s'.decisions == map[] && !s'.accepted
      && s'.disk.p.status == Reviewing
      && PcOf(s', e) == Working(s'.disk, s'.disk.(p := s'.disk.p.(steps := s'.disk.p.steps + 1)))
  {
    BeginLeads(cfg, s, e);
    var s1 := Execute(cfg, s, Begin(e));
    FinishLeads(cfg, s1, e, s1.disk, Researched(false, false), s1.disk.p.(status := Implementing));
    var s2 := Do(cfg, s1, Action(e, Finish(Researched(false, false), true)));
    StepLeads(cfg, s2, e, Developed(true, false));
    var s3 := Execute(cfg, s2, OneStep(e, Developed(true, false)));
    StepLeads(cfg, s3, e, Tested(true, true));
    var s4 := Execute(cfg, s3, OneStep(e, Tested(true, true)));
    var tail4 := [Action(e, LoopRead(0))] + [];
    var tail3 := OneStep(e, Tested(true, true)) + tail4;
    var tail2 := OneStep(e, Developed(true, false)) + tail3;
    ExecuteConcat(cfg, s, Begin(e), [Action(e, Finish(Researched(false, false), true))] + tail2);
    Unfold(cfg, s1, Action(e, Finish(Researched(false, false), true)), tail2);
    ExecuteConcat(cfg, s2, OneStep(e, Developed(true, false)), tail3);
    ExecuteConcat(cfg, s3, OneStep(e, Tested(true, true)), tail4);
    Unfold(cfg, s4, Action(e, LoopRead(0)), []);
  }

  /** Engine 0 is at the review, alone and without any decision. */
  predicate AtReview(s: State) {
    && Inv(s) && s.actors.Keys == {0} && s.decisions == map[] && !s.accepted
    && PcOf(s, 0) == Working(s.disk, Counted(s.disk)) && s.disk.p.status == Reviewing
  }

  lemma ReviewReached(cfg: Config, s: State)
    requires Untouched(s) && cfg.maxSteps >= 4
    ensures AtReview(Execute(cfg, s, ToReview(0)))
  {
    ToReviewLeads(cfg, s, 0);
    InitIsSafe(s);
    Safe(cfg, s, ToReview(0));
  }

  lemma ReviewThenRetry(cfg: Config, s: State, first: seq<Action>)
    requires AtReview(Execute(cfg, s, first))
    ensures var s' := Execute(cfg, s, first + (FailedFinish(0, 0) + PlainRetry(1, 0)));
      s'.disk.p.status == Done && !s'.accepted
  {
    var s1 := Execute(cfg, s, first);
    RetryCompletes(cfg, s1, 0, 1, 0, Counted(s1.disk));
    ExecuteConcat(cfg, s, first, FailedFinish(0, 0) + PlainRetry(1, 0));
  }

  /** A schedule from the very start that completes a task by a plain retry: engine 0 reaches
      the review and fails to store its approval, a human chooses to retry. */
  lemma RetryCompletesFromStart(cfg: Config, s: State)
    requires Untouched(s) && cfg.maxSteps >= 4
    ensures var s' := Execute(cfg, s, ToReview(0) + (FailedFinish(0, 0) + PlainRetry(1, 0)));
      s'.disk.p.status == Done && !s'.accepted
  {
    ReviewReached(cfg, s);
    ReviewThenRetry(cfg, s, ToReview(0));
  }

  /** The researcher asks a question, and a human starts to answer it. */
  function ToAnswer(e: nat, r: nat, d: nat): seq<Action> {
    Begin(e) + ([Action(e, Ask(Researched(true, false), d, true))] + ([Action(e, AskSave(true))]
    + ([Action(r, ResolveTask(d))] + ([Action(r, ResolveRead)] + []))))
  }

  lemma QuestionAsked(cfg: Config, s: State, e: nat, d: nat)
    requires s.lease == Some(e) && s.actors == map[e := Working(s.disk, s.disk)] && s.decisions == map[]
    requires s.disk.p.status == Understanding
    ensures var s' := Do(cfg, Do(cfg, s, Action(e, Ask(Researched(true, false), d, true))), Action(e, AskSave(true)));
      && s'.actors == map[e := Leased] && s'.decisions == map[d := Decision(true, Implementing)]
      && s'.disk.p.status == AwaitingDecision
  {
    var t := WithStatus(s.disk, AwaitingDecision);
    var s1 := At(Opened(s, d, Implementing), e, Asking(s.disk, t, InStep));
    assert Do(cfg, s, Action(e, Ask(Researched(true, false), d, true))) == s1;
    assert Do(cfg, s1, Action(e, AskSave(true))) == At(s1.(disk := Stored(t)), e, Leased);
  }

  lemma AnswerStarted(cfg: Config, s: State, e: nat, r: nat, d: nat)
    requires s.actors == map[e := Leased] && e != r && s.disk.p.status == AwaitingDecision
    requires d in s.decisions && s.decisions[d].open
    ensures var s' := Do(cfg, Do(cfg, s, Action(r, ResolveTask(d))), Action(r, ResolveRead));
      s'.disk == s.disk && s'.decisions == s.decisions && s'.actors == map[e := Leased, r := DecisionRead(s.disk, d)]
  {
    ResolverReads(cfg, s, r, d);
  }

  lemma ToAnswerLeads(cfg: Config, s: State, e: nat, r: nat, d: nat)
    requires Untouched(s) && cfg.maxSteps > 0 && e != r
    ensures var s' := Execute(cfg, s, ToAnswer(e, r, d));
      && s'.disk.p.status == AwaitingDecision && s'.decisions == map[d := Decision(true, Implementing)]
      && s'.actors == map[e := Leased, r := DecisionRead(s'.disk, d)]
  {
    BeginLeads(cfg, s, e);
    var s1 := Execute(cfg, s, Begin(e));
    QuestionAsked(cfg, s1, e, d);
    var s2 := Do(cfg, s1, Action(e, Ask(Researched(true, false), d, true)));
    var s3 := Do(cfg, s2, Action(e, AskSave(true)));
    AnswerStarted(cfg, s3, e, r, d);
    var s4 := Do(cfg, s3, Action(r, ResolveTask(d)));
    var tail4 := [Action(r, ResolveRead)] + [];
    var tail3 := [Action(r, ResolveTask(d))] + tail4;
    var tail2 := [Action(e, AskSave(true))] + tail3;
    ExecuteConcat(cfg, s, Begin(e), [Action(e, Ask(Researched(true, false), d, true))] + tail2);
    Unfold(cfg, s1, Action(e, Ask(Researched(true, false), d, true)), tail2);
    Unfold(cfg, s2, Action(e, AskSave(true)), tail3);
    Unfold(cfg, s3, Action(r, ResolveTask(d)), tail4);
    Unfold(cfg, s4, Action(r, ResolveRead), []);
  }

  /** A schedule from the very start that strands a task: its first question is answered, and
      the answer is recorded but never stored, by a crash or by a failed write. */
  lemma StrandsFromStart(cfg: Config, s: State, last: Act, schedule: seq<Action>)
    requires Untouched(s) && cfg.maxSteps > 0 && NeverStored(last) && NoRevocation(schedule)
    ensures var waiting := Execute(cfg, s, ToAnswer(0, 1, 0));
      && waiting.disk.p.status == AwaitingDecision
      && Execute(cfg, s, ToAnswer(0, 1, 0) + ([Action(1, RecordDecision(true))] + ([Action(1, last)] + schedule))).disk
         == waiting.disk
  {
    ToAnswerLeads(cfg, s, 0, 1, 0);
    var waiting := Execute(cfg, s, ToAnswer(0, 1, 0));
    UnstoredChoiceStrands(cfg, waiting, 1, 0, last, schedule);
    ExecuteConcat(cfg, s, ToAnswer(0, 1, 0), [Action(1, RecordDecision(true))] + ([Action(1, last)] + schedule));
  }
}
