/** What each kind of step stores, field by field, and the step budget over whole schedules. */
module LifecycleWrites {
  import opened Domain
  import opened Workflow
  import opened Lifecycle
  import opened LifecycleSafety

  // ---------- what a step stores ----------

  /** A resolved decision: an abort fails the task, an acceptance completes it, anything else
      goes back to the recorded phase, and an extension also gives the step budget back. The
      guidance is added and everything else kept. */
  lemma DecisionStores(cfg: Config, s: State, a: Action)
    requires Inv(s) && a.act.CommitDecision? && Do(cfg, s, a).disk != s.disk
    ensures PcOf(s, a.who).Recorded? && PcOf(s, a.who).d in s.decisions
    ensures var d, e, was, now := PcOf(s, a.who).d, a.act.effect, s.disk, Do(cfg, s, a).disk;
      var back := s.decisions[d].returnTo;
      && was.p.status == AwaitingDecision
      && (now.p.status == Failed <==> e.Abort? || (!e.Accept? && back == Failed))
      && (now.p.status == Done <==> e.Accept? || (!e.Abort? && back == Done))
      && (e.Continue? || e.Extend? ==> now.p.status == back)
      && now.p.steps == (if e.Extend? then 0 else was.p.steps)
      && now == Snap(was.version + 1, was.p.(status := now.p.status, steps := now.p.steps), was.resume, was.notes + [d])
  {
    Enter(s, a.who);
    ResolverWrites(cfg, s, a.who, PcOf(s, a.who), a.act);
  }

  lemma InterruptSaveOf(cfg: Config, s: State, who: nat, pc: Local, act: Act)
    requires PcOK(s, who, pc) && (act.InterruptSave? || act.RecoverSave?)
    requires DoOthers(cfg, s, who, pc, act).disk != s.disk
    ensures (pc.Interrupting? || pc.ScanLocked?) && pc.base == s.disk && s.disk.p.status.Active()
    ensures DoOthers(cfg, s, who, pc, act).disk == Stored(Interrupt(s.disk))
  {
  }

  lemma ResumeSaveOf(cfg: Config, s: State, who: nat, pc: Local, written: bool)
    requires PcOK(s, who, pc) && DoOthers(cfg, s, who, pc, ResumeSave(written)).disk != s.disk
    ensures pc.Resuming? && pc.base == s.disk && s.disk.p.status == Interrupted
    ensures DoOthers(cfg, s, who, pc, ResumeSave(written)).disk == Stored(Resumed(s.disk))
  {
  }

  lemma ReverifySaveOf(cfg: Config, s: State, who: nat, pc: Local, written: bool)
    requires PcOK(s, who, pc) && DoOthers(cfg, s, who, pc, ReverifySave(written)).disk != s.disk
    ensures pc.Reverifying? && pc.base == s.disk
    ensures DoOthers(cfg, s, who, pc, ReverifySave(written)).disk == Stored(Reverified(s.disk))
  {
  }

  lemma RevokeSaveOf(cfg: Config, s: State, who: nat, pc: Local, written: bool)
    requires PcOK(s, who, pc) && DoOthers(cfg, s, who, pc, RevokeSave(written)).disk != s.disk
    ensures pc.Revoking? && pc.base == s.disk
    ensures DoOthers(cfg, s, who, pc, RevokeSave(written)).disk == Stored(WithStatus(s.disk, Failed))
  {
    if pc.Revoking? {
      assert DoOthers(cfg, s, who, pc, RevokeSave(written)).disk
             == AfterSave(s, WithStatus(pc.base, Failed), written).disk;
    }
  }

  /** An interruption remembers the phase; nothing but an active task is interrupted. */
  lemma InterruptionStores(cfg: Config, s: State, a: Action)
    requires Inv(s) && (a.act.InterruptSave? || a.act.RecoverSave?) && Do(cfg, s, a).disk != s.disk
    ensures var was, now := s.disk, Do(cfg, s, a).disk;
      && was.p.status.Active()
      && now == Snap(was.version + 1, was.p.(status := Interrupted), Some(was.p.status), was.notes)
  {
    Enter(s, a.who);
    InterruptSaveOf(cfg, s, a.who, PcOf(s, a.who), a.act);
  }

  /** A resumed task takes up the remembered phase; research starts over. */
  lemma ResumptionStores(cfg: Config, s: State, a: Action)
    requires Inv(s) && a.act.ResumeSave? && Do(cfg, s, a).disk != s.disk
    ensures var was, now := s.disk, Do(cfg, s, a).disk;
      && was.p.status == Interrupted && was.resume.Some?
      && now.p.status == (if was.resume.value == Understanding then Pending else was.resume.value)
      && now == Snap(was.version + 1, was.p.(status := now.p.status), None, was.notes)
  {
    Enter(s, a.who);
    ResumeSaveOf(cfg, s, a.who, PcOf(s, a.who), a.act.written);
  }

  /** A re-verification starts from rest and gives back the loop budgets, but not the steps. */
  lemma ReverificationStores(cfg: Config, s: State, a: Action)
    requires Inv(s) && a.act.ReverifySave? && Do(cfg, s, a).disk != s.disk
    ensures var was, now := s.disk, Do(cfg, s, a).disk;
      && !was.p.status.Active() && was.p.status != AwaitingDecision
      && now == Snap(was.version + 1, was.p.(status := Verifying, fixAttempts := 0, reviewRounds := 0), None, was.notes)
  {
    Enter(s, a.who);
    ReverifySaveOf(cfg, s, a.who, PcOf(s, a.who), a.act.written);
  }

  /** A revocation fails any task that is not finished. */
  lemma RevocationStores(cfg: Config, s: State, a: Action)
    requires Inv(s) && a.act.RevokeSave? && Do(cfg, s, a).disk != s.disk
    ensures var was, now := s.disk, Do(cfg, s, a).disk;
      !was.p.status.Terminal() && now == Snap(was.version + 1, was.p.(status := Failed), was.resume, was.notes)
  {
    Enter(s, a.who);
    RevokeSaveOf(cfg, s, a.who, PcOf(s, a.who), a.act.written);
  }

  // ---------- what an engine stores ----------

  /** A copy comes from its base by at most one counted step, within the budget. */
  predicate Stepped(max: nat, base: Snap, t: Snap) {
    && base.p.steps <= t.p.steps <= base.p.steps + 1 && t.p.steps <= max
    && t.resume == base.resume && t.p.verifyOnly == base.p.verifyOnly
  }

  predicate Counts(max: nat, pc: Local) {
    match pc
    case Working(base, t) => Stepped(max, base, t)
    case Erring(base, t) => Stepped(max, base, t)
    case Asking(base, t, _) => Stepped(max, base, t)
    case Failing(base, t) => Stepped(max, base, t)
    case _ => HasBase(pc) ==> pc.base.p.steps <= max
  }

  predicate Budgeted(max: nat, s: State) {
    s.disk.p.steps <= max && forall a | a in s.actors :: Counts(max, s.actors[a])
  }

  lemma Puts(max: nat, s: State, who: nat, pc: Local)
    requires Budgeted(max, s) && Counts(max, pc)
    ensures Budgeted(max, At(s, who, pc)) && Budgeted(max, Gone(s, who))
  {
  }

  lemma Saves(max: nat, s: State, t: Snap, written: bool)
    requires Budgeted(max, s) && t.p.steps <= max
    ensures Budgeted(max, AfterSave(s, t, written))
  {
  }

  lemma PlannedSteps(cfg: Config, p: Progress, o: Outcome)
    requires Running(p.status) && Fits(p.status, o)
    ensures Planned(cfg, p, o).steps == p.steps && Planned(cfg, p, o).verifyOnly == p.verifyOnly
  {
  }

  /** The next phase of a copy, without any other change to it. */
  function Planning(cfg: Config, t: Snap, o: Outcome): Snap
    requires Running(t.p.status) && Fits(t.p.status, o)
  {
    t.(p := Planned(cfg, t.p, o))
  }

  lemma PlanningSteps(cfg: Config, base: Snap, t: Snap, o: Outcome, max: nat)
    requires Stepped(max, base, t) && Running(t.p.status) && Fits(t.p.status, o)
    ensures Stepped(max, base, Planning(cfg, t, o))
    ensures Stepped(max, base, WithStatus(Planning(cfg, t, o), t.p.status))
  {
    PlannedSteps(cfg, t.p, o);
  }

  lemma LockCounts(cfg: Config, s: State, who: nat, pc: Local, max: nat)
    requires Budgeted(max, s) && Counts(max, pc)
    ensures Budgeted(max, DoEngine(cfg, s, who, pc, Lock))
  {
    Puts(max, s.(lease := Some(who)), who, Leased);
  }

  lemma LoopCounts(cfg: Config, s: State, who: nat, pc: Local, d: nat, max: nat)
    requires Budgeted(max, s) && Counts(max, pc) && max == cfg.maxSteps
    ensures Budgeted(max, DoEngine(cfg, s, who, pc, LoopRead(d)))
  {
    if s.disk.p.steps < max {
      Puts(max, s, who, Working(s.disk, s.disk.(p := s.disk.p.(steps := s.disk.p.steps + 1))));
    } else {
      Puts(max, s.(decisions := s.decisions[d := Decision(true, s.disk.p.status)]), who,
           Asking(s.disk, WithStatus(s.disk, AwaitingDecision), Budget));
    }
    Puts(max, s, who, Idle);
  }

  lemma MidSaveCounts(cfg: Config, s: State, who: nat, pc: Local, written: bool, max: nat)
    requires Budgeted(max, s) && Counts(max, pc)
    ensures Budgeted(max, DoEngine(cfg, s, who, pc, MidSave(written)))
  {
    if pc.Working? {
      var t := if pc.t.p.status == Pending then WithStatus(pc.t, Understanding) else pc.t;
      Saves(max, s, t, written);
      Puts(max, AfterSave(s, t, written), who, Working(Stored(t), Stored(t)));
      Puts(max, AfterSave(s, t, written), who, Erring(pc.base, t));
    }
  }

  lemma SaveFinishedCounts(s: State, who: nat, base: Snap, t: Snap, o: Outcome, written: bool, max: nat)
    requires Budgeted(max, s) && Stepped(max, base, t)
    ensures Budgeted(max, SaveFinished(s, who, base, t, o, written))
  {
    Saves(max, s, t, written);
    var s' := Noted(AfterSave(s, t, written), o, SaveResultOf(s, t, written));
    Puts(max, s', who, Leased);
    Puts(max, s', who, Erring(base, t));
  }

  lemma FinishCounts(cfg: Config, s: State, who: nat, pc: Local, o: Outcome, written: bool, max: nat)
    requires Budgeted(max, s) && Counts(max, pc)
    ensures Budgeted(max, DoEngine(cfg, s, who, pc, Finish(o, written)))
  {
    if pc.Working? && pc.t.p.status.Active() && Fits(pc.t.p.status, o) {
      PlanningSteps(cfg, pc.base, pc.t, o, max);
      SaveFinishedCounts(s, who, pc.base, Planning(cfg, pc.t, o), o, written, max);
    }
  }

  lemma AskCounts(cfg: Config, s: State, who: nat, pc: Local, o: Outcome, d: nat, created: bool, max: nat)
    requires Budgeted(max, s) && Counts(max, pc)
    ensures Budgeted(max, DoEngine(cfg, s, who, pc, Ask(o, d, created)))
  {
    if pc.Working? && pc.t.p.status.Active() && Fits(pc.t.p.status, o) {
      PlanningSteps(cfg, pc.base, pc.t, o, max);
      var t := Planning(cfg, pc.t, o);
      Puts(max, s, who, Erring(pc.base, WithStatus(t, pc.t.p.status)));
      Puts(max, s.(decisions := s.decisions[d := Decision(true, Implementing)]), who, Asking(pc.base, t, InStep));
    }
  }

  lemma BreakCounts(cfg: Config, s: State, who: nat, pc: Local, counted: bool, max: nat)
    requires Budgeted(max, s) && Counts(max, pc)
    ensures Budgeted(max, DoEngine(cfg, s, who, pc, Break(counted)))
  {
    if pc.Working? && pc.t.p.status.Active() {
      PlanningSteps(cfg, pc.base, pc.t, StepError(counted), max);
      Puts(max, s, who, Erring(pc.base, WithStatus(Planning(cfg, pc.t, StepError(counted)), pc.t.p.status)));
    }
  }

  lemma HandlerCounts(cfg: Config, s: State, who: nat, pc: Local, d: nat, created: bool, max: nat)
    requires Budgeted(max, s) && Counts(max, pc)
    ensures Budgeted(max, DoEngine(cfg, s, who, pc, Handle(d, created)))
  {
    if pc.Erring? {
      Puts(max, s, who, Failing(pc.base, pc.t));
      Puts(max, s.(decisions := s.decisions[d := Decision(true, pc.t.p.status)]), who,
           Asking(pc.base, WithStatus(pc.t, AwaitingDecision), Handler));
    }
  }

  lemma AskSaveCounts(cfg: Config, s: State, who: nat, pc: Local, written: bool, max: nat)
    requires Budgeted(max, s) && Counts(max, pc)
    ensures Budgeted(max, DoEngine(cfg, s, who, pc, AskSave(written)))
    ensures Budgeted(max, DoEngine(cfg, s, who, pc, FailSave(written)))
  {
    if pc.Asking? {
      Saves(max, s, pc.t, written);
      var s' := AfterSave(s, pc.t, written);
      Puts(max, s', who, Leased);
      Puts(max, s', who, Erring(pc.base, pc.t));
      Puts(max, s', who, Failing(pc.base, pc.t));
    }
    if pc.Failing? {
      Saves(max, s, WithStatus(pc.t, Failed), written);
      Puts(max, AfterSave(s, WithStatus(pc.t, Failed), written), who, Idle);
    }
  }

  lemma EngineCounts(cfg: Config, s: State, who: nat, pc: Local, act: Act, max: nat)
    requires Budgeted(max, s) && Counts(max, pc) && max == cfg.maxSteps && ByEngine(act)
    ensures Budgeted(max, DoEngine(cfg, s, who, pc, act))
  {
    match act
    case Lock => LockCounts(cfg, s, who, pc, max);
    case LoopRead(d) => LoopCounts(cfg, s, who, pc, d, max);
    case MidSave(written) => MidSaveCounts(cfg, s, who, pc, written, max);
    case Finish(o, written) => FinishCounts(cfg, s, who, pc, o, written, max);
    case Ask(o, d, created) => AskCounts(cfg, s, who, pc, o, d, created, max);
    case Break(counted) => BreakCounts(cfg, s, who, pc, counted, max);
    case Handle(d, created) => HandlerCounts(cfg, s, who, pc, d, created, max);
    case AskSave(written) => AskSaveCounts(cfg, s, who, pc, written, max);
    case FailSave(written) => AskSaveCounts(cfg, s, who, pc, written, max);
  }

  lemma SaveLeaves(max: nat, s: State, who: nat, t: Snap, written: bool)
    requires Budgeted(max, s) && t.p.steps <= max
    ensures Budgeted(max, Gone(AfterSave(s, t, written), who)) && Budgeted(max, At(s, who, Rereading))
  {
    Saves(max, s, t, written);
    Puts(max, AfterSave(s, t, written), who, Idle);
    Puts(max, s, who, Rereading);
  }

  lemma OtherSavesCount(cfg: Config, s: State, who: nat, pc: Local, act: Act, max: nat)
    requires Budgeted(max, s) && Counts(max, pc)
    requires act.CreateSave? || act.InterruptSave? || act.RecoverSave? || act.ResumeSave? || act.RevokeSave?
             || act.ReverifySave?
    ensures Budgeted(max, DoOthers(cfg, s, who, pc, act))
  {
    if pc.Creating? { SaveLeaves(max, s, who, pc.base, act.written); }
    if pc.Interrupting? || pc.ScanLocked? { SaveLeaves(max, s, who, Interrupt(pc.base), act.written); }
    if pc.Resuming? { SaveLeaves(max, s, who, Resumed(pc.base), act.written); }
    if pc.Revoking? { SaveLeaves(max, s, who, WithStatus(pc.base, Failed), act.written); }
    if pc.Reverifying? { SaveLeaves(max, s, who, Reverified(pc.base), act.written); }
  }

  lemma OtherReadsCount(cfg: Config, s: State, who: nat, pc: Local, act: Act, max: nat)
    requires Budgeted(max, s) && Counts(max, pc)
    requires !(act.CreateSave? || act.InterruptSave? || act.RecoverSave? || act.ResumeSave? || act.RevokeSave?
               || act.ReverifySave?)
    ensures Budgeted(max, DoOthers(cfg, s, who, pc, act))
  {
    Puts(max, s, who, Idle);
    match act
    case InterruptRead => Puts(max, s, who, Interrupting(s.disk));
    case RecoverScan => Puts(max, s, who, Scanned(s.disk));
    case RecoverLock => if pc.Scanned? { Puts(max, s.(lease := Some(who)), who, ScanLocked(pc.base)); }
    case ResumeRead => Puts(max, s, who, Resuming(s.disk));
    case RevokeRead => Puts(max, s, who, Revoking(s.disk, false));
    case RevokeReread => Puts(max, s, who, Revoking(s.disk, true));
    case ReverifyRead => Puts(max, s, who, Reverifying(s.disk));
    case _ =>
  }

  lemma ResolverCounts(cfg: Config, s: State, who: nat, pc: Local, act: Act, max: nat)
    requires Budgeted(max, s) && Counts(max, pc) && !act.CommitDecision?
    ensures Budgeted(max, DoResolve(cfg, s, who, pc, act))
  {
    Puts(max, s, who, Idle);
    if act.ResolveTask? { Puts(max, s, who, Resolving(s.disk, act.d)); }
    if pc.Resolving? { Puts(max, s, who, DecisionRead(pc.base, pc.d)); }
    if pc.DecisionRead? && pc.d in s.decisions {
      Puts(max, Closed(s, who, pc.d), who, Recorded(pc.base, pc.d));
    }
  }

  lemma CommitCounts(cfg: Config, s: State, who: nat, pc: Local, effect: Effect, written: bool, max: nat)
    requires Budgeted(max, s) && Counts(max, pc)
    ensures Budgeted(max, DoResolve(cfg, s, who, pc, CommitDecision(effect, written)))
  {
    if pc.Recorded? && pc.d in s.decisions {
      var t := Decided(pc.base, pc.d, effect, s.decisions[pc.d].returnTo);
      Saves(max, s, t, written);
      var s' := AfterSave(s, t, written);
      Puts(max, s', who, Idle);
      Puts(max, s'.(committed := s'.committed + {pc.d}, accepted := s'.accepted || effect.Accept?), who, Idle);
    }
  }

  lemma DoCounts(cfg: Config, s: State, a: Action, max: nat)
    requires Budgeted(max, s) && max == cfg.maxSteps
    ensures Budgeted(max, Do(cfg, s, a))
  {
    var pc, act := PcOf(s, a.who), a.act;
    assert Counts(max, pc);
    if ByEngine(act) {
      EngineCounts(cfg, s, a.who, pc, act, max);
    } else if act.CommitDecision? {
      CommitCounts(cfg, s, a.who, pc, act.effect, act.written, max);
    } else if ByResolver(act) {
      ResolverCounts(cfg, s, a.who, pc, act, max);
    } else if act.CreateSave? || act.InterruptSave? || act.RecoverSave? || act.ResumeSave? || act.RevokeSave?
              || act.ReverifySave? {
      OtherSavesCount(cfg, s, a.who, pc, act, max);
    } else {
      OtherReadsCount(cfg, s, a.who, pc, act, max);
    }
  }

  /** What every engine write has in common. */
  predicate OneStepOn(was: Snap, now: Snap) {
    && now.version == was.version + 1 && now.notes == was.notes && now.resume == was.resume
    && now.p.verifyOnly == was.p.verifyOnly && was.p.steps <= now.p.steps <= was.p.steps + 1
  }

  /** An engine keeps guidance and resume point, and counts at most one step per write. It
      starts a pending task, pauses it, fails it, or stores where the step leads. */
  lemma EngineStores(cfg: Config, s: State, a: Action, max: nat)
    requires Inv(s) && Budgeted(max, s) && ByEngine(a.act) && Do(cfg, s, a).disk != s.disk
    ensures OneStepOn(s.disk, Do(cfg, s, a).disk)
    ensures var was, now := s.disk.p, Do(cfg, s, a).disk.p;
      match a.act
      case MidSave(_) => now.status == if was.status == Pending then Understanding else was.status
      case Finish(o, _) =>
        && PcOf(s, a.who).Working? && PcOf(s, a.who).t.p.status == was.status
        && Running(was.status) && Fits(was.status, o) && now == Planned(cfg, PcOf(s, a.who).t.p, o)
      case AskSave(_) => now.status == AwaitingDecision
      case FailSave(_) => now.status == Failed
      case _ => false
  {
    Enter(s, a.who);
    var pc := PcOf(s, a.who);
    assert Counts(max, pc);
    EngineWritesOf(cfg, s, a.who, pc, a.act);
    var t := Written(cfg, pc, a.act);
    if a.act.Finish? { PlanningSteps(cfg, pc.base, pc.t, a.act.o, max); }
    StoredIs(s.disk, pc, t, max);
  }

  /** The copy an engine's write stores. */
  function Written(cfg: Config, pc: Local, act: Act): Snap
    requires Writes(pc, act)
  {
    match act
    case MidSave(_) => if pc.t.p.status == Pending then WithStatus(pc.t, Understanding) else pc.t
    case Finish(o, _) => Planning(cfg, pc.t, o)
    case FailSave(_) => WithStatus(pc.t, Failed)
    case _ => pc.t
  }

  predicate Writes(pc: Local, act: Act) {
    match act
    case MidSave(_) => pc.Working?
    case Finish(o, _) => pc.Working? && Running(pc.t.p.status) && Fits(pc.t.p.status, o)
    case AskSave(_) => pc.Asking?
    case FailSave(_) => pc.Failing?
    case _ => false
  }

  lemma StoredIs(disk: Snap, pc: Local, t: Snap, max: nat)
    requires (pc.Working? || pc.Asking? || pc.Failing?) && CopyOK(disk, pc.base, pc.t) && Counts(max, pc)
    requires pc.base == disk && t == pc.t.(p := t.p)
    requires t.p.steps == pc.t.p.steps && t.p.verifyOnly == pc.t.p.verifyOnly
    ensures OneStepOn(disk, Stored(t))
  {
  }

  lemma EngineWritesOf(cfg: Config, s: State, who: nat, pc: Local, act: Act)
    requires PcOK(s, who, pc) && ByEngine(act) && DoEngine(cfg, s, who, pc, act).disk != s.disk
    ensures Writes(pc, act) && pc.base == s.disk
    ensures DoEngine(cfg, s, who, pc, act).disk == Stored(Written(cfg, pc, act))
  {
    EngineWrites(cfg, s, who, pc, act);
    match act
    case MidSave(written) => MidSaveOf(cfg, s, who, pc, written);
    case Finish(o, written) => FinishOf(cfg, s, who, pc, o, written);
    case AskSave(written) => AskSaveOf(cfg, s, who, pc, written);
    case FailSave(written) =>
    case _ => OthersStoreNothing(cfg, s, who, pc, act);
  }

  lemma SavedDisk(s: State, t: Snap, written: bool)
    ensures AfterSave(s, t, written).disk == s.disk || AfterSave(s, t, written).disk == Stored(t)
  {
  }

  lemma MidSaveDisk(cfg: Config, s: State, who: nat, pc: Local, written: bool)
    requires pc.Working?
    ensures DoEngine(cfg, s, who, pc, MidSave(written)).disk
            == AfterSave(s, Written(cfg, pc, MidSave(written)), written).disk
  {
    var t, s1 := Written(cfg, pc, MidSave(written)), DoEngine(cfg, s, who, pc, MidSave(written));
    var s' := AfterSave(s, t, written);
    match SaveResultOf(s, t, written)
    case Saved => assert s1 == At(s', who, Working(Stored(t), Stored(t)));
    case Conflict => assert s1 == Gone(s', who);
    case WriteFailed => assert s1 == At(s', who, Erring(pc.base, t));
  }

  lemma MidSaveOf(cfg: Config, s: State, who: nat, pc: Local, written: bool)
    requires DoEngine(cfg, s, who, pc, MidSave(written)).disk != s.disk
    ensures pc.Working?
    ensures DoEngine(cfg, s, who, pc, MidSave(written)).disk == Stored(Written(cfg, pc, MidSave(written)))
  {
    if pc.Working? {
      MidSaveDisk(cfg, s, who, pc, written);
      SavedDisk(s, Written(cfg, pc, MidSave(written)), written);
    }
  }

  lemma FinishOf(cfg: Config, s: State, who: nat, pc: Local, o: Outcome, written: bool)
    requires DoEngine(cfg, s, who, pc, Finish(o, written)).disk != s.disk
    ensures Writes(pc, Finish(o, written))
    ensures DoEngine(cfg, s, who, pc, Finish(o, written)).disk == Stored(Planning(cfg, pc.t, o))
  {
    if pc.Working? && pc.t.p.status.Active() && Fits(pc.t.p.status, o) {
      assert SaveFinished(s, who, pc.base, Planning(cfg, pc.t, o), o, written).disk
             == AfterSave(s, Planning(cfg, pc.t, o), written).disk;
    }
  }

  lemma AskSavedDisk(s: State, who: nat, pc: Local, result: SaveResult)
    requires pc.Asking?
    ensures AskSaved(s, who, pc, result).disk == s.disk
  {
  }

  lemma AskSaveOf(cfg: Config, s: State, who: nat, pc: Local, written: bool)
    requires DoEngine(cfg, s, who, pc, AskSave(written)).disk != s.disk
    ensures pc.Asking? && DoEngine(cfg, s, who, pc, AskSave(written)).disk == Stored(pc.t)
  {
    if pc.Asking? {
      AskSavedDisk(AfterSave(s, pc.t, written), who, pc, SaveResultOf(s, pc.t, written));
      SavedDisk(s, pc.t, written);
    }
  }

  lemma OthersStoreNothing(cfg: Config, s: State, who: nat, pc: Local, act: Act)
    requires act.Lock? || act.LoopRead? || act.Ask? || act.Break? || act.Handle?
    ensures DoEngine(cfg, s, who, pc, act).disk == s.disk
  {
  }

  lemma {:induction false} RunCounts(cfg: Config, s: State, schedule: seq<Action>, max: nat)
    requires Budgeted(max, s) && max == cfg.maxSteps
    ensures Budgeted(max, Execute(cfg, s, schedule))
    decreases |schedule|
  {
    if schedule != [] {
      DoCounts(cfg, s, schedule[0], max);
      RunCounts(cfg, Do(cfg, s, schedule[0]), schedule[1..], max);
    }
  }

  /** The step budget binds over every schedule, whoever drives the task and however often it
      is interrupted, resumed or verified again: only an extension gives steps back. */
  lemma StepBudgetHolds(cfg: Config, s: State, schedule: seq<Action>)
    requires Init(s) && s.disk.p.steps == 0 && cfg.maxSteps >= 0
    ensures Execute(cfg, s, schedule).disk.p.steps <= cfg.maxSteps
  {
    RunCounts(cfg, s, schedule, cfg.maxSteps);
  }
}
