/** Safety of every schedule of `Lifecycle`: the invariant, and what follows from it. */
module LifecycleSafety {
  import opened Domain
  import opened Workflow
  import opened Lifecycle

  // ---------- the invariant is kept ----------

  /** The invariant, leaving out where `who` stands. */
  predicate InvBut(s: State, who: nat) {
    && (forall a | a in s.actors && a != who :: PcOK(s, a, s.actors[a]))
    && (s.lease.Some? ==> s.lease.value in s.actors || s.lease.value == who)
    && RecordsOK(s) && DiskOK(s)
  }

  predicate Ready(s: State, who: nat, pc: Local) {
    Inv(s) && InvBut(s, who) && PcOK(s, who, pc)
  }

  lemma Enter(s: State, who: nat)
    requires Inv(s)
    ensures Ready(s, who, PcOf(s, who))
  {
    if who in s.actors { assert PcOK(s, who, s.actors[who]); }
  }

  lemma Place(s: State, who: nat, pc: Local)
    requires InvBut(s, who) && PcOK(s, who, pc)
    ensures Inv(At(s, who, pc))
  {
    var s' := At(s, who, pc);
    forall a | a in s'.actors ensures PcOK(s', a, s'.actors[a]) {
      if a != who { assert PcOK(s, a, s.actors[a]); }
    }
  }

  lemma Leave(s: State, who: nat)
    requires InvBut(s, who)
    ensures Inv(Gone(s, who))
  {
    var s1 := if s.lease == Some(who) then s.(lease := None) else s;
    forall a | a in s1.actors && a != who ensures PcOK(s1, a, s1.actors[a]) {
      assert PcOK(s, a, s.actors[a]);
    }
    Place(s1, who, Idle);
  }

  lemma Acquire(s: State, who: nat)
    requires InvBut(s, who) && s.lease.None?
    ensures InvBut(s.(lease := Some(who)), who)
  {
    var s' := s.(lease := Some(who));
    forall a | a in s'.actors && a != who ensures PcOK(s', a, s'.actors[a]) {
      assert PcOK(s, a, s.actors[a]);
    }
  }

  /** Whatever a writer stores, everyone else's copy stays either out of date or exact. */
  lemma Store(s: State, who: nat, t: Snap, written: bool)
    requires InvBut(s, who)
    requires SaveResultOf(s, t, written).Saved? ==> DiskOK(s.(disk := Stored(t)))
    ensures InvBut(AfterSave(s, t, written), who)
  {
    var s' := AfterSave(s, t, written);
    forall a | a in s'.actors && a != who ensures PcOK(s', a, s'.actors[a]) {
      assert PcOK(s, a, s.actors[a]);
    }
  }

  function Opened(s: State, d: nat, returnTo: TaskStatus): State {
    s.(decisions := s.decisions[d := Decision(true, returnTo)])
  }

  lemma Open(s: State, who: nat, d: nat, returnTo: TaskStatus)
    requires InvBut(s, who) && d !in s.decisions && Returnable(s, returnTo)
    ensures InvBut(Opened(s, d, returnTo), who)
  {
    var s' := Opened(s, d, returnTo);
    forall a | a in s'.actors && a != who ensures PcOK(s', a, s'.actors[a]) {
      assert PcOK(s, a, s.actors[a]);
    }
    assert RecordsOK(s') by {
      forall e | e in s'.decisions ensures Returnable(s', s'.decisions[e].returnTo) {
        if e != d { assert e in s.decisions; }
      }
    }
  }

  lemma OpenAndPlace(s: State, who: nat, d: nat, returnTo: TaskStatus, pc: Local)
    requires InvBut(s, who) && d !in s.decisions && Returnable(s, returnTo) && PcOK(s, who, pc)
    ensures Inv(At(Opened(s, d, returnTo), who, pc))
  {
    Open(s, who, d, returnTo);
    Place(Opened(s, d, returnTo), who, pc);
  }

  lemma LockKeeps(cfg: Config, s: State, who: nat, pc: Local)
    requires Ready(s, who, pc)
    ensures Inv(DoEngine(cfg, s, who, pc, Lock))
  {
    if pc.Idle? && s.lease.None? {
      Acquire(s, who);
      Place(s.(lease := Some(who)), who, Leased);
    }
  }

  lemma LoopKeeps(cfg: Config, s: State, who: nat, pc: Local, d: nat)
    requires Ready(s, who, pc)
    ensures Inv(DoEngine(cfg, s, who, pc, LoopRead(d)))
  {
    if pc.Leased? {
      if !Running(s.disk.p.status) {
        Leave(s, who);
      } else if s.disk.p.steps < cfg.maxSteps {
        Place(s, who, Working(s.disk, s.disk.(p := s.disk.p.(steps := s.disk.p.steps + 1))));
      } else if d !in s.decisions {
        OpenAndPlace(s, who, d, s.disk.p.status, Asking(s.disk, WithStatus(s.disk, AwaitingDecision), Budget));
      }
    }
  }

  lemma AskSaveKeeps(cfg: Config, s: State, who: nat, pc: Local, written: bool)
    requires Ready(s, who, pc)
    ensures Inv(DoEngine(cfg, s, who, pc, AskSave(written)))
  {
    if pc.Asking? {
      Store(s, who, pc.t, written);
      var result, s' := SaveResultOf(s, pc.t, written), AfterSave(s, pc.t, written);
      if result.Saved? && pc.asker.InStep? { Place(s', who, Leased); }
      else if result.WriteFailed? && pc.asker.InStep? { Place(s', who, Erring(pc.base, pc.t)); }
      else if !result.Saved? && pc.asker.Handler? { Place(s', who, Failing(pc.base, pc.t)); }
      else { Leave(s', who); }
    }
  }

  lemma MidSaveKeeps(cfg: Config, s: State, who: nat, pc: Local, written: bool)
    requires Ready(s, who, pc)
    ensures Inv(DoEngine(cfg, s, who, pc, MidSave(written)))
  {
    if pc.Working? {
      var t := if pc.t.p.status == Pending then WithStatus(pc.t, Understanding) else pc.t;
      Store(s, who, t, written);
      var result, s' := SaveResultOf(s, t, written), AfterSave(s, t, written);
      match result
      case Saved => Place(s', who, Working(Stored(t), Stored(t)));
      case Conflict => Leave(s', who);
      case WriteFailed => Place(s', who, Erring(pc.base, t));
    }
  }

  lemma NoteAndStore(s: State, who: nat, t: Snap, o: Outcome, written: bool)
    requires InvBut(s, who)
    requires SaveResultOf(s, t, written).Saved? ==> t.notes == s.disk.notes && t.p.status != Interrupted
    requires t.p.status == Done ==> o == Reviewed(true)
    ensures InvBut(AfterSave(Noted(s, o, SaveResultOf(s, t, written)), t, written), who)
  {
    var s' := Noted(s, o, SaveResultOf(s, t, written));
    forall a | a in s'.actors && a != who ensures PcOK(s', a, s'.actors[a]) {
      assert PcOK(s, a, s.actors[a]);
    }
    Store(s', who, t, written);
  }

  lemma SaveFinishedKeeps(s: State, who: nat, base: Snap, t: Snap, o: Outcome, written: bool)
    requires InvBut(s, who) && CopyOK(s.disk, base, t) && s.lease == Some(who)
    requires t.p.status == Done ==> o == Reviewed(true)
    requires Running(t.p.status) || t.p.status == Done || o.Hostile?
    requires t.p.status != Interrupted
    ensures Inv(SaveFinished(s, who, base, t, o, written))
  {
    var result := SaveResultOf(s, t, written);
    NoteAndStore(s, who, t, o, written);
    var s' := AfterSave(Noted(s, o, result), t, written);
    if result.Saved? { Place(s', who, Leased); }
    else if result.WriteFailed? && !o.Hostile? { Place(s', who, Erring(base, t)); }
    else { Leave(s', who); }
  }

  lemma FinishKeeps(cfg: Config, s: State, who: nat, pc: Local, o: Outcome, written: bool)
    requires Ready(s, who, pc)
    ensures Inv(DoEngine(cfg, s, who, pc, Finish(o, written)))
  {
    if pc.Working? && pc.t.p.status.Active() && Fits(pc.t.p.status, o) {
      var t := pc.t.(p := Planned(cfg, pc.t.p, o));
      if t.p.status != AwaitingDecision {
        SaveFinishedKeeps(s, who, pc.base, t, o, written);
      }
    }
  }

  lemma AskKeeps(cfg: Config, s: State, who: nat, pc: Local, o: Outcome, d: nat, created: bool)
    requires Ready(s, who, pc)
    ensures Inv(DoEngine(cfg, s, who, pc, Ask(o, d, created)))
  {
    if pc.Working? && pc.t.p.status.Active() && Fits(pc.t.p.status, o) && !o.StepError? && d !in s.decisions {
      var t := pc.t.(p := Planned(cfg, pc.t.p, o));
      if t.p.status == AwaitingDecision {
        if created {
          OpenAndPlace(s, who, d, Implementing, Asking(pc.base, t, InStep));
        } else {
          Place(s, who, Erring(pc.base, WithStatus(t, pc.t.p.status)));
        }
      }
    }
  }

  lemma BreakKeeps(cfg: Config, s: State, who: nat, pc: Local, counted: bool)
    requires Ready(s, who, pc)
    ensures Inv(DoEngine(cfg, s, who, pc, Break(counted)))
  {
    if pc.Working? && pc.t.p.status.Active() {
      Place(s, who, Erring(pc.base, WithStatus(pc.t.(p := Planned(cfg, pc.t.p, StepError(counted))), pc.t.p.status)));
    }
  }

  lemma HandleKeeps(cfg: Config, s: State, who: nat, pc: Local, d: nat, created: bool)
    requires Ready(s, who, pc)
    ensures Inv(DoEngine(cfg, s, who, pc, Handle(d, created)))
  {
    if pc.Erring? && d !in s.decisions {
      if created {
        OpenAndPlace(s, who, d, pc.t.p.status, Asking(pc.base, WithStatus(pc.t, AwaitingDecision), Handler));
      } else {
        Place(s, who, Failing(pc.base, pc.t));
      }
    }
  }

  lemma EngineKeeps(cfg: Config, s: State, who: nat, pc: Local, act: Act)
    requires Ready(s, who, pc) && ByEngine(act)
    ensures Inv(DoEngine(cfg, s, who, pc, act))
  {
    match act
    case Lock => LockKeeps(cfg, s, who, pc);
    case LoopRead(d) => LoopKeeps(cfg, s, who, pc, d);
    case MidSave(written) => MidSaveKeeps(cfg, s, who, pc, written);
    case Finish(o, written) => FinishKeeps(cfg, s, who, pc, o, written);
    case Ask(o, d, created) => AskKeeps(cfg, s, who, pc, o, d, created);
    case Break(counted) => BreakKeeps(cfg, s, who, pc, counted);
    case Handle(d, created) => HandleKeeps(cfg, s, who, pc, d, created);
    case AskSave(written) => AskSaveKeeps(cfg, s, who, pc, written);
    case FailSave(written) =>
      if pc.Failing? {
        Store(s, who, WithStatus(pc.t, Failed), written);
        Leave(AfterSave(s, WithStatus(pc.t, Failed), written), who);
      }
  }

  /** The last save of a writer that then goes away. */
  lemma SaveAndLeave(s: State, who: nat, t: Snap, written: bool)
    requires InvBut(s, who)
    requires SaveResultOf(s, t, written).Saved? ==> DiskOK(s.(disk := Stored(t)))
    ensures Inv(Gone(AfterSave(s, t, written), who))
  {
    Store(s, who, t, written);
    Leave(AfterSave(s, t, written), who);
  }

  lemma RecoverLockKeeps(cfg: Config, s: State, who: nat, pc: Local)
    requires Ready(s, who, pc)
    ensures Inv(DoOthers(cfg, s, who, pc, RecoverLock))
  {
    if pc.Scanned? {
      if s.lease.Some? {
        Leave(s, who);
      } else {
        Acquire(s, who);
        Place(s.(lease := Some(who)), who, ScanLocked(pc.base));
      }
    }
  }

  lemma InterruptionKeeps(cfg: Config, s: State, who: nat, pc: Local, act: Act)
    requires Ready(s, who, pc) && ByInterruption(act)
    ensures Inv(DoOthers(cfg, s, who, pc, act))
  {
    match act
    case InterruptRead =>
      if pc.Idle? && s.disk.p.status.Active() { Place(s, who, Interrupting(s.disk)); }
    case InterruptSave(written) =>
      if pc.Interrupting? { SaveAndLeave(s, who, Interrupt(pc.base), written); }
    case RecoverScan =>
      if pc.Idle? && s.disk.p.status.Active() { Place(s, who, Scanned(s.disk)); }
    case RecoverLock => RecoverLockKeeps(cfg, s, who, pc);
    case RecoverSave(written) =>
      if pc.ScanLocked? { SaveAndLeave(s, who, Interrupt(pc.base), written); }
    case ResumeRead =>
      if pc.Idle? && s.disk.p.status == Interrupted { Place(s, who, Resuming(s.disk)); }
    case ResumeSave(written) =>
      if pc.Resuming? { SaveAndLeave(s, who, Resumed(pc.base), written); }
  }

  predicate ByInterruption(act: Act) {
    act.InterruptRead? || act.InterruptSave? || act.RecoverScan? || act.RecoverLock? || act.RecoverSave?
    || act.ResumeRead? || act.ResumeSave?
  }

  lemma RevokeSaveKeeps(cfg: Config, s: State, who: nat, pc: Local, written: bool)
    requires Ready(s, who, pc)
    ensures Inv(DoOthers(cfg, s, who, pc, RevokeSave(written)))
  {
    if pc.Revoking? {
      SaveAndLeave(s, who, WithStatus(pc.base, Failed), written);
      Place(s, who, Rereading);
    }
  }

  lemma RevokeReadKeeps(cfg: Config, s: State, who: nat, pc: Local)
    requires Ready(s, who, pc)
    ensures Inv(DoOthers(cfg, s, who, pc, RevokeRead))
  {
    if pc.Idle? && !s.disk.p.status.Terminal() { Place(s, who, Revoking(s.disk, false)); }
  }

  lemma RevokeRereadKeeps(cfg: Config, s: State, who: nat, pc: Local)
    requires Ready(s, who, pc)
    ensures Inv(DoOthers(cfg, s, who, pc, RevokeReread))
  {
    if pc.Rereading? {
      if s.disk.p.status.Terminal() { Leave(s, who); } else { Place(s, who, Revoking(s.disk, true)); }
    }
  }

  lemma ReverifyReadKeeps(cfg: Config, s: State, who: nat, pc: Local)
    requires Ready(s, who, pc)
    ensures Inv(DoOthers(cfg, s, who, pc, ReverifyRead))
  {
    if pc.Idle? && !s.disk.p.status.Active() && s.disk.p.status != AwaitingDecision {
      Place(s, who, Reverifying(s.disk));
    }
  }

  lemma ReverifySaveKeeps(cfg: Config, s: State, who: nat, pc: Local, written: bool)
    requires Ready(s, who, pc)
    ensures Inv(DoOthers(cfg, s, who, pc, ReverifySave(written)))
  {
    if pc.Reverifying? { SaveAndLeave(s, who, Reverified(pc.base), written); }
  }

  lemma OthersKeep(cfg: Config, s: State, who: nat, pc: Local, act: Act)
    requires Ready(s, who, pc) && !ByInterruption(act)
    ensures Inv(DoOthers(cfg, s, who, pc, act))
  {
    match act
    case CreateSave(written) => if pc.Creating? { SaveAndLeave(s, who, pc.base, written); }
    case RevokeRead => RevokeReadKeeps(cfg, s, who, pc);
    case RevokeSave(written) => RevokeSaveKeeps(cfg, s, who, pc, written);
    case RevokeReread => RevokeRereadKeeps(cfg, s, who, pc);
    case ReverifyRead => ReverifyReadKeeps(cfg, s, who, pc);
    case ReverifySave(written) => ReverifySaveKeeps(cfg, s, who, pc, written);
    case _ => Leave(s, who);
  }

  function Closed(s: State, who: nat, d: nat): State
    requires d in s.decisions
  {
    s.(decisions := s.decisions[d := s.decisions[d].(open := false)], winner := s.winner[d := who])
  }

  lemma Close(s: State, who: nat, d: nat)
    requires InvBut(s, who) && d in s.decisions && s.decisions[d].open
    ensures InvBut(Closed(s, who, d), who)
  {
    var s' := Closed(s, who, d);
    forall a | a in s'.actors && a != who ensures PcOK(s', a, s'.actors[a]) {
      assert PcOK(s, a, s.actors[a]);
    }
  }

  lemma RecordKeeps(cfg: Config, s: State, who: nat, pc: Local, written: bool)
    requires Ready(s, who, pc)
    ensures Inv(DoResolve(cfg, s, who, pc, RecordDecision(written)))
  {
    if pc.DecisionRead? {
      if pc.d in s.decisions && s.decisions[pc.d].open && written {
        Close(s, who, pc.d);
        Place(Closed(s, who, pc.d), who, Recorded(pc.base, pc.d));
      } else {
        Leave(s, who);
      }
    }
  }

  function Committed(s: State, t: Snap, d: nat, effect: Effect): State {
    s.(disk := Stored(t), committed := s.committed + {d}, accepted := s.accepted || effect.Accept?)
  }

  lemma Commit(s: State, who: nat, t: Snap, d: nat, effect: Effect)
    requires InvBut(s, who) && t.version == s.disk.version
    requires d in s.winner && s.winner[d] == who && d !in s.committed && t.notes == s.disk.notes + [d]
    requires t.p.status != Interrupted && (t.p.status == Done ==> effect.Accept? || s.approved)
    ensures InvBut(Committed(s, t, d, effect), who)
  {
    var s' := Committed(s, t, d, effect);
    forall a | a in s'.actors && a != who ensures PcOK(s', a, s'.actors[a]) {
      assert PcOK(s, a, s.actors[a]);
    }
  }

  lemma CommitKeeps(cfg: Config, s: State, who: nat, pc: Local, effect: Effect, written: bool)
    requires Ready(s, who, pc)
    ensures Inv(DoResolve(cfg, s, who, pc, CommitDecision(effect, written)))
  {
    if pc.Recorded? && pc.d in s.decisions {
      var t := Decided(pc.base, pc.d, effect, s.decisions[pc.d].returnTo);
      if SaveResultOf(s, t, written).Saved? {
        Commit(s, who, t, pc.d, effect);
        Leave(Committed(s, t, pc.d, effect), who);
      } else {
        SaveAndLeave(s, who, t, written);
      }
    }
  }

  lemma ResolverKeeps(cfg: Config, s: State, who: nat, pc: Local, act: Act)
    requires Ready(s, who, pc)
    ensures Inv(DoResolve(cfg, s, who, pc, act))
  {
    match act
    case ResolveTask(d) =>
      if pc.Idle? && s.disk.p.status == AwaitingDecision { Place(s, who, Resolving(s.disk, d)); }
    case ResolveRead =>
      if pc.Resolving? {
        Leave(s, who);
        Place(s, who, DecisionRead(pc.base, pc.d));
      }
    case RecordDecision(written) => RecordKeeps(cfg, s, who, pc, written);
    case CommitDecision(effect, written) => CommitKeeps(cfg, s, who, pc, effect, written);
    case _ =>
  }

  lemma DoKeeps(cfg: Config, s: State, a: Action)
    requires Inv(s)
    ensures Inv(Do(cfg, s, a))
  {
    var pc := PcOf(s, a.who);
    Enter(s, a.who);
    if ByEngine(a.act) { EngineKeeps(cfg, s, a.who, pc, a.act); }
    else if ByResolver(a.act) { ResolverKeeps(cfg, s, a.who, pc, a.act); }
    else if ByInterruption(a.act) { InterruptionKeeps(cfg, s, a.who, pc, a.act); }
    else { OthersKeep(cfg, s, a.who, pc, a.act); }
  }

  lemma InitIsSafe(s: State)
    requires Init(s)
    ensures Inv(s)
  {
  }

  lemma {:induction false} Safe(cfg: Config, s: State, schedule: seq<Action>)
    requires Inv(s)
    ensures Inv(Execute(cfg, s, schedule))
    decreases |schedule|
  {
    if schedule != [] {
      DoKeeps(cfg, s, schedule[0]);
      Safe(cfg, Do(cfg, s, schedule[0]), schedule[1..]);
    }
  }

  lemma {:induction false} ExecuteConcat(cfg: Config, s: State, first: seq<Action>, second: seq<Action>)
    ensures Execute(cfg, s, first + second) == Execute(cfg, Execute(cfg, s, first), second)
    decreases |first|
  {
    if first == [] {
      assert first + second == second;
    } else {
      assert (first + second)[1..] == first[1..] + second;
      ExecuteConcat(cfg, Do(cfg, s, first[0]), first[1..], second);
    }
  }

  // ---------- every write is computed from the stored snapshot ----------

  predicate HasBase(pc: Local) {
    !(pc.Idle? || pc.Leased? || pc.Rereading?)
  }

  /** What an engine may do to the stored snapshot. */
  predicate EngineWrite(s: State, s': State, who: nat, pc: Local, act: Act) {
    s'.disk != s.disk ==>
      && HasBase(pc) && pc.base == s.disk && s.lease == Some(who) && Running(s.disk.p.status)
      && s'.disk.version == s.disk.version + 1 && s'.disk.notes == s.disk.notes
      && (s'.disk.p.status == Done <==> act.Finish? && act.o == Reviewed(true))
      && (s'.disk.p.status == Done ==> s.disk.p.status == Reviewing)
  }

  lemma SaveFinishedWrites(s: State, who: nat, pc: Local, t: Snap, act: Act)
    requires act.Finish? && pc.Working? && s.lease == Some(who) && CopyOK(s.disk, pc.base, t)
    requires t.p.status == Done <==> act.o == Reviewed(true)
    requires t.p.status == Done ==> pc.base.p.status == Reviewing
    ensures EngineWrite(s, SaveFinished(s, who, pc.base, t, act.o, act.written), who, pc, act)
  {
  }

  lemma FinishWrites(cfg: Config, s: State, who: nat, pc: Local, act: Act)
    requires PcOK(s, who, pc) && act.Finish?
    ensures EngineWrite(s, DoEngine(cfg, s, who, pc, act), who, pc, act)
  {
    if pc.Working? && pc.t.p.status.Active() && Fits(pc.t.p.status, act.o) {
      SaveFinishedWrites(s, who, pc, pc.t.(p := Planned(cfg, pc.t.p, act.o)), act);
    }
  }

  lemma AskSaveWrites(cfg: Config, s: State, who: nat, pc: Local, act: Act)
    requires PcOK(s, who, pc) && act.AskSave?
    ensures EngineWrite(s, DoEngine(cfg, s, who, pc, act), who, pc, act)
  {
    if pc.Asking? {
      assert DoEngine(cfg, s, who, pc, act).disk == AfterSave(s, pc.t, act.written).disk;
    }
  }

  lemma MidSaveWrites(cfg: Config, s: State, who: nat, pc: Local, act: Act)
    requires PcOK(s, who, pc) && act.MidSave?
    ensures EngineWrite(s, DoEngine(cfg, s, who, pc, act), who, pc, act)
  {
  }

  lemma EngineWrites(cfg: Config, s: State, who: nat, pc: Local, act: Act)
    requires PcOK(s, who, pc) && ByEngine(act)
    ensures EngineWrite(s, DoEngine(cfg, s, who, pc, act), who, pc, act)
  {
    if act.Finish? { FinishWrites(cfg, s, who, pc, act); }
    else if act.AskSave? { AskSaveWrites(cfg, s, who, pc, act); }
    else if act.MidSave? { MidSaveWrites(cfg, s, who, pc, act); }
  }

  /** What the other writers may do to it. */
  predicate OtherWrite(s: State, s': State, pc: Local, act: Act) {
    s'.disk != s.disk ==>
      && HasBase(pc) && pc.base == s.disk
      && s'.disk.version == s.disk.version + 1 && s'.disk.notes == s.disk.notes
      && (act.ReverifySave? || !s.disk.p.status.Terminal())
      && (act.ReverifySave? ==> s'.disk == Stored(Reverified(s.disk)))
      && (s'.disk.p.status == Done ==>
            act.ResumeSave? && s.disk.p.status == Interrupted && Resumed(s.disk).p.status == Done)
  }

  lemma ResumeWrites(cfg: Config, s: State, who: nat, pc: Local, act: Act)
    requires PcOK(s, who, pc) && act.ResumeSave?
    ensures OtherWrite(s, DoOthers(cfg, s, who, pc, act), pc, act)
  {
  }

  lemma InterruptionWrites(cfg: Config, s: State, who: nat, pc: Local, act: Act)
    requires PcOK(s, who, pc) && ByInterruption(act)
    ensures OtherWrite(s, DoOthers(cfg, s, who, pc, act), pc, act)
  {
    if act.ResumeSave? { ResumeWrites(cfg, s, who, pc, act); }
  }

  lemma RevokeWrites(cfg: Config, s: State, who: nat, pc: Local, act: Act)
    requires PcOK(s, who, pc) && (act.RevokeSave? || act.CreateSave?)
    ensures OtherWrite(s, DoOthers(cfg, s, who, pc, act), pc, act)
  {
  }

  lemma OthersWrite(cfg: Config, s: State, who: nat, pc: Local, act: Act)
    requires PcOK(s, who, pc)
    ensures OtherWrite(s, DoOthers(cfg, s, who, pc, act), pc, act)
  {
    if ByInterruption(act) { InterruptionWrites(cfg, s, who, pc, act); }
    else if act.RevokeSave? || act.CreateSave? { RevokeWrites(cfg, s, who, pc, act); }
  }

  lemma ResolverWrites(cfg: Config, s: State, who: nat, pc: Local, act: Act)
    requires PcOK(s, who, pc) && DoResolve(cfg, s, who, pc, act).disk != s.disk
    ensures act.CommitDecision? && pc.Recorded? && pc.d in s.decisions
    ensures pc.base == s.disk && s.disk.p.status == AwaitingDecision
    ensures DoResolve(cfg, s, who, pc, act).disk
            == Stored(Decided(s.disk, pc.d, act.effect, s.decisions[pc.d].returnTo))
  {
  }

  /** Only resolvers touch the record of who decided what. */
  predicate SameRecords(s: State, s': State) {
    s'.winner == s.winner && s'.committed == s.committed
  }

  lemma EngineKeepsRecords(cfg: Config, s: State, who: nat, pc: Local, act: Act)
    ensures SameRecords(s, DoEngine(cfg, s, who, pc, act))
    ensures pc.DecisionRead? || pc.Recorded? ==> DoEngine(cfg, s, who, pc, act) == s
  {
  }

  lemma OthersKeepRecords(cfg: Config, s: State, who: nat, pc: Local, act: Act)
    ensures SameRecords(s, DoOthers(cfg, s, who, pc, act))
    ensures pc.DecisionRead? || pc.Recorded? ==>
              DoOthers(cfg, s, who, pc, act) == s || DoOthers(cfg, s, who, pc, act) == Gone(s, who)
  {
  }

  lemma ResolverRecords(cfg: Config, s: State, who: nat, pc: Local, act: Act)
    requires pc == PcOf(s, who) && PcOK(s, who, pc) && RecordsOK(s)
    ensures var s' := DoResolve(cfg, s, who, pc, act);
      && s.winner.Keys <= s'.winner.Keys && s.committed <= s'.committed
      && (pc.DecisionRead? && PcOf(s', who).Recorded? ==> pc.d !in s.winner && pc.d in s'.winner)
      && (pc.Recorded? && s'.disk != s.disk ==> pc.d !in s.committed && pc.d in s'.committed)
  {
  }

  /** No lost update: whoever writes had read exactly the snapshot it replaces. */
  lemma WritesOnBase(cfg: Config, s: State, a: Action)
    requires Inv(s) && Do(cfg, s, a).disk != s.disk
    ensures HasBase(PcOf(s, a.who)) && PcOf(s, a.who).base == s.disk
    ensures Do(cfg, s, a).disk.version == s.disk.version + 1
  {
    Enter(s, a.who);
    var pc := PcOf(s, a.who);
    if ByEngine(a.act) { EngineWrites(cfg, s, a.who, pc, a.act); }
    else if ByResolver(a.act) { ResolverWrites(cfg, s, a.who, pc, a.act); }
    else { OthersWrite(cfg, s, a.who, pc, a.act); }
  }

  // ---------- terminal statuses absorb ----------

  lemma TerminalStep(cfg: Config, s: State, a: Action)
    requires Inv(s) && s.disk.p.status.Terminal() && Do(cfg, s, a).disk != s.disk
    ensures a.act.ReverifySave? && Do(cfg, s, a).disk == Stored(Reverified(s.disk))
  {
    Enter(s, a.who);
    var pc := PcOf(s, a.who);
    if ByEngine(a.act) { EngineWrites(cfg, s, a.who, pc, a.act); }
    else if ByResolver(a.act) { ResolverWrites(cfg, s, a.who, pc, a.act); }
    else { OthersWrite(cfg, s, a.who, pc, a.act); }
  }

  lemma {:induction false} TerminalStays(cfg: Config, s: State, schedule: seq<Action>)
    requires Inv(s) && s.disk.p.status.Terminal()
    requires forall a | a in schedule :: !a.act.ReverifySave?
    ensures Execute(cfg, s, schedule).disk == s.disk
    decreases |schedule|
  {
    if schedule != [] {
      var s' := Do(cfg, s, schedule[0]);
      assert schedule[0] in schedule;
      if s'.disk != s.disk { TerminalStep(cfg, s, schedule[0]); }
      DoKeeps(cfg, s, schedule[0]);
      TerminalStays(cfg, s', schedule[1..]);
    }
  }

  /** Once Done or Failed is stored, nothing but a re-verification changes the snapshot
      again, whatever ran before and whatever runs after, in any interleaving. */
  lemma TerminalAbsorbs(cfg: Config, s: State, before: seq<Action>, after: seq<Action>)
    requires Init(s) && Execute(cfg, s, before).disk.p.status.Terminal()
    requires forall a | a in after :: !a.act.ReverifySave?
    ensures Execute(cfg, s, before + after).disk == Execute(cfg, s, before).disk
  {
    InitIsSafe(s);
    Safe(cfg, s, before);
    ExecuteConcat(cfg, s, before, after);
    TerminalStays(cfg, Execute(cfg, s, before), after);
  }

  // ---------- restart recovery ----------

  /** Recovery interrupts a task only while no engine anywhere holds its lease, and only
      if the snapshot it scanned before taking the lease is still the stored one. */
  lemma RecoverySparesLiveTasks(cfg: Config, s: State, a: Action)
    requires Inv(s) && a.act.RecoverSave? && Do(cfg, s, a).disk != s.disk
    ensures PcOf(s, a.who) == ScanLocked(s.disk) && s.disk.p.status.Active()
    ensures Do(cfg, s, a).disk == Stored(Interrupt(s.disk))
    ensures forall b | b in s.actors :: !s.actors[b].Engine()
  {
    Enter(s, a.who);
    forall b | b in s.actors ensures !s.actors[b].Engine() {
      assert PcOK(s, b, s.actors[b]);
    }
  }

  /** At most one actor holds the lease, so at most one engine drives the task. */
  lemma OneEngine(s: State, a: nat, b: nat)
    requires Inv(s) && PcOf(s, a).HoldsLease() && PcOf(s, b).HoldsLease()
    ensures a == b
  {
    Enter(s, a);
    Enter(s, b);
  }

  /** An interruption followed by a resume gives the phase back (understanding restarts
      from the beginning) and changes nothing else a step planned. */
  lemma ResumeUndoesInterrupt(t: Snap)
    requires t.p.status.Active()
    ensures Resumed(Interrupt(t)) == t.(resume := None,
              p := t.p.(status := if t.p.status == Understanding then Pending else t.p.status))
  {
  }

  // ---------- decisions take effect at most once ----------

  predicate Passes(cfg: Config, s: State, a: Action, d: nat) {
    PcOf(s, a.who).DecisionRead? && PcOf(s, a.who).d == d && PcOf(Do(cfg, s, a), a.who).Recorded?
  }

  predicate Moves(cfg: Config, s: State, a: Action, d: nat) {
    PcOf(s, a.who).Recorded? && PcOf(s, a.who).d == d && Do(cfg, s, a).disk != s.disk
  }

  /** How many resolvers of `d` get past recording it, over a whole run. */
  function PassCount(cfg: Config, s: State, schedule: seq<Action>, d: nat): nat
    decreases |schedule|
  {
    if schedule == [] then 0
    else (if Passes(cfg, s, schedule[0], d) then 1 else 0) + PassCount(cfg, Do(cfg, s, schedule[0]), schedule[1..], d)
  }

  /** How many times resolving `d` moves the task, over a whole run. */
  function MoveCount(cfg: Config, s: State, schedule: seq<Action>, d: nat): nat
    decreases |schedule|
  {
    if schedule == [] then 0
    else (if Moves(cfg, s, schedule[0], d) then 1 else 0) + MoveCount(cfg, Do(cfg, s, schedule[0]), schedule[1..], d)
  }

  lemma PassStep(cfg: Config, s: State, a: Action, d: nat)
    requires Inv(s)
    ensures d in s.winner ==> d in Do(cfg, s, a).winner && !Passes(cfg, s, a, d)
    ensures Passes(cfg, s, a, d) ==> d in Do(cfg, s, a).winner
  {
    Enter(s, a.who);
    var pc := PcOf(s, a.who);
    if ByEngine(a.act) { EngineKeepsRecords(cfg, s, a.who, pc, a.act); }
    else if ByResolver(a.act) { ResolverRecords(cfg, s, a.who, pc, a.act); }
    else { OthersKeepRecords(cfg, s, a.who, pc, a.act); }
  }

  lemma MoveStep(cfg: Config, s: State, a: Action, d: nat)
    requires Inv(s)
    ensures d in s.committed ==> d in Do(cfg, s, a).committed && !Moves(cfg, s, a, d)
    ensures Moves(cfg, s, a, d) ==> d in Do(cfg, s, a).committed
  {
    Enter(s, a.who);
    var pc := PcOf(s, a.who);
    if ByEngine(a.act) { EngineKeepsRecords(cfg, s, a.who, pc, a.act); }
    else if ByResolver(a.act) { ResolverRecords(cfg, s, a.who, pc, a.act); }
    else { OthersKeepRecords(cfg, s, a.who, pc, a.act); }
  }

  lemma {:induction false} PassesOnce(cfg: Config, s: State, schedule: seq<Action>, d: nat)
    requires Inv(s)
    ensures PassCount(cfg, s, schedule, d) <= if d in s.winner then 0 else 1
    decreases |schedule|
  {
    if schedule != [] {
      PassStep(cfg, s, schedule[0], d);
      DoKeeps(cfg, s, schedule[0]);
      PassesOnce(cfg, Do(cfg, s, schedule[0]), schedule[1..], d);
    }
  }

  lemma {:induction false} MovesOnce(cfg: Config, s: State, schedule: seq<Action>, d: nat)
    requires Inv(s)
    ensures MoveCount(cfg, s, schedule, d) <= if d in s.committed then 0 else 1
    decreases |schedule|
  {
    if schedule != [] {
      MoveStep(cfg, s, schedule[0], d);
      DoKeeps(cfg, s, schedule[0]);
      MovesOnce(cfg, Do(cfg, s, schedule[0]), schedule[1..], d);
    }
  }

  /** Any number of concurrent resolutions of one decision: at most one is recorded, at
      most one moves the task, and its guidance is in the snapshot at most once. */
  lemma DecisionTakesEffectOnce(cfg: Config, s: State, schedule: seq<Action>, d: nat)
    requires Init(s)
    ensures PassCount(cfg, s, schedule, d) <= 1 && MoveCount(cfg, s, schedule, d) <= 1
    ensures Distinct(Execute(cfg, s, schedule).disk.notes)
  {
    InitIsSafe(s);
    PassesOnce(cfg, s, schedule, d);
    MovesOnce(cfg, s, schedule, d);
    Safe(cfg, s, schedule);
  }

  /** The move a decision makes starts from a snapshot that awaits a decision, by the
      resolver that recorded it, and adds its guidance; no other writer touches the guidance. */
  lemma GuidanceComesFromDecisions(cfg: Config, s: State, a: Action)
    requires Inv(s) && Do(cfg, s, a).disk != s.disk
    ensures var pc := PcOf(s, a.who);
      if a.act.CommitDecision? then
        && s.disk.p.status == AwaitingDecision && pc.Recorded?
        && pc.d in s.winner && s.winner[pc.d] == a.who
        && pc.d !in s.disk.notes && Do(cfg, s, a).disk.notes == s.disk.notes + [pc.d]
      else Do(cfg, s, a).disk.notes == s.disk.notes
  {
    Enter(s, a.who);
    var pc := PcOf(s, a.who);
    if ByEngine(a.act) { EngineWrites(cfg, s, a.who, pc, a.act); }
    else if ByResolver(a.act) { ResolverWrites(cfg, s, a.who, pc, a.act); }
    else { OthersWrite(cfg, s, a.who, pc, a.act); }
  }

  // ---------- Done is earned ----------

  /** No interleaving, crash or write failure makes a task Done without an approving review
      of the engine or an explicit acceptance by a human. */
  lemma DoneIsEarned(cfg: Config, s: State, schedule: seq<Action>)
    requires Init(s) && Execute(cfg, s, schedule).disk.p.status == Done
    ensures var last := Execute(cfg, s, schedule); last.approved || last.accepted
  {
    InitIsSafe(s);
    Safe(cfg, s, schedule);
  }

  /** The choice completes the task: it accepts, or it continues where Done is the way back. */
  predicate Completes(effect: Effect, returnTo: TaskStatus) {
    effect.Accept? || (!effect.Abort? && returnTo == Done)
  }

  /** Exactly which step stores Done: the lease holder finishing the stored review phase with
      an approval, or a decision on a waiting task whose choice completes it. */
  lemma DoneStep(cfg: Config, s: State, a: Action)
    requires Inv(s) && Do(cfg, s, a).disk != s.disk
    ensures Do(cfg, s, a).disk.p.status == Done <==>
      || (a.act.Finish? && a.act.o == Reviewed(true))
      || (a.act.CommitDecision? && PcOf(s, a.who).Recorded? && PcOf(s, a.who).d in s.decisions
          && Completes(a.act.effect, s.decisions[PcOf(s, a.who).d].returnTo))
    ensures a.act.Finish? && a.act.o == Reviewed(true) ==> s.disk.p.status == Reviewing && s.lease == Some(a.who)
    ensures a.act.CommitDecision? ==> s.disk.p.status == AwaitingDecision
  {
    Enter(s, a.who);
    var pc := PcOf(s, a.who);
    if ByEngine(a.act) { EngineWrites(cfg, s, a.who, pc, a.act); }
    else if ByResolver(a.act) { ResolverWrites(cfg, s, a.who, pc, a.act); }
    else { OthersWrite(cfg, s, a.who, pc, a.act); }
  }

  /** Going on from a decision leads back to Done only after a snapshot write has failed. */
  lemma PlainChoiceNeedsFailedWrite(s: State, d: nat)
    requires Inv(s) && d in s.decisions
    ensures s.decisions[d].returnTo == Done ==> s.ioFailed && s.approved
  {
  }
}
