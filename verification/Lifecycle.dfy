/** Everyone who may write a task snapshot, interleaved step by step: the engine loop,
    decisions, cancellation, restart recovery, resume, revocation, re-verification and the
    creator. A schedule is any list of actions by any number of actors; processes may be
    abandoned (cancelled or crashed) between any two actions. The store's lock-protected
    sections are single actions; reads outside them are actions of their own. */
module Lifecycle {
  import opened Domain
  import opened Workflow

  /** `notes` lists the decisions whose guidance the snapshot carries. */
  datatype Snap = Snap(version: nat, p: Progress, resume: Option<TaskStatus>, notes: seq<nat>)

  datatype Decision = Decision(open: bool, returnTo: TaskStatus)

  /** Who asks for a decision: the budget check, a step, or the handler of a failed step. */
  datatype Asker = Budget | InStep | Handler

  /** Where an actor stands. `base` is the stored snapshot its local copy `t` started from. */
  datatype Local =
    | Idle
    | Creating(base: Snap)
    | Leased
    | Working(base: Snap, t: Snap)
    | Erring(base: Snap, t: Snap)
    | Asking(base: Snap, t: Snap, asker: Asker)
    | Failing(base: Snap, t: Snap)
    | Scanned(base: Snap)
    | ScanLocked(base: Snap)
    | Interrupting(base: Snap)
    | Resuming(base: Snap)
    | Revoking(base: Snap, retried: bool)
    | Rereading
    | Reverifying(base: Snap)
    | Resolving(base: Snap, d: nat)
    | DecisionRead(base: Snap, d: nat)
    | Recorded(base: Snap, d: nat)
  {
    predicate HoldsLease() {
      Leased? || Working? || Erring? || Asking? || Failing? || ScanLocked?
    }

    /** An engine of some process is driving the task. */
    predicate Engine() {
      HoldsLease() && !ScanLocked?
    }
  }

  /** The last line is history: who recorded each decision, which decisions reached the
      snapshot, whether some snapshot write failed on disk, whether an engine tried to
      finish the task on an approving review, and whether a human accepted it. */
  datatype State = State(
    disk: Snap, decisions: map<nat, Decision>, lease: Option<nat>, actors: map<nat, Local>,
    winner: map<nat, nat>, committed: set<nat>, ioFailed: bool, approved: bool, accepted: bool)

  datatype Act =
    | Lock | LoopRead(d: nat) | MidSave(written: bool) | Finish(o: Outcome, written: bool)
    | Ask(o: Outcome, d: nat, created: bool) | Break(counted: bool) | Handle(d: nat, created: bool)
    | AskSave(written: bool) | FailSave(written: bool)
    | CreateSave(written: bool)
    | InterruptRead | InterruptSave(written: bool)
    | RecoverScan | RecoverLock | RecoverSave(written: bool)
    | ResumeRead | ResumeSave(written: bool)
    | RevokeRead | RevokeSave(written: bool) | RevokeReread
    | ReverifyRead | ReverifySave(written: bool)
    | ResolveTask(d: nat) | ResolveRead | RecordDecision(written: bool) | CommitDecision(effect: Effect, written: bool)
    | Abandon

  datatype Action = Action(who: nat, act: Act)

  // ---------- compare-and-swap ----------

  datatype SaveResult = Saved | Conflict | WriteFailed

  function SaveResultOf(s: State, t: Snap, written: bool): SaveResult {
    if t.version != s.disk.version then Conflict else if written then Saved else WriteFailed
  }

  function Stored(t: Snap): Snap {
    t.(version := t.version + 1)
  }

  function AfterSave(s: State, t: Snap, written: bool): (r: State)
    ensures r.winner == s.winner && r.committed == s.committed
  {
    match SaveResultOf(s, t, written)
    case Saved => s.(disk := Stored(t))
    case Conflict => s
    case WriteFailed => s.(ioFailed := true)
  }

  function PcOf(s: State, who: nat): Local {
    if who in s.actors then s.actors[who] else Idle
  }

  function At(s: State, who: nat, pc: Local): (r: State)
    ensures r.winner == s.winner && r.committed == s.committed
  {
    s.(actors := s.actors[who := pc])
  }

  /** The actor is done; a lease it holds is released. */
  function Gone(s: State, who: nat): (r: State)
    ensures r.winner == s.winner && r.committed == s.committed
  {
    At(if s.lease == Some(who) then s.(lease := None) else s, who, Idle)
  }

  function Noted(s: State, o: Outcome, result: SaveResult): (r: State)
    ensures r.winner == s.winner && r.committed == s.committed
  {
    if o == Reviewed(true) && !result.Conflict? then s.(approved := true) else s
  }

  function WithStatus(t: Snap, status: TaskStatus): Snap {
    t.(p := t.p.(status := status))
  }

  function SaveFinished(s: State, who: nat, base: Snap, t: Snap, o: Outcome, written: bool): (r: State)
    ensures r.winner == s.winner && r.committed == s.committed
  {
    var s' := Noted(AfterSave(s, t, written), o, SaveResultOf(s, t, written));
    match SaveResultOf(s, t, written)
    case Saved => At(s', who, Leased)
    case Conflict => Gone(s', who)
    case WriteFailed => if o.Hostile? then Gone(s', who) else At(s', who, Erring(base, t))
  }

  /** What becomes of an asker once its pause was saved or not. */
  function AskSaved(s: State, who: nat, pc: Local, result: SaveResult): (r: State)
    requires pc.Asking?
    ensures r.winner == s.winner && r.committed == s.committed
  {
    if result.Saved? && pc.asker.InStep? then At(s, who, Leased)
    else if result.WriteFailed? && pc.asker.InStep? then At(s, who, Erring(pc.base, pc.t))
    else if !result.Saved? && pc.asker.Handler? then At(s, who, Failing(pc.base, pc.t))
    else Gone(s, who)
  }

  // ---------- the programs, one action at a time ----------

  function DoEngine(cfg: Config, s: State, who: nat, pc: Local, act: Act): State {
    match act
    case Lock =>
      if pc.Idle? && s.lease.None? then At(s.(lease := Some(who)), who, Leased) else s
    case LoopRead(d) =>
      if !pc.Leased? then s
      else if !Running(s.disk.p.status) then Gone(s, who)
      else if s.disk.p.steps >= cfg.maxSteps then
        if d in s.decisions then s
        else At(s.(decisions := s.decisions[d := Decision(true, s.disk.p.status)]), who,
                Asking(s.disk, WithStatus(s.disk, AwaitingDecision), Budget))
      else At(s, who, Working(s.disk, s.disk.(p := s.disk.p.(steps := s.disk.p.steps + 1))))
    case MidSave(written) =>
      if !pc.Working? then s
      else
        var t := if pc.t.p.status == Pending then WithStatus(pc.t, Understanding) else pc.t;
        var s' := AfterSave(s, t, written);
        (match SaveResultOf(s, t, written)
         case Saved => At(s', who, Working(Stored(t), Stored(t)))
         case Conflict => Gone(s', who)
         case WriteFailed => At(s', who, Erring(pc.base, t)))
    case Finish(o, written) =>
      if !(pc.Working? && pc.t.p.status.Active() && Fits(pc.t.p.status, o)) then s
      else
        var t := pc.t.(p := Planned(cfg, pc.t.p, o));
        if t.p.status == AwaitingDecision then s
        else SaveFinished(s, who, pc.base, t, o, written)
    case Ask(o, d, created) =>
      if !(pc.Working? && pc.t.p.status.Active() && Fits(pc.t.p.status, o) && !o.StepError? && d !in s.decisions) then s
      else
        var t := pc.t.(p := Planned(cfg, pc.t.p, o));
        if t.p.status != AwaitingDecision then s
        else if !created then At(s, who, Erring(pc.base, WithStatus(t, pc.t.p.status)))
        else At(s.(decisions := s.decisions[d := Decision(true, Implementing)]), who, Asking(pc.base, t, InStep))
    case Break(counted) =>
      if !(pc.Working? && pc.t.p.status.Active()) then s
      else At(s, who, Erring(pc.base, WithStatus(pc.t.(p := Planned(cfg, pc.t.p, StepError(counted))), pc.t.p.status)))
    case Handle(d, created) =>
      if !pc.Erring? || d in s.decisions then s
      else if !created then At(s, who, Failing(pc.base, pc.t))
      else At(s.(decisions := s.decisions[d := Decision(true, pc.t.p.status)]), who,
              Asking(pc.base, WithStatus(pc.t, AwaitingDecision), Handler))
    case AskSave(written) =>
      if !pc.Asking? then s
      else AskSaved(AfterSave(s, pc.t, written), who, pc, SaveResultOf(s, pc.t, written))
    case FailSave(written) =>
      if !pc.Failing? then s else Gone(AfterSave(s, WithStatus(pc.t, Failed), written), who)
    case _ => s
  }

  function DoOthers(cfg: Config, s: State, who: nat, pc: Local, act: Act): State {
    match act
    case CreateSave(written) =>
      if !pc.Creating? then s else Gone(AfterSave(s, pc.base, written), who)
    case InterruptRead =>
      if pc.Idle? && s.disk.p.status.Active() then At(s, who, Interrupting(s.disk)) else s
    case InterruptSave(written) =>
      if !pc.Interrupting? then s else Gone(AfterSave(s, Interrupt(pc.base), written), who)
    case RecoverScan =>
      if pc.Idle? && s.disk.p.status.Active() then At(s, who, Scanned(s.disk)) else s
    case RecoverLock =>
      if !pc.Scanned? then s
      else if s.lease.Some? then Gone(s, who)
      else At(s.(lease := Some(who)), who, ScanLocked(pc.base))
    case RecoverSave(written) =>
      if !pc.ScanLocked? then s else Gone(AfterSave(s, Interrupt(pc.base), written), who)
    case ResumeRead =>
      if pc.Idle? && s.disk.p.status == Interrupted then At(s, who, Resuming(s.disk)) else s
    case ResumeSave(written) =>
      if !pc.Resuming? then s else Gone(AfterSave(s, Resumed(pc.base), written), who)
    case RevokeRead =>
      if pc.Idle? && !s.disk.p.status.Terminal() then At(s, who, Revoking(s.disk, false)) else s
    case RevokeSave(written) =>
      if !pc.Revoking? then s
      else
        var t := WithStatus(pc.base, Failed);
        if SaveResultOf(s, t, written) == Conflict && !pc.retried then At(s, who, Rereading)
        else Gone(AfterSave(s, t, written), who)
    case RevokeReread =>
      if !pc.Rereading? then s
      else if s.disk.p.status.Terminal() then Gone(s, who)
      else At(s, who, Revoking(s.disk, true))
    case ReverifyRead =>
      if pc.Idle? && !s.disk.p.status.Active() && s.disk.p.status != AwaitingDecision
      then At(s, who, Reverifying(s.disk)) else s
    case ReverifySave(written) =>
      if !pc.Reverifying? then s else Gone(AfterSave(s, Reverified(pc.base), written), who)
    case Abandon => Gone(s, who)
    case _ => s
  }

  function DoResolve(cfg: Config, s: State, who: nat, pc: Local, act: Act): State {
    match act
    case ResolveTask(d) =>
      if pc.Idle? && s.disk.p.status == AwaitingDecision then At(s, who, Resolving(s.disk, d)) else s
    case ResolveRead =>
      if !pc.Resolving? then s
      else if pc.d in s.decisions && s.decisions[pc.d].open then At(s, who, DecisionRead(pc.base, pc.d))
      else Gone(s, who)
    case RecordDecision(written) =>
      if !pc.DecisionRead? then s
      else if pc.d in s.decisions && s.decisions[pc.d].open && written then
        At(s.(decisions := s.decisions[pc.d := s.decisions[pc.d].(open := false)], winner := s.winner[pc.d := who]),
           who, Recorded(pc.base, pc.d))
      else Gone(s, who)
    case CommitDecision(effect, written) =>
      if !(pc.Recorded? && pc.d in s.decisions) then s
      else
        var t := Decided(pc.base, pc.d, effect, s.decisions[pc.d].returnTo);
        var s' := AfterSave(s, t, written);
        Gone(if SaveResultOf(s, t, written).Saved?
             then s'.(committed := s'.committed + {pc.d}, accepted := s'.accepted || effect.Accept?) else s', who)
    case _ => s
  }

  function Interrupt(t: Snap): Snap {
    WithStatus(t, Interrupted).(resume := Some(t.p.status))
  }

  function Resumed(t: Snap): Snap {
    var to := if t.resume.None? || t.resume.value == Understanding then Pending else t.resume.value;
    WithStatus(t, to).(resume := None)
  }

  function Reverified(t: Snap): Snap {
    t.(p := t.p.(status := Verifying, fixAttempts := 0, reviewRounds := 0), resume := None)
  }

  function Decided(t: Snap, d: nat, effect: Effect, returnTo: TaskStatus): Snap {
    var noted := t.(notes := t.notes + [d]);
    match effect
    case Abort => WithStatus(noted, Failed)
    case Accept => WithStatus(noted, Done)
    case Extend => noted.(p := noted.p.(steps := 0, status := returnTo))
    case Continue => WithStatus(noted, returnTo)
  }

  predicate ByEngine(act: Act) {
    act.Lock? || act.LoopRead? || act.MidSave? || act.Finish? || act.Ask? || act.Break? || act.Handle?
    || act.AskSave? || act.FailSave?
  }

  predicate ByResolver(act: Act) {
    act.ResolveTask? || act.ResolveRead? || act.RecordDecision? || act.CommitDecision?
  }

  function Do(cfg: Config, s: State, a: Action): State {
    var pc := PcOf(s, a.who);
    if ByEngine(a.act) then DoEngine(cfg, s, a.who, pc, a.act)
    else if ByResolver(a.act) then DoResolve(cfg, s, a.who, pc, a.act)
    else DoOthers(cfg, s, a.who, pc, a.act)
  }

  function Execute(cfg: Config, s: State, schedule: seq<Action>): State
    decreases |schedule|
  {
    if schedule == [] then s else Execute(cfg, Do(cfg, s, schedule[0]), schedule[1..])
  }

  /** A task just created: its creator still holds the first snapshot. */
  predicate Init(s: State) {
    && s.disk.version == 1 && s.disk.p.status == Pending && s.disk.notes == [] && s.disk.resume.None?
    && s.decisions == map[] && s.lease.None? && s.winner == map[] && s.committed == {}
    && !s.ioFailed && !s.approved && !s.accepted
    && forall a | a in s.actors :: s.actors[a] == Creating(s.disk)
  }

  // ---------- the invariant ----------

  /** A copy is either out of date or exactly what is stored. */
  predicate BaseOK(disk: Snap, base: Snap) {
    base.version <= disk.version && (base.version == disk.version ==> base == disk)
  }

  predicate CopyOK(disk: Snap, base: Snap, t: Snap) {
    BaseOK(disk, base) && t.version == base.version && t.notes == base.notes && Running(base.p.status)
  }

  predicate PcOK(s: State, who: nat, pc: Local) {
    && (pc.HoldsLease() <==> s.lease == Some(who))
    && match pc
       case Idle => true
       case Leased => true
       case Creating(base) => BaseOK(s.disk, base) && base.p.status == Pending
       case Working(base, t) => CopyOK(s.disk, base, t) && t.p.status == base.p.status
       case Erring(base, t) => CopyOK(s.disk, base, t) && Returnable(s, t.p.status)
       case Asking(base, t, _) => CopyOK(s.disk, base, t) && t.p.status == AwaitingDecision
       case Failing(base, t) => CopyOK(s.disk, base, t)
       case Scanned(base) => BaseOK(s.disk, base) && base.p.status.Active()
       case ScanLocked(base) => BaseOK(s.disk, base) && base.p.status.Active()
       case Interrupting(base) => BaseOK(s.disk, base) && base.p.status.Active()
       case Resuming(base) => BaseOK(s.disk, base) && base.p.status == Interrupted
       case Revoking(base, _) => BaseOK(s.disk, base) && !base.p.status.Terminal()
       case Rereading => true
       case Reverifying(base) =>
         BaseOK(s.disk, base) && !base.p.status.Active() && base.p.status != AwaitingDecision
       case Resolving(base, _) => BaseOK(s.disk, base) && base.p.status == AwaitingDecision
       case DecisionRead(base, d) => BaseOK(s.disk, base) && base.p.status == AwaitingDecision
       case Recorded(base, d) =>
         && BaseOK(s.disk, base) && base.p.status == AwaitingDecision
         && d in s.winner && s.winner[d] == who && d !in s.committed
  }

  predicate Distinct(xs: seq<nat>) {
    forall i, j | 0 <= i < j < |xs| :: xs[i] != xs[j]
  }

  /** Where a decision may send the task back to: a phase of the workflow, unless some
      snapshot write failed after its status was already chosen. */
  predicate Returnable(s: State, status: TaskStatus) {
    Running(status) || (s.ioFailed && (status == AwaitingDecision || (status == Done && s.approved)))
  }

  predicate RecordsOK(s: State) {
    && (forall d | d in s.winner :: d in s.decisions && !s.decisions[d].open)
    && (forall d | d in s.decisions && !s.decisions[d].open :: d in s.winner)
    && (forall d | d in s.decisions :: Returnable(s, s.decisions[d].returnTo))
    && s.committed <= s.winner.Keys
  }

  predicate DiskOK(s: State) {
    && Distinct(s.disk.notes) && (forall d | d in s.disk.notes :: d in s.committed)
    && (s.disk.p.status == Interrupted ==> s.disk.resume.Some? && s.disk.resume.value.Active())
    && (s.disk.p.status == Done ==> s.approved || s.accepted)
  }

  predicate Inv(s: State) {
    && (forall a | a in s.actors :: PcOK(s, a, s.actors[a]))
    && (s.lease.Some? ==> s.lease.value in s.actors)
    && RecordsOK(s) && DiskOK(s)
  }
}
