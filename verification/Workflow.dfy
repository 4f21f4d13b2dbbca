/** The workflow: the engine re-plans after every step from the task's persisted counters.
    Agents, test runners and git are arbitrary inputs (`Outcome`). */
module Workflow {
  import opened Domain

  /** Loop budgets. They are plain integers: a negative limit behaves like zero. */
  datatype Config = Config(maxSteps: int, maxFix: int, maxReview: int, maxInvestigations: int)

  const DefaultConfig := Config(20, 2, 2, 2)

  /** The part of a task snapshot that planning depends on. */
  datatype Progress = Progress(
    status: TaskStatus, steps: nat, investigations: nat, fixAttempts: nat, reviewRounds: nat,
    implementAttempts: nat, verifyOnly: bool)

  predicate Running(s: TaskStatus) {
    s.Pending? || s.Active()
  }

  /** What one step observed. `asks` means an agent raised a question only a human can answer. */
  datatype Outcome =
    | Researched(asks: bool, highUncertainty: bool)
    | Investigated(asks: bool)
    | Developed(completed: bool, asks: bool)
    | Tested(ranAny: bool, passed: bool)
    | EmptyDiff
    | Reviewed(approved: bool)
    | StepError(counted: bool)  // an executor or git error; `counted` if it came after the step's counter moved
    | Hostile                   // repository content that violates the execution policy

  predicate Fits(s: TaskStatus, o: Outcome) {
    o.StepError? || o.Hostile? ||
    match s
    case Pending => o.Researched?
    case Understanding => o.Researched?
    case Investigating => o.Investigated?
    case Implementing => o.Developed?
    case Verifying => o.Tested?
    case Reviewing => o.EmptyDiff? || o.Reviewed?
    case _ => false
  }

  // ---------- one step ----------

  /** Where the plan goes after a step. */
  function Planned(cfg: Config, p: Progress, o: Outcome): Progress
    requires Running(p.status) && Fits(p.status, o)
  {
    match o
    case Researched(asks, high) =>
      if asks then p.(status := AwaitingDecision)
      else if high && p.investigations < cfg.maxInvestigations then p.(status := Investigating)
      else if p.verifyOnly then p.(status := Verifying)
      else p.(status := Implementing)
    case Investigated(asks) =>
      p.(investigations := p.investigations + 1, status := if asks then AwaitingDecision else Implementing)
    case Developed(completed, asks) =>
      if p.verifyOnly then p.(status := AwaitingDecision)
      else
        var q := p.(implementAttempts := p.implementAttempts + 1);
        if completed then q.(status := Verifying)
        else if !asks && q.investigations < cfg.maxInvestigations then q.(status := Investigating)
        else q.(status := AwaitingDecision)
    case Tested(ranAny, passed) =>
      if !ranAny || passed then p.(status := Reviewing)
      else p.(fixAttempts := p.fixAttempts + 1,
              status := if p.fixAttempts + 1 > cfg.maxFix then AwaitingDecision else Implementing)
    case EmptyDiff => p.(status := AwaitingDecision)
    case Reviewed(approved) =>
      if approved then p.(status := Done)
      else p.(reviewRounds := p.reviewRounds + 1,
              status := if p.reviewRounds + 1 > cfg.maxReview then AwaitingDecision else Implementing)
    case StepError(counted) =>
      p.(status := AwaitingDecision,
         investigations := p.investigations + if counted && p.status == Investigating then 1 else 0,
         implementAttempts := p.implementAttempts + if counted && p.status == Implementing then 1 else 0)
    case Hostile => p.(status := Failed)
  }

  /** The snapshot a counted step leaves behind. */
  function Next(cfg: Config, p: Progress, o: Outcome): Progress
    requires Running(p.status) && Fits(p.status, o)
  {
    Planned(cfg, p.(steps := p.steps + 1), o)
  }

  // ---------- where a step leads ----------

  /** Told by the phase it leads to, what makes a step lead there. */
  lemma LeadsTo(cfg: Config, p: Progress, o: Outcome)
    requires Running(p.status) && Fits(p.status, o)
    ensures var to, budget := Next(cfg, p, o).status, p.investigations < cfg.maxInvestigations;
      && (to == Investigating <==>
            budget && (o == Researched(false, true) || (o == Developed(false, false) && !p.verifyOnly)))
      && (to == Verifying <==>
            if p.verifyOnly then o.Researched? && !o.asks && !(o.highUncertainty && budget)
            else o.Developed? && o.completed)
      && (to == Implementing <==>
            || (o.Researched? && !o.asks && !(o.highUncertainty && budget) && !p.verifyOnly)
            || o == Investigated(false)
            || (o == Tested(true, false) && p.fixAttempts < cfg.maxFix)
            || (o == Reviewed(false) && p.reviewRounds < cfg.maxReview))
      && (to == Reviewing <==> o.Tested? && o != Tested(true, false))
      && (to == Done <==> o == Reviewed(true))
      && (to == Failed <==> o == Hostile)
      && to in {Investigating, Implementing, Verifying, Reviewing, Done, Failed, AwaitingDecision}
  {
  }

  /** What a step costs. */
  lemma Costs(cfg: Config, p: Progress, o: Outcome)
    requires Running(p.status) && Fits(p.status, o)
    ensures var q := Next(cfg, p, o);
      && q.steps == p.steps + 1 && q.verifyOnly == p.verifyOnly
      && q.investigations == p.investigations
           + (if p.status == Investigating && o != StepError(false) && o != Hostile then 1 else 0)
      && q.implementAttempts == p.implementAttempts
           + (if p.status == Implementing && (o == StepError(true) || (o.Developed? && !p.verifyOnly)) then 1 else 0)
      && q.fixAttempts == p.fixAttempts + (if o == Tested(true, false) then 1 else 0)
      && q.reviewRounds == p.reviewRounds + (if o == Reviewed(false) then 1 else 0)
  {
  }

  // ---------- the measure ----------

  function Left(limit: int, used: nat): nat {
    if used < limit then limit - used else 0
  }

  /** An investigation beyond the budget (a retried one) buys nothing back, so it ranks
      above the implementation it leads to. */
  function Rank(cfg: Config, p: Progress): nat {
    match p.status
    case Pending => 4
    case Understanding => 4
    case Implementing => 3
    case Verifying => 2
    case Investigating => if p.investigations < cfg.maxInvestigations then 2 else 4
    case Reviewing => 1
    case _ => 0
  }

  function Measure(cfg: Config, p: Progress): nat {
    2 * Left(cfg.maxInvestigations, p.investigations) + 2 * Left(cfg.maxFix, p.fixAttempts)
    + 3 * Left(cfg.maxReview, p.reviewRounds) + Rank(cfg, p)
  }

  function Bound(cfg: Config): nat {
    4 + 2 * Left(cfg.maxInvestigations, 0) + 2 * Left(cfg.maxFix, 0) + 3 * Left(cfg.maxReview, 0)
  }

  /** From any snapshot whatsoever, a step that keeps the task running uses up the measure. */
  lemma StepDecreases(cfg: Config, p: Progress, o: Outcome)
    requires Running(p.status) && Fits(p.status, o)
    ensures 1 <= Measure(cfg, p) <= Bound(cfg)
    ensures Running(Next(cfg, p, o).status) ==> Measure(cfg, Next(cfg, p, o)) < Measure(cfg, p)
  {
  }

  // ---------- whole runs ----------

  /** `script` is a run from `p` in which the task stays in the engine's hands until, at
      the earliest, the last step. */
  predicate Runs(cfg: Config, p: Progress, script: seq<Outcome>)
    decreases |script|
  {
    script != [] ==>
      && Running(p.status) && Fits(p.status, script[0])
      && Runs(cfg, Next(cfg, p, script[0]), script[1..])
  }

  function After(cfg: Config, p: Progress, script: seq<Outcome>): Progress
    requires Runs(cfg, p, script)
    decreases |script|
  {
    if script == [] then p else After(cfg, Next(cfg, p, script[0]), script[1..])
  }

  /** No run outlasts the measure of the snapshot it starts from, whatever the agents do. */
  lemma RunsAreBounded(cfg: Config, p: Progress, script: seq<Outcome>)
    requires Runs(cfg, p, script)
    ensures |script| <= Bound(cfg)
    ensures Running(After(cfg, p, script).status) ==> |script| < Bound(cfg)
  {
    RunsFromMeasure(cfg, p, script);
    if Running(p.status) { StepDecreases(cfg, p, StepError(false)); }
  }

  lemma {:induction false} RunsFromMeasure(cfg: Config, p: Progress, script: seq<Outcome>)
    requires Runs(cfg, p, script)
    ensures Running(p.status) ==> |script| + (if Running(After(cfg, p, script).status) then 1 else 0) <= Measure(cfg, p)
    ensures !Running(p.status) ==> script == []
    decreases |script|
  {
    if script != [] {
      StepDecreases(cfg, p, script[0]);
      RunsFromMeasure(cfg, Next(cfg, p, script[0]), script[1..]);
    } else if Running(p.status) {
      StepDecreases(cfg, p, StepError(false));
    }
  }

  // ---------- the bound is exact ----------

  /** Budgets are spent before the phases that could have spent them are left for good. */
  predicate Spending(cfg: Config, p: Progress) {
    && !p.verifyOnly && Running(p.status)
    && (p.status == Investigating ==> p.investigations < cfg.maxInvestigations)
    && (p.status == Verifying || p.status == Reviewing ==> Left(cfg.maxInvestigations, p.investigations) == 0)
    && (p.status == Reviewing ==> Left(cfg.maxFix, p.fixAttempts) == 0)
  }

  function Worst(cfg: Config, p: Progress): Outcome {
    match p.status
    case Pending => Researched(false, false)
    case Understanding => Researched(false, false)
    case Investigating => Investigated(false)
    case Implementing => Developed(p.investigations >= cfg.maxInvestigations, false)
    case Verifying => Tested(true, p.fixAttempts >= cfg.maxFix)
    case _ => Reviewed(p.reviewRounds >= cfg.maxReview)
  }

  lemma {:induction false} LongestRun(cfg: Config, p: Progress) returns (script: seq<Outcome>)
    requires Spending(cfg, p)
    ensures Runs(cfg, p, script) && |script| == Measure(cfg, p) && After(cfg, p, script).status == Done
    decreases Measure(cfg, p)
  {
    var o := Worst(cfg, p);
    var q := Next(cfg, p, o);
    if q.status == Done {
      script := [o];
      assert script[1..] == [];
    } else {
      StepDecreases(cfg, p, o);
      assert Spending(cfg, q) && Measure(cfg, q) == Measure(cfg, p) - 1;
      var rest := LongestRun(cfg, q);
      script := [o] + rest;
      assert script[1..] == rest;
    }
  }

  function Fresh(verifyOnly: bool): Progress {
    Progress(Pending, 0, 0, 0, 0, 0, verifyOnly)
  }

  /** For every configuration, `Bound` is the length of the longest run of a fresh task. */
  lemma BoundIsExact(cfg: Config)
    ensures forall v, script :: Runs(cfg, Fresh(v), script) ==> |script| <= Bound(cfg)
    ensures exists script :: Runs(cfg, Fresh(false), script) && |script| == Bound(cfg)
                             && After(cfg, Fresh(false), script).status == Done
  {
    forall v, script | Runs(cfg, Fresh(v), script) ensures |script| <= Bound(cfg) {
      RunsAreBounded(cfg, Fresh(v), script);
    }
    var script := LongestRun(cfg, Fresh(false));
  }

  // ---------- nothing is finished without verification and review ----------

  lemma {:induction false} AfterLast(cfg: Config, p: Progress, script: seq<Outcome>)
    requires Runs(cfg, p, script) && script != []
    ensures var n := |script| - 1;
      && Runs(cfg, p, script[..n])
      && var q := After(cfg, p, script[..n]);
         Running(q.status) && Fits(q.status, script[n]) && After(cfg, p, script) == Next(cfg, q, script[n])
    decreases |script|
  {
    var n := |script| - 1;
    if n > 0 {
      AfterLast(cfg, Next(cfg, p, script[0]), script[1..]);
      assert script[1..][..n - 1] == script[..n][1..];
    } else {
      assert script[..n] == [];
    }
  }

  /** The engine completes a task only on an approval, and the step before the approving
      review verified the code the review looked at. */
  lemma DoneIsVerifiedAndReviewed(cfg: Config, p: Progress, script: seq<Outcome>)
    requires Runs(cfg, p, script) && script != [] && After(cfg, p, script).status == Done
    requires p.status != Reviewing
    ensures |script| >= 2 && script[|script| - 1] == Reviewed(true)
    ensures script[|script| - 2].Tested? && (script[|script| - 2].passed || !script[|script| - 2].ranAny)
  {
    var n := |script| - 1;
    AfterLast(cfg, p, script);
    var before := script[..n];
    if before != [] {
      AfterLast(cfg, p, before);
      assert before[n - 1] == script[n - 1];
    }
  }

  lemma {:induction false} RunsExtend(cfg: Config, p: Progress, script: seq<Outcome>, o: Outcome)
    requires Runs(cfg, p, script)
    requires Running(After(cfg, p, script).status) && Fits(After(cfg, p, script).status, o)
    ensures Runs(cfg, p, script + [o])
    ensures After(cfg, p, script + [o]) == Next(cfg, After(cfg, p, script), o)
    decreases |script|
  {
    if script == [] {
      assert (script + [o])[1..] == [];
    } else {
      RunsExtend(cfg, Next(cfg, p, script[0]), script[1..], o);
      assert (script + [o])[1..] == script[1..] + [o];
    }
  }

  // ---------- what whole runs spend ----------

  /** Over any run the counters count what happened: steps, failed tests, rejected reviews. */
  lemma {:induction false} CountersCount(cfg: Config, p: Progress, script: seq<Outcome>)
    requires Runs(cfg, p, script)
    ensures var q := After(cfg, p, script);
      && q.verifyOnly == p.verifyOnly && q.steps == p.steps + |script|
      && q.fixAttempts == p.fixAttempts + multiset(script)[Tested(true, false)]
      && q.reviewRounds == p.reviewRounds + multiset(script)[Reviewed(false)]
    decreases |script|
  {
    if script != [] {
      Costs(cfg, p, script[0]);
      CountersCount(cfg, Next(cfg, p, script[0]), script[1..]);
      assert multiset(script) == multiset{script[0]} + multiset(script[1..]) by {
        assert script == [script[0]] + script[1..];
      }
    }
  }

  lemma {:induction false} OnlyErrorsAreAttempts(cfg: Config, p: Progress, script: seq<Outcome>)
    requires Runs(cfg, p, script) && p.verifyOnly
    ensures After(cfg, p, script).implementAttempts <= p.implementAttempts + multiset(script)[StepError(true)]
    decreases |script|
  {
    if script != [] {
      Costs(cfg, p, script[0]);
      OnlyErrorsAreAttempts(cfg, Next(cfg, p, script[0]), script[1..]);
      assert script == [script[0]] + script[1..];
    }
  }

  /** A verify-only task is sent to the developer only by an investigation, a failed test or a
      rejected review, and no run of it ever edits: an attempt is counted only for an error. */
  lemma VerifyOnlyNeverEdits(cfg: Config, script: seq<Outcome>)
    requires Runs(cfg, Fresh(true), script)
    ensures var q := After(cfg, Fresh(true), script);
      && q.implementAttempts <= multiset(script)[StepError(true)]
      && (q.status == Implementing ==>
            script != [] && script[|script| - 1] in {Investigated(false), Tested(true, false), Reviewed(false)})
  {
    OnlyErrorsAreAttempts(cfg, Fresh(true), script);
    if script != [] {
      var n := |script| - 1;
      AfterLast(cfg, Fresh(true), script);
      CountersCount(cfg, Fresh(true), script[..n]);
      LeadsTo(cfg, After(cfg, Fresh(true), script[..n]), script[n]);
    }
  }

  /** From the developer's desk a verify-only task goes nowhere but to a human. */
  lemma VerifyOnlyStops(cfg: Config, p: Progress, o: Outcome)
    requires p.verifyOnly && p.status == Implementing && Fits(p.status, o) && !o.Hostile?
    ensures Next(cfg, p, o).status == AwaitingDecision
  {
    LeadsTo(cfg, p, o);
  }

  /** An imported pull request is verified and reviewed as it is, under every configuration. */
  lemma VerifyOnlyIsVerified(cfg: Config)
    ensures var script := [Researched(false, false), Tested(true, true), Reviewed(true)];
      Runs(cfg, Fresh(true), script) && After(cfg, Fresh(true), script) == Fresh(true).(status := Done, steps := 3)
  {
    var p := Fresh(true);
    var p1 := Next(cfg, p, Researched(false, false));
    var p2 := Next(cfg, p1, Tested(true, true));
    var script := [Researched(false, false), Tested(true, true), Reviewed(true)];
    assert script[1..] == [Tested(true, true), Reviewed(true)] && script[1..][1..] == [Reviewed(true)];
    assert Runs(cfg, p2, [Reviewed(true)]) by { assert [Reviewed(true)][1..] == []; }
    assert Runs(cfg, p1, script[1..]);
    assert After(cfg, p2, [Reviewed(true)]) == Next(cfg, p2, Reviewed(true));
  }

  predicate WithinBudgets(cfg: Config, p: Progress) {
    && p.investigations <= Left(cfg.maxInvestigations, 0)
    && (p.status == Investigating ==> p.investigations < cfg.maxInvestigations)
    && p.fixAttempts <= Left(cfg.maxFix, 0) + (if Running(p.status) then 0 else 1)
    && p.reviewRounds <= Left(cfg.maxReview, 0) + (if Running(p.status) then 0 else 1)
  }

  lemma {:induction false} BudgetsKept(cfg: Config, p: Progress, script: seq<Outcome>)
    requires Runs(cfg, p, script) && WithinBudgets(cfg, p)
    ensures WithinBudgets(cfg, After(cfg, p, script))
    decreases |script|
  {
    if script != [] {
      LeadsTo(cfg, p, script[0]);
      Costs(cfg, p, script[0]);
      BudgetsKept(cfg, Next(cfg, p, script[0]), script[1..]);
    }
  }

  /** No run of a fresh task investigates beyond its budget, and the one failed test or
      rejected review beyond the others stops it. */
  lemma BudgetsHold(cfg: Config, verifyOnly: bool, script: seq<Outcome>)
    requires Runs(cfg, Fresh(verifyOnly), script)
    ensures var q := After(cfg, Fresh(verifyOnly), script);
      && q.investigations <= Left(cfg.maxInvestigations, 0)
      && q.fixAttempts <= Left(cfg.maxFix, 0) + (if Running(q.status) then 0 else 1)
      && q.reviewRounds <= Left(cfg.maxReview, 0) + (if Running(q.status) then 0 else 1)
  {
    BudgetsKept(cfg, Fresh(verifyOnly), script);
  }

  /** High uncertainty is investigated first, exactly while the budget for it lasts. */
  lemma UncertaintyIsInvestigated(cfg: Config, verifyOnly: bool)
    ensures var p := Fresh(verifyOnly); var q := Next(cfg, p, Researched(false, true));
      if cfg.maxInvestigations > 0 then
        q.status == Investigating && Next(cfg, q, Investigated(false)).status == Implementing
      else q == Next(cfg, p, Researched(false, false)) && q.status == if verifyOnly then Verifying else Implementing
  {
    LeadsTo(cfg, Fresh(verifyOnly), Researched(false, true));
    LeadsTo(cfg, Fresh(verifyOnly), Researched(false, false));
  }

  // ---------- the engine ----------

  datatype Stop = Finished | AwaitsHuman | NeedsResume | Cancelled | BudgetPause

  /** A task snapshot as the engine mutates it. */
  class Task {
    var status: TaskStatus
    var steps: nat
    var investigations: nat
    var fixAttempts: nat
    var reviewRounds: nat
    var implementAttempts: nat
    const verifyOnly: bool

    constructor (verifyOnly: bool)
      ensures Snapshot() == Fresh(verifyOnly)
    {
      status, steps, investigations, fixAttempts, reviewRounds, implementAttempts := Pending, 0, 0, 0, 0, 0;
      this.verifyOnly := verifyOnly;
    }

    function Snapshot(): Progress
      reads this
    {
      Progress(status, steps, investigations, fixAttempts, reviewRounds, implementAttempts, verifyOnly)
    }

    method StepUnderstand(cfg: Config) returns (o: Outcome)
      requires status == Pending || status == Understanding
      modifies this`status
      ensures Fits(old(status), o)
      ensures Snapshot() == Planned(cfg, old(Snapshot()), o)
    {
      status := Understanding;
      var fails, asks, high := *, *, *;
      if fails { o := Fail(false); return; }
      o := Researched(asks, high);
      if asks {
        status := AwaitingDecision;
      } else if high && investigations < cfg.maxInvestigations {
        status := Investigating;
      } else if verifyOnly {
        status := Verifying;
      } else {
        status := Implementing;
      }
    }

    method StepInvestigate(cfg: Config) returns (o: Outcome)
      requires status == Investigating
      modifies this`status, this`investigations
      ensures Fits(old(status), o)
      ensures Snapshot() == Planned(cfg, old(Snapshot()), o)
    {
      var noWorkspace, fails, asks := *, *, *;
      if noWorkspace { o := Fail(false); return; }
      investigations := investigations + 1;
      if fails { o := Fail(true); return; }
      o := Investigated(asks);
      status := if asks then AwaitingDecision else Implementing;
    }

    method StepImplement(cfg: Config) returns (o: Outcome)
      requires status == Implementing
      modifies this`status, this`implementAttempts
      ensures Fits(old(status), o)
      ensures Snapshot() == Planned(cfg, old(Snapshot()), o)
    {
      var fails, noDiff, completed, asks := *, *, *, *;
      if fails { o := Fail(false); return; }
      o := Developed(completed, asks);
      if verifyOnly {
        status := AwaitingDecision;
        return;
      }
      implementAttempts := implementAttempts + 1;
      if noDiff { o := Fail(true); return; }
      if completed {
        status := Verifying;
      } else if asks {
        status := AwaitingDecision;
      } else if investigations < cfg.maxInvestigations {
        status := Investigating;
      } else {
        status := AwaitingDecision;
      }
    }

    method StepVerify(cfg: Config) returns (o: Outcome)
      requires status == Verifying
      modifies this`status, this`fixAttempts
      ensures Fits(old(status), o)
      ensures Snapshot() == Planned(cfg, old(Snapshot()), o)
    {
      var hostile, fails, ranAny, passed := *, *, *, *;
      if hostile {
        status := Failed;
        return Hostile;
      }
      if fails { o := Fail(false); return; }
      o := Tested(ranAny, passed);
      if !ranAny || passed {
        status := Reviewing;
        return;
      }
      fixAttempts := fixAttempts + 1;
      status := if fixAttempts > cfg.maxFix then AwaitingDecision else Implementing;
    }

    method StepReview(cfg: Config) returns (o: Outcome)
      requires status == Reviewing
      modifies this`status, this`reviewRounds
      ensures Fits(old(status), o)
      ensures Snapshot() == Planned(cfg, old(Snapshot()), o)
    {
      var fails, empty, approved := *, *, *;
      if fails { o := Fail(false); return; }
      if empty {
        status := AwaitingDecision;
        return EmptyDiff;
      }
      o := Reviewed(approved);
      if approved {
        status := Done;
        return;
      }
      reviewRounds := reviewRounds + 1;
      status := if reviewRounds > cfg.maxReview then AwaitingDecision else Implementing;
    }

    /** A failed step pauses the task on a decision instead of discarding its work. */
    method Fail(counted: bool) returns (o: Outcome)
      modifies this`status
      ensures status == AwaitingDecision && o == StepError(counted)
    {
      status := AwaitingDecision;
      o := StepError(counted);
    }

    method Step(cfg: Config) returns (o: Outcome)
      requires Running(status)
      modifies this
      ensures Fits(old(status), o) && Snapshot() == Next(cfg, old(Snapshot()), o)
    {
      steps := steps + 1;
      match status
      case Pending => o := StepUnderstand(cfg);
      case Understanding => o := StepUnderstand(cfg);
      case Investigating => o := StepInvestigate(cfg);
      case Implementing => o := StepImplement(cfg);
      case Verifying => o := StepVerify(cfg);
      case Reviewing => o := StepReview(cfg);
    }

    /** Drives the task until it finishes or pauses. The loop needs no step budget to end:
        it runs on the measure, so the budget pause can only come from steps spent before. */
    method Run(cfg: Config) returns (stop: Stop, ghost script: seq<Outcome>)
      modifies this
      ensures Runs(cfg, old(Snapshot()), script) && |script| <= Bound(cfg)
      ensures stop != BudgetPause ==> Snapshot() == After(cfg, old(Snapshot()), script)
      ensures stop == Finished ==> status.Terminal()
      ensures stop == AwaitsHuman || stop == BudgetPause ==> status == AwaitingDecision
      ensures steps == old(steps) + |script|
      ensures stop == BudgetPause ==> cfg.maxSteps < old(steps) + Bound(cfg)
    {
      script := [];
      ghost var start := Snapshot();
      while true
        invariant Runs(cfg, start, script) && Snapshot() == After(cfg, start, script)
        invariant steps == start.steps + |script|
        decreases Running(status), Measure(cfg, Snapshot())
      {
        RunsAreBounded(cfg, start, script);
        if status.Terminal() { return Finished, script; }
        if status == AwaitingDecision { return AwaitsHuman, script; }
        if status == Interrupted { return NeedsResume, script; }
        if steps >= cfg.maxSteps {
          status := AwaitingDecision;
          return BudgetPause, script;
        }
        var cancelled := *;
        if cancelled { return Cancelled, script; }
        ghost var before := Snapshot();
        var o := Step(cfg);
        RunsExtend(cfg, start, script, o);
        StepDecreases(cfg, before, o);
        script := script + [o];
      }
    }
  }

  /** Under the default configuration a fresh task never meets its step budget. */
  method FreshTaskNeverOverruns(verifyOnly: bool) returns (stop: Stop, steps: nat)
    ensures stop != BudgetPause && steps <= 18
  {
    var t := new Task(verifyOnly);
    ghost var script;
    stop, script := t.Run(DefaultConfig);
    steps := t.steps;
  }
}
