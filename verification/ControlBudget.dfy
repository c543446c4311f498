/** How many RM controls of each kind a run may issue, against the budget handed
    to the bridge when it is created. */
module ControlBudget {
  import opened RingInterval
  import opened RmTrial
  import opened TrialControls
  import Protocol
  import Rewind
  import RewindEvidence

  /** What a run consists of. */
  datatype RmCase = All | Single(condition: Condition) | RewindFalse | RewindTrue | RewindPaired

  datatype Options = Options(rmCase: RmCase, trials: nat, durations: nat, probe: bool)

  predicate IsRewind(c: RmCase) {
    c.RewindFalse? || c.RewindTrue? || c.RewindPaired?
  }

  /** What option parsing lets through. */
  predicate Parsed(o: Options) {
    && 1 <= o.trials && 1 <= o.durations && o.trials * o.durations <= 30
    && (IsRewind(o.rmCase) ==> o.durations == 1 && o.trials <= 5 && !o.probe)
  }

  function Budget(o: Options): nat {
    (if o.rmCase.RewindPaired? then 4 else 2) * o.trials * o.durations + 2
  }

  /** Trials of a run over all durations. */
  function Rounds(o: Options): nat {
    o.durations * o.trials
  }

  function RewindCases(o: Options, trials: nat): nat {
    if o.rmCase.RewindPaired? then 2 * trials else trials
  }

  function PlanOf(o: Options): Rewind.Plan {
    Rewind.Plan(o.trials, o.rmCase.RewindPaired?, o.rmCase.RewindTrue?)
  }

  function Cases(c: RmCase): (cases: seq<Condition>)
    ensures |cases| == if c.Single? then 1 else 3
  {
    match c
    case Single(condition) => [condition]
    case _ => [LiveHandoff, PreemptResume, PreemptHold]
  }

  predicate Prepares(o: Options) {
    IsRewind(o.rmCase) || o.probe || o.rmCase.All? || Holds(o.rmCase.condition)
  }

  function IdleKind(o: Options): Kind {
    if o.rmCase.Single? && o.rmCase.condition.ScheduleHold? then Schedule else Fifo
  }

  function IdleUse(o: Options): Usage {
    if Prepares(o) then One(IdleKind(o)).Plus(One(IdleKind(o))) else NONE
  }

  // ----- The order rotates with the trial

  function CaseAt(cases: seq<Condition>, trial: nat, order: nat): Condition
    requires cases != []
  {
    cases[(trial + order) % |cases|]
  }

  /** Controls of the first n cases of a trial. */
  function Rotated(cases: seq<Condition>, trial: nat, n: nat): Usage
    requires cases != []
  {
    if n == 0 then NONE else Rotated(cases, trial, n - 1).Plus(TrialUse(CaseAt(cases, trial, n - 1)))
  }

  lemma RotatedSteps(cases: seq<Condition>, trial: nat, n: nat)
    requires cases != []
    ensures Rotated(cases, trial, 0) == NONE
    ensures Rotated(cases, trial, n + 1) == Rotated(cases, trial, n).Plus(TrialUse(CaseAt(cases, trial, n)))
  {
  }

  lemma OneMoreTrial(start: Usage, cases: seq<Condition>, trial: nat, order: nat)
    requires order < |cases|
    ensures start.Plus(Rotated(cases, trial, order)).Plus(TrialUse(CaseAt(cases, trial, order)))
         == start.Plus(Rotated(cases, trial, order + 1))
    ensures start.Plus(Rotated(cases, trial, order + 1)).AtMost(start.Plus(Rotated(cases, 0, |cases|)))
  {
    hide CaseAt, TrialUse, Rotated;
    RotatedSteps(cases, trial, order);
    RotationUsesAll(cases, trial);
    UpTo(cases, trial, order + 1, |cases|);
  }

  lemma {:induction false} DropFirst(cases: seq<Condition>, trial: nat, n: nat)
    requires cases != []
    ensures Rotated(cases, trial, n + 1) == TrialUse(CaseAt(cases, trial, 0)).Plus(Rotated(cases, trial + 1, n))
  {
    hide CaseAt, TrialUse;
    if n == 0 {
      assert Rotated(cases, trial, 0) == NONE;
    } else {
      DropFirst(cases, trial, n - 1);
      assert CaseAt(cases, trial, n) == CaseAt(cases, trial + 1, n - 1) by {
        NextTrial(cases, trial, n - 1);
      }
    }
  }

  lemma NextTrial(cases: seq<Condition>, trial: nat, order: nat)
    requires cases != []
    ensures CaseAt(cases, trial, order + 1) == CaseAt(cases, trial + 1, order)
  {
    assert trial + (order + 1) == (trial + 1) + order;
  }

  lemma WrapsAround(cases: seq<Condition>, trial: nat)
    requires cases != []
    ensures CaseAt(cases, trial, |cases|) == CaseAt(cases, trial, 0)
  {
    var n := |cases|;
    ModUnique(trial + n, n, trial / n + 1, trial % n);
  }

  /** Whatever the trial number, one trial runs every case once. */
  lemma {:induction false} RotationUsesAll(cases: seq<Condition>, trial: nat)
    requires cases != []
    ensures Rotated(cases, trial, |cases|) == Rotated(cases, 0, |cases|)
  {
    hide CaseAt, TrialUse;
    if trial > 0 {
      RotationUsesAll(cases, trial - 1);
      DropFirst(cases, trial - 1, |cases|);
      WrapsAround(cases, trial - 1);
    }
  }

  function RoundUse(c: RmCase): Usage
    requires !IsRewind(c)
  {
    Rotated(Cases(c), 0, |Cases(c)|)
  }

  /** Controls of a completed run. */
  function TotalUse(o: Options): Usage {
    if IsRewind(o.rmCase)
    then IdleUse(o).Plus(Usage(0, 0, 2).Times(RewindCases(o, o.trials)))
    else if o.probe then IdleUse(o)
    else IdleUse(o).Plus(RoundUse(o.rmCase).Times(Rounds(o)))
  }

  /** The kind that a hold or rewind run disables A with. */
  predicate Disables(o: Options, kind: Kind) {
    match o.rmCase
    case Single(condition) => Holds(condition) && kind == DisableKind(condition)
    case _ => kind == Fifo
  }

  /** The totals by case: two controls on the idle context, unless nothing prepares a
      hold, and what each trial of the case asks for. */
  lemma TotalUses(o: Options)
    requires Parsed(o)
    ensures o.rmCase.RewindPaired? ==> TotalUse(o) == Usage(0, 0, 2 + 4 * o.trials)
    ensures o.rmCase.RewindTrue? || o.rmCase.RewindFalse? ==> TotalUse(o) == Usage(0, 0, 2 + 2 * o.trials)
    ensures o.probe ==> TotalUse(o) == if o.rmCase == Single(ScheduleHold) then Usage(0, 2, 0) else Usage(0, 0, 2)
    ensures !o.probe && !IsRewind(o.rmCase) ==> TrialTotals(o.rmCase, o.durations * o.trials, TotalUse(o))
    ensures Budget(o) == if o.rmCase.RewindPaired? then 2 + 4 * o.trials else 2 + 2 * (o.durations * o.trials)
  {
    hide IdleUse, RoundUse, Usage.Times, Usage.Plus, TrialTotals;
    BudgetByRounds(o);
    Idle(o);
    if IsRewind(o.rmCase) {
      Scaled(IdleUse(o), Usage(0, 0, 2), RewindCases(o, o.trials));
    } else if !o.probe {
      RoundUses(o.rmCase);
      AddUp(o, IdleUse(o), RoundUse(o.rmCase), Rounds(o));
    }
  }

  predicate TrialTotals(c: RmCase, n: nat, total: Usage) {
    match c
    case Single(LiveHandoff) => total == Usage(0, 0, 0)
    case Single(PreemptResume) => total == Usage(n, 0, 0)
    case Single(PreemptHold) => total == Usage(n, 0, 2 + 2 * n)
    case Single(ScheduleHold) => total == Usage(n, 2 + 2 * n, 0)
    case Single(FifoHold) => total == Usage(0, 0, 2 + 2 * n)
    case _ => total == Usage(2 * n, 0, 2 + 2 * n)
  }

  /** Two controls on the idle context, of the kind the case holds with. */
  predicate IdleTotals(o: Options, idle: Usage) {
    && idle.preempt == 0
    && idle.schedule == (if o.rmCase.Single? && o.rmCase.condition.ScheduleHold? then 2 else 0)
    && idle.fifo == if !o.rmCase.Single? || o.rmCase.condition.PreemptHold? || o.rmCase.condition.FifoHold? then 2
                    else if o.probe && !o.rmCase.condition.ScheduleHold? then 2 else 0
  }

  lemma Idle(o: Options)
    ensures IdleTotals(o, IdleUse(o))
  {
    hide One;
    TwoOf(IdleKind(o), Preempt);
    TwoOf(IdleKind(o), Schedule);
    TwoOf(IdleKind(o), Fifo);
  }

  lemma AddUp(o: Options, idle: Usage, round: Usage, n: nat)
    requires !IsRewind(o.rmCase) && !o.probe && IdleTotals(o, idle)
    requires o.rmCase.All? ==> round.preempt == 2 && round.schedule == 0 && round.fifo == 2
    requires o.rmCase.Single? ==> round == TrialUse(o.rmCase.condition)
    ensures TrialTotals(o.rmCase, n, idle.Plus(round.Times(n)))
  {
    hide Usage.Times, Usage.Plus;
    Scaled(idle, round, n);
  }

  lemma Scaled(start: Usage, u: Usage, n: nat)
    ensures var all := start.Plus(u.Times(n));
            && (u.preempt == 0 ==> all.preempt == start.preempt) && (u.preempt == 1 ==> all.preempt == start.preempt + n)
            && (u.preempt == 2 ==> all.preempt == start.preempt + 2 * n)
            && (u.schedule == 0 ==> all.schedule == start.schedule)
            && (u.schedule == 2 ==> all.schedule == start.schedule + 2 * n)
            && (u.fifo == 0 ==> all.fifo == start.fifo) && (u.fifo == 2 ==> all.fifo == start.fifo + 2 * n)
  {
    hide Usage.Times;
    TimesFew(u, n, Preempt);
    TimesFew(u, n, Schedule);
    TimesFew(u, n, Fifo);
  }

  lemma {:induction false} TimesFew(u: Usage, n: nat, kind: Kind)
    ensures u.Of(kind) == 0 ==> u.Times(n).Of(kind) == 0
    ensures u.Of(kind) == 1 ==> u.Times(n).Of(kind) == n
    ensures u.Of(kind) == 2 ==> u.Times(n).Of(kind) == 2 * n
  {
    if n > 0 {
      TimesFew(u, n - 1, kind);
    }
  }

  lemma RoundUses(c: RmCase)
    requires !IsRewind(c)
    ensures c.All? ==> RoundUse(c).preempt == 2 && RoundUse(c).schedule == 0 && RoundUse(c).fifo == 2
    ensures c.Single? ==> RoundUse(c) == TrialUse(c.condition)
  {
    hide TrialUse, CaseAt, Rotated, RoundUse;
    if c.All? {
      AllRound();
    } else {
      SingleRound(c.condition);
    }
  }

  lemma SingleRound(condition: Condition)
    ensures RoundUse(Single(condition)) == TrialUse(condition)
  {
    hide TrialUse, CaseAt, Rotated, Usage.Plus;
    FirstUses([condition], 0);
    NothingPlus(TrialUse(condition));
  }

  lemma NothingPlus(u: Usage)
    ensures NONE.Plus(u) == u
  {
  }

  lemma AllRound()
    ensures RoundUse(All).preempt == 2 && RoundUse(All).schedule == 0 && RoundUse(All).fifo == 2
  {
    hide CaseAt, Rotated, Usage.Plus;
    var cases := Cases(All);
    assert cases[0] == LiveHandoff && cases[1] == PreemptResume && cases[2] == PreemptHold;
    FirstUses(cases, 0);
    FirstUses(cases, 1);
    FirstUses(cases, 2);
    ThreeUses(NONE, TrialUse(cases[0]), TrialUse(cases[1]), TrialUse(cases[2]));
  }

  lemma FirstUses(cases: seq<Condition>, k: nat)
    requires k < |cases|
    ensures Rotated(cases, 0, 0) == NONE
    ensures Rotated(cases, 0, k + 1) == Rotated(cases, 0, k).Plus(TrialUse(cases[k]))
  {
    hide TrialUse, CaseAt, Rotated;
    RotatedSteps(cases, 0, k);
    InOrder(cases, k);
  }

  lemma ThreeUses(none: Usage, live: Usage, resume: Usage, hold: Usage)
    requires none.preempt == none.schedule == none.fifo == 0
    requires live.preempt == live.schedule == live.fifo == 0
    requires resume.preempt == 1 && resume.schedule == resume.fifo == 0
    requires hold.preempt == 1 && hold.schedule == 0 && hold.fifo == 2
    ensures var all := none.Plus(live).Plus(resume).Plus(hold);
            all.preempt == 2 && all.schedule == 0 && all.fifo == 2
  {
    hide Usage.Plus;
    Fieldwise(none, live);
    Fieldwise(none.Plus(live), resume);
    Fieldwise(none.Plus(live).Plus(resume), hold);
  }

  lemma Fieldwise(u: Usage, v: Usage)
    ensures u.Plus(v).preempt == u.preempt + v.preempt
    ensures u.Plus(v).schedule == u.schedule + v.schedule
    ensures u.Plus(v).fifo == u.fifo + v.fifo
  {
  }

  lemma InOrder(cases: seq<Condition>, k: nat)
    requires k < |cases|
    ensures CaseAt(cases, 0, k) == cases[k]
  {
    OneTurn(k, |cases|);
  }

  /** The budget covers every kind, and a completed hold or rewind run exhausts it
      exactly for the kind it disables with. */
  lemma BudgetIsExact(o: Options, kind: Kind)
    requires Parsed(o)
    ensures TotalUse(o).Of(kind) <= Budget(o)
    ensures !o.probe && Disables(o, kind) ==> TotalUse(o).Of(kind) == Budget(o)
  {
    hide Rounds, Budget, RoundUse, TrialUse, IdleUse, Disables;
    BudgetByRounds(o);
    RewindDisables(o, kind);
    IdleTwice(o, kind);
    if IsRewind(o.rmCase) {
      TimesTwice(Usage(0, 0, 2), RewindCases(o, o.trials), kind);
    } else {
      RoundTwice(o, kind);
      TimesTwice(RoundUse(o.rmCase), Rounds(o), kind);
    }
  }

  lemma EveryKind(o: Options)
    requires Parsed(o)
    ensures forall kind :: TotalUse(o).Of(kind) <= Budget(o)
    ensures !o.probe ==> forall kind :: Disables(o, kind) ==> TotalUse(o).Of(kind) == Budget(o)
  {
    hide TotalUse, Budget, Disables;
    forall kind: Kind ensures TotalUse(o).Of(kind) <= Budget(o) &&
                              (!o.probe && Disables(o, kind) ==> TotalUse(o).Of(kind) == Budget(o)) {
      BudgetIsExact(o, kind);
    }
  }

  lemma IdleTwice(o: Options, kind: Kind)
    ensures IdleUse(o).Of(kind) <= 2
    ensures Disables(o, kind) ==> IdleUse(o).Of(kind) == 2
  {
    hide Prepares, IdleKind, Disables, One;
    TwoOf(IdleKind(o), kind);
    DisablesWithIdleKind(o, kind);
  }

  lemma DisablesWithIdleKind(o: Options, kind: Kind)
    ensures Disables(o, kind) ==> kind == IdleKind(o) && Prepares(o)
  {
  }

  lemma TwoOf(asked: Kind, kind: Kind)
    ensures One(asked).Plus(One(asked)).Of(kind) == if kind == asked then 2 else 0
  {
  }

  lemma RewindDisables(o: Options, kind: Kind)
    ensures IsRewind(o.rmCase) && Disables(o, kind) ==> kind == Fifo
  {
  }

  lemma RoundTwice(o: Options, kind: Kind)
    requires !IsRewind(o.rmCase)
    ensures RoundUse(o.rmCase).Of(kind) <= 2
    ensures Disables(o, kind) ==> RoundUse(o.rmCase).Of(kind) == 2
  {
    hide RoundUse;
    RoundUses(o.rmCase);
  }

  lemma {:induction false} TimesTwice(u: Usage, n: nat, kind: Kind)
    ensures u.Of(kind) <= 2 ==> u.Times(n).Of(kind) <= 2 * n
    ensures u.Of(kind) == 2 ==> u.Times(n).Of(kind) == 2 * n
  {
    if n > 0 {
      TimesTwice(u, n - 1, kind);
    }
  }

  lemma BudgetByRounds(o: Options)
    ensures Budget(o) == (if o.rmCase.RewindPaired? then 4 * Rounds(o) else 2 * Rounds(o)) + 2
    ensures o.durations == 1 ==> Rounds(o) == o.trials
  {
    assert 2 * o.trials * o.durations == 2 * (o.durations * o.trials);
    assert 4 * o.trials * o.durations == 4 * (o.durations * o.trials);
  }

  // ----- The run

  /** What a rewind experiment runs in. */
  datatype Setup = Setup(env: Rewind.Env, world: Rewind.World, holdMs: nat, timeoutMs: nat)

  /** The journal after the two controls on the idle context. */
  const PREPARED := [RewindEvidence.Entry(1, true, true, false, 0, 0), RewindEvidence.Entry(2, true, false, false, 0, 0)]

  /** What a rewind run may have journaled behind the two controls on the idle context:
      disables and enables in turn, and a rewind with every disable, with none, or with
      the second and third of every four, as the case says. */
  predicate RewindsAsAsked(c: RmCase, journal: seq<RewindEvidence.Entry>) {
    && (forall i :: 2 <= i < |journal| ==> (journal[i].disables <==> i % 2 == 0))
    && match c
       case RewindTrue => forall i :: 2 <= i < |journal| ==> (journal[i].rewinds <==> i % 2 == 0)
       case RewindFalse => forall i :: 2 <= i < |journal| ==> !journal[i].rewinds
       case RewindPaired => forall i :: 2 <= i < |journal| ==> (journal[i].rewinds <==> i % 8 == 4 || i % 8 == 6)
       case _ => journal == []
  }

  lemma PlannedIsAsked(o: Options, journal: seq<RewindEvidence.Entry>)
    requires IsRewind(o.rmCase) && Rewind.AsPlanned(journal, 2, PlanOf(o))
    ensures RewindsAsAsked(o.rmCase, journal)
  {
    var plan := PlanOf(o);
    hide PlanOf, Rewind.RewindsCase;
    forall i: nat | 2 <= i < |journal|
      ensures journal[i].disables <==> i % 2 == 0
      ensures journal[i].rewinds <==> i % 2 == 0 && RewindsBehind(i, plan) {
      SecondAndThird(i, plan);
    }
    FitsCase(o, journal);
  }

  /** Whether the case of entry `i`, if it is a disable, rewinds. */
  predicate RewindsBehind(i: nat, plan: Rewind.Plan) {
    if plan.paired then i % 8 == 4 || i % 8 == 6 else plan.rewindTrue
  }

  lemma SecondAndThird(i: nat, plan: Rewind.Plan)
    requires 2 <= i
    ensures i % 2 == (i - 2) % 2
    ensures i % 2 == 0 ==> (Rewind.RewindsCase((i - 2) / 2, plan) <==> RewindsBehind(i, plan))
  {
    if i % 2 == 0 {
      var half := i / 2;
      assert (i - 2) / 2 == half - 1 && i % 8 == 2 * (half % 4);
    }
  }

  lemma FitsCase(o: Options, journal: seq<RewindEvidence.Entry>)
    requires IsRewind(o.rmCase)
    requires forall i: nat :: 2 <= i < |journal| ==>
               && (journal[i].disables <==> i % 2 == 0)
               && (journal[i].rewinds <==> i % 2 == 0 && RewindsBehind(i, PlanOf(o)))
    ensures RewindsAsAsked(o.rmCase, journal)
  {
  }

  lemma NothingJournaled(c: RmCase)
    ensures RewindsAsAsked(c, [])
  {
  }

  /** The session, counting every control it is asked for. Any fallible step may
      fail; `fails` says which, `outcome` how the threads of a trial end, and `setup`
      what a rewind experiment meets. */
  class Bridge {
    const options: Options
    const budget: nat
    const fails: nat -> bool
    const outcome: (nat, Condition) -> Protocol.State
    const setup: Setup
    var step: nat
    var used: Usage
    /** What a rewind experiment left in the journal. */
    var journal: seq<RewindEvidence.Entry>

    /** Every trial ends as some interleaving of its participants does, and the rewind
        experiment meets a sane environment. */
    ghost predicate Possible() {
      Rewind.Sane(setup.env) && forall n, c :: Outcome(c, outcome(n, c))
    }

    ghost predicate NothingFails() {
      && (forall s :: !fails(s)) && (forall n, c :: !Protocol.SomeoneThrew(outcome(n, c)))
      && Rewind.Smooth(setup.env, |PREPARED|) && Rewind.AllWell(PlanOf(options), setup.world)
    }

    constructor (options: Options, fails: nat -> bool, outcome: (nat, Condition) -> Protocol.State, setup: Setup)
      ensures this.options == options && this.fails == fails && this.outcome == outcome && this.setup == setup
      ensures budget == Budget(options) && used == NONE && journal == []
    {
      this.options, this.fails, this.outcome, this.setup := options, fails, outcome, setup;
      budget := (if options.rmCase.RewindPaired? then 4 else 2) * options.trials * options.durations + 2;
      step, used, journal := 0, NONE, [];
    }

    method Control(kind: Kind) returns (threw: bool)
      modifies this`used, this`step
      ensures used == old(used).Plus(One(kind)) && step == old(step) + 1 && threw == fails(old(step))
      ensures NothingFails() ==> !threw
    {
      used := used.Plus(One(kind));
      threw := fails(step);
      step := step + 1;
    }

    method Fallible() returns (threw: bool)
      modifies this`step
      ensures step == old(step) + 1 && threw == fails(old(step))
      ensures NothingFails() ==> !threw
    {
      threw := fails(step);
      step := step + 1;
    }

    /** One trial: reference run and clock anchor, the interleaved participants with
        the controls they ask for, then the estimate and the evidence. */
    method Trial(c: Condition) returns (completed: bool)
      requires Possible()
      modifies this`used, this`step
      ensures used.AtMost(old(used).Plus(TrialUse(c)))
      ensures completed ==> used == old(used).Plus(TrialUse(c))
      ensures NothingFails() ==> completed
    {
      hide Outcome, AskedFor, TrialUse;
      var threw := Fallible();
      if threw { return false; }
      var end := outcome(step, c);
      OutcomeUses(c, end);
      used := used.Plus(AskedFor(c, end));
      completed := Protocol.Completed(Programs(c), end);
      if completed {
        threw := Fallible();
        completed := !threw;
      }
    }

    /** Disable and enable on the idle context, before anything is timed. */
    method Prepare() returns (completed: bool)
      requires used == NONE
      modifies this`used, this`step
      ensures used.AtMost(IdleUse(options)) && (completed ==> used == IdleUse(options))
      ensures NothingFails() ==> completed
    {
      if !Prepares(options) {
        return true;
      }
      var kind := if options.rmCase.Single? && options.rmCase.condition.ScheduleHold? then Schedule else Fifo;
      var threw := Control(kind);
      if threw { return false; }
      threw := Control(kind);
      completed := !threw;
    }

    /** The rewind experiment, which asks for whatever its cases came to ask for. */
    method RewindRun() returns (completed: bool)
      requires Possible() && Parsed(options) && IsRewind(options.rmCase) && used == IdleUse(options)
      modifies this`used, this`journal
      ensures RewindsAsAsked(options.rmCase, journal)
      ensures completed ==> |journal| == if options.rmCase.RewindPaired? then 2 + 4 * options.trials else 2 + 2 * options.trials
      ensures used.AtMost(TotalUse(options)) && (completed ==> used == TotalUse(options))
      ensures NothingFails() ==> completed
    {
      hide IdleUse, TotalUse, Rewind.Sane, Rewind.Smooth, Rewind.MustStop, Rewind.AllWell, RewindEvidence.Accepts,
           Rewind.AllPlaced, Rewind.AsPlanned, RewindsAsAsked, Rewind.Good, Rewind.AllKept, RewindEvidence.Passes,
           Rewind.CanBeRead, Rewind.AllPreserved;
      RewindTotal(options);
      var e := new Rewind.Experiment(setup.env, setup.holdMs, setup.timeoutMs, PREPARED);
      var stopped := e.Run(PlanOf(options), setup.world);
      journal := e.journal;
      PlannedIsAsked(options, journal);
      used := used.Plus(Usage(0, 0, |journal| - |PREPARED|));
      completed := !stopped;
    }

    /** Every case once, in the order of this trial. */
    method Round(cases: seq<Condition>, trial: nat) returns (completed: bool)
      requires Possible() && cases != []
      modifies this`used, this`step
      ensures used.AtMost(old(used).Plus(Rotated(cases, 0, |cases|)))
      ensures completed ==> used == old(used).Plus(Rotated(cases, 0, |cases|))
      ensures NothingFails() ==> completed
    {
      hide CaseAt, TrialUse, Rotated, NothingFails, Possible, Usage.Times;
      RotationUsesAll(cases, trial);
      RotatedSteps(cases, trial, 0);
      ghost var start := used;
      var threw := Fallible();
      if threw { return false; }
      var order := 0;
      while order < |cases|
        invariant order <= |cases| && used == start.Plus(Rotated(cases, trial, order))
      {
        OneMoreTrial(start, cases, trial, order);
        var done := Trial(CaseAt(cases, trial, order));
        if !done { return false; }
        order := order + 1;
      }
      completed := true;
    }

    /** All trials of one duration, after `first` rounds of `all`. */
    method Target(cases: seq<Condition>, ghost start: Usage, ghost first: nat, ghost all: nat) returns (completed: bool)
      requires Possible() && cases != [] && first + options.trials <= all
      requires used == start.Plus(Rotated(cases, 0, |cases|).Times(first))
      modifies this`used, this`step
      ensures used.AtMost(start.Plus(Rotated(cases, 0, |cases|).Times(all)))
      ensures completed ==> used == start.Plus(Rotated(cases, 0, |cases|).Times(first + options.trials))
      ensures NothingFails() ==> completed
    {
      hide Rotated, Possible, NothingFails, Usage.Times;
      ghost var round := Rotated(cases, 0, |cases|);
      var trial := 0;
      while trial < options.trials
        invariant trial <= options.trials && used == start.Plus(round.Times(first + trial))
      {
        FurtherFrom(start, round, first + trial, all);
        var done := Round(cases, trial);
        if !done { return false; }
        trial := trial + 1;
      }
      NoMore(round, first + options.trials, all);
      completed := true;
    }

    method TrialRun() returns (completed: bool)
      requires Possible() && Parsed(options) && !IsRewind(options.rmCase) && !options.probe && used == IdleUse(options)
      modifies this`used, this`step
      ensures used.AtMost(TotalUse(options)) && (completed ==> used == TotalUse(options))
      ensures NothingFails() ==> completed
    {
      hide IdleUse, Parsed, Rotated, Rounds, Usage.Times, Possible;
      var cases := Cases(options.rmCase);
      ghost var start, round, all := used, RoundUse(options.rmCase), Rounds(options);
      var target := 0;
      NoRounds(options, round);
      while target < options.durations
        invariant target <= options.durations && RoundsOf(options, target) <= all
        invariant used == start.Plus(round.Times(RoundsOf(options, target)))
      {
        MoreRounds(options, target);
        var done := Target(cases, start, RoundsOf(options, target), all);
        if !done { return false; }
        target := target + 1;
      }
      completed := true;
    }

    /** Every run, failing ones included, stays within the budget for every kind;
        a completed hold or rewind run uses it up exactly for its disable kind, and
        a run completes unless something fails. */
    method Run() returns (completed: bool)
      requires Possible() && Parsed(options) && used == NONE && budget == Budget(options) && journal == []
      modifies this
      ensures completed ==> used == TotalUse(options)
      ensures RewindsAsAsked(options.rmCase, journal)
      ensures completed && IsRewind(options.rmCase) ==>
                |journal| == if options.rmCase.RewindPaired? then 2 + 4 * options.trials else 2 + 2 * options.trials
      ensures forall kind :: used.Of(kind) <= budget
      ensures completed && !options.probe ==> forall kind :: Disables(options, kind) ==> used.Of(kind) == budget
      ensures NothingFails() ==> completed
    {
      hide TotalUse, Budget, Possible, NothingFails, Prepares, Disables, IdleUse, IsRewind, Parsed, RewindsAsAsked;
      EveryKind(options);
      NothingJournaled(options.rmCase);
      completed := Prepare();
      IdleFirst(options);
      if completed {
        if IsRewind(options.rmCase) {
          completed := RewindRun();
        } else if !options.probe {
          completed := TrialRun();
        }
      }
      WithinAll(used, TotalUse(options));
    }
  }

  lemma {:induction false} FifoTimes(n: nat)
    ensures Usage(0, 0, 2).Times(n) == Usage(0, 0, 2 * n)
  {
    if n > 0 {
      FifoTimes(n - 1);
    }
  }

  lemma RewindTotal(o: Options)
    requires IsRewind(o.rmCase)
    ensures TotalUse(o) == IdleUse(o).Plus(Usage(0, 0, 2 * PlanOf(o).Total()))
  {
    hide IdleUse, Usage.Times;
    FifoTimes(RewindCases(o, o.trials));
  }

  lemma IdleFirst(o: Options)
    ensures IdleUse(o).AtMost(TotalUse(o))
    ensures o.probe && !IsRewind(o.rmCase) ==> TotalUse(o) == IdleUse(o)
  {
  }

  lemma WithinAll(u: Usage, v: Usage)
    requires u.AtMost(v)
    ensures forall kind :: u.Of(kind) <= v.Of(kind)
  {
  }

  function RoundsOf(o: Options, targets: nat): nat {
    targets * o.trials
  }

  lemma NoRounds(o: Options, round: Usage)
    ensures RoundsOf(o, 0) == 0 && round.Times(0) == NONE && RoundsOf(o, o.durations) == Rounds(o)
  {
  }

  lemma MoreRounds(o: Options, targets: nat)
    requires targets < o.durations
    ensures RoundsOf(o, targets + 1) == RoundsOf(o, targets) + o.trials <= Rounds(o)
  {
    Fits(targets, o.durations, o.trials);
  }

  lemma {:induction false} NoMore(round: Usage, done: nat, all: nat)
    requires done <= all
    ensures round.Times(done).AtMost(round.Times(all))
  {
    if done < all {
      NoMore(round, done, all - 1);
    }
  }

  lemma Fits(i: nat, n: nat, width: nat)
    requires i < n
    ensures i * width + width <= n * width
  {
    assert (i + 1) * width <= n * width;
  }

  /** One more round still fits, and adds one round's use. */
  lemma {:induction false} Further(round: Usage, done: nat, all: nat)
    requires done < all
    ensures round.Times(done + 1) == round.Times(done).Plus(round)
    ensures round.Times(done).Plus(round).AtMost(round.Times(all))
  {
    if done + 1 < all {
      Further(round, done, all - 1);
    }
  }

  lemma FurtherFrom(start: Usage, round: Usage, done: nat, all: nat)
    requires done < all
    ensures start.Plus(round.Times(done)).Plus(round) == start.Plus(round.Times(done + 1))
    ensures start.Plus(round.Times(done + 1)).AtMost(start.Plus(round.Times(all)))
    ensures start.Plus(round.Times(done)).AtMost(start.Plus(round.Times(all)))
  {
    hide Usage.Times;
    Further(round, done, all);
  }

  lemma {:induction false} UpTo(cases: seq<Condition>, trial: nat, m: nat, n: nat)
    requires cases != [] && m <= n
    ensures Rotated(cases, trial, m).AtMost(Rotated(cases, trial, n))
  {
    if m < n {
      UpTo(cases, trial, m, n - 1);
    }
  }
}
