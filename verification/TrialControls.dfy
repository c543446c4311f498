/** The RM controls one trial asks for, in every interleaving of its participants. */
module TrialControls {
  import opened Protocol
  import opened Handoff
  import opened RmTrial

  datatype Kind = Preempt | Schedule | Fifo

  datatype Usage = Usage(preempt: nat, schedule: nat, fifo: nat) {
    function Of(kind: Kind): nat {
      match kind
      case Preempt => preempt
      case Schedule => schedule
      case Fifo => fifo
    }

    function Plus(u: Usage): Usage {
      Usage(preempt + u.preempt, schedule + u.schedule, fifo + u.fifo)
    }

    function Times(n: nat): Usage {
      if n == 0 then Usage(0, 0, 0) else Times(n - 1).Plus(this)
    }

    predicate AtMost(u: Usage) {
      preempt <= u.preempt && schedule <= u.schedule && fifo <= u.fifo
    }
  }

  const NONE := Usage(0, 0, 0)

  function One(kind: Kind): Usage {
    match kind
    case Preempt => Usage(1, 0, 0)
    case Schedule => Usage(0, 1, 0)
    case Fifo => Usage(0, 0, 1)
  }

  function DisableKind(c: Condition): Kind {
    if c.ScheduleHold? then Schedule else Fifo
  }

  /** Controls of one completed trial. */
  function TrialUse(c: Condition): Usage {
    match c
    case LiveHandoff => NONE
    case PreemptResume => Usage(1, 0, 0)
    case PreemptHold => Usage(1, 0, 2)
    case ScheduleHold => Usage(1, 2, 0)
    case FifoHold => Usage(0, 0, 2)
  }

  /** What the trial has asked for: a control is asked for once its begin time is
      recorded, an enable at its attempt, the handler's included. */
  function AskedFor(c: Condition, s: State): Usage {
    var disables := if DisableBegin in s.stamps then 1 else 0;
    var switches := disables + s.attempts;
    Usage(if PreemptBegin in s.stamps then 1 else 0,
          if DisableKind(c).Schedule? then switches else 0,
          if DisableKind(c).Schedule? then 0 else switches)
  }

  lemma AskedAt(c: Condition, s: State)
    requires Inv(Programs(c), FlagSetters(c), s)
    ensures PreemptBegin in s.stamps <==> Preempts(c) && Done(s, A, 13)
    ensures DisableBegin in s.stamps <==> Holds(c) && Done(s, A, 16)
  {
    hide Inv;
    if Preempts(c) {
      AStamped(c, s, PreemptBegin);
    } else {
      NotStamped(c, s, PreemptBegin);
    }
    if Holds(c) {
      AStamped(c, s, DisableBegin);
    } else {
      NotStamped(c, s, DisableBegin);
    }
  }

  /** In every interleaving, failing ones included, a trial asks for no more than a
      completed one does, and a completed one for exactly that. */
  lemma TrialStaysWithin(c: Condition, run: seq<State>, k: nat)
    requires IsRun(Programs(c), run) && k < |run|
    ensures |run[k].threads| == 3 && AskedFor(c, run[k]).AtMost(TrialUse(c))
    ensures Completed(Programs(c), run[k]) ==> AskedFor(c, run[k]) == TrialUse(c)
  {
    hide IsRun, Programs, Completed;
    DisableIsUndoneOnce(c, run, k);
    RunAccounted(c, run, k);
    AskedAt(c, run[k]);
    if Completed(Programs(c), run[k]) {
      AllDone(c, run[k]);
    }
  }

  /** The state some finished run of the trial ends in. */
  ghost predicate Outcome(c: Condition, s: State) {
    exists run :: IsRun(Programs(c), run) && EndsIn(run, s) && |s.threads| == 3 && AllFinished(Programs(c), s)
  }

  predicate EndsIn(run: seq<State>, s: State) {
    |run| > 0 && run[|run| - 1] == s
  }

  lemma OutcomeUses(c: Condition, s: State)
    requires Outcome(c, s)
    ensures |s.threads| == 3 && AskedFor(c, s).AtMost(TrialUse(c))
    ensures Completed(Programs(c), s) ==> AskedFor(c, s) == TrialUse(c)
    ensures !SomeoneThrew(s) ==> Completed(Programs(c), s)
  {
    hide IsRun, Programs, Completed, AskedFor, TrialUse, SomeoneThrew, OrderChecks, AllFinished;
    var run :| IsRun(Programs(c), run) && EndsIn(run, s) && |s.threads| == 3 && AllFinished(Programs(c), s);
    TrialStaysWithin(c, run, |run| - 1);
    RmTrialFinishes(c, run);
  }

  /** Every run can be carried on to its end, so a trial always has an outcome. */
  lemma {:induction false} HasOutcome(c: Condition, run: seq<State>)
    requires IsRun(Programs(c), run)
    ensures exists s :: Outcome(c, s)
    decreases 70 - |run|
  {
    hide Programs, OrderChecks, AllFinished, Next;
    var s := run[|run| - 1];
    RmTrialFinishes(c, run);
    if AllFinished(Programs(c), s) {
      assert EndsIn(run, s);
      assert Outcome(c, s);
    } else {
      var s' :| Next(Programs(c), s, s');
      var more := run + [s'];
      assert IsRun(Programs(c), more);
      RmTrialFinishes(c, more);
      HasOutcome(c, more);
    }
  }
}
