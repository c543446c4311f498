/** Three participants that coordinate through one-shot flags and one cancel
    flag, every interleaving of their steps, and failure at every fallible call.

    Participant 0 is context A's owner thread, 1 is B's, 2 is the controller.
    The atomics are sequentially consistent. All flags only ever go from false to
    true, so a whole `await_flag` spin is one step: it passes once the flag is
    set and nothing is cancelled, it gives up once something is cancelled, and
    until then it does nothing. */
module Protocol {

  datatype Flag = BArmed | AStarted | Invalidate | BGo | BDone

  datatype Field =
    | BReady | BTrigger | BLaunch | BComplete
    | ALaunch | AStart | InvalidateAt | InvalidateSeen | QueryBegin | QueryEnd
    | PreemptBegin | PreemptEnd | DisableBegin | DisableEnd | ControlReady
    | PostBegin | PostEnd | HoldBegin | HoldEnd | EnableBegin | EnableEnd
    | AComplete | ReuseLaunch | DestroyBegin | DestroyReturn

  /** What a participant finds out about A: whether its event is still pending, at
      each of three queries, whether its output is the reference's, whether context and
      buffer are the same ones, whether destroying its context succeeds. */
  datatype Question =
    APending | APendingAfterB | APendingAtHoldEnd | OutputMatches | SameResources | DestroySucceeds

  /** What a participant has the driver do: the begin event, the launch with its end
      event, A's start marker seen in time, B's end event reached, times and results
      read; A's preemption; A's second use; a trace mark. */
  datatype Work =
    BegunA | LaunchedA | SeenA | Preempted | TimedA | BegunAgain | RunAgain |
    BegunB | LaunchedB | ReachedB | TimedB | CheckedB | Traced

  datatype Instr =
    | Stamp(field: Field)               // field := now_ns()
    | Set(flag: Flag)
    | Await(flag: Flag, throws: bool)   // on cancellation: throw, or return silently
    | Call(work: Work)                  // a call or a check that may throw
    | Learn(question: Question)         // a call that may throw, or tells the answer
    | Demand(question: Question)        // throw unless the answer is yes
    | FinishA                           // A's end event is waited for, or throw
    | Elapse(since: Field, cancellable: bool)   // wait for the clock, or until cancelled
    | Skip                              // a branch this condition does not take
    | AcceptDisable                     // the disable control returned: accepted, or throw
    | IssueEnable                       // the enable control is attempted
    | AcceptEnable                      // it returned: accepted, or throw
    | DestroyContext
    | RecordAlive

  type Program = seq<Instr>

  datatype Phase =
    | Running
    | Failing    // an exception is in flight, `cancelled` not yet stored
    | Cleaning   // `cancelled` stored, the handler may still re-enable
    | Threw
    | Returned   // left silently after a cancelled wait

  /** `times[i]` is when instruction `i` was executed. */
  datatype Thread = Thread(times: seq<int>, phase: Phase)

  datatype State = State(
    threads: seq<Thread>, flags: set<Flag>, cancelled: bool, clock: int, stamps: map<Field, int>,
    disabled: bool, accepted: nat, attempts: nat, alive: bool, aliveAfterB: int,
    answers: set<Question>, learned: map<Question, bool>, finished: bool, waits: map<Field, int>)

  const IDLE: Thread := Thread([], Running)

  /** `answers` are the questions whose answer is going to be yes, `waits` how long to
      wait after which of the times. */
  function Start(clock: int, answers: set<Question>, waits: map<Field, int>): State {
    State([IDLE, IDLE, IDLE], {}, false, clock, map[], false, 0, 0, true, -1, answers, map[], false, waits)
  }

  /** Where each flag is stored: participant and program position. */
  type Setters = map<Flag, (nat, nat)>

  predicate Fallible(instr: Instr) {
    instr.Call? || instr.Learn? || instr.FinishA? || instr.AcceptDisable? || instr.AcceptEnable?
  }

  /** What a participant can do next: execute its instruction, throw at it, leave
      silently at a cancelled wait, or take the next step of its handler. */
  datatype Move = Proceed | Fail | GiveUp | Handle

  predicate CanMove(program: Program, thread: Thread, move: Move, s: State) {
    match thread.phase
    case Running =>
      && |thread.times| < |program|
      && var instr := program[|thread.times|];
         (match move
          case Proceed =>
            && (instr.Await? ==> !s.cancelled && instr.flag in s.flags)
            && (instr.Demand? ==> instr.question in s.answers)
          case Fail =>
            || Fallible(instr) || (instr.Await? && instr.throws && s.cancelled)
            || (instr.Demand? && instr.question !in s.answers)
          case GiveUp => instr.Await? && !instr.throws && s.cancelled
          case Handle => false)
    case Failing => move == Handle
    case Cleaning => move == Handle
    case Threw => false
    case Returned => false
  }

  predicate Allowed(programs: seq<Program>, s: State, who: nat, move: Move)
    requires |programs| == |s.threads| == 3
  {
    who < 3 && CanMove(programs[who], s.threads[who], move, s)
  }

  /** What executing an instruction at time `t` does to the shared state. */
  function Effect(instr: Instr, s: State, t: int): (s': State)
    ensures s'.threads == s.threads
  {
    match instr
    case Stamp(field) => s.(stamps := s.stamps[field := t])
    case Set(flag) => s.(flags := s.flags + {flag})
    case AcceptDisable => s.(disabled := true, accepted := s.accepted + 1)
    case IssueEnable => s.(attempts := s.attempts + 1)
    case AcceptEnable => s.(disabled := false)
    case Learn(question) => s.(learned := s.learned[question := question in s.answers])
    case FinishA => s.(finished := true)
    case DestroyContext => s.(alive := s.alive && DestroySucceeds !in s.answers)
    case RecordAlive => s.(aliveAfterB := if s.alive then 1 else 0)
    case _ => s
  }

  /** Which instructions touch the coordination, and how. */
  lemma EffectOnFlags(instr: Instr, s: State, t: int)
    ensures var s' := Effect(instr, s, t);
            && s'.threads == s.threads && s'.cancelled == s.cancelled && s'.clock == s.clock
            && s'.flags == (if instr.Set? then s.flags + {instr.flag} else s.flags)
  {
  }

  lemma EffectOnRecords(instr: Instr, s: State, t: int)
    ensures var s' := Effect(instr, s, t);
            && s'.stamps == (if instr.Stamp? then s.stamps[instr.field := t] else s.stamps)
            && s'.answers == s.answers && s'.waits == s.waits
            && s'.learned == (if instr.Learn? then s.learned[instr.question := instr.question in s.answers] else s.learned)
  {
  }

  /** Which instructions touch A's controls, and how. */
  lemma EffectOnControls(instr: Instr, s: State, t: int)
    ensures var s' := Effect(instr, s, t);
            && s'.threads == s.threads
            && s'.accepted == s.accepted + (if instr.AcceptDisable? then 1 else 0)
            && s'.attempts == s.attempts + (if instr.IssueEnable? then 1 else 0)
            && s'.disabled == (if instr.AcceptDisable? then true else if instr.AcceptEnable? then false else s.disabled)
  {
  }

  /** Which instructions touch what becomes of A, and how. */
  lemma EffectOnA(instr: Instr, s: State, t: int)
    ensures var s' := Effect(instr, s, t);
            && s'.threads == s.threads && s'.answers == s.answers
            && s'.alive == (if instr.DestroyContext? then s.alive && DestroySucceeds !in s.answers else s.alive)
            && s'.aliveAfterB == (if instr.RecordAlive? then if s.alive then 1 else 0 else s.aliveAfterB)
            && s'.finished == (instr.FinishA? || s.finished)
  {
  }

  /** A's handler undoes a known-successful disable no enable was attempted for. */
  predicate MustReenable(s: State, who: nat) {
    who == 0 && s.disabled && s.attempts == 0
  }

  function MovedThread(thread: Thread, move: Move, t: int): Thread {
    match move
    case Proceed => thread.(times := thread.times + [t])
    case Fail => thread.(phase := Failing)
    case GiveUp => thread.(phase := Returned)
    case Handle => thread.(phase := if thread.phase.Failing? then Cleaning else Threw)
  }

  function Step(programs: seq<Program>, s: State, who: nat, move: Move, t: int): (s': State)
    requires |programs| == |s.threads| == 3 && Allowed(programs, s, who, move)
    ensures |s'.threads| == 3
  {
    var thread := s.threads[who];
    var moved := s.(threads := s.threads[who := MovedThread(thread, move, t)], clock := t);
    match move
    case Proceed => Effect(programs[who][|thread.times|], moved, t)
    case Fail => moved
    case GiveUp => moved
    case Handle =>
      if thread.phase.Failing? then moved.(cancelled := true)
      else if MustReenable(s, who) then moved.(attempts := s.attempts + 1)
      else moved
  }

  /** The instruction that a step executes, if it executes one. */
  function Executed(programs: seq<Program>, s: State, who: nat, move: Move): Instr
    requires |programs| == |s.threads| == 3 && Allowed(programs, s, who, move)
  {
    if move.Proceed? then programs[who][|s.threads[who].times|] else Skip
  }

  /** When a wait for the clock that counts from this time is over. */
  function Deadline(s: State, since: Field): int {
    (if since in s.stamps then s.stamps[since] else 0) + if since in s.waits then s.waits[since] else 0
  }

  predicate WaitedFor(instr: Instr, s: State, t: int) {
    instr.Elapse? ==> Deadline(s, instr.since) <= t || (instr.cancellable && s.cancelled)
  }

  ghost predicate Next(programs: seq<Program>, s: State, s': State)
    requires |programs| == 3
  {
    && |s.threads| == 3
    && exists who, move :: Allowed(programs, s, who, move) && s.clock <= s'.clock &&
                           WaitedFor(Executed(programs, s, who, move), s, s'.clock) &&
                           s' == Step(programs, s, who, move, s'.clock)
  }

  /** `run` is a sequence of states some interleaving goes through. */
  ghost predicate IsRun(programs: seq<Program>, run: seq<State>) {
    && |programs| == 3 && |run| > 0
    && run[0] == Start(run[0].clock, run[0].answers, run[0].waits)
    && (forall k :: 0 < k < |run| ==> Next(programs, run[k - 1], run[k]))
  }

  // ----- What a well-ordered protocol is

  function Level(flag: Flag): nat {
    match flag
    case BArmed => 0
    case AStarted => 1
    case Invalidate => 2
    case BGo => 3
    case BDone => 4
  }

  predicate At(programs: seq<Program>, p: int, i: int, instr: Instr) {
    0 <= p < |programs| && 0 <= i < |programs[p]| && programs[p][i] == instr
  }

  /** Each flag has one setter, each time field one stamp, and whoever sets a flag
      waits before that only for flags of a lower level. */
  ghost predicate WellOrdered(programs: seq<Program>, setters: Setters) {
    && |programs| == 3
    && (forall f :: f in setters ==> At(programs, setters[f].0, setters[f].1, Set(f)))
    && (forall p, i, f :: At(programs, p, i, Set(f)) ==> f in setters && setters[f].0 == p && setters[f].1 == i)
    && (forall p, i, f, throws :: At(programs, p, i, Await(f, throws)) ==> f in setters)
    && (forall p, i, j, f, g, throws ::
          At(programs, p, i, Set(f)) && At(programs, p, j, Await(g, throws)) && j < i ==> Level(g) < Level(f))
    && (forall p, i, q, j, f :: At(programs, p, i, Stamp(f)) && At(programs, q, j, Stamp(f)) ==> p == q && i == j)
  }

  // ----- The invariant

  predicate Done(s: State, p: int, i: int) {
    0 <= p < |s.threads| && 0 <= i < |s.threads[p].times|
  }

  function Time(s: State, p: int, i: int): int {
    if Done(s, p, i) then s.threads[p].times[i] else 0
  }

  predicate Monotone(times: seq<int>, clock: int) {
    && (forall i, j :: 0 <= i <= j < |times| ==> times[i] <= times[j])
    && (forall i :: 0 <= i < |times| ==> times[i] <= clock)
  }

  /** A stopped participant stopped at an instruction that can stop it that way. */
  predicate StopsAt(instr: Instr, phase: Phase) {
    match phase
    case Running => true
    case Returned => instr.Await? && !instr.throws
    case _ => Fallible(instr) || instr.Demand? || (instr.Await? && instr.throws)
  }

  predicate RanPrefix(program: Program, thread: Thread, clock: int) {
    && |thread.times| <= |program|
    && Monotone(thread.times, clock)
    && (!thread.phase.Running? ==> |thread.times| < |program| && StopsAt(program[|thread.times|], thread.phase))
  }

  /** Every participant ran a prefix of its program. */
  predicate Prefixes(programs: seq<Program>, s: State)
    requires |programs| == 3
  {
    |s.threads| == 3 && forall p :: 0 <= p < 3 ==> RanPrefix(programs[p], s.threads[p], s.clock)
  }

  predicate FlagsJustified(setters: Setters, s: State) {
    forall f :: f in s.flags <==> f in setters && Done(s, setters[f].0, setters[f].1)
  }

  /** A wait that passed did so after its flag was stored. */
  ghost predicate WaitsJustified(programs: seq<Program>, setters: Setters, s: State) {
    forall p, j, f, throws :: At(programs, p, j, Await(f, throws)) && Done(s, p, j) && f in setters ==>
      && Done(s, setters[f].0, setters[f].1)
      && Time(s, setters[f].0, setters[f].1) <= Time(s, p, j)
  }

  ghost predicate StampsRecorded(programs: seq<Program>, s: State) {
    forall p, i, f :: At(programs, p, i, Stamp(f)) && Done(s, p, i) ==> f in s.stamps && s.stamps[f] == Time(s, p, i)
  }

  ghost predicate StampsExplained(programs: seq<Program>, s: State) {
    forall f :: f in s.stamps ==> exists p, i :: At(programs, p, i, Stamp(f)) && Done(s, p, i)
  }

  /** Whoever passed a demand had the answer, and what was asked is known. */
  ghost predicate AnswersJustified(programs: seq<Program>, s: State) {
    && (forall p, i, q :: At(programs, p, i, Demand(q)) && Done(s, p, i) ==> q in s.answers)
    && forall p, i, q :: At(programs, p, i, Learn(q)) && Done(s, p, i) ==>
         q in s.learned && (s.learned[q] <==> q in s.answers)
  }

  predicate Cancelling(phase: Phase) {
    phase.Cleaning? || phase.Threw?
  }

  /** `cancelled` is set exactly by a participant that failed, and nobody returns
      silently before that. */
  predicate CancelJustified(s: State)
    requires |s.threads| == 3
  {
    && (s.cancelled <==> exists p :: 0 <= p < 3 && Cancelling(s.threads[p].phase))
    && (forall p :: 0 <= p < 3 && s.threads[p].phase.Returned? ==> s.cancelled)
  }

  /** Whoever stopped at a wait was cancelled by another participant. */
  predicate CancelledByOther(programs: seq<Program>, s: State, p: nat)
    requires |programs| == |s.threads| == 3 && p < 3
  {
    var thread := s.threads[p];
    !thread.phase.Running? && |thread.times| < |programs[p]| && programs[p][|thread.times|].Await? ==>
      exists q :: 0 <= q < 3 && q != p && Cancelling(s.threads[q].phase)
  }

  ghost predicate Inv(programs: seq<Program>, setters: Setters, s: State)
    requires |programs| == 3
  {
    && |s.threads| == 3
    && Prefixes(programs, s)
    && FlagsJustified(setters, s)
    && WaitsJustified(programs, setters, s)
    && StampsRecorded(programs, s)
    && StampsExplained(programs, s)
    && AnswersJustified(programs, s)
    && CancelJustified(s)
    && (forall p :: 0 <= p < 3 ==> CancelledByOther(programs, s, p))
  }

  lemma PrefixesStep(programs: seq<Program>, s: State, who: nat, move: Move, t: int)
    requires |programs| == 3 && Prefixes(programs, s) && Allowed(programs, s, who, move) && s.clock <= t
    ensures Prefixes(programs, Step(programs, s, who, move, t))
  {
    hide Step, RanPrefix, MovedThread;
    var s' := Step(programs, s, who, move, t);
    StepThreads(programs, s, who, move, t);
    forall p | 0 <= p < 3 ensures RanPrefix(programs[p], s'.threads[p], t) {
      assert RanPrefix(programs[p], s.threads[p], s.clock);
      RunsOn(programs[p], s.threads[p], s.clock, t);
      if p == who {
        MovesOn(programs[p], s.threads[p], move, s, t);
      }
    }
  }

  lemma StepThreads(programs: seq<Program>, s: State, who: nat, move: Move, t: int)
    requires |programs| == |s.threads| == 3 && Allowed(programs, s, who, move)
    ensures var s' := Step(programs, s, who, move, t);
            && s'.threads == s.threads[who := MovedThread(s.threads[who], move, t)] && s'.clock == t
            && s'.cancelled == (s.cancelled || (move.Handle? && s.threads[who].phase.Failing?))
  {
    hide Effect, MovedThread;
    var moved := s.(threads := s.threads[who := MovedThread(s.threads[who], move, t)], clock := t);
    if move.Proceed? {
      EffectOnFlags(programs[who][|s.threads[who].times|], moved, t);
    }
  }

  lemma StepFlags(programs: seq<Program>, s: State, who: nat, move: Move, t: int)
    requires |programs| == |s.threads| == 3 && Allowed(programs, s, who, move)
    ensures var s', pc := Step(programs, s, who, move, t), |s.threads[who].times|;
            s'.flags == if move.Proceed? && programs[who][pc].Set? then s.flags + {programs[who][pc].flag} else s.flags
  {
    hide Effect, MovedThread;
    var moved := s.(threads := s.threads[who := MovedThread(s.threads[who], move, t)], clock := t);
    if move.Proceed? {
      EffectOnFlags(programs[who][|s.threads[who].times|], moved, t);
    }
  }

  lemma RunsOn(program: Program, thread: Thread, clock: int, t: int)
    requires RanPrefix(program, thread, clock) && clock <= t
    ensures RanPrefix(program, thread, t)
  {
  }

  lemma MovesOn(program: Program, thread: Thread, move: Move, s: State, t: int)
    requires RanPrefix(program, thread, s.clock) && CanMove(program, thread, move, s) && s.clock <= t
    ensures RanPrefix(program, MovedThread(thread, move, t), t)
  {
  }

  /** Executed instructions stay executed; at most one is added, at time `t`. */
  lemma DoneStep(programs: seq<Program>, s: State, who: nat, move: Move, t: int)
    requires |programs| == |s.threads| == 3 && Allowed(programs, s, who, move)
    ensures var s' := Step(programs, s, who, move, t);
            && |s'.threads| == 3
            && (forall p, i :: Done(s, p, i) ==> Done(s', p, i) && Time(s', p, i) == Time(s, p, i))
            && (forall p, i :: Done(s', p, i) && !Done(s, p, i) ==>
                  move.Proceed? && p == who && i == |s.threads[who].times| && Time(s', p, i) == t)
            && (move.Proceed? ==> Done(s', who, |s.threads[who].times|))
  {
    StepThreads(programs, s, who, move, t);
    hide Step;
  }

  lemma FlagsStep(programs: seq<Program>, setters: Setters, s: State, who: nat, move: Move, t: int)
    requires |programs| == 3 && WellOrdered(programs, setters) && Inv(programs, setters, s)
    requires Allowed(programs, s, who, move)
    ensures FlagsJustified(setters, Step(programs, s, who, move, t))
  {
    hide Time, WaitsJustified, StampsRecorded, StampsExplained, CancelJustified, Prefixes, AnswersJustified;
    DoneStep(programs, s, who, move, t);
    StepFlags(programs, s, who, move, t);
    hide Step;
    if move.Proceed? {
      var pc := |s.threads[who].times|;
      assert At(programs, who, pc, programs[who][pc]);
    }
  }

  lemma WaitsStep(programs: seq<Program>, setters: Setters, s: State, who: nat, move: Move, t: int)
    requires |programs| == 3 && WellOrdered(programs, setters) && Inv(programs, setters, s)
    requires Allowed(programs, s, who, move) && s.clock <= t
    ensures WaitsJustified(programs, setters, Step(programs, s, who, move, t))
  {
    var s' := Step(programs, s, who, move, t);
    DoneStep(programs, s, who, move, t);
    forall p, j, f, throws | At(programs, p, j, Await(f, throws)) && Done(s', p, j) && f in setters
      ensures Done(s', setters[f].0, setters[f].1)
      ensures Time(s', setters[f].0, setters[f].1) <= Time(s', p, j)
    {
      if !Done(s, p, j) {
        assert f in s.flags;
        assert RanPrefix(programs[setters[f].0], s.threads[setters[f].0], s.clock);
      }
    }
  }

  lemma StampStep(programs: seq<Program>, s: State, who: nat, move: Move, t: int)
    requires |programs| == |s.threads| == 3 && Allowed(programs, s, who, move)
    ensures var pc := |s.threads[who].times|;
            Step(programs, s, who, move, t).stamps ==
              if move.Proceed? && programs[who][pc].Stamp? then s.stamps[programs[who][pc].field := t] else s.stamps
    ensures Step(programs, s, who, move, t).waits == s.waits
  {
    hide Effect, MovedThread;
    var moved := s.(threads := s.threads[who := MovedThread(s.threads[who], move, t)], clock := t);
    if move.Proceed? {
      EffectOnRecords(programs[who][|s.threads[who].times|], moved, t);
    }
  }

  lemma StepOnA(programs: seq<Program>, s: State, who: nat, move: Move, t: int)
    requires |programs| == |s.threads| == 3 && Allowed(programs, s, who, move)
    ensures var s', instr := Step(programs, s, who, move, t), Executed(programs, s, who, move);
            && s'.answers == s.answers
            && s'.alive == (if instr.DestroyContext? then s.alive && DestroySucceeds !in s.answers else s.alive)
            && s'.aliveAfterB == (if instr.RecordAlive? then if s.alive then 1 else 0 else s.aliveAfterB)
            && s'.finished == (instr.FinishA? || s.finished)
  {
    hide Effect, MovedThread;
    var moved := s.(threads := s.threads[who := MovedThread(s.threads[who], move, t)], clock := t);
    if move.Proceed? {
      EffectOnA(programs[who][|s.threads[who].times|], moved, t);
    }
  }

  lemma StepOnControls(programs: seq<Program>, s: State, who: nat, move: Move, t: int)
    requires |programs| == |s.threads| == 3 && Allowed(programs, s, who, move)
    ensures var s', instr := Step(programs, s, who, move, t), Executed(programs, s, who, move);
            var again := move.Handle? && s.threads[who].phase.Cleaning? && MustReenable(s, who);
            && s'.accepted == s.accepted + (if instr.AcceptDisable? then 1 else 0)
            && s'.attempts == s.attempts + (if instr.IssueEnable? || again then 1 else 0)
            && s'.disabled == (if instr.AcceptDisable? then true else if instr.AcceptEnable? then false else s.disabled)
  {
    hide Effect, MovedThread, MustReenable;
    var moved := s.(threads := s.threads[who := MovedThread(s.threads[who], move, t)], clock := t);
    if move.Proceed? {
      EffectOnControls(programs[who][|s.threads[who].times|], moved, t);
    }
  }

  lemma StampsStep(programs: seq<Program>, setters: Setters, s: State, who: nat, move: Move, t: int)
    requires |programs| == |s.threads| == 3 && WellOrdered(programs, setters) && Allowed(programs, s, who, move)
    requires StampsRecorded(programs, s) && StampsExplained(programs, s)
    ensures StampsRecorded(programs, Step(programs, s, who, move, t))
    ensures StampsExplained(programs, Step(programs, s, who, move, t))
  {
    RecordedStep(programs, setters, s, who, move, t);
    ExplainedStep(programs, s, who, move, t);
  }

  lemma RecordedStep(programs: seq<Program>, setters: Setters, s: State, who: nat, move: Move, t: int)
    requires |programs| == |s.threads| == 3 && WellOrdered(programs, setters) && Allowed(programs, s, who, move)
    requires StampsRecorded(programs, s)
    ensures StampsRecorded(programs, Step(programs, s, who, move, t))
  {
    DoneStep(programs, s, who, move, t);
    StampStep(programs, s, who, move, t);
    hide Step, Allowed;
    if move.Proceed? {
      var pc := |s.threads[who].times|;
      assert At(programs, who, pc, programs[who][pc]);
    }
  }

  lemma ExplainedStep(programs: seq<Program>, s: State, who: nat, move: Move, t: int)
    requires |programs| == |s.threads| == 3 && Allowed(programs, s, who, move) && StampsExplained(programs, s)
    ensures StampsExplained(programs, Step(programs, s, who, move, t))
  {
    DoneStep(programs, s, who, move, t);
    StampStep(programs, s, who, move, t);
    var s' := Step(programs, s, who, move, t);
    hide Step;
    var pc := |s.threads[who].times|;
    if move.Proceed? {
      assert At(programs, who, pc, programs[who][pc]) && Done(s', who, pc);
    }
    forall f | f in s'.stamps ensures exists p, i :: At(programs, p, i, Stamp(f)) && Done(s', p, i) {
      if f in s.stamps {
        var p, i :| At(programs, p, i, Stamp(f)) && Done(s, p, i);
        assert Done(s', p, i);
      }
    }
  }

  lemma AnswersStay(programs: seq<Program>, s: State, who: nat, move: Move, t: int)
    requires |programs| == |s.threads| == 3 && Allowed(programs, s, who, move)
    ensures var s', pc := Step(programs, s, who, move, t), |s.threads[who].times|;
            && s'.answers == s.answers
            && s'.learned == (if move.Proceed? && programs[who][pc].Learn?
                              then s.learned[programs[who][pc].question := programs[who][pc].question in s.answers]
                              else s.learned)
    ensures move.Proceed? && programs[who][|s.threads[who].times|].Demand? ==>
              programs[who][|s.threads[who].times|].question in s.answers
  {
    hide Effect, MovedThread;
    var moved := s.(threads := s.threads[who := MovedThread(s.threads[who], move, t)], clock := t);
    if move.Proceed? {
      EffectOnRecords(programs[who][|s.threads[who].times|], moved, t);
    }
  }

  lemma AnswersStep(programs: seq<Program>, s: State, who: nat, move: Move, t: int)
    requires |programs| == |s.threads| == 3 && Allowed(programs, s, who, move) && AnswersJustified(programs, s)
    ensures AnswersJustified(programs, Step(programs, s, who, move, t))
  {
    DoneStep(programs, s, who, move, t);
    AnswersStay(programs, s, who, move, t);
    hide Step, Allowed;
    if move.Proceed? {
      var pc := |s.threads[who].times|;
      assert At(programs, who, pc, programs[who][pc]);
    }
  }

  lemma CancelStep(programs: seq<Program>, setters: Setters, s: State, who: nat, move: Move, t: int)
    requires |programs| == |s.threads| == 3 && CancelJustified(s) && Allowed(programs, s, who, move)
    ensures CancelJustified(Step(programs, s, who, move, t))
  {
    var s' := Step(programs, s, who, move, t);
    StepThreads(programs, s, who, move, t);
    hide Step;
    assert forall p :: 0 <= p < 3 && p != who ==> s'.threads[p] == s.threads[p];
    assert s'.threads[who] == MovedThread(s.threads[who], move, t);
    if p :| 0 <= p < 3 && Cancelling(s.threads[p].phase) {
      assert Cancelling(s'.threads[p].phase);
    }
  }

  lemma OthersStep(programs: seq<Program>, s: State, who: nat, move: Move, t: int, p: nat)
    requires |programs| == |s.threads| == 3 && CancelJustified(s) && Allowed(programs, s, who, move) && p < 3
    requires CancelledByOther(programs, s, p)
    ensures CancelledByOther(programs, Step(programs, s, who, move, t), p)
  {
    var s' := Step(programs, s, who, move, t);
    StepThreads(programs, s, who, move, t);
    hide Step;
    if q :| 0 <= q < 3 && q != p && Cancelling(s.threads[q].phase) {
      assert Cancelling(s'.threads[q].phase);
    }
  }

  lemma InvStep(programs: seq<Program>, setters: Setters, s: State, who: nat, move: Move, t: int)
    requires |programs| == 3 && WellOrdered(programs, setters) && Inv(programs, setters, s)
    requires Allowed(programs, s, who, move) && s.clock <= t
    ensures Inv(programs, setters, Step(programs, s, who, move, t))
  {
    hide Step, FlagsJustified, WaitsJustified, StampsRecorded, StampsExplained, CancelJustified, Prefixes, WellOrdered,
         CancelledByOther, Allowed, AnswersJustified;
    AnswersStep(programs, s, who, move, t);
    PrefixesStep(programs, s, who, move, t);
    FlagsStep(programs, setters, s, who, move, t);
    WaitsStep(programs, setters, s, who, move, t);
    StampsStep(programs, setters, s, who, move, t);
    CancelStep(programs, setters, s, who, move, t);
    DoneStep(programs, s, who, move, t);
    forall p | 0 <= p < 3 ensures CancelledByOther(programs, Step(programs, s, who, move, t), p) {
      OthersStep(programs, s, who, move, t, p);
    }
  }

  lemma {:induction false} RunInvariant(programs: seq<Program>, setters: Setters, run: seq<State>, k: nat)
    requires WellOrdered(programs, setters) && IsRun(programs, run) && k < |run|
    ensures Inv(programs, setters, run[k])
  {
    if k == 0 {
      hide WellOrdered;
    } else {
      hide WellOrdered, Inv, Step, Allowed;
      RunInvariant(programs, setters, run, k - 1);
      var s, s' := run[k - 1], run[k];
      assert Next(programs, s, s');
      var who, move :| Allowed(programs, s, who, move) && s.clock <= s'.clock && s' == Step(programs, s, who, move, s'.clock);
      InvStep(programs, setters, s, who, move, s'.clock);
    }
  }

  // ----- Order

  /** If a wait of participant `p` for flag `f` precedes its instruction `j`, then
      whatever `f`'s setter did up to the store happened before `j`. */
  lemma HappensBefore(programs: seq<Program>, setters: Setters, s: State, i: nat, f: Flag, p: nat, w: nat, j: nat,
                      throws: bool)
    requires |programs| == 3 && Inv(programs, setters, s)
    requires At(programs, p, w, Await(f, throws)) && w <= j && Done(s, p, j)
    requires f in setters && i <= setters[f].1
    ensures Done(s, setters[f].0, i) && Time(s, setters[f].0, i) <= Time(s, p, j)
  {
    var q := setters[f].0;
    assert RanPrefix(programs[p], s.threads[p], s.clock);
    assert Done(s, p, w);
    assert RanPrefix(programs[q], s.threads[q], s.clock);
  }

  lemma ProgramOrder(programs: seq<Program>, setters: Setters, s: State, p: nat, i: nat, j: nat)
    requires |programs| == 3 && Inv(programs, setters, s) && i <= j && Done(s, p, j)
    ensures Done(s, p, i) && Time(s, p, i) <= Time(s, p, j)
  {
    assert RanPrefix(programs[p], s.threads[p], s.clock);
  }

  /** A wait threw at that participant. */
  predicate FailedAtWait(programs: seq<Program>, s: State, p: int)
    requires |programs| == |s.threads| == 3 && 0 <= p < 3
  {
    var thread := s.threads[p];
    && !thread.phase.Running? && !thread.phase.Returned?
    && |thread.times| < |programs[p]| && programs[p][|thread.times|].Await?
  }

  // ----- What records attest

  ghost predicate Made(programs: seq<Program>, s: State, p: int, work: Work) {
    exists i :: At(programs, p, i, Call(work)) && Done(s, p, i)
  }

  lemma MadeAt(programs: seq<Program>, s: State, p: int, i: int, work: Work)
    requires At(programs, p, i, Call(work)) && forall j :: At(programs, p, j, Call(work)) ==> j == i
    ensures Made(programs, s, p, work) <==> Done(s, p, i)
  {
  }

  lemma NeverMade(programs: seq<Program>, s: State, p: int, work: Work)
    requires forall j :: !At(programs, p, j, Call(work))
    ensures !Made(programs, s, p, work)
  {
  }

  lemma StampedAt(programs: seq<Program>, setters: Setters, s: State, p: int, i: int, f: Field)
    requires |programs| == 3 && WellOrdered(programs, setters) && Inv(programs, setters, s)
    requires At(programs, p, i, Stamp(f))
    ensures f in s.stamps <==> Done(s, p, i)
    ensures f in s.stamps ==> s.stamps[f] == Time(s, p, i)
  {
    hide At;
  }

  lemma StoredAt(programs: seq<Program>, setters: Setters, s: State, f: Flag)
    requires |programs| == 3 && Inv(programs, setters, s) && f in setters
    ensures f in s.flags <==> Done(s, setters[f].0, setters[f].1)
  {
  }

  /** Whoever is past a wait for the clock found the time it counts from recorded. */
  ghost predicate StampedBefore(programs: seq<Program>, s: State) {
    forall p, i, f, early :: At(programs, p, i, Elapse(f, early)) && Reached(s, p, i) ==> f in s.stamps
  }

  predicate Reached(s: State, p: int, i: int) {
    0 <= p < |s.threads| && 0 <= i <= |s.threads[p].times|
  }

  /** A wait for the clock ended late enough, or was cancelled. */
  ghost predicate WaitsElapsed(programs: seq<Program>, s: State) {
    forall p, i, f, early :: At(programs, p, i, Elapse(f, early)) && Done(s, p, i) ==>
      Deadline(s, f) <= Time(s, p, i) || (early && s.cancelled)
  }

  lemma DeadlineStays(programs: seq<Program>, setters: Setters, s: State, who: nat, move: Move, t: int, f: Field)
    requires |programs| == 3 && WellOrdered(programs, setters) && Inv(programs, setters, s)
    requires Allowed(programs, s, who, move) && f in s.stamps
    ensures Deadline(Step(programs, s, who, move, t), f) == Deadline(s, f)
  {
    StampStep(programs, s, who, move, t);
    var pc := |s.threads[who].times|;
    if move.Proceed? && programs[who][pc] == Stamp(f) {
      assert At(programs, who, pc, Stamp(f));
      StampedAt(programs, setters, s, who, pc, f);
    }
  }

  lemma ElapsedStep(programs: seq<Program>, setters: Setters, s: State, who: nat, move: Move, t: int)
    requires |programs| == 3 && WellOrdered(programs, setters) && Inv(programs, setters, s)
    requires Allowed(programs, s, who, move) && WaitedFor(Executed(programs, s, who, move), s, t)
    requires StampedBefore(programs, s) && WaitsElapsed(programs, s)
    ensures WaitsElapsed(programs, Step(programs, s, who, move, t))
  {
    var s' := Step(programs, s, who, move, t);
    DoneStep(programs, s, who, move, t);
    StepThreads(programs, s, who, move, t);
    hide Step, WellOrdered, Inv, Deadline, Time;
    forall p, i, f, early | At(programs, p, i, Elapse(f, early)) && Done(s', p, i)
      ensures Deadline(s', f) <= Time(s', p, i) || (early && s'.cancelled)
    {
      assert Reached(s, p, i);
      DeadlineStays(programs, setters, s, who, move, t, f);
    }
  }

  lemma {:induction false} RunElapsed(programs: seq<Program>, setters: Setters, run: seq<State>, k: nat)
    requires WellOrdered(programs, setters) && IsRun(programs, run) && k < |run|
    requires forall j :: 0 <= j < k ==> StampedBefore(programs, run[j])
    ensures WaitsElapsed(programs, run[k])
  {
    hide WellOrdered, Inv, Step, Allowed, StampedBefore, WaitedFor, Executed;
    if k > 0 {
      hide WaitsElapsed;
      RunElapsed(programs, setters, run, k - 1);
      RunInvariant(programs, setters, run, k - 1);
      var s, s' := run[k - 1], run[k];
      assert Next(programs, s, s');
      var who, move :| Allowed(programs, s, who, move) && s.clock <= s'.clock &&
                       WaitedFor(Executed(programs, s, who, move), s, s'.clock) && s' == Step(programs, s, who, move, s'.clock);
      ElapsedStep(programs, setters, s, who, move, s'.clock);
    }
  }

  // ----- Progress

  predicate Finished(programs: seq<Program>, s: State, p: nat)
    requires |programs| == |s.threads| == 3 && p < 3
  {
    match s.threads[p].phase
    case Running => |s.threads[p].times| == |programs[p]|
    case Threw => true
    case Returned => true
    case _ => false
  }

  predicate Completed(programs: seq<Program>, s: State)
    requires |programs| == |s.threads| == 3
  {
    forall p :: 0 <= p < 3 ==> s.threads[p].phase.Running? && |s.threads[p].times| == |programs[p]|
  }

  /** A wait on an unset flag leads, flag level by flag level, to a participant
      that can move. */
  lemma {:induction false} SetterCanMove(programs: seq<Program>, setters: Setters, s: State, f: Flag)
    returns (who: nat, move: Move)
    requires |programs| == 3 && WellOrdered(programs, setters) && Inv(programs, setters, s)
    requires !s.cancelled && f in setters && f !in s.flags
    requires forall p :: 0 <= p < 3 ==> s.threads[p].phase.Running?
    ensures Allowed(programs, s, who, move)
    decreases Level(f)
  {
    who, move := setters[f].0, Proceed;
    var pc := |s.threads[who].times|;
    assert RanPrefix(programs[who], s.threads[who], s.clock);
    assert At(programs, who, setters[f].1, Set(f)) && !Done(s, who, setters[f].1);
    var instr := programs[who][pc];
    assert At(programs, who, pc, instr);
    if instr.Await? && instr.flag !in s.flags {
      who, move := SetterCanMove(programs, setters, s, instr.flag);
    } else {
      move := Ahead(instr, s);
    }
  }

  /** How a participant that does not wait goes on. */
  function Ahead(instr: Instr, s: State): Move {
    if instr.Demand? && instr.question !in s.answers then Fail else Proceed
  }

  /** No deadlock: while someone is unfinished, someone can make a non-spin step. */
  lemma SomeoneCanMove(programs: seq<Program>, setters: Setters, s: State, p: nat)
    returns (who: nat, move: Move)
    requires |programs| == 3 && WellOrdered(programs, setters) && Inv(programs, setters, s)
    requires p < 3 && !Finished(programs, s, p)
    ensures Allowed(programs, s, who, move)
  {
    if q :| 0 <= q < 3 && (s.threads[q].phase.Failing? || s.threads[q].phase.Cleaning?) {
      who, move := q, Handle;
    } else {
      var pc := |s.threads[p].times|;
      assert RanPrefix(programs[p], s.threads[p], s.clock);
      var instr := programs[p][pc];
      assert At(programs, p, pc, instr);
      if s.cancelled {
        who, move := p, if !instr.Await? then Ahead(instr, s) else if instr.throws then Fail else GiveUp;
      } else {
        forall q | 0 <= q < 3 ensures s.threads[q].phase.Running? {
          assert !Cancelling(s.threads[q].phase);
        }
        if instr.Await? && instr.flag !in s.flags {
          who, move := SetterCanMove(programs, setters, s, instr.flag);
        } else {
          who, move := p, Ahead(instr, s);
        }
      }
    }
  }

  function Rank(program: Program, thread: Thread): int {
    match thread.phase
    case Running => |program| - |thread.times| + 3
    case Failing => 2
    case Cleaning => 1
    case _ => 0
  }

  /** Non-spin steps still to come, at most. */
  function Remaining(programs: seq<Program>, s: State): int
    requires |programs| == |s.threads| == 3
  {
    Rank(programs[0], s.threads[0]) + Rank(programs[1], s.threads[1]) + Rank(programs[2], s.threads[2])
  }

  lemma RankDecreases(programs: seq<Program>, s: State, who: nat, move: Move, t: int)
    requires |programs| == |s.threads| == 3 && Allowed(programs, s, who, move)
    ensures |Step(programs, s, who, move, t).threads| == 3
    ensures Remaining(programs, Step(programs, s, who, move, t)) < Remaining(programs, s)
  {
    StepThreads(programs, s, who, move, t);
    hide Step;
  }

  lemma {:induction false} RunIsBounded(programs: seq<Program>, run: seq<State>, k: nat)
    requires IsRun(programs, run) && k < |run|
    ensures |run[k].threads| == 3
    ensures k + Remaining(programs, run[k]) <= |programs[0]| + |programs[1]| + |programs[2]| + 9
  {
    if k != 0 {
      RunIsBounded(programs, run, k - 1);
      var s, s' := run[k - 1], run[k];
      assert Next(programs, s, s');
      var who, move :| Allowed(programs, s, who, move) && s.clock <= s'.clock && s' == Step(programs, s, who, move, s'.clock);
      hide Step;
      RankDecreases(programs, s, who, move, s'.clock);
    }
  }

  predicate AllFinished(programs: seq<Program>, s: State)
    requires |programs| == |s.threads| == 3
  {
    forall p :: 0 <= p < 3 ==> Finished(programs, s, p)
  }

  predicate SomeoneThrew(s: State) {
    exists p :: 0 <= p < |s.threads| && s.threads[p].phase.Threw?
  }

  lemma FinishedOutcome(programs: seq<Program>, s: State)
    requires |programs| == |s.threads| == 3 && CancelJustified(s) && AllFinished(programs, s)
    ensures if s.cancelled then SomeoneThrew(s) else Completed(programs, s)
  {
    if s.cancelled {
      var p :| 0 <= p < 3 && Cancelling(s.threads[p].phase);
      assert Finished(programs, s, p);
    } else {
      forall p | 0 <= p < 3
        ensures s.threads[p].phase.Running? && |s.threads[p].times| == |programs[p]|
      {
        assert Finished(programs, s, p) && !Cancelling(s.threads[p].phase);
      }
    }
  }

  function LateEnough(instr: Instr, s: State): (t: int)
    ensures s.clock <= t && WaitedFor(instr, s, t)
  {
    if instr.Elapse? && s.clock < Deadline(s, instr.since) then Deadline(s, instr.since) else s.clock
  }

  /** Every run is finite, it can be continued until all three participants have
      finished, and at that point a silent return always comes with an exception
      that the controller rethrows. */
  lemma ProtocolFinishes(programs: seq<Program>, setters: Setters, run: seq<State>)
    requires WellOrdered(programs, setters) && IsRun(programs, run)
    ensures |run| <= |programs[0]| + |programs[1]| + |programs[2]| + 10
    ensures var s := run[|run| - 1];
            && |s.threads| == 3
            && if AllFinished(programs, s) then Completed(programs, s) || SomeoneThrew(s)
               else exists s' :: Next(programs, s, s')
  {
    hide WellOrdered, WaitsJustified, StampsRecorded, StampsExplained, FlagsJustified, AnswersJustified, Completed;
    var n := |run| - 1;
    var s := run[n];
    RunIsBounded(programs, run, n);
    RunInvariant(programs, setters, run, n);
    forall p | 0 <= p < 3 ensures 0 <= Rank(programs[p], s.threads[p]) {
      assert RanPrefix(programs[p], s.threads[p], s.clock);
    }
    if AllFinished(programs, s) {
      FinishedOutcome(programs, s);
    }
    if p :| 0 <= p < 3 && !Finished(programs, s, p) {
      var who, move := SomeoneCanMove(programs, setters, s, p);
      var t := LateEnough(Executed(programs, s, who, move), s);
      StepThreads(programs, s, who, move, t);
      hide Step, Allowed, Executed, WaitedFor;
      assert Next(programs, s, Step(programs, s, who, move, t));
    }
  }
}
