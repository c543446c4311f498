/** `takeover`: the serial paths that destroy A first, live handoff, and the idle
    baseline. */
module Takeover {
  import opened Protocol
  import opened Handoff

  datatype Action = Destroy | WaitThenDestroy | LiveHandoff | IdleBaseline

  predicate KeepsA(c: Action) {
    c.LiveHandoff? || c.IdleBaseline?
  }

  const A_LENGTH: nat := 27

  function AInstr(c: Action, i: nat): Instr {
    match i
    case 0 => Await(BArmed, false)
    case 1 => When(!c.IdleBaseline?, Call(BegunA))              // begin event
    case 2 => When(!c.IdleBaseline?, Stamp(ALaunch))
    case 3 => When(!c.IdleBaseline?, Call(LaunchedA))           // launch, end event
    case 4 => When(!c.IdleBaseline?, Call(SeenA))               // start marker seen in time
    case 5 => When(!c.IdleBaseline?, Stamp(AStart))
    case 6 => Set(AStarted)
    case 7 => Await(Invalidate, false)
    case 8 => Stamp(InvalidateSeen)
    case 9 => Stamp(QueryBegin)
    case 10 => Stamp(QueryEnd)
    case 11 => Learn(APending)                                  // query result
    case 12 => When(KeepsA(c), Await(BDone, false))
    case 13 => When(KeepsA(c), Stamp(PostBegin))
    case 14 => When(KeepsA(c), Stamp(PostEnd))
    case 15 => When(KeepsA(c), Learn(APendingAfterB))           // query result
    case 16 => When(KeepsA(c), RecordAlive)
    case 17 => When(c.LiveHandoff?, FinishA)                    // end event reached
    case 18 => When(c.LiveHandoff?, Stamp(AComplete))
    case 19 => When(c.LiveHandoff?, Call(TimedA))               // elapsed time, first output
    case 20 => When(c.WaitThenDestroy?, FinishA)                // end event reached
    case 21 => When(!KeepsA(c), Stamp(DestroyBegin))
    case 22 => When(!KeepsA(c), DestroyContext)
    case 23 => When(!KeepsA(c), Stamp(DestroyReturn))
    case 24 => When(!KeepsA(c), Demand(DestroySucceeds))        // destroy succeeded
    case 25 => When(!KeepsA(c), RecordAlive)
    case 26 => When(!KeepsA(c), Set(BGo))
    case _ => Skip
  }

  function Programs(c: Action): (r: seq<Program>)
    ensures |r| == 3 && |r[A]| == A_LENGTH && |r[B]| == B_LENGTH && |r[C]| == C_LENGTH
    ensures forall i :: 0 <= i < A_LENGTH ==> r[A][i] == AInstr(c, i)
    ensures forall i :: 0 <= i < B_LENGTH ==> r[B][i] == BInstr(i)
    ensures forall i :: 0 <= i < C_LENGTH ==> r[C][i] == CInstr(!c.IdleBaseline?, false, KeepsA(c), i)
  {
    [seq(A_LENGTH, i requires i >= 0 => AInstr(c, i)),
     seq(B_LENGTH, i requires i >= 0 => BInstr(i)),
     seq(C_LENGTH, i requires i >= 0 => CInstr(!c.IdleBaseline?, false, KeepsA(c), i))]
  }

  function FlagSetters(c: Action): Setters {
    map[BArmed := (B, 1), AStarted := (A, 6), Invalidate := (C, 4),
        BGo := if KeepsA(c) then (C, 5) else (A, 26), BDone := (B, 9)]
  }

  /** Where each time field is stamped. */
  function Place(field: Field): (nat, nat) {
    match field
    case BReady => (B, 0)
    case BTrigger => (B, 3)
    case BLaunch => (B, 5)
    case BComplete => (B, 8)
    case ALaunch => (A, 2)
    case AStart => (A, 5)
    case InvalidateAt => (C, 2)
    case InvalidateSeen => (A, 8)
    case QueryBegin => (A, 9)
    case QueryEnd => (A, 10)
    case PostBegin => (A, 13)
    case PostEnd => (A, 14)
    case AComplete => (A, 18)
    case DestroyBegin => (A, 21)
    case DestroyReturn => (A, 23)
    case _ => (3, 0)
  }

  /** Which time fields an action stamps at all. */
  predicate Taken(c: Action, f: Field) {
    match f
    case ALaunch => !c.IdleBaseline?
    case AStart => !c.IdleBaseline?
    case PostBegin => KeepsA(c)
    case PostEnd => KeepsA(c)
    case AComplete => c.LiveHandoff?
    case DestroyBegin => !KeepsA(c)
    case DestroyReturn => !KeepsA(c)
    case _ => Place(f).0 < 3
  }

  predicate Stamped(c: Action, f: Field) {
    At(Programs(c), Place(f).0, Place(f).1, Stamp(f))
  }

  /** Instruction `i` of participant `p`, without the programs around it. */
  function InstrAt(c: Action, p: int, i: nat): Instr {
    if p == A then AInstr(c, i) else if p == B then BInstr(i) else CInstr(!c.IdleBaseline?, false, KeepsA(c), i)
  }

  function LengthOf(p: int): nat {
    if p == A then A_LENGTH else if p == B then B_LENGTH else C_LENGTH
  }

  lemma AtIs(c: Action, p: int, i: int, instr: Instr)
    ensures At(Programs(c), p, i, instr) <==> 0 <= p < 3 && 0 <= i < LengthOf(p) && InstrAt(c, p, i) == instr
  {
    hide AInstr, BInstr, CInstr;
  }

  lemma StampedIffTaken(c: Action, f: Field)
    ensures Stamped(c, f) <==> Taken(c, f)
  {
    hide At, Programs;
    AtIs(c, Place(f).0, Place(f).1, Stamp(f));
  }

  lemma StampPlace(c: Action, p: int, i: int, f: Field)
    requires At(Programs(c), p, i, Stamp(f))
    ensures p == Place(f).0 && i == Place(f).1
  {
    hide At, Programs, AInstr, BInstr, CInstr, Place;
    AtIs(c, p, i, Stamp(f));
    if p == A {
      AStampPlace(c, i, f);
    } else {
      OtherStampPlace(c, i, f);
    }
  }

  lemma AStampPlace(c: Action, i: nat, f: Field)
    requires AInstr(c, i) == Stamp(f)
    ensures Place(f) == (A, i)
  {
    hide KeepsA;
    if i < 9 {
    } else if i < 15 {
    } else {
    }
  }

  lemma OtherStampPlace(c: Action, i: nat, f: Field)
    ensures BInstr(i) == Stamp(f) ==> Place(f) == (B, i)
    ensures CInstr(!c.IdleBaseline?, false, KeepsA(c), i) == Stamp(f) ==> Place(f) == (C, i)
  {
  }

  lemma SetPlace(c: Action, p: int, i: int, f: Flag)
    requires At(Programs(c), p, i, Set(f))
    ensures f in FlagSetters(c) && p == FlagSetters(c)[f].0 && i == FlagSetters(c)[f].1
  {
    hide At, Programs;
    AtIs(c, p, i, Set(f));
  }

  lemma AwaitPlace(c: Action, p: int, i: int, f: Flag, throws: bool)
    requires At(Programs(c), p, i, Await(f, throws))
    ensures (p == A && i == 0 && f == BArmed) || (p == A && i == 7 && f == Invalidate) ||
            (p == A && i == 12 && f == BDone && KeepsA(c)) ||
            (p == B && i == 2 && f == BGo) || (p == C && i == 0 && f == AStarted)
  {
    hide At, Programs;
    AtIs(c, p, i, Await(f, throws));
  }

  lemma SettersSet(c: Action)
    ensures forall f :: f in FlagSetters(c) ==> At(Programs(c), FlagSetters(c)[f].0, FlagSetters(c)[f].1, Set(f))
  {
    hide At, Programs;
    forall f | f in FlagSetters(c) ensures At(Programs(c), FlagSetters(c)[f].0, FlagSetters(c)[f].1, Set(f)) {
      AtIs(c, FlagSetters(c)[f].0, FlagSetters(c)[f].1, Set(f));
    }
  }

  lemma IsWellOrdered(c: Action)
    ensures WellOrdered(Programs(c), FlagSetters(c))
  {
    hide Programs, At, Place;
    var programs := Programs(c);
    SettersSet(c);
    forall p, i, f | At(programs, p, i, Set(f))
      ensures f in FlagSetters(c) && FlagSetters(c)[f].0 == p && FlagSetters(c)[f].1 == i
    {
      SetPlace(c, p, i, f);
    }
    forall p, i, f, throws | At(programs, p, i, Await(f, throws)) ensures f in FlagSetters(c) {
      AwaitPlace(c, p, i, f, throws);
    }
    forall p, i, j, f, g, throws | At(programs, p, i, Set(f)) && At(programs, p, j, Await(g, throws)) && j < i
      ensures Level(g) < Level(f)
    {
      SetPlace(c, p, i, f);
      AwaitPlace(c, p, j, g, throws);
    }
    forall p, i, q, j, f | At(programs, p, i, Stamp(f)) && At(programs, q, j, Stamp(f)) ensures p == q && i == j {
      StampPlace(c, p, i, f);
      StampPlace(c, q, j, f);
    }
  }

  // ----- Order

  /** The order check at the end of `takeover`. */
  predicate OrderChecks(c: Action, s: State) {
    && Value(s, InvalidateAt) <= Value(s, BLaunch) <= Value(s, BComplete)
    && (!c.IdleBaseline? ==> Value(s, BReady) <= Value(s, ALaunch) && Value(s, AStart) <= Value(s, InvalidateAt))
    && (!KeepsA(c) ==>
          Value(s, InvalidateAt) <= Value(s, DestroyBegin) <= Value(s, DestroyReturn) <= Value(s, BLaunch))
    && (KeepsA(c) ==>
          && Value(s, DestroyBegin) == 0 && Value(s, DestroyReturn) == 0 && s.aliveAfterB == 1
          && Value(s, BComplete) <= Value(s, PostBegin) <= Value(s, PostEnd))
  }

  /** The pairs of times that must not be swapped. */
  predicate Ordered(c: Action, f: Field, g: Field) {
    match f
    case InvalidateAt => g == BLaunch || (!KeepsA(c) && g == DestroyBegin)
    case BLaunch => g == BComplete
    case BReady => !c.IdleBaseline? && g == ALaunch
    case AStart => !c.IdleBaseline? && g == InvalidateAt
    case DestroyBegin => !KeepsA(c) && g == DestroyReturn
    case DestroyReturn => !KeepsA(c) && g == BLaunch
    case BComplete => KeepsA(c) && g == PostBegin
    case PostBegin => KeepsA(c) && g == PostEnd
    case _ => false
  }

  /** Whatever was recorded, the check refuses it exactly if some pair is swapped, or if a
      kept context has a destroy on record or was not found alive. */
  lemma DisorderIsCaught(c: Action, s: State)
    ensures OrderChecks(c, s)
       <==> && (forall f, g :: Ordered(c, f, g) ==> Value(s, f) <= Value(s, g))
            && (KeepsA(c) ==> Value(s, DestroyBegin) == Value(s, DestroyReturn) == 0 && s.aliveAfterB == 1)
  {
    hide Value;
    assert Ordered(c, InvalidateAt, BLaunch) && Ordered(c, BLaunch, BComplete);
    assert !c.IdleBaseline? ==> Ordered(c, BReady, ALaunch) && Ordered(c, AStart, InvalidateAt);
    if KeepsA(c) {
      assert Ordered(c, BComplete, PostBegin) && Ordered(c, PostBegin, PostEnd);
    } else {
      assert Ordered(c, InvalidateAt, DestroyBegin) && Ordered(c, DestroyBegin, DestroyReturn);
      assert Ordered(c, DestroyReturn, BLaunch);
    }
  }

  function TimeOf(s: State, f: Field): int {
    Time(s, Place(f).0, Place(f).1)
  }

  lemma CompletedStamp(c: Action, s: State, f: Field)
    requires Inv(Programs(c), FlagSetters(c), s) && Completed(Programs(c), s) && Stamped(c, f)
    ensures Value(s, f) == TimeOf(s, f)
  {
    assert Done(s, Place(f).0, Place(f).1);
  }

  lemma CompletedOrder(c: Action, s: State, f: Field, g: Field)
    requires Inv(Programs(c), FlagSetters(c), s) && Completed(Programs(c), s)
    requires Taken(c, f) && Taken(c, g) && TimeOf(s, f) <= TimeOf(s, g)
    ensures Value(s, f) <= Value(s, g)
  {
    hide Taken, Place, Programs, Inv, Completed, TimeOf, Value;
    StampedIffTaken(c, f);
    StampedIffTaken(c, g);
    CompletedStamp(c, s, f);
    CompletedStamp(c, s, g);
  }

  lemma NeverStamped(c: Action, s: State, f: Field)
    requires Inv(Programs(c), FlagSetters(c), s) && !Taken(c, f)
    ensures Value(s, f) == 0
  {
    StampedIffTaken(c, f);
    if f in s.stamps {
      var p, i :| At(Programs(c), p, i, Stamp(f)) && Done(s, p, i);
      StampPlace(c, p, i, f);
    }
  }

  /** Whenever B has launched: the controller invalidated before; on the serial
      paths A's context was destroyed, and found successfully destroyed, before. */
  lemma LaunchIsGuarded(c: Action, s: State)
    requires Inv(Programs(c), FlagSetters(c), s) && Done(s, B, 5)
    ensures Done(s, C, 2) && Time(s, C, 2) <= Time(s, B, 5)
    ensures Done(s, A, 5) && Time(s, A, 5) <= Time(s, C, 2)
    ensures !KeepsA(c) ==> Done(s, A, 24) && Time(s, C, 2) <= Time(s, A, 21) <= Time(s, A, 23) <= Time(s, A, 24) <= Time(s, B, 5)
  {
    hide Inv;
    var programs, setters := Programs(c), FlagSetters(c);
    if KeepsA(c) {
      HappensBefore(programs, setters, s, 2, BGo, B, 2, 5, false);
    } else {
      HappensBefore(programs, setters, s, 24, BGo, B, 2, 5, false);
      ProgramOrder(programs, setters, s, A, 23, 24);
      ProgramOrder(programs, setters, s, A, 21, 23);
      HappensBefore(programs, setters, s, 2, Invalidate, A, 7, 21, false);
    }
    HappensBefore(programs, setters, s, 5, AStarted, C, 0, 2, false);
  }

  lemma QueryFollowsCompletion(c: Action, s: State)
    requires Inv(Programs(c), FlagSetters(c), s) && Done(s, A, 13) && KeepsA(c)
    ensures Done(s, B, 8) && Time(s, B, 8) <= Time(s, A, 13)
  {
    hide Inv;
    HappensBefore(Programs(c), FlagSetters(c), s, 8, BDone, A, 12, 13, false);
  }

  lemma CompletedTimes(c: Action, s: State)
    requires |s.threads| == 3 && Inv(Programs(c), FlagSetters(c), s) && Completed(Programs(c), s)
    ensures TimeOf(s, AStart) <= TimeOf(s, InvalidateAt) <= TimeOf(s, BLaunch) <= TimeOf(s, BComplete)
    ensures TimeOf(s, BReady) <= TimeOf(s, ALaunch) && TimeOf(s, PostBegin) <= TimeOf(s, PostEnd)
    ensures !KeepsA(c) ==> TimeOf(s, InvalidateAt) <= TimeOf(s, DestroyBegin) <= TimeOf(s, DestroyReturn) <= TimeOf(s, BLaunch)
    ensures KeepsA(c) ==> TimeOf(s, BComplete) <= TimeOf(s, PostBegin)
  {
    hide Inv, Completed, Time, Done, Programs;
    AllDone(c, s);
    LaunchIsGuarded(c, s);
    if KeepsA(c) {
      QueryFollowsCompletion(c, s);
    }
    ProgramOrder(Programs(c), FlagSetters(c), s, B, 5, 8);
    ProgramOrder(Programs(c), FlagSetters(c), s, A, 13, 14);
    ArmedFirst(c, s);
  }

  lemma AllDone(c: Action, s: State)
    requires |s.threads| == 3 && Completed(Programs(c), s)
    ensures Done(s, A, 2) && Done(s, A, 13) && Done(s, A, 14) && Done(s, B, 5) && Done(s, B, 8)
  {
  }

  lemma ArmedFirst(c: Action, s: State)
    requires Inv(Programs(c), FlagSetters(c), s) && Done(s, A, 2)
    ensures Time(s, B, 0) <= Time(s, A, 2)
  {
    hide Inv;
    HappensBefore(Programs(c), FlagSetters(c), s, 0, BArmed, A, 0, 2, false);
  }

  /** A's context is destroyed at its place on the serial paths, if destroying succeeds,
      and nowhere else; its end is waited for at its place by live handoff and by waiting
      first; and it is recorded alive or destroyed at its place. */
  predicate FateOfA(c: Action, s: State) {
    && (s.alive <==> !(!KeepsA(c) && Done(s, A, 22) && DestroySucceeds in s.answers))
    && (s.finished <==> (c.LiveHandoff? && Done(s, A, 17)) || (c.WaitThenDestroy? && Done(s, A, 20)))
    && s.aliveAfterB == (if KeepsA(c) && Done(s, A, 16) then 1
                         else if !KeepsA(c) && Done(s, A, 25) then if DestroySucceeds in s.answers then 0 else 1
                         else -1)
  }

  lemma FateStep(c: Action, s: State, who: nat, move: Move, t: int)
    requires |s.threads| == 3 && Prefixes(Programs(c), s) && FateOfA(c, s) && Allowed(Programs(c), s, who, move)
    ensures FateOfA(c, Step(Programs(c), s, who, move, t))
  {
    DoneStep(Programs(c), s, who, move, t);
    StepOnA(Programs(c), s, who, move, t);
    hide Step, AInstr, BInstr, CInstr;
    if move.Proceed? {
      FateAt(c, |s.threads[who].times|);
    }
  }

  /** Only these instructions touch what becomes of A. */
  lemma FateAt(c: Action, i: nat)
    ensures AInstr(c, i).RecordAlive? <==> (KeepsA(c) && i == 16) || (!KeepsA(c) && i == 25)
    ensures AInstr(c, i).FinishA? <==> (c.LiveHandoff? && i == 17) || (c.WaitThenDestroy? && i == 20)
    ensures AInstr(c, i).DestroyContext? <==> !KeepsA(c) && i == 22
    ensures !BInstr(i).RecordAlive? && !BInstr(i).FinishA? && !BInstr(i).DestroyContext?
    ensures var instr := CInstr(!c.IdleBaseline?, false, KeepsA(c), i);
            !instr.RecordAlive? && !instr.FinishA? && !instr.DestroyContext?
  {
  }

  lemma {:induction false} RunFate(c: Action, run: seq<State>, k: nat)
    requires IsRun(Programs(c), run) && k < |run|
    ensures Inv(Programs(c), FlagSetters(c), run[k]) && FateOfA(c, run[k])
  {
    hide FateOfA, Step, Allowed, Inv;
    IsWellOrdered(c);
    RunInvariant(Programs(c), FlagSetters(c), run, k);
    if k == 0 {
      FateAtStart(c, run[0].clock, run[0].answers, run[0].waits);
    } else {
      RunFate(c, run, k - 1);
      var s, s' := run[k - 1], run[k];
      assert Next(Programs(c), s, s');
      InvPrefixes(c, s);
      var who, move :|
        Allowed(Programs(c), s, who, move) && s.clock <= s'.clock && s' == Step(Programs(c), s, who, move, s'.clock);
      FateStep(c, s, who, move, s'.clock);
    }
  }

  lemma FateAtStart(c: Action, clock: int, answers: set<Question>, waits: map<Field, int>)
    ensures FateOfA(c, Start(clock, answers, waits))
  {
  }

  lemma InvPrefixes(c: Action, s: State)
    requires Inv(Programs(c), FlagSetters(c), s)
    ensures Prefixes(Programs(c), s)
  {
  }

  /** A kept context is never destroyed, and found alive after B. */
  lemma RunKeepsAlive(c: Action, run: seq<State>, k: nat)
    requires IsRun(Programs(c), run) && k < |run| && KeepsA(c)
    ensures run[k].alive && (Done(run[k], A, 16) ==> run[k].aliveAfterB == 1)
  {
    RunFate(c, run, k);
  }

  /** On the serial paths, in every interleaving: B launches beside no live context of A;
      A's context is destroyed between the two destroy stamps and nowhere else; when it
      is, A's end has been waited for exactly if the action waits first. */
  lemma RunDestroysFirst(c: Action, run: seq<State>, k: nat)
    requires IsRun(Programs(c), run) && k < |run| && !KeepsA(c)
    ensures var s := run[k];
            && (Done(s, B, 5) ==> !s.alive)
            && (!s.alive ==> Done(s, A, 21) && (s.finished <==> c.WaitThenDestroy?))
            && (Done(s, A, 23) ==> (s.alive <==> DestroySucceeds !in s.answers))
            && (Done(s, A, 25) ==> !s.alive && s.aliveAfterB == 0)
  {
    hide Inv;
    var s := run[k];
    RunFate(c, run, k);
    if Done(s, B, 5) {
      LaunchIsGuarded(c, s);
    }
    if Done(s, A, 24) {
      DemandMet(c, s);
    }
    Prefix(c, s);
  }

  /** Only instructions up to one that was executed were executed. */
  lemma Prefix(c: Action, s: State)
    requires Inv(Programs(c), FlagSetters(c), s)
    ensures forall i, j :: 0 <= i <= j && Done(s, A, j) ==> Done(s, A, i)
  {
  }

  lemma DemandMet(c: Action, s: State)
    requires Inv(Programs(c), FlagSetters(c), s) && Done(s, A, 24) && !KeepsA(c)
    ensures DestroySucceeds in s.answers
  {
    assert At(Programs(c), A, 24, Demand(DestroySucceeds));
  }

  lemma AnswerKnown(c: Action, s: State, i: nat, q: Question)
    requires Inv(Programs(c), FlagSetters(c), s) && Done(s, A, i) && i < A_LENGTH && AInstr(c, i) == Learn(q)
    ensures q in s.learned && (s.learned[q] <==> q in s.answers)
  {
    hide AInstr;
    assert At(Programs(c), A, i, Learn(q));
  }

  /** What a completed takeover has recorded of A: whether it was pending, and whether it
      outlived B or was destroyed before it. */
  predicate Established(c: Action, s: State) {
    && (s.alive <==> KeepsA(c)) && s.aliveAfterB == (if KeepsA(c) then 1 else 0)
    && (s.finished <==> c.LiveHandoff? || c.WaitThenDestroy?)
    && APending in s.learned && (s.learned[APending] <==> APending in s.answers)
    && (KeepsA(c) ==> APendingAfterB in s.learned && (s.learned[APendingAfterB] <==> APendingAfterB in s.answers))
  }

  lemma CompletedEstablishes(c: Action, run: seq<State>, k: nat)
    requires IsRun(Programs(c), run) && k < |run| && |run[k].threads| == 3 && Completed(Programs(c), run[k])
    ensures Established(c, run[k])
  {
    hide Inv, IsRun, WellOrdered, Completed, Programs;
    var s := run[k];
    RunFate(c, run, k);
    AllSteps(c, s);
    AnswerKnown(c, s, 11, APending);
    if KeepsA(c) {
      AnswerKnown(c, s, 15, APendingAfterB);
    } else {
      DemandMet(c, s);
    }
  }

  lemma AllSteps(c: Action, s: State)
    requires |s.threads| == 3 && Completed(Programs(c), s)
    ensures forall i :: 0 <= i < A_LENGTH ==> Done(s, A, i)
    ensures Done(s, B, 11)
  {
  }

  lemma SerialOrder(c: Action, s: State)
    requires |s.threads| == 3 && Inv(Programs(c), FlagSetters(c), s) && Completed(Programs(c), s) && !KeepsA(c)
    ensures OrderChecks(c, s)
  {
    hide Inv, Completed, TimeOf, Value, Programs;
    CompletedTimes(c, s);
    CompletedOrder(c, s, InvalidateAt, BLaunch);
    CompletedOrder(c, s, BLaunch, BComplete);
    CompletedOrder(c, s, BReady, ALaunch);
    CompletedOrder(c, s, AStart, InvalidateAt);
    CompletedOrder(c, s, InvalidateAt, DestroyBegin);
    CompletedOrder(c, s, DestroyBegin, DestroyReturn);
    CompletedOrder(c, s, DestroyReturn, BLaunch);
  }

  lemma KeptOrder(c: Action, s: State)
    requires |s.threads| == 3 && Inv(Programs(c), FlagSetters(c), s) && Completed(Programs(c), s) && KeepsA(c)
    requires s.aliveAfterB == 1
    ensures OrderChecks(c, s)
  {
    hide Inv, Completed, TimeOf, Value, Programs, Place, Taken;
    LaunchOrder(c, s);
    KeptQueries(c, s);
  }

  lemma LaunchOrder(c: Action, s: State)
    requires |s.threads| == 3 && Inv(Programs(c), FlagSetters(c), s) && Completed(Programs(c), s) && KeepsA(c)
    ensures Value(s, InvalidateAt) <= Value(s, BLaunch) <= Value(s, BComplete)
    ensures !c.IdleBaseline? ==> Value(s, BReady) <= Value(s, ALaunch) && Value(s, AStart) <= Value(s, InvalidateAt)
  {
    hide Inv, Completed, TimeOf, Value, Programs;
    CompletedTimes(c, s);
    CompletedOrder(c, s, InvalidateAt, BLaunch);
    CompletedOrder(c, s, BLaunch, BComplete);
    if !c.IdleBaseline? {
      CompletedOrder(c, s, BReady, ALaunch);
      CompletedOrder(c, s, AStart, InvalidateAt);
    }
  }

  lemma KeptQueries(c: Action, s: State)
    requires |s.threads| == 3 && Inv(Programs(c), FlagSetters(c), s) && Completed(Programs(c), s) && KeepsA(c)
    ensures Value(s, BComplete) <= Value(s, PostBegin) <= Value(s, PostEnd)
    ensures Value(s, DestroyBegin) == 0 && Value(s, DestroyReturn) == 0
  {
    hide Inv, Completed, TimeOf, Value, Programs;
    CompletedTimes(c, s);
    CompletedOrder(c, s, BComplete, PostBegin);
    CompletedOrder(c, s, PostBegin, PostEnd);
    NeverStamped(c, s, DestroyBegin);
    NeverStamped(c, s, DestroyReturn);
  }

  /** In every interleaving in which all three participants complete, the final
      order check holds. */
  lemma {:induction false} OrderChecksNeverFail(c: Action, run: seq<State>, k: nat)
    requires IsRun(Programs(c), run) && k < |run| && |run[k].threads| == 3
    requires Completed(Programs(c), run[k])
    ensures OrderChecks(c, run[k])
  {
    hide Inv, IsRun, WellOrdered, OrderChecks, Completed;
    IsWellOrdered(c);
    RunInvariant(Programs(c), FlagSetters(c), run, k);
    if KeepsA(c) {
      CompletedEstablishes(c, run, k);
      KeptOrder(c, run[k]);
    } else {
      SerialOrder(c, run[k]);
    }
  }

  // ----- What the records attest

  /** Where A has the driver do what. */
  function AWork(work: Work): nat {
    match work
    case BegunA => 1
    case LaunchedA => 3
    case SeenA => 4
    case TimedA => 19
    case _ => 27
  }

  /** Which of it an action has the driver do at all. */
  predicate Worked(c: Action, work: Work) {
    if work.TimedA? then c.LiveHandoff? else AWork(work) < 27 && !c.IdleBaseline?
  }

  lemma AWorkAt(c: Action, i: nat, work: Work)
    ensures AInstr(c, i) == Call(work) <==> i == AWork(work) && Worked(c, work)
  {
  }

  lemma AMade(c: Action, s: State, work: Work)
    ensures Made(Programs(c), s, A, work) <==> Worked(c, work) && Done(s, A, AWork(work))
  {
    hide Made, AWork, AInstr, Worked;
    forall i | At(Programs(c), A, i, Call(work)) ensures i == AWork(work) && Worked(c, work) {
      AWorkAt(c, i, work);
    }
    AWorkAt(c, AWork(work), work);
    InRange(work);
    if Worked(c, work) {
      MadeAt(Programs(c), s, A, AWork(work), work);
    } else {
      NeverMade(Programs(c), s, A, work);
    }
  }

  lemma InRange(work: Work)
    ensures forall c :: Worked(c, work) ==> AWork(work) < A_LENGTH
  {
  }

  lemma AStamped(c: Action, s: State, f: Field)
    requires Inv(Programs(c), FlagSetters(c), s) && Taken(c, f)
    ensures f in s.stamps <==> Done(s, Place(f).0, Place(f).1)
    ensures f in s.stamps ==> s.stamps[f] == TimeOf(s, f)
  {
    hide Inv, WellOrdered, Taken, Place;
    IsWellOrdered(c);
    StampedIffTaken(c, f);
    StampedAt(Programs(c), FlagSetters(c), s, Place(f).0, Place(f).1, f);
  }

  /** A goes on only once B has armed; its launch is recorded before it is made and behind
      its begin event, its start only when the start marker was seen, and its time and
      output are read behind its recorded completion. In the idle baseline A makes no call
      at all, and no other action but live handoff reads A's output. */
  ghost predicate AAttested(c: Action, s: State) {
    var programs := Programs(c);
    && (AStarted in s.flags || Made(programs, s, A, BegunA) ==> BArmed in s.flags)
    && (ALaunch in s.stamps ==> Made(programs, s, A, BegunA))
    && (Made(programs, s, A, LaunchedA) ==> ALaunch in s.stamps)
    && (Made(programs, s, A, SeenA) ==> Made(programs, s, A, LaunchedA))
    && (AStart in s.stamps ==> Made(programs, s, A, SeenA))
    && (Made(programs, s, A, TimedA) ==> c.LiveHandoff? && AComplete in s.stamps)
    && (c.IdleBaseline? ==> forall work :: !Made(programs, s, A, work))
  }

  lemma RecordsAttest(c: Action, s: State)
    requires Inv(Programs(c), FlagSetters(c), s)
    ensures AAttested(c, s) && BAttested(Programs(c), s)
  {
    hide Inv, WellOrdered, Programs, AInstr, Made, BAttested, Place, Taken;
    IsWellOrdered(c);
    forall work ensures Made(Programs(c), s, A, work) <==> Worked(c, work) && Done(s, A, AWork(work)) {
      AMade(c, s, work);
    }
    LaunchStamps(c, s);
    BAttests(Programs(c), FlagSetters(c), s);
  }

  lemma LaunchStamps(c: Action, s: State)
    requires Inv(Programs(c), FlagSetters(c), s)
    ensures ALaunch in s.stamps <==> !c.IdleBaseline? && Done(s, A, 2)
    ensures AStart in s.stamps <==> !c.IdleBaseline? && Done(s, A, 5)
    ensures c.LiveHandoff? ==> (AComplete in s.stamps <==> Done(s, A, 18))
    ensures (AStarted in s.flags <==> Done(s, A, 6)) && (Done(s, A, 1) ==> BArmed in s.flags)
  {
    hide Inv;
    if !c.IdleBaseline? {
      AStamped(c, s, ALaunch);
      AStamped(c, s, AStart);
    } else {
      NotStamped(c, s, ALaunch);
      NotStamped(c, s, AStart);
    }
    if c.LiveHandoff? {
      AStamped(c, s, AComplete);
    }
    StoredAt(Programs(c), FlagSetters(c), s, AStarted);
    StoredAt(Programs(c), FlagSetters(c), s, BArmed);
    if Done(s, A, 1) {
      HappensBefore(Programs(c), FlagSetters(c), s, 1, BArmed, A, 0, 1, false);
    }
  }

  lemma NotStamped(c: Action, s: State, f: Field)
    requires Inv(Programs(c), FlagSetters(c), s) && !Taken(c, f)
    ensures f !in s.stamps
  {
    StampedIffTaken(c, f);
    if f in s.stamps {
      var p, i :| At(Programs(c), p, i, Stamp(f)) && Done(s, p, i);
      StampPlace(c, p, i, f);
    }
  }

  /** A completed takeover has made every call of its action. */
  lemma CompletedMakes(c: Action, s: State)
    requires |s.threads| == 3 && Completed(Programs(c), s)
    ensures !c.IdleBaseline? ==> forall work :: work in {BegunA, LaunchedA, SeenA} ==> Made(Programs(c), s, A, work)
    ensures c.LiveHandoff? ==> Made(Programs(c), s, A, TimedA)
    ensures forall work :: work in {BegunB, LaunchedB, ReachedB, TimedB, CheckedB} ==> Made(Programs(c), s, B, work)
  {
    hide Completed, Made, Programs;
    AllSteps(c, s);
    AMade(c, s, BegunA);
    AMade(c, s, LaunchedA);
    AMade(c, s, SeenA);
    AMade(c, s, TimedA);
    BMakes(Programs(c), s);
  }

  /** Nobody leaves without an error once it is past its last quiet wait, and no wait fails
      anybody. */
  lemma LeavesInTime(c: Action, s: State)
    requires Inv(Programs(c), FlagSetters(c), s)
    ensures s.threads[A].phase.Returned? ==> (if KeepsA(c) then PostBegin else InvalidateSeen) !in s.stamps
    ensures s.threads[B].phase.Returned? ==> BTrigger !in s.stamps
    ensures s.threads[C].phase.Returned? ==> InvalidateAt !in s.stamps
    ensures forall p :: 0 <= p < 3 ==> !FailedAtWait(Programs(c), s, p)
  {
    QuietWaits(c, s);
    ExitStamps(c, s);
    hide Inv, FailedAtWait;
  }

  lemma ExitStamps(c: Action, s: State)
    requires Inv(Programs(c), FlagSetters(c), s)
    ensures (if KeepsA(c) then PostBegin else InvalidateSeen) in s.stamps <==> Done(s, A, if KeepsA(c) then 13 else 8)
    ensures (BTrigger in s.stamps <==> Done(s, B, 3)) && (InvalidateAt in s.stamps <==> Done(s, C, 2))
  {
    hide Inv;
    AStamped(c, s, if KeepsA(c) then PostBegin else InvalidateSeen);
    AStamped(c, s, BTrigger);
    AStamped(c, s, InvalidateAt);
  }

  lemma QuietWaits(c: Action, s: State)
    requires Inv(Programs(c), FlagSetters(c), s)
    ensures s.threads[A].phase.Returned? ==> !Done(s, A, if KeepsA(c) then 13 else 8)
    ensures s.threads[B].phase.Returned? ==> !Done(s, B, 3)
    ensures s.threads[C].phase.Returned? ==> !Done(s, C, 2)
    ensures forall p :: 0 <= p < 3 ==> !FailedAtWait(Programs(c), s, p)
  {
    hide AInstr, BInstr, CInstr;
    forall p | 0 <= p < 3
      ensures s.threads[p].phase.Returned? ==>
                |s.threads[p].times| <= if p == A then if KeepsA(c) then 12 else 7 else if p == B then 2 else 0
      ensures !FailedAtWait(Programs(c), s, p)
    {
      assert RanPrefix(Programs(c)[p], s.threads[p], s.clock);
      WaitsAt(c, p, |s.threads[p].times|);
    }
  }

  /** Which waits there are; none of them throws. */
  lemma WaitsAt(c: Action, p: nat, i: nat)
    requires p < 3
    ensures InstrAt(c, p, i).Await? ==>
              && !InstrAt(c, p, i).throws
              && i <= if p == A then if KeepsA(c) then 12 else 7 else if p == B then 2 else 0
  {
  }

  /** In every interleaving the controller invalidates A no earlier than its delay behind
      A's start, unless cancelled. */
  lemma WaitsLongEnough(c: Action, run: seq<State>, k: nat)
    requires IsRun(Programs(c), run) && k < |run| && !c.IdleBaseline?
    ensures var s := run[k];
            InvalidateAt in s.stamps ==> s.cancelled || Deadline(s, AStart) <= s.stamps[InvalidateAt]
  {
    hide IsRun, Inv, WellOrdered, StampedBefore, WaitsElapsed, Deadline;
    IsWellOrdered(c);
    forall j: nat | j <= k ensures Inv(Programs(c), FlagSetters(c), run[j]) && StampedBefore(Programs(c), run[j]) {
      RunInvariant(Programs(c), FlagSetters(c), run, j);
      CountsFromRecorded(c, run[j]);
    }
    RunElapsed(Programs(c), FlagSetters(c), run, k);
    InvalidationDelay(c, run[k]);
  }

  lemma InvalidationDelay(c: Action, s: State)
    requires Inv(Programs(c), FlagSetters(c), s) && WaitsElapsed(Programs(c), s) && !c.IdleBaseline?
    ensures InvalidateAt in s.stamps ==> s.cancelled || Deadline(s, AStart) <= s.stamps[InvalidateAt]
  {
    hide Inv, Deadline, AInstr;
    AStamped(c, s, InvalidateAt);
    assert At(Programs(c), C, 1, Elapse(AStart, true));
    if InvalidateAt in s.stamps {
      ProgramOrder(Programs(c), FlagSetters(c), s, C, 1, 2);
    }
  }

  lemma CountsFromRecorded(c: Action, s: State)
    requires Inv(Programs(c), FlagSetters(c), s) && !c.IdleBaseline?
    ensures StampedBefore(Programs(c), s)
  {
    hide Inv, AInstr, BInstr, CInstr;
    forall p, i, f, early | At(Programs(c), p, i, Elapse(f, early)) && Reached(s, p, i) ensures f in s.stamps {
      ElapseAt(c, p, i, f, early);
      HappensBefore(Programs(c), FlagSetters(c), s, 5, AStarted, C, 0, 0, false);
      LaunchStamps(c, s);
    }
  }

  lemma ElapseAt(c: Action, p: int, i: int, f: Field, early: bool)
    requires At(Programs(c), p, i, Elapse(f, early))
    ensures p == C && i == 1 && f == AStart
    ensures At(Programs(c), C, 0, Await(AStarted, false))
  {
    AtIs(c, p, i, Elapse(f, early));
  }

  /** What the controller makes of a completed takeover: valid, valid for nothing because
      A had finished before it was invalidated, or refused. */
  datatype Verdict = Valid | AlreadyComplete | NotIdle | Disordered

  function Judge(c: Action, s: State): Verdict {
    var pending := APending in s.learned && s.learned[APending];
    if c.IdleBaseline? && pending then NotIdle
    else if !OrderChecks(c, s) then Disordered
    else if !c.IdleBaseline? && !pending then AlreadyComplete
    else Valid
  }

  /** The verdict on a completed takeover depends on nothing but whether A was pending. */
  lemma VerdictIsPending(c: Action, run: seq<State>, k: nat)
    requires IsRun(Programs(c), run) && k < |run| && |run[k].threads| == 3 && Completed(Programs(c), run[k])
    ensures var pending := APending in run[k].answers;
            Judge(c, run[k]) ==
              if c.IdleBaseline? then if pending then NotIdle else Valid
              else if pending then Valid else AlreadyComplete
  {
    hide IsRun, Completed, OrderChecks;
    CompletedEstablishes(c, run, k);
    OrderChecksNeverFail(c, run, k);
  }

  /** Progress and outcome of `takeover`. */
  lemma {:induction false} TakeoverFinishes(c: Action, run: seq<State>)
    requires IsRun(Programs(c), run)
    ensures |run| <= 55
    ensures var s := run[|run| - 1];
            && |s.threads| == 3
            && if AllFinished(Programs(c), s)
               then (Completed(Programs(c), s) && OrderChecks(c, s) && Established(c, s)) || SomeoneThrew(s)
               else exists s' :: Next(Programs(c), s, s')
  {
    hide Completed, AllFinished, WellOrdered, OrderChecks, Established;
    IsWellOrdered(c);
    ProtocolFinishes(Programs(c), FlagSetters(c), run);
    if Completed(Programs(c), run[|run| - 1]) {
      CompletedEstablishes(c, run, |run| - 1);
      OrderChecksNeverFail(c, run, |run| - 1);
    }
  }
}
