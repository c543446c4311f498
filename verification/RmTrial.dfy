/** `rm_trial`: live handoff, preempt-and-resume, and the three hold conditions. */
module RmTrial {
  import opened Protocol
  import opened Handoff

  datatype Condition = LiveHandoff | PreemptResume | PreemptHold | ScheduleHold | FifoHold

  predicate Holds(c: Condition) {
    c.PreemptHold? || c.ScheduleHold? || c.FifoHold?
  }

  predicate Preempts(c: Condition) {
    !c.LiveHandoff? && !c.FifoHold?
  }

  /** The time that the hold interval counts from. */
  function HeldFrom(c: Condition): Field {
    if c.LiveHandoff? then InvalidateAt else ControlReady
  }

  const A_LENGTH: nat := 42
  const DISABLED: nat := 18
  const ENABLING: nat := 31
  const ENABLED: nat := 33

  function AInstr(c: Condition, i: nat): Instr {
    match i
    case 0 => Await(BArmed, false)
    case 1 => Call(BegunA)                             // begin event
    case 2 => Stamp(ALaunch)
    case 3 => Call(LaunchedA)                          // launch, end event
    case 4 => Call(SeenA)                              // start marker seen in time
    case 5 => Stamp(AStart)
    case 6 => Set(AStarted)
    case 7 => Await(Invalidate, false)
    case 8 => Stamp(InvalidateSeen)
    case 9 => Stamp(QueryBegin)
    case 10 => Learn(APending)                         // event query
    case 11 => Stamp(QueryEnd)
    case 12 => Demand(APending)                        // still pending, or stop
    case 13 => When(Preempts(c), Stamp(PreemptBegin))
    case 14 => When(Preempts(c), Stamp(PreemptEnd))
    case 15 => When(Preempts(c), Call(Preempted))
    case 16 => When(Holds(c), Stamp(DisableBegin))
    case 17 => When(Holds(c), Stamp(DisableEnd))
    case 18 => When(Holds(c), AcceptDisable)
    case 19 => When(!c.LiveHandoff?, Stamp(ControlReady))
    case 20 => When(!c.LiveHandoff?, Set(BGo))
    case 21 => Await(BDone, true)
    case 22 => Stamp(PostBegin)
    case 23 => Learn(APendingAfterB)                   // event query
    case 24 => Stamp(PostEnd)
    case 25 => RecordAlive
    case 26 => Elapse(HeldFrom(c), false)              // hold interval
    case 27 => Stamp(HoldBegin)
    case 28 => Learn(APendingAtHoldEnd)                // event query
    case 29 => Stamp(HoldEnd)
    case 30 => When(Holds(c), Stamp(EnableBegin))
    case 31 => When(Holds(c), IssueEnable)
    case 32 => When(Holds(c), Stamp(EnableEnd))
    case 33 => When(Holds(c), AcceptEnable)
    case 34 => FinishA                                 // end event reached
    case 35 => Stamp(AComplete)
    case 36 => Call(TimedA)                            // elapsed time, first output
    case 37 => Demand(OutputMatches)                   // full output equals the reference
    case 38 => Call(BegunAgain)                        // reuse: begin event
    case 39 => Stamp(ReuseLaunch)
    case 40 => Call(RunAgain)                          // reuse: launch to result
    case 41 => Demand(SameResources)                   // same context and buffer
    case _ => Skip
  }

  function Programs(c: Condition): (r: seq<Program>)
    ensures |r| == 3 && |r[A]| == A_LENGTH && |r[B]| == B_LENGTH && |r[C]| == C_LENGTH
    ensures forall i :: 0 <= i < A_LENGTH ==> r[A][i] == AInstr(c, i)
    ensures forall i :: 0 <= i < B_LENGTH ==> r[B][i] == BInstr(i)
    ensures forall i :: 0 <= i < C_LENGTH ==> r[C][i] == CInstr(true, true, c.LiveHandoff?, i)
  {
    [seq(A_LENGTH, i requires i >= 0 => AInstr(c, i)),
     seq(B_LENGTH, i requires i >= 0 => BInstr(i)),
     seq(C_LENGTH, i requires i >= 0 => CInstr(true, true, c.LiveHandoff?, i))]
  }

  function FlagSetters(c: Condition): Setters {
    map[BArmed := (B, 1), AStarted := (A, 6), Invalidate := (C, 4),
        BGo := if c.LiveHandoff? then (C, 5) else (A, 20), BDone := (B, 9)]
  }

  /** Where each time field is stamped. */
  function Place(field: Field): (nat, nat) {
    match field
    case BReady => (B, 0)
    case BTrigger => (B, 3)
    case BLaunch => (B, 5)
    case BComplete => (B, 8)
    case ALaunch => (A, 2)
    case AStart => (A, 5)
    case InvalidateAt => (C, 2)
    case InvalidateSeen => (A, 8)
    case QueryBegin => (A, 9)
    case QueryEnd => (A, 11)
    case PreemptBegin => (A, 13)
    case PreemptEnd => (A, 14)
    case DisableBegin => (A, 16)
    case DisableEnd => (A, 17)
    case ControlReady => (A, 19)
    case PostBegin => (A, 22)
    case PostEnd => (A, 24)
    case HoldBegin => (A, 27)
    case HoldEnd => (A, 29)
    case EnableBegin => (A, 30)
    case EnableEnd => (A, 32)
    case AComplete => (A, 35)
    case ReuseLaunch => (A, 39)
    case _ => (3, 0)
  }

  /** Instruction `i` of participant `p`, without the programs around it. */
  function InstrAt(c: Condition, p: int, i: nat): Instr {
    if p == A then AInstr(c, i) else if p == B then BInstr(i) else CInstr(true, true, c.LiveHandoff?, i)
  }

  function LengthOf(p: int): nat {
    if p == A then A_LENGTH else if p == B then B_LENGTH else C_LENGTH
  }

  lemma AtIs(c: Condition, p: int, i: int, instr: Instr)
    ensures At(Programs(c), p, i, instr) <==> 0 <= p < 3 && 0 <= i < LengthOf(p) && InstrAt(c, p, i) == instr
  {
    hide AInstr, BInstr, CInstr;
  }

  lemma StampPlace(c: Condition, p: int, i: int, f: Field)
    requires At(Programs(c), p, i, Stamp(f))
    ensures p == Place(f).0 && i == Place(f).1
  {
    hide At, Programs, AInstr, BInstr, CInstr, Place;
    AtIs(c, p, i, Stamp(f));
    if p == A {
      AStampPlace(c, i, f);
    } else {
      OtherStampPlace(c, i, f);
    }
  }

  lemma AStampPlace(c: Condition, i: nat, f: Field)
    requires AInstr(c, i) == Stamp(f)
    ensures Place(f) == (A, i)
  {
    hide AInstr, Place;
    if i < 22 {
      EarlyStampPlace(c, i, f);
    } else {
      LateStampPlace(c, i, f);
    }
  }

  lemma EarlyStampPlace(c: Condition, i: nat, f: Field)
    requires AInstr(c, i) == Stamp(f) && i < 22
    ensures Place(f) == (A, i)
  {
    hide Holds, Preempts;
    if i < 13 {
    } else {
    }
  }

  lemma LateStampPlace(c: Condition, i: nat, f: Field)
    requires AInstr(c, i) == Stamp(f) && i >= 22
    ensures Place(f) == (A, i)
  {
    hide Holds, Preempts;
    if i < 30 {
    } else {
    }
  }

  lemma OtherStampPlace(c: Condition, i: nat, f: Field)
    ensures BInstr(i) == Stamp(f) ==> Place(f) == (B, i)
    ensures CInstr(true, true, c.LiveHandoff?, i) == Stamp(f) ==> Place(f) == (C, i)
  {
  }

  lemma SetPlace(c: Condition, p: int, i: int, f: Flag)
    requires At(Programs(c), p, i, Set(f))
    ensures f in FlagSetters(c) && p == FlagSetters(c)[f].0 && i == FlagSetters(c)[f].1
  {
    hide At, Programs;
    AtIs(c, p, i, Set(f));
  }

  lemma AwaitPlace(c: Condition, p: int, i: int, f: Flag, throws: bool)
    requires At(Programs(c), p, i, Await(f, throws))
    ensures (p == A && i == 0 && f == BArmed) || (p == A && i == 7 && f == Invalidate) || (p == A && i == 21 && f == BDone) ||
            (p == B && i == 2 && f == BGo) || (p == C && i == 0 && f == AStarted)
  {
    hide At, Programs;
    AtIs(c, p, i, Await(f, throws));
  }

  lemma SettersSet(c: Condition)
    ensures forall f :: f in FlagSetters(c) ==> At(Programs(c), FlagSetters(c)[f].0, FlagSetters(c)[f].1, Set(f))
  {
    hide At, Programs;
    forall f | f in FlagSetters(c) ensures At(Programs(c), FlagSetters(c)[f].0, FlagSetters(c)[f].1, Set(f)) {
      AtIs(c, FlagSetters(c)[f].0, FlagSetters(c)[f].1, Set(f));
    }
  }

  lemma IsWellOrdered(c: Condition)
    ensures WellOrdered(Programs(c), FlagSetters(c))
  {
    hide Programs, At, Place;
    var programs := Programs(c);
    SettersSet(c);
    forall p, i, f | At(programs, p, i, Set(f))
      ensures f in FlagSetters(c) && FlagSetters(c)[f].0 == p && FlagSetters(c)[f].1 == i
    {
      SetPlace(c, p, i, f);
    }
    forall p, i, f, throws | At(programs, p, i, Await(f, throws)) ensures f in FlagSetters(c) {
      AwaitPlace(c, p, i, f, throws);
    }
    forall p, i, j, f, g, throws | At(programs, p, i, Set(f)) && At(programs, p, j, Await(g, throws)) && j < i
      ensures Level(g) < Level(f)
    {
      SetPlace(c, p, i, f);
      AwaitPlace(c, p, j, g, throws);
    }
    forall p, i, q, j, f | At(programs, p, i, Stamp(f)) && At(programs, q, j, Stamp(f)) ensures p == q && i == j {
      StampPlace(c, p, i, f);
      StampPlace(c, q, j, f);
    }
  }

  // ----- Order

  /** The two order checks at the end of `rm_trial`. */
  predicate OrderChecks(c: Condition, s: State) {
    && Value(s, AStart) <= Value(s, InvalidateAt) <= Value(s, BLaunch) <= Value(s, BComplete) <= Value(s, PostBegin)
    && Value(s, PostEnd) <= Value(s, HoldBegin)
    && Value(s, HoldEnd) <= Value(s, AComplete) <= Value(s, ReuseLaunch)
    && (Holds(c) ==>
          && (Value(s, PreemptEnd) == 0 || Value(s, PreemptEnd) <= Value(s, DisableBegin))
          && Value(s, DisableEnd) <= Value(s, BLaunch)
          && Value(s, HoldEnd) <= Value(s, EnableBegin))
  }

  /** The pairs of times that must not be swapped. */
  predicate Ordered(c: Condition, f: Field, g: Field) {
    match f
    case AStart => g == InvalidateAt
    case InvalidateAt => g == BLaunch
    case BLaunch => g == BComplete
    case BComplete => g == PostBegin
    case PostEnd => g == HoldBegin
    case HoldEnd => g == AComplete || (Holds(c) && g == EnableBegin)
    case AComplete => g == ReuseLaunch
    case PreemptEnd => Holds(c) && g == DisableBegin
    case DisableEnd => Holds(c) && g == BLaunch
    case _ => false
  }

  predicate InOrder(s: State, f: Field, g: Field) {
    Value(s, f) <= Value(s, g) || (f == PreemptEnd && Value(s, f) == 0)
  }

  /** Whatever was recorded, the checks refuse it exactly if some pair is swapped; a
      preemption that was never made is none. */
  lemma DisorderIsCaught(c: Condition, s: State)
    ensures OrderChecks(c, s) <==> forall f, g :: Ordered(c, f, g) ==> InOrder(s, f, g)
  {
    hide Ordered, InOrder, OrderChecks;
    if OrderChecks(c, s) {
      forall f, g | Ordered(c, f, g) ensures InOrder(s, f, g) {
        PairHolds(c, s, f, g);
      }
    }
    if forall f, g :: Ordered(c, f, g) ==> InOrder(s, f, g) {
      PairsSuffice(c, s);
    }
  }

  lemma PairHolds(c: Condition, s: State, f: Field, g: Field)
    requires OrderChecks(c, s) && Ordered(c, f, g)
    ensures InOrder(s, f, g)
  {
    hide Value, Holds;
  }

  lemma PairsSuffice(c: Condition, s: State)
    requires forall f, g :: Ordered(c, f, g) ==> InOrder(s, f, g)
    ensures OrderChecks(c, s)
  {
    hide Value, Holds, Ordered;
    Pairs(c);
    LatePairs(c);
    assert InOrder(s, AStart, InvalidateAt) && InOrder(s, InvalidateAt, BLaunch) && InOrder(s, BLaunch, BComplete);
    assert InOrder(s, BComplete, PostBegin) && InOrder(s, PostEnd, HoldBegin);
    assert InOrder(s, HoldEnd, AComplete) && InOrder(s, AComplete, ReuseLaunch);
  }

  lemma Pairs(c: Condition)
    ensures Ordered(c, AStart, InvalidateAt) && Ordered(c, InvalidateAt, BLaunch) && Ordered(c, BLaunch, BComplete)
    ensures Ordered(c, BComplete, PostBegin) && Ordered(c, PostEnd, HoldBegin)
  {
    hide Holds;
  }

  lemma LatePairs(c: Condition)
    ensures Ordered(c, HoldEnd, AComplete) && Ordered(c, AComplete, ReuseLaunch)
    ensures Holds(c) ==>
              Ordered(c, PreemptEnd, DisableBegin) && Ordered(c, DisableEnd, BLaunch) && Ordered(c, HoldEnd, EnableBegin)
  {
    hide Holds;
  }

  /** A stamped field holds the time its instruction was executed. */
  lemma StampTime(c: Condition, s: State, f: Field, p: nat, i: nat)
    requires Inv(Programs(c), FlagSetters(c), s) && At(Programs(c), p, i, Stamp(f)) && Done(s, p, i)
    ensures Value(s, f) == Time(s, p, i)
  {
  }

  lemma NeverStamped(c: Condition, s: State, f: Field)
    requires Inv(Programs(c), FlagSetters(c), s) && !At(Programs(c), Place(f).0, Place(f).1, Stamp(f))
    ensures Value(s, f) == 0
  {
    if f in s.stamps {
      var p, i :| At(Programs(c), p, i, Stamp(f)) && Done(s, p, i);
      StampPlace(c, p, i, f);
    }
  }

  /** Whenever B has launched, A was invalidated before; under a hold condition the
      disable was accepted before; under the others but live handoff, the preempt
      had returned. This needs no completed run. */
  lemma LaunchIsGuarded(c: Condition, s: State)
    requires Inv(Programs(c), FlagSetters(c), s) && Done(s, B, 5)
    ensures Done(s, C, 2) && Time(s, C, 2) <= Time(s, B, 5)
    ensures Done(s, A, 5) && Time(s, A, 5) <= Time(s, C, 2)
    ensures Holds(c) ==> Done(s, A, DISABLED) && Time(s, A, 17) <= Time(s, A, DISABLED) <= Time(s, B, 5)
    ensures Preempts(c) ==> Done(s, A, 15) && Time(s, A, 14) <= Time(s, A, 15) <= Time(s, B, 5)
    ensures !c.LiveHandoff? ==> APending in s.answers && Done(s, A, 12) && Time(s, A, 12) <= Time(s, B, 5)
  {
    hide Inv;
    var programs, setters := Programs(c), FlagSetters(c);
    if !c.LiveHandoff? {
      HappensBefore(programs, setters, s, 12, BGo, B, 2, 5, false);
      DemandMet(c, s, 12, APending);
    }
    if c.LiveHandoff? {
      HappensBefore(programs, setters, s, 2, BGo, B, 2, 5, false);
    } else {
      HappensBefore(programs, setters, s, 7, BGo, B, 2, 5, false);
      HappensBefore(programs, setters, s, DISABLED, BGo, B, 2, 5, false);
      HappensBefore(programs, setters, s, 15, BGo, B, 2, 5, false);
      ProgramOrder(programs, setters, s, A, 14, 15);
      ProgramOrder(programs, setters, s, A, 17, DISABLED);
      HappensBefore(programs, setters, s, 2, Invalidate, A, 7, 7, false);
    }
    HappensBefore(programs, setters, s, 5, AStarted, C, 0, 2, false);
  }

  lemma DemandMet(c: Condition, s: State, i: nat, q: Question)
    requires Inv(Programs(c), FlagSetters(c), s) && Done(s, A, i) && i < A_LENGTH && AInstr(c, i) == Demand(q)
    ensures q in s.answers
  {
    hide AInstr;
    assert At(Programs(c), A, i, Demand(q));
  }

  lemma AnswerKnown(c: Condition, s: State, i: nat, q: Question)
    requires Inv(Programs(c), FlagSetters(c), s) && Done(s, A, i) && i < A_LENGTH && AInstr(c, i) == Learn(q)
    ensures q in s.learned && (s.learned[q] <==> q in s.answers)
  {
    hide AInstr;
    assert At(Programs(c), A, i, Learn(q));
  }

  /** A queries its event again only after B's completion was observed. */
  lemma QueryFollowsCompletion(c: Condition, s: State)
    requires Inv(Programs(c), FlagSetters(c), s) && Done(s, A, 22)
    ensures Done(s, B, 8) && Time(s, B, 5) <= Time(s, B, 8) <= Time(s, A, 22)
  {
    hide Inv;
    HappensBefore(Programs(c), FlagSetters(c), s, 8, BDone, A, 21, 22, true);
    ProgramOrder(Programs(c), FlagSetters(c), s, B, 5, 8);
  }

  lemma CompletedTimes(c: Condition, s: State)
    requires |s.threads| == 3 && Inv(Programs(c), FlagSetters(c), s) && Completed(Programs(c), s)
    ensures TimeOf(s, AStart) <= TimeOf(s, InvalidateAt) <= TimeOf(s, BLaunch) <= TimeOf(s, BComplete) <= TimeOf(s, PostBegin)
    ensures TimeOf(s, PostEnd) <= TimeOf(s, HoldBegin)
    ensures TimeOf(s, HoldEnd) <= TimeOf(s, AComplete) <= TimeOf(s, ReuseLaunch)
    ensures TimeOf(s, PreemptEnd) <= TimeOf(s, DisableBegin) && TimeOf(s, HoldEnd) <= TimeOf(s, EnableBegin)
    ensures Holds(c) ==> TimeOf(s, DisableEnd) <= TimeOf(s, BLaunch)
  {
    hide Inv, Completed, Time, Done, Programs;
    AllDone(c, s);
    LaunchIsGuarded(c, s);
    QueryFollowsCompletion(c, s);
    InOrderA(c, s);
  }

  /** In every interleaving in which all three participants complete, the final
      order checks hold. */
  lemma {:induction false} OrderChecksNeverFail(c: Condition, run: seq<State>, k: nat)
    requires IsRun(Programs(c), run) && k < |run| && |run[k].threads| == 3
    requires Completed(Programs(c), run[k])
    ensures OrderChecks(c, run[k])
  {
    hide Inv, IsRun, WellOrdered, Completed, Value, TimeOf;
    IsWellOrdered(c);
    RunInvariant(Programs(c), FlagSetters(c), run, k);
    CompletedTimes(c, run[k]);
    CommonOrder(c, run[k]);
    if Holds(c) {
      HoldOrder(c, run[k]);
    }
  }

  lemma CommonOrder(c: Condition, s: State)
    requires Inv(Programs(c), FlagSetters(c), s) && Completed(Programs(c), s)
    requires TimeOf(s, AStart) <= TimeOf(s, InvalidateAt) <= TimeOf(s, BLaunch) <= TimeOf(s, BComplete) <= TimeOf(s, PostBegin)
    requires TimeOf(s, PostEnd) <= TimeOf(s, HoldBegin)
    requires TimeOf(s, HoldEnd) <= TimeOf(s, AComplete) <= TimeOf(s, ReuseLaunch)
    ensures Value(s, AStart) <= Value(s, InvalidateAt) <= Value(s, BLaunch) <= Value(s, BComplete) <= Value(s, PostBegin)
    ensures Value(s, PostEnd) <= Value(s, HoldBegin)
    ensures Value(s, HoldEnd) <= Value(s, AComplete) <= Value(s, ReuseLaunch)
  {
    hide Inv, Completed, Stamped, Value, TimeOf, Programs;
    CompletedOrder(c, s, AStart, InvalidateAt);
    CompletedOrder(c, s, InvalidateAt, BLaunch);
    CompletedOrder(c, s, BLaunch, BComplete);
    CompletedOrder(c, s, BComplete, PostBegin);
    CompletedOrder(c, s, PostEnd, HoldBegin);
    CompletedOrder(c, s, HoldEnd, AComplete);
    CompletedOrder(c, s, AComplete, ReuseLaunch);
  }

  lemma HoldOrder(c: Condition, s: State)
    requires Inv(Programs(c), FlagSetters(c), s) && Completed(Programs(c), s) && Holds(c)
    requires Preempts(c) ==> TimeOf(s, PreemptEnd) <= TimeOf(s, DisableBegin)
    requires TimeOf(s, DisableEnd) <= TimeOf(s, BLaunch) && TimeOf(s, HoldEnd) <= TimeOf(s, EnableBegin)
    ensures Value(s, PreemptEnd) == 0 || Value(s, PreemptEnd) <= Value(s, DisableBegin)
    ensures Value(s, DisableEnd) <= Value(s, BLaunch) && Value(s, HoldEnd) <= Value(s, EnableBegin)
  {
    hide Inv, Completed, Stamped, Value, TimeOf, Programs;
    CompletedOrder(c, s, DisableEnd, BLaunch);
    CompletedOrder(c, s, HoldEnd, EnableBegin);
    if Preempts(c) {
      CompletedOrder(c, s, PreemptEnd, DisableBegin);
    } else {
      NeverPreempted(c, s);
    }
  }

  lemma NeverPreempted(c: Condition, s: State)
    requires Inv(Programs(c), FlagSetters(c), s) && c.FifoHold?
    ensures Value(s, PreemptEnd) == 0
  {
    hide Inv;
    StampedIffTaken(c, PreemptEnd);
    NeverStamped(c, s, PreemptEnd);
  }

  lemma AllDone(c: Condition, s: State)
    requires |s.threads| == 3 && Completed(Programs(c), s)
    ensures Done(s, A, 22) && Done(s, A, 41) && Done(s, B, 5)
  {
  }

  predicate Stamped(c: Condition, f: Field) {
    At(Programs(c), Place(f).0, Place(f).1, Stamp(f))
  }

  function TimeOf(s: State, f: Field): int {
    Time(s, Place(f).0, Place(f).1)
  }

  lemma CompletedStampDone(c: Condition, s: State, f: Field)
    requires |s.threads| == 3 && Completed(Programs(c), s) && Stamped(c, f)
    ensures Done(s, Place(f).0, Place(f).1)
  {
  }

  lemma CompletedOrder(c: Condition, s: State, f: Field, g: Field)
    requires Inv(Programs(c), FlagSetters(c), s) && Completed(Programs(c), s)
    requires Taken(c, f) && Taken(c, g) && TimeOf(s, f) <= TimeOf(s, g)
    ensures Value(s, f) <= Value(s, g)
  {
    hide Taken, Place, Programs;
    StampedIffTaken(c, f);
    StampedIffTaken(c, g);
    CompletedStampDone(c, s, f);
    CompletedStampDone(c, s, g);
    StampTime(c, s, f, Place(f).0, Place(f).1);
    StampTime(c, s, g, Place(g).0, Place(g).1);
  }

  /** Which time fields a condition stamps at all. */
  predicate Taken(c: Condition, f: Field) {
    match f
    case PreemptBegin => Preempts(c)
    case PreemptEnd => Preempts(c)
    case DisableBegin => Holds(c)
    case DisableEnd => Holds(c)
    case EnableBegin => Holds(c)
    case EnableEnd => Holds(c)
    case ControlReady => !c.LiveHandoff?
    case DestroyBegin => false
    case DestroyReturn => false
    case _ => true
  }

  lemma StampedIffTaken(c: Condition, f: Field)
    ensures Stamped(c, f) <==> Taken(c, f)
  {
    hide At, Programs, AInstr, BInstr, CInstr, Taken;
    AtIs(c, Place(f).0, Place(f).1, Stamp(f));
    if Place(f).0 == A {
      StampsInA(c, f);
    } else {
      StampsElsewhere(c, f);
    }
  }

  lemma StampsInA(c: Condition, f: Field)
    requires Place(f).0 == A
    ensures AInstr(c, Place(f).1) == Stamp(f) <==> Taken(c, f)
  {
    hide Holds, Preempts;
    if Place(f).1 < 22 {
    } else {
    }
  }

  lemma StampsElsewhere(c: Condition, f: Field)
    requires Place(f).0 != A
    ensures Taken(c, f) <==> Place(f).0 < 3
    ensures Taken(c, f) ==> InstrAt(c, Place(f).0, Place(f).1) == Stamp(f)
  {
  }

  lemma InOrderA(c: Condition, s: State)
    requires Inv(Programs(c), FlagSetters(c), s) && Done(s, A, 41)
    ensures Time(s, A, 14) <= Time(s, A, 16) && Time(s, A, 24) <= Time(s, A, 27)
    ensures Time(s, A, 29) <= Time(s, A, 30) && Time(s, A, 29) <= Time(s, A, 35) <= Time(s, A, 39)
  {
    assert RanPrefix(Programs(c)[A], s.threads[A], s.clock);
  }

  // ----- What the trial finds out about A

  /** A's context is never destroyed, it is recorded alive at its place, and A's end is
      reached at its place. */
  predicate FateOfA(s: State)
    requires |s.threads| == 3
  {
    s.alive && s.aliveAfterB == (if Done(s, A, 25) then 1 else -1) && (s.finished <==> Done(s, A, 34))
  }

  /** Only these instructions touch what becomes of A. */
  lemma FateAt(c: Condition, i: nat)
    ensures AInstr(c, i).RecordAlive? <==> i == 25
    ensures AInstr(c, i).FinishA? <==> i == 34
    ensures !AInstr(c, i).DestroyContext?
    ensures !BInstr(i).RecordAlive? && !BInstr(i).FinishA? && !BInstr(i).DestroyContext?
    ensures var instr := CInstr(true, true, c.LiveHandoff?, i); !instr.RecordAlive? && !instr.FinishA? && !instr.DestroyContext?
  {
    hide Holds, Preempts;
    if i < 22 {
    } else {
    }
  }

  lemma FateStep(c: Condition, s: State, who: nat, move: Move, t: int)
    requires |s.threads| == 3 && Prefixes(Programs(c), s) && FateOfA(s) && Allowed(Programs(c), s, who, move)
    ensures FateOfA(Step(Programs(c), s, who, move, t))
  {
    DoneStep(Programs(c), s, who, move, t);
    StepOnA(Programs(c), s, who, move, t);
    hide Step, AInstr, BInstr, CInstr;
    if move.Proceed? {
      FateAt(c, |s.threads[who].times|);
    }
  }

  /** In every interleaving of every condition, failing ones included: A's context is
      never destroyed, and where its state is recorded it is recorded alive, after
      B's completion was observed. */
  lemma {:induction false} RunKeepsAlive(c: Condition, run: seq<State>, k: nat)
    requires IsRun(Programs(c), run) && k < |run|
    ensures |run[k].threads| == 3 && FateOfA(run[k])
    ensures Done(run[k], A, 25) ==> Done(run[k], B, 8) && Time(run[k], B, 8) <= Time(run[k], A, 25)
  {
    hide FateOfA, Step, Allowed, Inv, WellOrdered, BInstr, CInstr;
    IsWellOrdered(c);
    RunInvariant(Programs(c), FlagSetters(c), run, k);
    ThreeThreads(c, run[k]);
    if Done(run[k], A, 25) {
      HappensBefore(Programs(c), FlagSetters(c), run[k], 8, BDone, A, 21, 25, true);
    }
    if k == 0 {
      FateAtStart(run[0].clock, run[0].answers, run[0].waits);
    } else {
      RunKeepsAlive(c, run, k - 1);
      var s, s' := run[k - 1], run[k];
      assert Next(Programs(c), s, s');
      RunInvariant(Programs(c), FlagSetters(c), run, k - 1);
      InvPrefixes(c, s);
      var who, move :|
        Allowed(Programs(c), s, who, move) && s.clock <= s'.clock && s' == Step(Programs(c), s, who, move, s'.clock);
      FateStep(c, s, who, move, s'.clock);
    }
  }

  lemma FateAtStart(clock: int, answers: set<Question>, waits: map<Field, int>)
    ensures FateOfA(Start(clock, answers, waits))
  {
  }

  /** What a completed trial has established and recorded: A was pending when it was
      invalidated, its output and resources are the right ones, its end was reached, it
      was alive after B, and all three queries are on record. */
  predicate Established(s: State) {
    && s.alive && s.aliveAfterB == 1 && s.finished
    && APending in s.answers && OutputMatches in s.answers && SameResources in s.answers
    && APending in s.learned && s.learned[APending]
    && APendingAfterB in s.learned && (s.learned[APendingAfterB] <==> APendingAfterB in s.answers)
    && APendingAtHoldEnd in s.learned && (s.learned[APendingAtHoldEnd] <==> APendingAtHoldEnd in s.answers)
  }

  lemma CompletedEstablishes(c: Condition, run: seq<State>, k: nat)
    requires IsRun(Programs(c), run) && k < |run| && |run[k].threads| == 3 && Completed(Programs(c), run[k])
    ensures Established(run[k])
  {
    hide Inv, IsRun, WellOrdered, Completed, Programs, AInstr;
    var s := run[k];
    IsWellOrdered(c);
    RunInvariant(Programs(c), FlagSetters(c), run, k);
    RunKeepsAlive(c, run, k);
    AllSteps(c, s);
    Questions(c);
    DemandMet(c, s, 12, APending);
    DemandMet(c, s, 37, OutputMatches);
    DemandMet(c, s, 41, SameResources);
    AnswerKnown(c, s, 10, APending);
    AnswerKnown(c, s, 23, APendingAfterB);
    AnswerKnown(c, s, 28, APendingAtHoldEnd);
  }

  lemma AllSteps(c: Condition, s: State)
    requires |s.threads| == 3 && Completed(Programs(c), s)
    ensures forall i :: 0 <= i < A_LENGTH ==> Done(s, A, i)
    ensures Done(s, B, 11) && Done(s, C, 3)
  {
  }

  lemma Questions(c: Condition)
    ensures AInstr(c, 10) == Learn(APending) && AInstr(c, 12) == Demand(APending)
    ensures AInstr(c, 23) == Learn(APendingAfterB) && AInstr(c, 28) == Learn(APendingAtHoldEnd)
    ensures AInstr(c, 37) == Demand(OutputMatches) && AInstr(c, 41) == Demand(SameResources)
  {
  }

  // ----- What A's records attest

  /** Where A has the driver do what. */
  function AWork(work: Work): nat {
    match work
    case BegunA => 1
    case LaunchedA => 3
    case SeenA => 4
    case Preempted => 15
    case TimedA => 36
    case BegunAgain => 38
    case RunAgain => 40
    case _ => 42
  }

  lemma AWorkAt(c: Condition, i: nat, work: Work)
    requires AInstr(c, i) == Call(work)
    ensures i == AWork(work)
  {
    hide Holds, Preempts;
    if i < 22 {
    } else {
    }
  }

  lemma AMade(c: Condition, s: State, work: Work)
    requires AWork(work) < 42 && AInstr(c, AWork(work)) == Call(work)
    ensures Made(Programs(c), s, A, work) <==> Done(s, A, AWork(work))
  {
    hide Made, AWork, AInstr;
    forall i | At(Programs(c), A, i, Call(work)) ensures i == AWork(work) {
      AWorkAt(c, i, work);
    }
    MadeAt(Programs(c), s, A, AWork(work), work);
  }

  lemma AMakes(c: Condition, s: State)
    ensures forall work :: AWork(work) < 42 && (work.Preempted? ==> Preempts(c)) ==>
              (Made(Programs(c), s, A, work) <==> Done(s, A, AWork(work)))
  {
    hide Made, Preempts, Programs;
    forall work | AWork(work) < 42 && (work.Preempted? ==> Preempts(c))
      ensures Made(Programs(c), s, A, work) <==> Done(s, A, AWork(work)) {
      AMade(c, s, work);
    }
  }

  lemma AStamped(c: Condition, s: State, f: Field)
    requires Inv(Programs(c), FlagSetters(c), s) && Taken(c, f)
    ensures f in s.stamps <==> Done(s, Place(f).0, Place(f).1)
    ensures f in s.stamps ==> s.stamps[f] == TimeOf(s, f)
  {
    hide Inv, WellOrdered, Taken, Place;
    IsWellOrdered(c);
    StampedIffTaken(c, f);
    StampedAt(Programs(c), FlagSetters(c), s, Place(f).0, Place(f).1, f);
  }

  lemma NotStamped(c: Condition, s: State, f: Field)
    requires Inv(Programs(c), FlagSetters(c), s) && !Taken(c, f)
    ensures f !in s.stamps
  {
    hide Taken, Place, Programs;
    StampedIffTaken(c, f);
    if f in s.stamps {
      var p, i :| At(Programs(c), p, i, Stamp(f)) && Done(s, p, i);
      StampPlace(c, p, i, f);
    }
  }

  /** A goes to the device only once B has armed; its launch and its reuse are recorded
      before they are made and behind their begin events, its start only when the start
      marker was seen; B is released only after a demanded preemption; A's time and output
      are read behind its recorded completion, and its reuse begins only with the right
      output. The controller leaves its trace mark before it lets go. */
  ghost predicate AAttested(c: Condition, s: State) {
    var programs := Programs(c);
    && (Made(programs, s, A, BegunA) ==> BArmed in s.flags)
    && (ALaunch in s.stamps ==> Made(programs, s, A, BegunA))
    && (Made(programs, s, A, LaunchedA) ==> ALaunch in s.stamps)
    && (Made(programs, s, A, SeenA) ==> Made(programs, s, A, LaunchedA))
    && (AStart in s.stamps ==> Made(programs, s, A, SeenA))
    && (Preempts(c) ==> (BGo in s.flags ==> Made(programs, s, A, Preempted)))
    && (Made(programs, s, A, TimedA) ==> AComplete in s.stamps)
    && (Made(programs, s, A, BegunAgain) ==> Made(programs, s, A, TimedA) && OutputMatches in s.answers)
    && (ReuseLaunch in s.stamps ==> Made(programs, s, A, BegunAgain))
    && (Made(programs, s, A, RunAgain) ==> ReuseLaunch in s.stamps)
    && (Invalidate in s.flags ==> Made(programs, s, C, Traced))
  }

  /** A completed trial has made every call there is. */
  lemma CompletedMakes(c: Condition, s: State)
    requires |s.threads| == 3 && Completed(Programs(c), s)
    ensures forall work :: work in {BegunA, LaunchedA, SeenA, TimedA, BegunAgain, RunAgain} ==> Made(Programs(c), s, A, work)
    ensures Preempts(c) ==> Made(Programs(c), s, A, Preempted)
    ensures forall work :: work in {BegunB, LaunchedB, ReachedB, TimedB, CheckedB} ==> Made(Programs(c), s, B, work)
    ensures Made(Programs(c), s, C, Traced)
  {
    hide Completed, Made, Programs;
    AllSteps(c, s);
    AMakes(c, s);
    BMakes(Programs(c), s);
    TraceMade(c, s);
  }

  /** In every interleaving, failing ones included, both participants' records attest
      what they are taken for. */
  lemma RecordsAttest(c: Condition, s: State)
    requires Inv(Programs(c), FlagSetters(c), s)
    ensures AAttested(c, s) && BAttested(Programs(c), s)
  {
    hide Inv, WellOrdered, Programs, AInstr, Made, BAttested, Place, Taken;
    IsWellOrdered(c);
    AMakes(c, s);
    AStampsDone(c, s);
    TraceMade(c, s);
    BAttests(Programs(c), FlagSetters(c), s);
    if Done(s, A, 37) {
      Questions(c);
      DemandMet(c, s, 37, OutputMatches);
    }
    ArmedFirst(c, s);
  }

  lemma ArmedFirst(c: Condition, s: State)
    requires Inv(Programs(c), FlagSetters(c), s)
    ensures Done(s, A, 1) ==> BArmed in s.flags
    ensures !c.LiveHandoff? ==> (BGo in s.flags <==> Done(s, A, 20))
    ensures Invalidate in s.flags <==> Done(s, C, 4)
  {
    hide Inv;
    StoredAt(Programs(c), FlagSetters(c), s, Invalidate);
    StoredAt(Programs(c), FlagSetters(c), s, BArmed);
    StoredAt(Programs(c), FlagSetters(c), s, BGo);
    if Done(s, A, 1) {
      HappensBefore(Programs(c), FlagSetters(c), s, 1, BArmed, A, 0, 1, false);
    }
  }

  lemma TraceMade(c: Condition, s: State)
    ensures Made(Programs(c), s, C, Traced) <==> Done(s, C, 3)
  {
    forall i | At(Programs(c), C, i, Call(Traced)) ensures i == 3 {
      assert CInstr(true, true, c.LiveHandoff?, i) == Call(Traced);
    }
    MadeAt(Programs(c), s, C, 3, Traced);
  }

  lemma AStampsDone(c: Condition, s: State)
    requires Inv(Programs(c), FlagSetters(c), s)
    ensures (ALaunch in s.stamps <==> Done(s, A, 2)) && (AStart in s.stamps <==> Done(s, A, 5))
    ensures (AComplete in s.stamps <==> Done(s, A, 35)) && (ReuseLaunch in s.stamps <==> Done(s, A, 39))
  {
    hide Inv;
    AStamped(c, s, ALaunch);
    AStamped(c, s, AStart);
    AStamped(c, s, AComplete);
    AStamped(c, s, ReuseLaunch);
  }

  /** Nobody leaves without an error once it is past its last quiet wait: A once it has
      seen its invalidation, B once triggered, the controller once it invalidates. And
      nobody is failed by a wait but A, while it waits for B. */
  lemma LeavesInTime(c: Condition, s: State)
    requires Inv(Programs(c), FlagSetters(c), s)
    ensures s.threads[A].phase.Returned? ==> InvalidateSeen !in s.stamps
    ensures s.threads[B].phase.Returned? ==> BTrigger !in s.stamps
    ensures s.threads[C].phase.Returned? ==> InvalidateAt !in s.stamps
    ensures forall p :: 0 <= p < 3 && FailedAtWait(Programs(c), s, p) ==>
              p == A && PostBegin !in s.stamps && (if c.LiveHandoff? then QueryEnd else ControlReady) in s.stamps
  {
    QuietWaits(c, s);
    ExitStamps(c, s);
    hide Inv, FailedAtWait;
  }

  lemma ExitStamps(c: Condition, s: State)
    requires Inv(Programs(c), FlagSetters(c), s)
    ensures (InvalidateSeen in s.stamps <==> Done(s, A, 8)) && (BTrigger in s.stamps <==> Done(s, B, 3))
    ensures (InvalidateAt in s.stamps <==> Done(s, C, 2)) && (PostBegin in s.stamps <==> Done(s, A, 22))
    ensures (if c.LiveHandoff? then QueryEnd else ControlReady) in s.stamps <==> Done(s, A, if c.LiveHandoff? then 11 else 19)
  {
    hide Inv;
    AStamped(c, s, InvalidateSeen);
    AStamped(c, s, BTrigger);
    AStamped(c, s, InvalidateAt);
    AStamped(c, s, PostBegin);
    AStamped(c, s, if c.LiveHandoff? then QueryEnd else ControlReady);
  }

  lemma QuietWaits(c: Condition, s: State)
    requires Inv(Programs(c), FlagSetters(c), s)
    ensures s.threads[A].phase.Returned? ==> !Done(s, A, 8)
    ensures s.threads[B].phase.Returned? ==> !Done(s, B, 3)
    ensures s.threads[C].phase.Returned? ==> !Done(s, C, 2)
    ensures forall p :: 0 <= p < 3 && FailedAtWait(Programs(c), s, p) ==> p == A && |s.threads[A].times| == 21
  {
    hide AInstr, BInstr, CInstr;
    forall p | 0 <= p < 3
      ensures s.threads[p].phase.Returned? ==> |s.threads[p].times| <= if p == A then 7 else if p == B then 2 else 0
      ensures FailedAtWait(Programs(c), s, p) ==> p == A && |s.threads[A].times| == 21
    {
      assert RanPrefix(Programs(c)[p], s.threads[p], s.clock);
      WaitsAt(c, p, |s.threads[p].times|);
    }
  }

  /** Which waits there are, and which of them throw. */
  lemma WaitsAt(c: Condition, p: nat, i: nat)
    requires p < 3
    ensures InstrAt(c, p, i).Await? ==>
              if InstrAt(c, p, i).throws then p == A && i == 21
              else i <= if p == A then 7 else if p == B then 2 else 0
  {
    hide Holds, Preempts;
    if i < 22 {
    } else {
    }
  }

  // ----- The hold interval

  /** In every interleaving: the controller invalidates no earlier than its delay behind
      A's start, unless cancelled; and A's event is queried again no earlier than the hold
      interval behind the time it counts from. */
  lemma HoldsLongEnough(c: Condition, run: seq<State>, k: nat)
    requires IsRun(Programs(c), run) && k < |run|
    ensures var s := run[k];
            && (InvalidateAt in s.stamps ==> s.cancelled || Deadline(s, AStart) <= s.stamps[InvalidateAt])
            && (HoldBegin in s.stamps ==>
                  Deadline(s, if c.LiveHandoff? then InvalidateAt else ControlReady) <= s.stamps[HoldBegin])
  {
    hide IsRun, Inv, WellOrdered, StampedBefore, WaitsElapsed, Deadline;
    IsWellOrdered(c);
    forall j: nat | j <= k ensures Inv(Programs(c), FlagSetters(c), run[j]) && StampedBefore(Programs(c), run[j]) {
      RunInvariant(Programs(c), FlagSetters(c), run, j);
      CountsFromRecorded(c, run[j]);
    }
    RunElapsed(Programs(c), FlagSetters(c), run, k);
    InvalidationDelay(c, run[k]);
    HoldInterval(c, run[k]);
  }

  lemma InvalidationDelay(c: Condition, s: State)
    requires Inv(Programs(c), FlagSetters(c), s) && WaitsElapsed(Programs(c), s)
    ensures InvalidateAt in s.stamps ==> s.cancelled || Deadline(s, AStart) <= s.stamps[InvalidateAt]
  {
    hide Inv, Deadline, AInstr;
    AStamped(c, s, InvalidateAt);
    assert At(Programs(c), C, 1, Elapse(AStart, true));
    if InvalidateAt in s.stamps {
      ProgramOrder(Programs(c), FlagSetters(c), s, C, 1, 2);
    }
  }

  lemma HoldInterval(c: Condition, s: State)
    requires Inv(Programs(c), FlagSetters(c), s) && WaitsElapsed(Programs(c), s)
    ensures HoldBegin in s.stamps ==>
              Deadline(s, if c.LiveHandoff? then InvalidateAt else ControlReady) <= s.stamps[HoldBegin]
  {
    hide Inv, Deadline, BInstr, CInstr;
    AStamped(c, s, HoldBegin);
    assert At(Programs(c), A, 26, Elapse(HeldFrom(c), false));
    if HoldBegin in s.stamps {
      ProgramOrder(Programs(c), FlagSetters(c), s, A, 26, 27);
    }
  }

  lemma CountsFromRecorded(c: Condition, s: State)
    requires Inv(Programs(c), FlagSetters(c), s)
    ensures StampedBefore(Programs(c), s)
  {
    hide Inv, AInstr, BInstr, CInstr;
    forall p, i, f, early | At(Programs(c), p, i, Elapse(f, early)) && Reached(s, p, i) ensures f in s.stamps {
      ElapseAt(c, p, i, f, early);
      RecordedBefore(c, s, p, i);
    }
  }

  lemma ElapseAt(c: Condition, p: int, i: int, f: Field, early: bool)
    requires At(Programs(c), p, i, Elapse(f, early))
    ensures (p == A && i == 26 && f == HeldFrom(c)) || (p == C && i == 1 && f == AStart)
  {
    hide Holds, Preempts, HeldFrom;
    AtIs(c, p, i, Elapse(f, early));
    if i < 22 {
    } else {
    }
  }

  lemma RecordedBefore(c: Condition, s: State, p: int, i: int)
    requires Inv(Programs(c), FlagSetters(c), s) && Reached(s, p, i)
    ensures p == A && i == 26 ==> HeldFrom(c) in s.stamps
    ensures p == C && i == 1 ==> AStart in s.stamps
  {
    hide Inv;
    AStamped(c, s, HeldFrom(c));
    AStamped(c, s, AStart);
    if p == A && i == 26 {
      HappensBefore(Programs(c), FlagSetters(c), s, 2, Invalidate, A, 7, 25, false);
    }
    if p == C && i == 1 {
      HappensBefore(Programs(c), FlagSetters(c), s, 5, AStarted, C, 0, 0, false);
    }
  }

  /** Progress and outcome of `rm_trial`. */
  lemma RmTrialFinishes(c: Condition, run: seq<State>)
    requires IsRun(Programs(c), run)
    ensures |run| <= 70
    ensures var s := run[|run| - 1];
            && |s.threads| == 3
            && if AllFinished(Programs(c), s)
               then (Completed(Programs(c), s) && OrderChecks(c, s) && Established(s)) || SomeoneThrew(s)
               else exists s' :: Next(Programs(c), s, s')
  {
    hide Completed, AllFinished, Established;
    IsWellOrdered(c);
    ProtocolFinishes(Programs(c), FlagSetters(c), run);
    if Completed(Programs(c), run[|run| - 1]) {
      OrderChecksNeverFail(c, run, |run| - 1);
      CompletedEstablishes(c, run, |run| - 1);
    }
  }

  // ----- Re-enabling

  /** Where A is decides how many disables were accepted and how many enables were
      attempted. */
  predicate Accounted(c: Condition, s: State)
    requires |s.threads| == 3
  {
    var accepted := Holds(c) && Done(s, A, DISABLED);
    && s.accepted == (if accepted then 1 else 0)
    && s.disabled == (accepted && !Done(s, A, ENABLED))
    && s.attempts == (if accepted && (Done(s, A, ENABLING) || s.threads[A].phase.Threw?) then 1 else 0)
  }

  /** Only three instructions touch the counters. */
  lemma ControlsAt(c: Condition, i: nat)
    ensures AInstr(c, i).AcceptDisable? <==> Holds(c) && i == DISABLED
    ensures AInstr(c, i).IssueEnable? <==> Holds(c) && i == ENABLING
    ensures AInstr(c, i).AcceptEnable? <==> Holds(c) && i == ENABLED
    ensures !BInstr(i).AcceptDisable? && !BInstr(i).IssueEnable? && !BInstr(i).AcceptEnable?
    ensures var instr := CInstr(true, true, c.LiveHandoff?, i);
            !instr.AcceptDisable? && !instr.IssueEnable? && !instr.AcceptEnable?
  {
    hide Holds, Preempts;
    if i < 22 {
    } else {
    }
  }

  lemma AccountedStep(c: Condition, s: State, who: nat, move: Move, t: int)
    requires |s.threads| == 3 && Prefixes(Programs(c), s) && Accounted(c, s) && Allowed(Programs(c), s, who, move)
    ensures Accounted(c, Step(Programs(c), s, who, move, t))
  {
    StepThreads(Programs(c), s, who, move, t);
    StepOnControls(Programs(c), s, who, move, t);
    hide Step, AInstr, BInstr, CInstr, Monotone, Holds;
    if move.Proceed? {
      ControlsAt(c, |s.threads[who].times|);
    } else {
      assert RanPrefix(Programs(c)[A], s.threads[A], s.clock);
    }
  }

  lemma {:induction false} RunAccounted(c: Condition, run: seq<State>, k: nat)
    requires IsRun(Programs(c), run) && k < |run|
    ensures Inv(Programs(c), FlagSetters(c), run[k]) && Accounted(c, run[k])
  {
    hide Inv, Accounted, Step, Allowed;
    IsWellOrdered(c);
    RunInvariant(Programs(c), FlagSetters(c), run, k);
    if k == 0 {
      NothingAccounted(c, run[0].clock, run[0].answers, run[0].waits);
    } else {
      RunAccounted(c, run, k - 1);
      var s, s' := run[k - 1], run[k];
      assert Next(Programs(c), s, s');
      var who, move :|
        Allowed(Programs(c), s, who, move) && s.clock <= s'.clock && s' == Step(Programs(c), s, who, move, s'.clock);
      InvPrefixes(c, s);
      AccountedStep(c, s, who, move, s'.clock);
    }
  }

  lemma NothingAccounted(c: Condition, clock: int, answers: set<Question>, waits: map<Field, int>)
    ensures Accounted(c, Start(clock, answers, waits))
  {
  }

  lemma InvPrefixes(c: Condition, s: State)
    requires Inv(Programs(c), FlagSetters(c), s)
    ensures Prefixes(Programs(c), s)
  {
  }

  /** In every interleaving, failing ones included: at most one disable is accepted,
      and once A's owner is through, there was exactly one attempt to enable for
      each accepted disable. */
  lemma DisableIsUndoneOnce(c: Condition, run: seq<State>, k: nat)
    requires IsRun(Programs(c), run) && k < |run|
    ensures |run[k].threads| == 3
    ensures run[k].accepted <= 1 && run[k].attempts <= run[k].accepted
    ensures Finished(Programs(c), run[k], A) ==> run[k].attempts == run[k].accepted
  {
    hide IsRun, Inv, AInstr, BInstr, CInstr, Holds;
    RunAccounted(c, run, k);
    QuietWaits(c, run[k]);
    ThreeThreads(c, run[k]);
  }

  lemma ThreeThreads(c: Condition, s: State)
    requires Inv(Programs(c), FlagSetters(c), s)
    ensures |s.threads| == 3
  {
  }

  /** B has published its completion, or an exception took it out of `run_tiny`. */
  predicate BIsThrough(s: State)
    requires |s.threads| == 3
  {
    BDone in s.flags || (Cancelling(s.threads[B].phase) && BRunsTiny(|s.threads[B].times|))
  }

  /** At the attempt to enable, B has published `b_done` or has already left
      `run_tiny` with an error. */
  lemma EnableFollowsB(c: Condition, run: seq<State>, k: nat)
    requires IsRun(Programs(c), run) && 0 < k < |run|
    requires |run[k - 1].threads| == 3 && run[k].attempts != run[k - 1].attempts
    ensures BIsThrough(run[k - 1])
  {
    hide Inv, Step, IsRun;
    assert Next(Programs(c), run[k - 1], run[k]) by {
      RunSteps(c, run, k);
    }
    RunAccounted(c, run, k - 1);
    var s, s' := run[k - 1], run[k];
    var who, move :|
      Allowed(Programs(c), s, who, move) && s.clock <= s'.clock && s' == Step(Programs(c), s, who, move, s'.clock);
    AttemptAt(c, s, who, move, s'.clock);
    if Done(s, A, 21) {
      DonePublished(c, s);
    } else {
      OnlyBCancels(c, s);
    }
  }

  lemma RunSteps(c: Condition, run: seq<State>, k: nat)
    requires IsRun(Programs(c), run) && 0 < k < |run|
    ensures Next(Programs(c), run[k - 1], run[k])
  {
  }

  /** An attempt is made at the enable itself or in A's handler after the disable. */
  lemma AttemptAt(c: Condition, s: State, who: nat, move: Move, t: int)
    requires Inv(Programs(c), FlagSetters(c), s) && Accounted(c, s) && Allowed(Programs(c), s, who, move)
    requires Step(Programs(c), s, who, move, t).attempts != s.attempts
    ensures Holds(c) && Done(s, A, DISABLED)
    ensures Done(s, A, 21) || (!s.threads[A].phase.Running? && |s.threads[A].times| == 21)
  {
    hide Inv, Step, AInstr, BInstr, CInstr, Accounted;
    InvPrefixes(c, s);
    StepOnControls(Programs(c), s, who, move, t);
    if move.Proceed? {
      ControlsAt(c, |s.threads[who].times|);
    } else {
      assert MustReenable(s, who);
      StoppedAfterDisable(c, s);
    }
  }

  /** With a disable to undo, A stopped at its wait for B or later. */
  lemma StoppedAfterDisable(c: Condition, s: State)
    requires |s.threads| == 3 && Prefixes(Programs(c), s) && Accounted(c, s)
    requires s.disabled && !s.threads[A].phase.Running?
    ensures Holds(c) && Done(s, A, DISABLED)
    ensures Done(s, A, 21) || |s.threads[A].times| == 21
  {
    assert RanPrefix(Programs(c)[A], s.threads[A], s.clock);
  }

  lemma DonePublished(c: Condition, s: State)
    requires Inv(Programs(c), FlagSetters(c), s) && Done(s, A, 21)
    ensures BDone in s.flags
  {
    HappensBefore(Programs(c), FlagSetters(c), s, 9, BDone, A, 21, 21, true);
  }

  /** If A was cancelled while waiting for B, only B's exception can be the cause:
      the controller can no longer fail once it has invalidated A. */
  lemma OnlyBCancels(c: Condition, s: State)
    requires Inv(Programs(c), FlagSetters(c), s)
    requires !s.threads[A].phase.Running? && |s.threads[A].times| == 21
    ensures Cancelling(s.threads[B].phase) && BRunsTiny(|s.threads[B].times|)
  {
    HappensBefore(Programs(c), FlagSetters(c), s, 4, Invalidate, A, 7, 20, false);
    hide Programs;
    assert CancelledByOther(Programs(c), s, A);
    if Cancelling(s.threads[C].phase) {
      ControllerIsThrough(c, s);
    } else {
      StopsInTiny(c, s);
    }
  }

  lemma ControllerIsThrough(c: Condition, s: State)
    requires Inv(Programs(c), FlagSetters(c), s) && Done(s, C, 4)
    ensures !Cancelling(s.threads[C].phase)
  {
    assert RanPrefix(Programs(c)[C], s.threads[C], s.clock);
  }

  lemma StopsInTiny(c: Condition, s: State)
    requires Inv(Programs(c), FlagSetters(c), s) && Cancelling(s.threads[B].phase)
    ensures BRunsTiny(|s.threads[B].times|)
  {
    assert RanPrefix(Programs(c)[B], s.threads[B], s.clock);
  }
}
