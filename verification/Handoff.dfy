/** The programs of B and of the controller, shared by both handoff experiments. */
module Handoff {
  import opened Protocol

  const A: nat := 0
  const B: nat := 1
  const C: nat := 2

  const B_LENGTH: nat := 12
  const C_LENGTH: nat := 6

  /** An instruction that only some variants execute. */
  function When(taken: bool, instr: Instr): Instr {
    if taken then instr else Skip
  }

  /** B arms, waits, then runs its tiny kernel (4 to 11 are `run_tiny`). */
  function BInstr(i: nat): Instr {
    match i
    case 0 => Stamp(BReady)
    case 1 => Set(BArmed)
    case 2 => Await(BGo, false)
    case 3 => Stamp(BTrigger)
    case 4 => Call(BegunB)         // begin event
    case 5 => Stamp(BLaunch)
    case 6 => Call(LaunchedB)      // launch, end event
    case 7 => Call(ReachedB)       // end event reached
    case 8 => Stamp(BComplete)
    case 9 => Set(BDone)
    case 10 => Call(TimedB)        // elapsed time
    case 11 => Call(CheckedB)      // result copied and checked
    case _ => Skip
  }

  /** The controller invalidates A once A has started; `waits` is whether it lets A run
      for a while first, `launches` whether it also releases B. */
  function CInstr(waits: bool, marks: bool, launches: bool, i: nat): Instr {
    match i
    case 0 => Await(AStarted, false)
    case 1 => if waits then Elapse(AStart, true) else Skip   // invalidation delay
    case 2 => Stamp(InvalidateAt)
    case 3 => if marks then Call(Traced) else Skip           // trace mark
    case 4 => Set(Invalidate)
    case 5 => if launches then Set(BGo) else Skip
    case _ => Skip
  }

  // ----- What B's records attest

  predicate RunsB(programs: seq<Program>) {
    |programs| == 3 && |programs[B]| == 12 && forall i :: 0 <= i < 12 ==> programs[B][i] == BInstr(i)
  }

  /** Where B has the driver do what. */
  function BWork(work: Work): nat {
    match work
    case BegunB => 4
    case LaunchedB => 6
    case ReachedB => 7
    case TimedB => 10
    case CheckedB => 11
    case _ => 12
  }

  lemma BWorkAt(programs: seq<Program>, work: Work)
    requires RunsB(programs) && BWork(work) < 12
    ensures At(programs, B, BWork(work), Call(work))
    ensures forall i :: At(programs, B, i, Call(work)) ==> i == BWork(work)
  {
    forall i | At(programs, B, i, Call(work)) ensures i == BWork(work) {
      assert BInstr(i) == Call(work);
    }
  }

  /** B goes to the device only once triggered; its launch is recorded before it is made
      and behind its begin event, its completion only when its end event was reached; it
      publishes that before it reads time and result, in this order. */
  ghost predicate BAttested(programs: seq<Program>, s: State) {
    && (Made(programs, s, B, BegunB) ==> BTrigger in s.stamps)
    && (BLaunch in s.stamps ==> Made(programs, s, B, BegunB))
    && (Made(programs, s, B, LaunchedB) ==> BLaunch in s.stamps)
    && (Made(programs, s, B, ReachedB) ==> Made(programs, s, B, LaunchedB))
    && (BComplete in s.stamps ==> Made(programs, s, B, ReachedB))
    && (BDone in s.flags ==> BComplete in s.stamps)
    && (Made(programs, s, B, TimedB) ==> BDone in s.flags)
    && (Made(programs, s, B, CheckedB) ==> Made(programs, s, B, TimedB))
  }

  lemma BAttests(programs: seq<Program>, setters: Setters, s: State)
    requires RunsB(programs) && WellOrdered(programs, setters) && Inv(programs, setters, s)
    requires BDone in setters && setters[BDone] == (B, 9)
    ensures BAttested(programs, s)
    ensures Done(s, B, 11) ==> Made(programs, s, B, CheckedB)
  {
    hide Inv, WellOrdered, Made, RunsB;
    BMakes(programs, s);
    BStamps(programs, setters, s);
  }

  lemma BMakes(programs: seq<Program>, s: State)
    requires RunsB(programs)
    ensures Made(programs, s, B, BegunB) <==> Done(s, B, 4)
    ensures Made(programs, s, B, LaunchedB) <==> Done(s, B, 6)
    ensures Made(programs, s, B, ReachedB) <==> Done(s, B, 7)
    ensures Made(programs, s, B, TimedB) <==> Done(s, B, 10)
    ensures Made(programs, s, B, CheckedB) <==> Done(s, B, 11)
  {
    hide Made, RunsB;
    BMade(programs, s, BegunB);
    BMade(programs, s, LaunchedB);
    BMade(programs, s, ReachedB);
    BMade(programs, s, TimedB);
    BMade(programs, s, CheckedB);
  }

  lemma BMade(programs: seq<Program>, s: State, work: Work)
    requires RunsB(programs) && BWork(work) < 12
    ensures Made(programs, s, B, work) <==> Done(s, B, BWork(work))
  {
    hide Made, BWork, RunsB, At;
    BWorkAt(programs, work);
    MadeAt(programs, s, B, BWork(work), work);
  }

  lemma BStamps(programs: seq<Program>, setters: Setters, s: State)
    requires RunsB(programs) && WellOrdered(programs, setters) && Inv(programs, setters, s)
    requires BDone in setters && setters[BDone] == (B, 9)
    ensures (BTrigger in s.stamps <==> Done(s, B, 3)) && (BLaunch in s.stamps <==> Done(s, B, 5))
    ensures (BComplete in s.stamps <==> Done(s, B, 8)) && (BDone in s.flags <==> Done(s, B, 9))
  {
    hide Inv, WellOrdered;
    StampedAt(programs, setters, s, B, 3, BTrigger);
    StampedAt(programs, setters, s, B, 5, BLaunch);
    StampedAt(programs, setters, s, B, 8, BComplete);
    StoredAt(programs, setters, s, BDone);
  }

  predicate BRunsTiny(i: nat) {
    4 <= i
  }

  function Value(s: State, field: Field): int {
    if field in s.stamps then s.stamps[field] else 0
  }
}
