/** The rewind experiment: one case after another, each classified from what its
    queries saw, and the evidence each leaves for the analyzer. */
module Rewind {
  import opened Results
  import opened RewindEvidence

  const EPOCH_MASK: bv32 := 0x19e4ba73

  /** One sentinel result slot in host memory. */
  datatype Cell = Cell(token: U32, value: bv32)

  function Masked(token: U32): bv32 {
    (token as bv32) ^ EPOCH_MASK
  }

  predicate Published(cell: Cell, token: U32) {
    cell.token == token && cell.value == (token as bv32) ^ 0x19e4_ba73
  }

  /** What becomes of a row that is written to the call log. */
  datatype Mark = Written | Missing | Cut

  /** The environment by tick; memory also by the number of controls asked for so far.
      Everything is arbitrary, apart from `Sane`. */
  datatype Env = Env(
    clock: nat -> int, result: (Phase, nat) -> int, oldCell: (nat, nat, nat) -> Cell, newCell: (nat, nat, nat) -> Cell,
    fails: nat -> bool, mark: nat -> Mark, control: nat -> Control, same: nat -> bool, newStreamAt: nat -> nat, stream: nat)

  /** Time advances, a published token stays put, and a created stream is new. */
  ghost predicate Sane(e: Env) {
    && (forall t, u :: t < u ==> e.clock(t) < e.clock(u))
    && (forall slot, n, m, t, u :: n <= m && t <= u && Published(e.oldCell(slot, n, t), OldToken(slot)) ==>
          Published(e.oldCell(slot, m, u), OldToken(slot)))
    && (forall slot, n, m, t, u :: n <= m && t <= u && Published(e.newCell(slot, n, t), NewToken(slot)) ==>
          Published(e.newCell(slot, m, u), NewToken(slot)))
    && (forall t :: e.newStreamAt(t) != e.stream)
  }

  lemma NewStays(e: Env, slot: nat, n: nat, t: nat, u: nat)
    requires Sane(e) && t <= u && Published(e.newCell(slot, n, t), NewToken(slot))
    ensures Published(e.newCell(slot, n, u), NewToken(slot))
  {
  }

  lemma OldStays(e: Env, slot: nat, n: nat, t: nat, u: nat)
    requires Sane(e) && t <= u && Published(e.oldCell(slot, n, t), OldToken(slot))
    ensures Published(e.oldCell(slot, n, u), OldToken(slot))
  {
  }

  // ----- An environment in which a hold works as intended

  /** A's work is pending up to the end of the hold and done after it. */
  function Expected(phase: Phase): int {
    if phase.BeforeDisable? || InHold(phase) then NOT_READY else SUCCESS
  }

  ghost predicate Steady(e: Env) {
    && (forall t :: !e.fails(t) && e.same(t) && e.mark(t).Written?)
    && (forall t :: e.control(t).accepted && e.control(t).attempted && e.control(t).rmStatus == 0)
    && forall phase, t :: e.result(phase, t) == Expected(phase)
  }

  ghost predicate OldClear(e: Env, slot: nat, asked: nat) {
    forall t :: e.oldCell(slot, asked, t).token == 0
  }

  ghost predicate NewClear(e: Env, slot: nat, asked: nat) {
    forall t :: e.newCell(slot, asked, t).token == 0
  }

  ghost predicate OldInPlace(e: Env, slot: nat, asked: nat) {
    forall t :: Published(e.oldCell(slot, asked, t), OldToken(slot))
  }

  ghost predicate NewInPlace(e: Env, slot: nat, asked: nat) {
    forall t :: Published(e.newCell(slot, asked, t), NewToken(slot))
  }

  /** Both slots are clear until the case's disable, the old one until its enable, and
      both sentinels are in place after that. */
  ghost predicate Holds(e: Env, slot: nat, asked: nat) {
    && OldClear(e, slot, asked) && NewClear(e, slot, asked) && OldClear(e, slot, asked + 1)
    && OldInPlace(e, slot, asked + 2) && NewInPlace(e, slot, asked + 2)
  }

  ghost predicate Smooth(e: Env, asked: nat) {
    Steady(e) && forall slot: nat :: Holds(e, slot, asked + 2 * slot)
  }

  // ----- What a case says of its calls

  predicate InHold(phase: Phase) {
    phase.Hold? || phase.HoldEnd?
  }

  predicate WhileHeld(call: Call) {
    call.edge.End? && InHold(call.phase)
  }

  /** Every query of the case during the hold found its work still pending. */
  predicate HeldThroughout(calls: seq<Call>, index: nat) {
    forall i :: 0 <= i < |calls| && calls[i].caseIndex == index && WhileHeld(calls[i]) ==> calls[i].result == 600
  }

  predicate IsValid(c: Classification) {
    c.Preserved? || c.Removed?
  }

  predicate OnlyCase(calls: seq<Call>, start: nat, index: nat) {
    forall i :: start <= i < |calls| ==> calls[i].caseIndex == index
  }

  /** The log grew, by rows of this case only. */
  predicate Grew(before: seq<Call>, after: seq<Call>, index: nat) {
    before <= after && OnlyCase(after, |before|, index)
  }

  /** A step went through, or threw the error for a failed CUDA call, or another. */
  datatype Outcome = Completed | CudaError | OtherError

  // ----- Plans, evidence, endings

  datatype Plan = Plan(trials: nat, paired: bool, rewindTrue: bool) {
    function PerTrial(): nat {
      if paired then 2 else 1
    }

    function Total(): nat {
      trials * PerTrial()
    }

    predicate RewindAt(trial: nat, order: nat) {
      if paired then (trial + order) % 2 == 1 else rewindTrue
    }
  }

  /** What a failed write of a main row leaves: nothing, a fragment, or all that the
      analyzer reads of it. */
  datatype Left = Gone | Piece | Enough

  /** What happens to the evidence of a case, in order: its result row cannot be
      written, or its main row, or the bridge's evidence cannot be saved, the journal
      first. */
  datatype Evidence = Kept | ResultFailed(piece: bool) | MainFailed(left: Left) | SaveFailed(journaled: bool)

  /** Which trials calibrate and to how many iterations, by index what becomes of each
      case's evidence, whether the evidence at the end can be kept, and whether the
      journal can be saved while an exception is handled. */
  datatype World = World(calibrated: nat -> bool, iterations: nat -> nat, evidence: nat -> Evidence, closes: bool,
                         failureSaves: bool)

  datatype Ending = GoesOn | Invalid | Threw

  predicate AllWell(plan: Plan, world: World) {
    && AllCalibrated(world, plan.trials) && world.closes
    && forall i :: 0 <= i < plan.Total() ==> world.evidence(i).Kept?
  }

  predicate AllCalibrated(world: World, trials: nat) {
    forall trial :: 0 <= trial < trials ==> world.calibrated(trial)
  }

  predicate AllPreserved(records: seq<Record>) {
    forall i :: 0 <= i < |records| ==> records[i].classification.Preserved?
  }

  predicate AllKept(records: seq<Record>, n: int, world: World)
    requires n <= |records|
  {
    forall i :: 0 <= i < n ==> IsValid(records[i].classification) && world.evidence(i).Kept?
  }

  predicate StoppedAtLast(records: seq<Record>, world: World) {
    && records != []
    && var e := world.evidence(|records| - 1);
       !IsValid(records[|records| - 1].classification) || e.MainFailed? || e.SaveFailed?
  }

  /** The reasons for a run to stop, given what it has recorded. */
  predicate MustStop(records: seq<Record>, plan: Plan, world: World) {
    || StoppedAtLast(records, world)
    || (exists trial :: 0 <= trial < plan.trials && !world.calibrated(trial) && |records| == trial * plan.PerTrial())
    || (|records| < plan.Total() && world.evidence(|records|).ResultFailed?)
    || (|records| == plan.Total() && !world.closes)
  }

  /** The case behind the recorded ones was run, and a fragment is left of its row. */
  predicate Torn(records: seq<Record>, plan: Plan, world: World) {
    && (records != [] ==>
          IsValid(records[|records| - 1].classification) && world.evidence(|records| - 1).Kept?)
    && |records| < plan.Total() && world.calibrated(|records| / plan.PerTrial())
    && world.evidence(|records|) == ResultFailed(true)
  }

  predicate NeedsSave(r: Record) {
    (r.disable.attempted || r.enable.attempted) && !SavedOnError(r.disable) && !SavedOnError(r.enable)
  }

  /** The journal was not saved behind the last case, and should have been. */
  predicate Unsaved(records: seq<Record>, world: World) {
    && records != []
    && var e := world.evidence(|records| - 1);
       (e.MainFailed? || e == SaveFailed(false)) && NeedsSave(records[|records| - 1])
  }

  predicate LosesMain(e: Evidence) {
    e == MainFailed(Gone) || e == MainFailed(Piece)
  }

  /** What the analyzer needs of a run's evidence. */
  predicate CanBeRead(records: seq<Record>, plan: Plan, world: World, cut: Option<nat>) {
    && records != [] && !Torn(records, plan, world)
    && !LosesMain(world.evidence(|records| - 1)) && cut != Some(|records| - 1)
    && !(Unsaved(records, world) && !world.failureSaves)
  }

  /** Case `i` of a run that takes both kinds a trial, in alternating order. */
  predicate PairedCase(r: Record, i: nat) {
    i == 2 * r.trial + r.order && r.order < 2 && (r.rewind <==> (r.trial + r.order) % 2 == 1)
  }

  /** Case `i` of a run that takes one case a trial, all of one kind. */
  predicate SingleCase(r: Record, i: nat, rewinds: bool) {
    i == r.trial && r.order == 0 && (r.rewind <==> rewinds)
  }

  predicate Placed(r: Record, i: nat, plan: Plan) {
    r.trial < plan.trials && if plan.paired then PairedCase(r, i) else SingleCase(r, i, plan.rewindTrue)
  }

  /** A full trial of a paired run has one case of each kind. */
  lemma OneOfEachKind(records: seq<Record>, plan: Plan, trial: nat)
    requires AllPlaced(records, plan) && plan.paired && 2 * trial + 1 < |records|
    ensures records[2 * trial].rewind != records[2 * trial + 1].rewind
    ensures records[2 * trial].trial == records[2 * trial + 1].trial == trial
  {
    assert Placed(records[2 * trial], 2 * trial, plan) && Placed(records[2 * trial + 1], 2 * trial + 1, plan);
  }

  /** Behind the first entries the journal has, case by case, a disable that rewinds in the
      cases that are to rewind and nowhere else, and an enable. */
  predicate AsPlanned(journal: seq<Entry>, first: nat, plan: Plan) {
    forall i :: first <= i < |journal| ==>
      && (journal[i].disables <==> (i - first) % 2 == 0)
      && (journal[i].rewinds <==> journal[i].disables && RewindsCase((i - first) / 2, plan))
  }

  /** Behind the first entries the journal has a disable, and the rest are none. */
  predicate InTurn(journal: seq<Entry>, first: nat, rewind: bool) {
    forall i :: first <= i < |journal| ==>
      && (journal[i].disables <==> i == first)
      && (journal[i].rewinds <==> journal[i].disables && rewind)
  }

  lemma OneInTurn(journal: seq<Entry>, first: nat, rewind: bool)
    requires |journal| == first + 1 && journal[first].disables && (journal[first].rewinds <==> rewind)
    ensures InTurn(journal, first, rewind)
  {
  }

  lemma TwoInTurn(before: seq<Entry>, journal: seq<Entry>, first: nat, rewind: bool)
    requires InTurn(before, first, rewind) && first < |before| && before <= journal && |journal| == |before| + 1
    requires !journal[|before|].disables && !journal[|before|].rewinds
    ensures InTurn(journal, first, rewind)
  {
  }

  predicate RewindsCase(index: nat, plan: Plan) {
    if plan.paired then index % 4 == 1 || index % 4 == 2 else plan.rewindTrue
  }

  predicate AllPlaced(records: seq<Record>, plan: Plan) {
    forall i :: 0 <= i < |records| ==> Placed(records[i], i, plan)
  }

  /** The records so far, each good on its own account. */
  predicate Good(records: seq<Record>, calls: seq<Call>) {
    forall i :: 0 <= i < |records| ==>
      && records[i].caseIndex == i && records[i].oldExpected == OldToken(i) && records[i].newExpected == NewToken(i)
      && (records[i].classification.Preserved? ==> PreservedGate(records[i], calls))
      && (IsValid(records[i].classification) ==>
            HeldThroughout(calls, i) && WentThrough(records[i].disable) && WentThrough(records[i].enable))
  }

  predicate AllJournaled(records: seq<Record>, journal: seq<Entry>) {
    forall i :: 0 <= i < |records| ==>
      && Journaled(records[i].disable, true, records[i].rewind, journal)
      && Journaled(records[i].enable, false, records[i].rewind, journal)
  }

  /** No rows of later cases. */
  predicate NoLater(calls: seq<Call>, index: nat) {
    forall i :: 0 <= i < |calls| ==> calls[i].caseIndex < index
  }

  /** The result rows are the records, with a fragment behind them or not, and the main
      rows match them, but for a last one that was lost or torn. */
  predicate RowsFit(samples: seq<Row<Sample>>, results: seq<Row<Record>>, records: seq<Record>, world: World, torn: bool) {
    && |results| == (if torn then |records| + 1 else |records|)
    && (forall i :: 0 <= i < |records| ==> results[i] == Whole(records[i]))
    && (torn ==> results[|records|] == Fragment)
    && |samples| == (if records != [] && world.evidence(|records| - 1) == MainFailed(Gone) then |records| - 1 else |records|)
    && forall i :: 0 <= i < |samples| ==>
         if i == |records| - 1 && world.evidence(i) == MainFailed(Piece) then samples[i] == Fragment
         else samples[i].Whole? && Matches(samples[i].value, records[i])
  }

  // ----- The experiment

  class Experiment {
    const env: Env
    const holdMs: nat
    const timeoutMs: nat
    var tick: nat
    var aResult: int
    var oldResult: int
    var newResult: int
    var holdPending: bool
    var holdCount: nat
    var disable: Control
    var enable: Control
    var contextSame: bool
    var bufferSame: bool
    var newStream: nat
    var invalidate: int
    var classification: Classification
    /** The call log, and the case of a fragment at its end. */
    var calls: seq<Call>
    var cut: Option<nat>
    /** The bridge's journal in memory, and what of it is on disk. */
    var journal: seq<Entry>
    var saved: seq<Entry>
    var samples: seq<Row<Sample>>
    var results: seq<Row<Record>>
    /** The result rows that are whole. */
    ghost var records: seq<Record>

    constructor (env: Env, holdMs: nat, timeoutMs: nat, earlier: seq<Entry>)
      requires Sane(env) && Numbered(earlier)
      ensures this.env == env && Fresh() && journal == earlier
    {
      this.env, this.holdMs, this.timeoutMs := env, holdMs, timeoutMs;
      tick, aResult, oldResult, newResult := 0, NOT_READY, NOT_READY, NOT_READY;
      holdPending, holdCount, disable, enable := true, 0, NO_CONTROL, NO_CONTROL;
      contextSame, bufferSame, newStream, invalidate, classification := false, false, 0, 0, Ambiguous;
      calls, cut, journal, saved, samples, results, records := [], None, earlier, earlier, [], [], [];
    }

    /** Before the first case; the journal was saved after the controls on the idle
        context. */
    ghost predicate Fresh()
      reads this
    {
      && calls == [] && cut == None && samples == [] && results == [] && records == []
      && Numbered(journal) && saved == journal
    }

    // ----- Single steps

    /** A row of the call log. A failed write leaves nothing or a fragment. */
    method Log(call: Call) returns (outcome: Outcome)
      modifies this`tick, this`calls, this`cut
      ensures tick == old(tick) + 1
      ensures outcome.Completed? ==> calls == old(calls) + [call] && cut == old(cut)
      ensures !outcome.Completed? ==>
                outcome.OtherError? && calls == old(calls) && (cut == old(cut) || cut == Some(call.caseIndex))
      ensures Steady(env) ==> outcome.Completed?
    {
      outcome := Completed;
      match env.mark(tick) {
        case Written => calls := calls + [call];
        case Missing => outcome := OtherError;
        case Cut => cut, outcome := Some(call.caseIndex), OtherError;
      }
      tick := tick + 1;
    }

    /** What a step does to the call log: rows of its case; a failed CUDA call is
        logged and thrown as such; a fragment comes with an exception of another kind. */
    twostate predicate Logged(index: nat, outcome: Outcome)
      reads this
    {
      && tick >= old(tick) && Grew(old(calls), calls, index)
      && (cut == old(cut) || (outcome.OtherError? && cut == Some(index)))
      && (NoErrors(old(calls), index) ==> (outcome.CudaError? <==> !NoErrors(calls, index)))
    }

    /** A logged CUDA call: any result but success and not-ready throws. */
    method Api(index: nat, phase: Phase) returns (result: int, outcome: Outcome)
      modifies this`tick, this`calls, this`cut
      ensures tick > old(tick) && Logged(index, outcome)
      ensures |calls| <= |old(calls)| + 2
      ensures outcome.OtherError? || |calls| == |old(calls)| + 2
      ensures forall i :: |old(calls)| <= i < |calls| ==> calls[i].phase == phase
      ensures |calls| > |old(calls)| ==>
                calls[|old(calls)|] == Call(index, phase, Begin, -1, old(OldCell(index).token), old(NewCell(index).token))
      ensures |calls| > |old(calls)| + 1 ==>
                var last := calls[|calls| - 1]; last.edge.End? && last.result == result
      ensures !outcome.OtherError? ==> (outcome.CudaError? <==> !(result == 0 || result == 600))
      ensures Steady(env) ==> outcome.Completed? && result == Expected(phase)
    {
      result := -1;
      outcome := Log(Call(index, phase, Begin, -1, OldCell(index).token, NewCell(index).token));
      assert forall i :: 0 <= i < |old(calls)| ==> calls[i] == old(calls)[i];
      if outcome.OtherError? { return; }
      result := env.result(phase, tick);
      tick := tick + 1;
      outcome := Log(Call(index, phase, End, result, OldCell(index).token, NewCell(index).token));
      assert forall i :: 0 <= i < |old(calls)| ==> calls[i] == old(calls)[i];
      if outcome.Completed? {
        assert Fine(calls[|calls| - 1]) <==> result == SUCCESS || result == NOT_READY;
        outcome := if result != SUCCESS && result != NOT_READY then CudaError else Completed;
      }
    }

    function OldCell(index: nat): Cell
      reads this
    {
      env.oldCell(index, |journal|, tick)
    }

    function NewCell(index: nat): Cell
      reads this
    {
      env.newCell(index, |journal|, tick)
    }

    predicate OldOk(index: nat): (ok: bool)
      reads this
      ensures ok <==> Published(OldCell(index), OldToken(index))
    {
      OldCell(index).token == OldToken(index) && OldCell(index).value == Masked(OldToken(index))
    }

    predicate NewOk(index: nat): (ok: bool)
      reads this
      ensures ok <==> Published(NewCell(index), NewToken(index))
    {
      NewCell(index).token == NewToken(index) && NewCell(index).value == Masked(NewToken(index))
    }

    /** One call made for its effect, outside the hold. */
    method Do(index: nat, phase: Phase) returns (outcome: Outcome)
      requires !InHold(phase)
      modifies this`tick, this`calls, this`cut
      ensures tick > old(tick) && Logged(index, outcome)
      ensures outcome.Completed? ==> |calls| == |old(calls)| + 2
      ensures HeldThroughout(old(calls), index) ==> HeldThroughout(calls, index)
      ensures Steady(env) ==> outcome.Completed?
    {
      hide NoErrors, Steady;
      var _, o := Api(index, phase);
      outcome := o;
    }

    method QueryOld(index: nat, phase: Phase) returns (outcome: Outcome)
      modifies this`tick, this`calls, this`cut, this`aResult, this`oldResult
      ensures tick > old(tick) && Logged(index, outcome)
      ensures outcome.Completed? ==> |calls| == |old(calls)| + 4
      ensures HeldThroughout(old(calls), index) &&
              (InHold(phase) ==> outcome.Completed? && aResult == oldResult == NOT_READY) ==>
                HeldThroughout(calls, index)
      ensures Steady(env) ==> outcome.Completed? && aResult == oldResult == Expected(phase)
    {
      hide NoErrors, Steady, Expected;
      var a, first := Api(index, phase);
      if !first.Completed? {
        return first;
      }
      aResult := a;
      var o, second := Api(index, phase);
      if second.Completed? {
        oldResult := o;
      }
      outcome := second;
    }

    /** Queries A and the old sentinel until both are done or time runs out. */
    method ObserveOld(index: nat, phase: Phase) returns (outcome: Outcome)
      requires Sane(env) && !InHold(phase)
      modifies this`tick, this`calls, this`cut, this`aResult, this`oldResult
      ensures tick > old(tick) && Logged(index, outcome)
      ensures HeldThroughout(old(calls), index) ==> HeldThroughout(calls, index)
      ensures Steady(env) ==> outcome.Completed? && aResult == oldResult == Expected(phase)
      ensures outcome.Completed? ==>
                || (aResult == oldResult == SUCCESS && OldOk(index))
                || env.clock(tick) >= env.clock(old(tick)) + timeoutMs * 1_000_000
    {
      hide NoErrors, HeldThroughout, Steady, Expected;
      var deadline := env.clock(tick) + timeoutMs * 1000000;
      tick := tick + 1;
      while true
        invariant tick > old(tick) && Logged(index, Completed)
        invariant HeldThroughout(old(calls), index) ==> HeldThroughout(calls, index)
        decreases deadline - env.clock(tick)
      {
        outcome := QueryOld(index, phase);
        if !outcome.Completed? || (aResult == SUCCESS && oldResult == SUCCESS && OldOk(index)) {
          return;
        }
        tick := tick + 1;
        if env.clock(tick) >= deadline {
          return;
        }
      }
    }

    predicate StillPending(index: nat)
      reads this
    {
      aResult == NOT_READY && oldResult == NOT_READY && OldCell(index).token == 0
    }

    method NoteHold(index: nat)
      modifies this`holdPending
      ensures holdPending == (old(holdPending) && StillPending(index))
    {
      holdPending := holdPending && StillPending(index);
    }

    /** One look at A and the old slot, noted. */
    method QueryHeld(index: nat, phase: Phase) returns (outcome: Outcome)
      requires InHold(phase)
      modifies this`tick, this`calls, this`cut, this`aResult, this`oldResult, this`holdPending
      ensures tick > old(tick) && Logged(index, outcome) && (holdPending ==> old(holdPending))
      ensures outcome.Completed? && HeldThroughout(old(calls), index) && holdPending ==> HeldThroughout(calls, index)
      ensures outcome.Completed? && holdPending ==> aResult == oldResult == 600 && OldCell(index).token == 0
      ensures outcome.Completed? ==> |calls| == |old(calls)| + 4
      ensures Steady(env) && OldClear(env, index, |journal|) ==> outcome.Completed? && holdPending == old(holdPending)
    {
      hide NoErrors, HeldThroughout, Steady, Grew;
      outcome := QueryOld(index, phase);
      if outcome.Completed? {
        NoteHold(index);
      }
    }

    /** Queries until the hold is over, then once more. */
    method HoldQueries(index: nat) returns (outcome: Outcome)
      requires Sane(env)
      modifies this`tick, this`calls, this`cut, this`aResult, this`oldResult, this`holdPending, this`holdCount
      ensures tick > old(tick) && Logged(index, outcome)
      ensures outcome.Completed? && HeldThroughout(old(calls), index) && holdPending ==> HeldThroughout(calls, index)
      ensures Steady(env) && OldClear(env, index, |journal|) ==> outcome.Completed? && holdPending == old(holdPending)
      ensures outcome.Completed? ==> env.clock(tick) >= env.clock(old(tick)) + holdMs * 1_000_000
      ensures outcome.Completed? ==> holdCount > old(holdCount)
    {
      hide NoErrors, HeldThroughout, Steady;
      var deadline := env.clock(tick) + holdMs * 1000000;
      while true
        invariant tick >= old(tick) && holdCount >= old(holdCount) && Logged(index, Completed)
        invariant HeldThroughout(old(calls), index) && holdPending ==> HeldThroughout(calls, index)
        invariant Steady(env) && OldClear(env, index, |journal|) ==> holdPending == old(holdPending)
        decreases deadline - env.clock(tick)
      {
        outcome := QueryHeld(index, Hold);
        if !outcome.Completed? {
          return;
        }
        holdCount := holdCount + 1;
        tick := tick + 1;
        if env.clock(tick) >= deadline {
          break;
        }
      }
      outcome := QueryHeld(index, HoldEnd);
    }

    /** The bridge journals every control it is asked for, and its caller saves the
        journal if the bridge reports an error. Only an attempted and accepted control
        goes through. */
    method Ask(disables: bool, rewind: bool) returns (control: Control, outcome: Outcome)
      requires Numbered(journal)
      modifies this`tick, this`journal, this`saved
      ensures tick > old(tick) && Numbered(journal) && |journal| == |old(journal)| + 1 && old(journal) <= journal
      ensures FoundBehind(control, disables, rewind, |old(journal)|, journal)
      ensures var e := journal[|journal| - 1]; e.disables == disables && e.rewinds == (disables && rewind)
      ensures saved == if SavedOnError(control) then journal else old(saved)
      ensures outcome == Completed || outcome == OtherError
      ensures outcome.Completed? <==> WentThrough(control)
      ensures Steady(env) ==> outcome.Completed?
    {
      control := env.control(tick).(seqNo := |journal| + 1);
      journal := journal + [Entry(control.seqNo, control.attempted, disables, disables && rewind, control.begin, control.end)];
      if !control.accepted && control.savedOnError {
        saved := journal;
      }
      tick := tick + 1;
      outcome := if !control.accepted || !control.attempted || control.rmStatus != 0 then OtherError else Completed;
    }

    /** Work that may throw for a reason of its own. */
    method Other() returns (outcome: Outcome)
      modifies this`tick
      ensures tick > old(tick) && (outcome == Completed || outcome == OtherError)
      ensures Steady(env) ==> outcome.Completed?
    {
      outcome := if env.fails(tick) then OtherError else Completed;
      tick := tick + 1;
    }

    // ----- One case

    /** The launches, up to the last look before the disable. */
    method Launch(index: nat) returns (outcome: Outcome)
      requires Sane(env)
      modifies this`tick, this`calls, this`cut, this`aResult, this`oldResult, this`invalidate
      ensures Logged(index, outcome)
      ensures outcome.Completed? ==> |calls| == |old(calls)| + 8
      ensures HeldThroughout(old(calls), index) ==> HeldThroughout(calls, index)
      ensures Steady(env) && OldClear(env, index, |journal|) && NewClear(env, index, |journal|) ==> outcome.Completed?
    {
      hide NoErrors, HeldThroughout, Steady;
      outcome := Other();                   // reference run, then the long launch
      if !outcome.Completed? { return; }
      outcome := Do(index, Enqueue);        // launch of the old sentinel
      if !outcome.Completed? { return; }
      outcome := Do(index, Enqueue);        // record of its event
      if !outcome.Completed? { return; }
      outcome := Other();                   // start marker of A
      if !outcome.Completed? { return; }
      invalidate := env.clock(tick);
      outcome := QueryOld(index, BeforeDisable);
      if !outcome.Completed? { return; }
      if aResult != NOT_READY || oldResult != NOT_READY || OldCell(index).token != 0 || NewCell(index).token != 0 {
        outcome := OtherError;
      }
    }

    /** What the controls of a case left in the journal: at most two entries, and on
        disk whatever the last error saved. */
    twostate predicate Asked(rewind: bool)
      reads this
    {
      && Numbered(journal) && old(journal) <= journal && |journal| <= |old(journal)| + 2
      && FoundBehind(disable, true, rewind, old(|journal|), journal)
      && FoundBehind(enable, false, rewind, old(|journal|), journal)
      && InTurn(journal, old(|journal|), rewind)
      && saved == if SavedOnError(disable) || SavedOnError(enable) then journal else old(saved)
    }

    /** The first control of a case. */
    method Disable(rewind: bool) returns (outcome: Outcome)
      requires Numbered(journal) && disable == enable == NO_CONTROL
      modifies this`tick, this`disable, this`journal, this`saved
      ensures tick > old(tick) && Asked(rewind) && |journal| == |old(journal)| + 1
      ensures outcome == Completed || outcome == OtherError
      ensures outcome.Completed? <==> WentThrough(disable)
      ensures Steady(env) ==> outcome.Completed?
    {
      hide Steady, FoundBehind, Numbered, InTurn;
      ghost var asked := |journal|;
      disable, outcome := Ask(true, rewind);
      OneInTurn(journal, asked, rewind);
      NothingAsked(journal, rewind);
    }

    /** Disable, hold, enable. */
    method HoldQueue(index: nat, rewind: bool) returns (outcome: Outcome)
      requires Sane(env) && Numbered(journal) && disable == enable == NO_CONTROL && holdPending
      modifies this`tick, this`calls, this`cut, this`aResult, this`oldResult, this`holdPending, this`holdCount,
               this`disable, this`enable, this`journal, this`saved
      ensures Logged(index, outcome) && Asked(rewind)
      ensures outcome.Completed? ==>
                && (HeldThroughout(old(calls), index) && holdPending ==> HeldThroughout(calls, index))
                && WentThrough(disable) && WentThrough(enable) && |journal| == |old(journal)| + 2
      ensures Steady(env) && OldClear(env, index, |old(journal)| + 1) ==> outcome.Completed? && holdPending
    {
      hide NoErrors, HeldThroughout, Steady, FoundBehind, Numbered, OldClear, Grew, InTurn;
      ghost var asked := |journal|;
      GrewNone(calls, index);
      outcome := Disable(rewind);
      if !outcome.Completed? { return; }
      outcome := HoldQueries(index);
      if !outcome.Completed? { return; }
      ghost var before := journal;
      enable, outcome := Ask(false, rewind);
      TwoInTurn(before, journal, asked, rewind);
      StillFound(disable, true, rewind, asked, before, journal);
      FoundEarlier(enable, false, rewind, asked, |before|, journal);
    }

    /** Waits for the new sentinel's event. */
    method AwaitNew(index: nat) returns (outcome: Outcome)
      requires Sane(env)
      modifies this`tick, this`calls, this`cut, this`newResult
      ensures tick > old(tick) && Logged(index, outcome)
      ensures outcome.Completed? ==> |calls| >= |old(calls)| + 2
      ensures HeldThroughout(old(calls), index) ==> HeldThroughout(calls, index)
      ensures Steady(env) ==> outcome.Completed? && newResult == SUCCESS
      ensures old(newResult) == NOT_READY && newResult == SUCCESS ==> outcome.Completed?
      ensures outcome.Completed? && newResult != SUCCESS ==>
                env.clock(tick) >= env.clock(old(tick)) + timeoutMs * 1_000_000
    {
      hide NoErrors, Steady;
      var deadline := env.clock(tick) + timeoutMs * 1000000;
      while true
        invariant tick >= old(tick) && Logged(index, Completed)
        invariant |calls| >= |old(calls)|
        invariant old(newResult) == NOT_READY ==> newResult != SUCCESS
        invariant HeldThroughout(old(calls), index) ==> HeldThroughout(calls, index)
        decreases deadline - env.clock(tick)
      {
        var result, o := Api(index, NewEpoch);
        outcome := o;
        if !outcome.Completed? {
          return;
        }
        newResult := result;
        if result == SUCCESS {
          return;
        }
        tick := tick + 1;
        if env.clock(tick) >= deadline {
          return;
        }
      }
    }

    /** The new submission, up to its completed event. */
    method Submit(index: nat) returns (outcome: Outcome)
      requires Sane(env)
      modifies this`tick, this`calls, this`cut, this`newResult, this`newStream
      ensures Logged(index, outcome)
      ensures outcome.Completed? ==> |calls| >= |old(calls)| + 8
      ensures HeldThroughout(old(calls), index) ==> HeldThroughout(calls, index)
      ensures outcome.Completed? ==> newStream != env.stream
      ensures Steady(env) ==> outcome.Completed? && newResult == SUCCESS
      ensures old(newResult) == NOT_READY && newResult == SUCCESS ==> outcome.Completed?
    {
      hide NoErrors, HeldThroughout, Steady;
      outcome := Do(index, NewEpoch);       // stream creation
      if !outcome.Completed? { return; }
      newStream := env.newStreamAt(tick);
      outcome := Do(index, NewEpoch);       // launch of the new sentinel
      if !outcome.Completed? { return; }
      outcome := Do(index, NewEpoch);       // record of its event
      if !outcome.Completed? { return; }
      outcome := AwaitNew(index);
    }

    /** The new submission between two looks at the old slot. A completed event
        without its output is thrown like a CUDA error. */
    method NewSubmission(index: nat) returns (outcome: Outcome)
      requires Sane(env) && NoErrors(calls, index)
      modifies this`tick, this`calls, this`cut, this`aResult, this`oldResult, this`newResult, this`newStream
      ensures tick >= old(tick) && Grew(old(calls), calls, index)
      ensures cut == old(cut) || (outcome.OtherError? && cut == Some(index))
      ensures outcome.CudaError? ==> !NoErrors(calls, index) || (newResult == SUCCESS && !NewOk(index))
      ensures !NoErrors(calls, index) ==> outcome.CudaError?
      ensures outcome.Completed? ==> newResult == SUCCESS && NewOk(index) && newStream != env.stream
      ensures old(newResult) == NOT_READY && newResult == SUCCESS && !NewOk(index) ==> outcome.CudaError?
      ensures HeldThroughout(old(calls), index) ==> HeldThroughout(calls, index)
      ensures Steady(env) && NewInPlace(env, index, |journal|) ==>
                outcome.Completed? && aResult == oldResult == SUCCESS
    {
      hide NoErrors, HeldThroughout, Steady, OldToken, NewToken, Masked;
      outcome := ObserveOld(index, AfterEnable);
      if !outcome.Completed? { return; }
      outcome := Submit(index);
      if !outcome.Completed? { return; }
      if newResult != SUCCESS { return OtherError; }
      if !NewOk(index) { return CudaError; }
      ghost var seen := tick;
      outcome := ObserveOld(index, AfterNew);
      NewStays(env, index, |journal|, seen, tick);
    }

    /** Context, device pointers and buffer still the same ones; A's elapsed time. */
    method Identities(index: nat) returns (outcome: Outcome)
      modifies this`tick, this`calls, this`cut, this`contextSame, this`bufferSame
      ensures Logged(index, outcome)
      ensures outcome.Completed? ==> |calls| == |old(calls)| + if aResult == 0 then 10 else 8
      ensures HeldThroughout(old(calls), index) ==> HeldThroughout(calls, index)
      ensures Steady(env) ==> outcome.Completed? && contextSame && bufferSame
    {
      hide NoErrors, HeldThroughout;
      outcome := Do(index, Identity);       // current context
      if !outcome.Completed? { return; }
      contextSame := env.same(tick);
      outcome := Do(index, Identity);       // device pointer of the old slot
      if !outcome.Completed? { return; }
      outcome := Do(index, Identity);       // device pointer of the new slot
      if !outcome.Completed? { return; }
      outcome := Do(index, Identity);       // address range of the compute buffer
      if !outcome.Completed? { return; }
      bufferSame := env.same(tick);
      if aResult == SUCCESS {
        outcome := Do(index, ResultRead);   // elapsed time of A
      }
    }

    predicate Reusable()
      reads this
    {
      holdPending && contextSame && bufferSame && aResult == SUCCESS
    }

    /** What the observations of a case that did not throw amount to. */
    function Verdict(index: nat): (c: Classification)
      reads this
      ensures c.Preserved? <==> Reusable() && oldResult == SUCCESS && OldOk(index)
      ensures c.Removed? <==> Reusable() && oldResult == NOT_READY && OldCell(index).token == 0
      ensures !c.Poisoned?
    {
      if !Reusable() then Ambiguous
      else if oldResult == SUCCESS && OldOk(index) then Preserved
      else if oldResult == NOT_READY && OldCell(index).token == 0 then Removed
      else Ambiguous
    }

    method Classify(index: nat)
      requires classification.Ambiguous?
      modifies this`classification
      ensures classification == Verdict(index)
    {
      if !holdPending || !contextSame || !bufferSame {
        return;
      }
      if OldOk(index) && aResult == SUCCESS && oldResult == SUCCESS {
        classification := Preserved;
      } else if OldCell(index).token == 0 && aResult == SUCCESS && oldResult == NOT_READY {
        classification := Removed;
      }
    }

    /** Up to the accepted enable. */
    method OldEpoch(index: nat, rewind: bool) returns (outcome: Outcome)
      requires Sane(env) && Numbered(journal) && disable == enable == NO_CONTROL && holdPending
      requires NoErrors(calls, index) && HeldThroughout(calls, index)
      modifies this`tick, this`calls, this`cut, this`aResult, this`oldResult, this`holdPending, this`holdCount,
               this`disable, this`enable, this`journal, this`saved, this`invalidate
      ensures Logged(index, outcome) && Asked(rewind)
      ensures outcome.Completed? ==>
                && (holdPending ==> HeldThroughout(calls, index))
                && WentThrough(disable) && WentThrough(enable) && |journal| == |old(journal)| + 2
      ensures Steady(env) && Holds(env, index, |old(journal)|) ==> outcome.Completed? && holdPending
    {
      hide NoErrors, HeldThroughout, Steady, OldClear, NewClear, OldInPlace, NewInPlace, FoundBehind, Numbered;
      NothingAsked(journal, rewind);
      outcome := Launch(index);
      if !outcome.Completed? { return; }
      outcome := HoldQueue(index, rewind);
    }

    /** From the accepted enable to the classification. */
    method NewEpochs(index: nat) returns (outcome: Outcome)
      requires Sane(env) && NoErrors(calls, index) && classification.Ambiguous?
      modifies this`tick, this`calls, this`cut, this`aResult, this`oldResult, this`newResult, this`newStream,
               this`contextSame, this`bufferSame, this`classification
      ensures Grew(old(calls), calls, index)
      ensures cut == old(cut) || (outcome.OtherError? && cut == Some(index))
      ensures !NoErrors(calls, index) ==> outcome.CudaError?
      ensures outcome.CudaError? ==> !NoErrors(calls, index) || newResult == SUCCESS
      ensures classification == if outcome.Completed? then Verdict(index) else Ambiguous
      ensures outcome.Completed? ==> newResult == SUCCESS && newStream != env.stream && NewOk(index)
      ensures old(newResult) == NOT_READY && newResult == SUCCESS && !NewOk(index) ==> outcome.CudaError?
      ensures HeldThroughout(old(calls), index) ==> HeldThroughout(calls, index)
      ensures Steady(env) && OldInPlace(env, index, |journal|) && NewInPlace(env, index, |journal|) && holdPending ==>
                outcome.Completed? && classification.Preserved?
    {
      hide NoErrors, HeldThroughout, Steady, OldToken, NewToken, Masked, NewInPlace, Published;
      outcome := NewSubmission(index);
      if !outcome.Completed? { return; }
      ghost var first, seen := calls, tick;
      outcome := Identities(index);
      GrewTwice(old(calls), first, calls, index);
      if !outcome.Completed? { return; }
      NewStays(env, index, |journal|, seen, tick);
      Classify(index);
    }

    /** The body that may throw. A classification is only made at its very end. */
    method Attempt(index: nat, rewind: bool) returns (outcome: Outcome)
      requires Sane(env) && Numbered(journal) && disable == enable == NO_CONTROL && holdPending
      requires NoErrors(calls, index) && HeldThroughout(calls, index) && classification.Ambiguous?
      modifies this`tick, this`calls, this`cut, this`aResult, this`oldResult, this`holdPending, this`holdCount,
               this`disable, this`enable, this`journal, this`saved, this`invalidate, this`newResult, this`newStream,
               this`contextSame, this`bufferSame, this`classification
      ensures Grew(old(calls), calls, index) && Asked(rewind)
      ensures cut == old(cut) || (outcome.OtherError? && cut == Some(index))
      ensures !NoErrors(calls, index) ==> outcome.CudaError?
      ensures outcome.CudaError? ==> !NoErrors(calls, index) || newResult == SUCCESS
      ensures classification == if outcome.Completed? then Verdict(index) else Ambiguous
      ensures outcome.Completed? ==>
                && (holdPending ==> HeldThroughout(calls, index))
                && newResult == SUCCESS && WentThrough(disable) && WentThrough(enable)
                && newStream != env.stream && NewOk(index) && |journal| == |old(journal)| + 2
      ensures old(newResult) == NOT_READY && newResult == SUCCESS && !NewOk(index) ==> outcome.CudaError?
      ensures Steady(env) && Holds(env, index, |old(journal)|) ==> classification.Preserved?
    {
      hide NoErrors, HeldThroughout, Steady, OldToken, NewToken, Masked, FoundBehind, Numbered, OldClear, NewClear, Published;
      outcome := OldEpoch(index, rewind);
      if !outcome.Completed? { return; }
      ghost var first := calls;
      outcome := NewEpochs(index);
      GrewTwice(old(calls), first, calls, index);
    }

    /** One case. Whatever the calls returned and the memory held: a result recorded
        as preserved passes the analyzer's gate, and every query of the hold had
        found the work pending; a logged error always makes the case poisoned, and
        nothing else does but a new event completed without its output. A case asks for
        two controls at most, and a valid one for two. */
    method RunCase(index: nat, trial: nat, order: nat, rewind: bool, iterations: nat) returns (s: Sample, r: Record)
      requires Sane(env) && Numbered(journal) && NoErrors(calls, index) && HeldThroughout(calls, index)
      modifies this`tick, this`calls, this`cut, this`aResult, this`oldResult, this`holdPending, this`holdCount,
               this`disable, this`enable, this`journal, this`saved, this`invalidate, this`newResult, this`newStream,
               this`contextSame, this`bufferSame, this`classification
      ensures Grew(old(calls), calls, index)
      ensures cut == old(cut) || (r.classification.Ambiguous? && cut == Some(index))
      ensures r.caseIndex == index && r.trial == trial && r.order == order && r.rewind == rewind
      ensures r.oldExpected == OldToken(index) && r.newExpected == NewToken(index) && Matches(s, r)
      ensures r.classification.Preserved? ==> PreservedGate(r, calls)
      ensures r.classification.Removed? ==>
                && r.oldResult == 600 && r.aResult == 0 && r.newResult == 0 && r.newValueOk
                && r.holdAllPending && r.contextSame && r.bufferSame && NoErrors(calls, index)
      ensures IsValid(r.classification) ==> HeldThroughout(calls, index) && |journal| == |old(journal)| + 2
      ensures IsValid(r.classification) ==> WentThrough(r.disable) && WentThrough(r.enable)
      ensures !NoErrors(calls, index) ==> r.classification.Poisoned?
      ensures r.classification.Poisoned? ==> !NoErrors(calls, index) || r.newResult == SUCCESS
      ensures r.newResult == SUCCESS && !r.newValueOk ==> r.classification.Poisoned?
      ensures r.disable == disable && r.enable == enable && Asked(rewind)
      ensures Steady(env) && Holds(env, index, |old(journal)|) ==> r.classification.Preserved?
    {
      hide NoErrors, HeldThroughout, Grew, OldToken, NewToken, Masked, Published, FoundBehind, Numbered, Holds, Steady;
      Reset();
      var outcome := Attempt(index, rewind);
      if outcome.CudaError? {
        classification := Poisoned;
      }
      s, r := Report(index, trial, order, rewind, iterations);
    }

    method Reset()
      modifies this`aResult, this`oldResult, this`newResult, this`holdPending, this`holdCount, this`disable, this`enable,
               this`contextSame, this`bufferSame, this`newStream, this`invalidate, this`classification
      ensures holdPending && disable == enable == NO_CONTROL && classification.Ambiguous?
      ensures aResult == oldResult == newResult == 600 && holdCount == 0
      ensures !contextSame && !bufferSame && newStream == 0 && invalidate == 0
    {
      aResult, oldResult, newResult := NOT_READY, NOT_READY, NOT_READY;
      holdPending, holdCount, disable, enable := true, 0, NO_CONTROL, NO_CONTROL;
      contextSame, bufferSame, newStream, invalidate, classification := false, false, 0, 0, Ambiguous;
    }

    /** A sentinel that was in place still is. */
    lemma SlotsStay(index: nat, earlier: nat)
      requires Sane(env) && earlier <= tick
      ensures Published(env.oldCell(index, |journal|, earlier), OldToken(index)) ==>
                OldOk(index) && OldCell(index).token == OldToken(index)
      ensures Published(env.newCell(index, |journal|, earlier), NewToken(index)) ==>
                NewOk(index) && NewCell(index).token == NewToken(index)
    {
      hide OldToken, NewToken, Masked;
    }

    /** Both rows of the case, with what the slots hold by then. */
    method Report(index: nat, trial: nat, order: nat, rewind: bool, iterations: nat) returns (s: Sample, r: Record)
      requires Sane(env)
      modifies this`tick
      ensures Matches(s, r) && r.classification == classification
      ensures r.caseIndex == index && r.trial == trial && r.order == order && r.rewind == rewind
      ensures r.oldExpected == OldToken(index) && r.newExpected == NewToken(index)
      ensures old(OldOk(index)) ==> r.oldValueOk && r.oldObserved == r.oldExpected
      ensures old(NewOk(index)) ==> r.newValueOk && r.newObserved == r.newExpected
      ensures r.aResult == aResult && r.oldResult == oldResult && r.newResult == newResult
      ensures r.holdAllPending == holdPending && r.contextSame == contextSame && r.bufferSame == bufferSame
      ensures r.oldStream == env.stream && r.newStream == newStream && r.disable == disable && r.enable == enable
    {
      hide OldToken, NewToken, Masked, Published, OldOk, NewOk, Sane;
      ghost var decided := tick;
      tick := tick + 1;
      SlotsStay(index, decided);
      r := Record(index, trial, order, rewind, classification, OldToken(index), NewToken(index),
                  OldCell(index).token, NewCell(index).token, OldOk(index), NewOk(index),
                  aResult, oldResult, newResult, holdCount, holdPending, contextSame, bufferSame,
                  env.stream, newStream, disable, enable, iterations, invalidate);
      s := Sample(trial, order, classification, iterations, invalidate);
    }

    // ----- The run

    function Disk(): Files
      reads this
    {
      Files(samples, results, calls, cut, saved)
    }

    /** What holds of the recorded cases throughout. */
    ghost predicate Sound(plan: Plan, world: World)
      reads this
    {
      && Good(records, calls) && AllPlaced(records, plan) && AllKept(records, |records| - 1, world)
      && Numbered(journal) && saved <= journal && AllJournaled(records, journal)
    }

    /** Between cases: everything so far was valid and kept, two controls each behind
        the `first` ones, and under a smooth environment all were preserved. */
    ghost predicate Going(plan: Plan, world: World, first: nat)
      reads this
    {
      && Sound(plan, world) && NoLater(calls, |records|) && AllKept(records, |records|, world)
      && saved == journal && cut == None && RowsFit(samples, results, records, world, false)
      && |journal| == first + 2 * |records| && AsPlanned(journal, first, plan)
      && (Smooth(env, first) ==> AllPreserved(records))
    }

    /** After the last case: the rows, the fragments and the journal on disk are what
        its evidence made of them. */
    ghost predicate Ended(plan: Plan, world: World, first: nat)
      reads this
    {
      && Sound(plan, world) && MustStop(records, plan, world) && |records| <= plan.Total()
      && RowsFit(samples, results, records, world, Torn(records, plan, world))
      && (forall i :: 0 <= i < |records| - 1 ==> cut != Some(i))
      && (AllJournaled(records, saved) <==> !Unsaved(records, world)) && AllJournaled(ButLast(records), saved)
      && (Smooth(env, first) ==> AllPreserved(records))
      && first <= |journal| <= first + 2 * plan.Total() && AsPlanned(journal, first, plan)
    }

    /** All cases of a run. It stops exactly at an invalid case, at a trial that cannot be
        calibrated, at evidence that cannot be kept, be it a row or the journal, or at its
        closing evidence. The analyzer accepts what the run left behind exactly if it left
        a result, no result, main or call row of it in pieces, no main row missing, and
        the controls of the last case in a journal that was saved. */
    method Run(plan: Plan, world: World) returns (stopped: bool)
      requires Sane(env) && Fresh() && 1 <= plan.trials <= 5
      modifies this
      ensures stopped <==> MustStop(records, plan, world)
      ensures Accepts(Disk()) <==> CanBeRead(records, plan, world, cut)
      ensures |records| <= plan.Total() && AllPlaced(records, plan)
      ensures AllKept(records, |records| - 1, world) && Good(records, calls)
      ensures forall i :: 0 <= i < |records| - 1 ==> Passes(Disk(), i)
      ensures !stopped ==> |records| == plan.Total() && AllKept(records, |records|, world) && Accepts(Disk())
      ensures old(|journal|) <= |journal| <= old(|journal|) + 2 * plan.Total()
      ensures !stopped ==> |journal| == old(|journal|) + 2 * plan.Total()
      ensures AsPlanned(journal, old(|journal|), plan)
      ensures Smooth(env, old(|journal|)) ==> AllPreserved(records) && (AllWell(plan, world) ==> !stopped)
    {
      hide Going, Ended, Closed, Accepts, CanBeRead, MustStop, Smooth, Sane, AllKept, AllPreserved, AllWell, AllPlaced,
           HeldThroughout, Good, Passes, AsPlanned;
      ghost var first := |journal|;
      StartsGoing(plan, world);
      var trial, ending := 0, GoesOn;
      while trial < plan.trials && ending.GoesOn?
        invariant trial <= plan.trials && Sane(env) && first == old(|journal|)
        invariant ending.GoesOn? ==>
                    Going(plan, world, first) && |records| == trial * plan.PerTrial() && AllCalibrated(world, trial)
        invariant !ending.GoesOn? ==> Ended(plan, world, first) && (ending.Invalid? ==> saved == journal)
        invariant Smooth(env, first) && AllWell(plan, world) ==> ending.GoesOn?
        decreases plan.trials - trial, ending.GoesOn?
      {
        WellCalibrated(plan, world, trial);
        if world.calibrated(trial) {
          NextCalibrated(world, trial);
          ending := RunTrial(trial, plan, world, first);
          trial := trial + 1;
        } else {
          NotCalibrated(trial, plan, world, first);
          ending := Threw;
        }
      }
      WellCalibrated(plan, world, trial);
      if ending.GoesOn? {
        AtTheEnd(plan, world, first);
        if !world.closes {
          ending := Threw;
        }
      }
      if !ending.GoesOn? {
        Handle(ending, plan, world, first);
      }
      stopped := !ending.GoesOn?;
      ClosedIsRead(plan, world);
    }

    lemma StartsGoing(plan: Plan, world: World)
      requires Fresh()
      ensures Going(plan, world, |journal|) && |records| == 0 * plan.PerTrial() && AllCalibrated(world, 0)
    {
    }

    lemma WellCalibrated(plan: Plan, world: World, trial: nat)
      ensures AllWell(plan, world) ==> world.closes && (trial < plan.trials ==> world.calibrated(trial))
    {
    }

    /** A run that stops before a trial leaves whole rows and a saved journal. */
    lemma NotCalibrated(trial: nat, plan: Plan, world: World, first: nat)
      requires Going(plan, world, first) && trial < plan.trials && !world.calibrated(trial)
      requires |records| == trial * plan.PerTrial()
      ensures Ended(plan, world, first)
    {
      hide Good, AllPlaced, RowsFit, Smooth, AllPreserved, AsPlanned;
      Further(trial, plan.trials, plan.PerTrial());
      assert |records| / plan.PerTrial() == trial;
    }

    lemma AtTheEnd(plan: Plan, world: World, first: nat)
      requires Going(plan, world, first) && |records| == plan.Total() && AllCalibrated(world, plan.trials)
      requires 1 <= plan.trials
      ensures Closed(plan, world) && AllKept(records, |records|, world) && |journal| == first + 2 * plan.Total()
      ensures AsPlanned(journal, first, plan)
      ensures Smooth(env, first) ==> AllPreserved(records)
      ensures if world.closes then !MustStop(records, plan, world) && CanBeRead(records, plan, world, cut)
              else Ended(plan, world, first)
    {
      hide Good, AllPlaced, RowsFit, Smooth, AllPreserved, AsPlanned;
      assert AllKept(records, |records|, world);
    }

    /** The handler of whatever was thrown tries once more to save the journal. */
    method Handle(ending: Ending, plan: Plan, world: World, ghost first: nat)
      requires Ended(plan, world, first) && (ending.Invalid? ==> saved == journal) && !ending.GoesOn?
      modifies this`saved
      ensures Closed(plan, world) && MustStop(records, plan, world)
      ensures Smooth(env, first) ==> AllPreserved(records)
      ensures first <= |journal| <= first + 2 * plan.Total() && AsPlanned(journal, first, plan)
    {
      hide Good, AllPlaced, RowsFit, AllKept, MustStop, Unsaved, Torn, Journaled, Smooth, AllPreserved, AsPlanned;
      FewerJournaled(records, journal);
      if ending.Threw? && world.failureSaves {
        saved := journal;
      }
    }

    lemma ClosedIsRead(plan: Plan, world: World)
      requires Closed(plan, world) && plan.trials <= 5
      ensures Accepts(Disk()) <==> CanBeRead(records, plan, world, cut)
      ensures |records| <= plan.Total() && AllPlaced(records, plan) && AllKept(records, |records| - 1, world)
      ensures Good(records, calls) && forall i :: 0 <= i < |records| - 1 ==> Passes(Disk(), i)
    {
      hide Good, Passes, RowsFit, AllPlaced, AllKept, HeldThroughout, Torn, Unsaved, AllJournaled, Accepts, LosesMain;
      InOrder(journal, saved);
      AcceptedExactly(Disk(), records, world, Torn(records, plan, world));
    }

    /** What a run, stopped or not, leaves for the analyzer. */
    ghost predicate Closed(plan: Plan, world: World)
      reads this
    {
      && Sound(plan, world) && |records| <= plan.Total()
      && RowsFit(samples, results, records, world, Torn(records, plan, world))
      && (forall i :: 0 <= i < |records| - 1 ==> cut != Some(i))
      && (AllJournaled(records, saved) <==> !(Unsaved(records, world) && !world.failureSaves))
      && AllJournaled(ButLast(records), saved)
    }

    /** The cases of one trial. */
    method RunTrial(trial: nat, plan: Plan, world: World, ghost first: nat) returns (ending: Ending)
      requires Sane(env) && Going(plan, world, first)
      requires trial < plan.trials && |records| == trial * plan.PerTrial() && world.calibrated(trial)
      modifies this
      ensures ending.GoesOn? ==> Going(plan, world, first) && |records| == (trial + 1) * plan.PerTrial()
      ensures !ending.GoesOn? ==> Ended(plan, world, first) && (ending.Invalid? ==> saved == journal)
      ensures Smooth(env, first) && AllWell(plan, world) ==> ending.GoesOn?
    {
      hide Going, Ended, Sane, Smooth, AllWell;
      var order := 0;
      ending := GoesOn;
      Further(trial, plan.trials, plan.PerTrial());
      while order < plan.PerTrial() && ending.GoesOn?
        invariant order <= plan.PerTrial() && Sane(env)
        invariant ending.GoesOn? ==> Going(plan, world, first) && |records| == trial * plan.PerTrial() + order
        invariant !ending.GoesOn? ==> Ended(plan, world, first) && (ending.Invalid? ==> saved == journal)
        invariant Smooth(env, first) && AllWell(plan, world) ==> ending.GoesOn?
      {
        ending := RunNext(trial, order, plan, world, first);
        order := order + 1;
      }
    }

    /** Behind a case whose evidence is still to be kept. */
    ghost predicate AfterCase(s: Sample, r: Record, plan: Plan, world: World, first: nat)
      reads this
    {
      && Good(records, calls) && Good(records + [r], calls) && NoLater(calls, |records| + 1)
      && AllPlaced(records, plan) && AllPlaced(records + [r], plan) && AllKept(records, |records|, world)
      && Numbered(journal) && saved <= journal
      && AllJournaled(records, journal) && AllJournaled(records + [r], journal) && AllJournaled(records, saved)
      && (AllJournaled(records + [r], saved) <==> !NeedsSave(r))
      && AllJournaled(ButLast(records), saved) && ButLast(records + [r]) == records
      && RowsFit(samples, results, records, world, false) && |results| == |records| && Matches(s, r)
      && first + 2 * |records| <= |journal| <= first + 2 * |records| + 2
      && (IsValid(r.classification) ==> |journal| == first + 2 * |records| + 2) && AsPlanned(journal, first, plan)
      && (cut == None || (cut == Some(|records|) && r.classification.Ambiguous?))
      && |records| < plan.Total() && world.calibrated(|records| / plan.PerTrial())
      && (Smooth(env, first) ==> r.classification.Preserved? && AllPreserved(records) && AllPreserved(records + [r]))
    }

    method RunOne(trial: nat, order: nat, plan: Plan, world: World, ghost first: nat) returns (s: Sample, r: Record)
      requires Sane(env) && Going(plan, world, first) && trial < plan.trials && order < plan.PerTrial()
      requires |records| == trial * plan.PerTrial() + order && world.calibrated(trial)
      modifies this`tick, this`calls, this`cut, this`aResult, this`oldResult, this`holdPending, this`holdCount,
               this`disable, this`enable, this`journal, this`saved, this`invalidate, this`newResult, this`newStream,
               this`contextSame, this`bufferSame, this`classification
      ensures AfterCase(s, r, plan, world, first)
    {
      hide PreservedGate, Grew, HeldThroughout, NoErrors, OldToken, NewToken, Sane, Good, NoLater, Matches, AllKept,
           AllJournaled, FoundBehind, Numbered, NeedsSave, Holds, Steady, Smooth, AllPreserved, AllPlaced, AsPlanned;
      ghost var before, entries := calls, journal;
      NoRowsYet(records, calls, |records|);
      SmoothCase(env, first, |records|);
      s, r := RunCase(|results|, trial, order, plan.RewindAt(trial, order), world.iterations(trial));
      OneMore(records, before, r, calls);
      CaseLost(records, before, calls);
      JournalGrows(records, r, entries, journal, saved);
      FewerJournaled(records, saved);
      NextPlaced(records, r, plan);
      PlacedRewinds(r, |records|, plan);
      NextPlanned(entries, journal, first, plan, |records|, r.rewind);
      OnePreserved(records, r);
      Further(trial, plan.trials, plan.PerTrial());
      assert |records| / plan.PerTrial() == trial;
    }

    /** One case and its evidence. */
    method RunNext(trial: nat, order: nat, plan: Plan, world: World, ghost first: nat) returns (ending: Ending)
      requires Sane(env) && Going(plan, world, first) && trial < plan.trials && order < plan.PerTrial()
      requires |records| == trial * plan.PerTrial() + order && world.calibrated(trial)
      modifies this
      ensures ending.GoesOn? ==> Going(plan, world, first) && |records| == |old(records)| + 1
      ensures !ending.GoesOn? ==> Ended(plan, world, first) && (ending.Invalid? ==> saved == journal)
      ensures Smooth(env, first) && AllWell(plan, world) ==> ending.GoesOn?
    {
      hide Good, NoLater, AllPlaced, AllKept, Numbered, AllJournaled, Smooth, AllPreserved, AllWell, AsPlanned;
      var s, r := RunOne(trial, order, plan, world, first);
      ending := Keep(s, r, plan, world, first);
    }

    /** What is kept of a case, by what fails first. */
    method Keep(s: Sample, r: Record, plan: Plan, world: World, ghost first: nat) returns (ending: Ending)
      requires AfterCase(s, r, plan, world, first)
      modifies this`samples, this`results, this`records, this`saved
      ensures ending.GoesOn? ==> Going(plan, world, first) && |records| == |old(records)| + 1
      ensures !ending.GoesOn? ==> Ended(plan, world, first) && (ending.Invalid? ==> saved == journal)
      ensures Smooth(env, first) && AllWell(plan, world) ==> ending.GoesOn?
    {
      hide Good, NoLater, AllPlaced, Numbered, AllJournaled, Smooth, AllPreserved, AsPlanned, Matches, NeedsSave;
      match world.evidence(|results|)
      case ResultFailed(piece) =>
        LoseResult(piece, s, r, plan, world, first);
        ending := Threw;
      case MainFailed(left) =>
        LoseMain(left, s, r, plan, world, first);
        ending := Threw;
      case SaveFailed(journaled) =>
        LoseSave(journaled, s, r, plan, world, first);
        ending := Threw;
      case Kept =>
        ending := KeepAll(s, r, plan, world, first);
    }

    method KeepAll(s: Sample, r: Record, plan: Plan, world: World, ghost first: nat) returns (ending: Ending)
      requires AfterCase(s, r, plan, world, first) && world.evidence(|results|).Kept?
      modifies this`samples, this`results, this`records, this`saved
      ensures ending == if IsValid(r.classification) then GoesOn else Invalid
      ensures ending.GoesOn? ==> Going(plan, world, first) && |records| == |old(records)| + 1
      ensures !ending.GoesOn? ==> Ended(plan, world, first) && saved == journal
    {
      hide Good, NoLater, AllPlaced, Numbered, AllJournaled, Smooth, AllPreserved, AsPlanned, Matches, NeedsSave,
           RowsFit, AllKept;
      WholeRows(samples, results, records, world, s, r);
      OneMoreKept(records, r, world);
      results, records, samples := results + [Whole(r)], records + [r], samples + [Whole(s)];
      saved := journal;
      ending := if IsValid(r.classification) then GoesOn else Invalid;
    }

    method LoseResult(piece: bool, s: Sample, r: Record, plan: Plan, world: World, ghost first: nat)
      requires AfterCase(s, r, plan, world, first) && world.evidence(|results|) == ResultFailed(piece)
      modifies this`results
      ensures Ended(plan, world, first)
    {
      hide Good, NoLater, AllPlaced, Numbered, AllJournaled, Smooth, AllPreserved, AsPlanned, Matches, NeedsSave;
      results := results + if piece then [Fragment] else [];
    }

    method LoseMain(left: Left, s: Sample, r: Record, plan: Plan, world: World, ghost first: nat)
      requires AfterCase(s, r, plan, world, first) && world.evidence(|results|) == MainFailed(left)
      modifies this`samples, this`results, this`records
      ensures Ended(plan, world, first)
    {
      hide Good, NoLater, AllPlaced, Numbered, AllJournaled, Smooth, AllPreserved, AsPlanned, Matches, NeedsSave,
           RowsFit, AllKept;
      BrokenRow(samples, results, records, world, left, s, r);
      OneMoreKept(records, r, world);
      results, records := results + [Whole(r)], records + [r];
      samples := samples + match left case Gone => [] case Piece => [Fragment] case Enough => [Whole(s)];
    }

    method LoseSave(journaled: bool, s: Sample, r: Record, plan: Plan, world: World, ghost first: nat)
      requires AfterCase(s, r, plan, world, first) && world.evidence(|results|) == SaveFailed(journaled)
      modifies this`samples, this`results, this`records, this`saved
      ensures Ended(plan, world, first)
    {
      hide Good, NoLater, AllPlaced, Numbered, AllJournaled, Smooth, AllPreserved, AsPlanned, Matches, NeedsSave,
           RowsFit, AllKept;
      WholeRows(samples, results, records, world, s, r);
      OneMoreKept(records, r, world);
      results, records, samples := results + [Whole(r)], records + [r], samples + [Whole(s)];
      saved := if journaled then journal else saved;
    }
  }

  // ----- From case to case

  lemma NoRowsYet(records: seq<Record>, calls: seq<Call>, index: nat)
    requires NoLater(calls, |records|) && index >= |records|
    ensures NoErrors(calls, index) && HeldThroughout(calls, index)
  {
  }

  lemma NextCalibrated(world: World, trial: nat)
    requires AllCalibrated(world, trial) && world.calibrated(trial)
    ensures AllCalibrated(world, trial + 1)
  {
  }

  lemma Further(trial: nat, trials: nat, perTrial: nat)
    requires trial < trials
    ensures trial * perTrial + perTrial == (trial + 1) * perTrial <= trials * perTrial
  {
  }

  /** Rows of a later case do not touch what was said of an earlier one. */
  lemma OneMore(records: seq<Record>, before: seq<Call>, r: Record, calls: seq<Call>)
    requires Good(records, before) && NoLater(before, |records|) && Grew(before, calls, |records|)
    requires r.caseIndex == |records| && r.oldExpected == OldToken(|records|) && r.newExpected == NewToken(|records|)
    requires r.classification.Preserved? ==> PreservedGate(r, calls)
    requires IsValid(r.classification) ==>
               HeldThroughout(calls, |records|) && WentThrough(r.disable) && WentThrough(r.enable)
    ensures Good(records + [r], calls) && NoLater(calls, |records| + 1)
  {
    hide OldToken, NewToken;
    var more := records + [r];
    forall i | 0 <= i < |records|
      ensures more[i].classification.Preserved? ==> PreservedGate(more[i], calls)
      ensures IsValid(more[i].classification) ==> HeldThroughout(calls, i)
    {
      OtherCase(before, calls, |records|, i);
    }
  }

  /** A case whose row is lost leaves rows in the call log only. */
  lemma CaseLost(records: seq<Record>, before: seq<Call>, calls: seq<Call>)
    requires Good(records, before) && Grew(before, calls, |records|)
    ensures Good(records, calls)
  {
    hide OldToken, NewToken;
    forall i | 0 <= i < |records|
      ensures records[i].classification.Preserved? ==> PreservedGate(records[i], calls)
      ensures IsValid(records[i].classification) ==> HeldThroughout(calls, i)
    {
      OtherCase(before, calls, |records|, i);
    }
  }

  lemma OtherCase(before: seq<Call>, after: seq<Call>, index: nat, i: nat)
    requires Grew(before, after, index) && i != index
    ensures NoErrors(before, i) ==> NoErrors(after, i)
    ensures HeldThroughout(before, i) ==> HeldThroughout(after, i)
  {
    assert forall k :: 0 <= k < |before| ==> after[k] == before[k];
  }

  /** Behind one more case the journal in memory has all controls, and what is on disk
      has them exactly if that case needs no save. */
  lemma JournalGrows(records: seq<Record>, r: Record, before: seq<Entry>, journal: seq<Entry>, saved: seq<Entry>)
    requires AllJournaled(records, before) && before <= journal
    requires FoundBehind(r.disable, true, r.rewind, |before|, journal)
    requires FoundBehind(r.enable, false, r.rewind, |before|, journal)
    requires saved == if SavedOnError(r.disable) || SavedOnError(r.enable) then journal else before
    ensures AllJournaled(records, journal) && AllJournaled(records + [r], journal) && AllJournaled(records, saved)
    ensures AllJournaled(records + [r], saved) <==> !NeedsSave(r)
  {
    StillJournaled(records, before, journal);
    assert AllJournaled(records, saved);
    var more := records + [r];
    assert AllJournaled(more, saved) <==>
           Journaled(more[|records|].disable, true, r.rewind, saved) && Journaled(more[|records|].enable, false, r.rewind, saved);
  }

  lemma StillJournaled(records: seq<Record>, journal: seq<Entry>, more: seq<Entry>)
    requires AllJournaled(records, journal) && journal <= more
    ensures AllJournaled(records, more)
  {
  }

  lemma InOrder(journal: seq<Entry>, saved: seq<Entry>)
    requires Numbered(journal) && saved <= journal
    ensures Numbered(saved)
  {
  }

  /** With good records and a journal in order, the analyzer accepts exactly whole rows of
      at least one case, an uncut call log of the last one, and controls it can look up. */
  lemma AcceptedExactly(f: Files, records: seq<Record>, world: World, torn: bool)
    requires Good(records, f.calls) && |records| <= 10 && Numbered(f.journal)
    requires RowsFit(f.samples, f.results, records, world, torn)
    requires forall i :: 0 <= i < |records| - 1 ==> f.cut != Some(i)
    ensures Accepts(f) <==>
              && records != [] && !torn && !LosesMain(world.evidence(|records| - 1)) && f.cut != Some(|records| - 1)
              && AllJournaled(records, f.journal)
    ensures AllJournaled(ButLast(records), f.journal) ==> forall i :: 0 <= i < |records| - 1 ==> Passes(f, i)
  {
    hide TokensOf, PreservedGate, BySeq, OldToken, NewToken, HeldThroughout;
    if records != [] && !torn && !LosesMain(world.evidence(|records| - 1)) {
      forall i | 0 <= i < |records|
        ensures Passes(f, i) <==>
                  && f.cut != Some(i)
                  && Journaled(records[i].disable, true, records[i].rewind, f.journal)
                  && Journaled(records[i].enable, false, records[i].rewind, f.journal)
      {
        CasePasses(f, records, world, torn, i);
      }
    } else if |f.samples| == |f.results| && f.results != [] {
      assert !Passes(f, |f.results| - 1);
    }
    if AllJournaled(ButLast(records), f.journal) {
      forall i | 0 <= i < |records| - 1 ensures Passes(f, i) {
        CasePasses(f, records, world, torn, i);
        assert ButLast(records)[i] == records[i];
      }
    }
  }

  function ButLast(records: seq<Record>): seq<Record> {
    if records == [] then [] else records[..|records| - 1]
  }

  lemma CasePasses(f: Files, records: seq<Record>, world: World, torn: bool, i: nat)
    requires Good(records, f.calls) && |records| <= 10 && Numbered(f.journal) && i < |records|
    requires RowsFit(f.samples, f.results, records, world, torn)
    requires i < |records| - 1 || !LosesMain(world.evidence(|records| - 1))
    ensures Passes(f, i) <==>
              && f.cut != Some(i)
              && Journaled(records[i].disable, true, records[i].rewind, f.journal)
              && Journaled(records[i].enable, false, records[i].rewind, f.journal)
  {
    hide TokensOf, PreservedGate, BySeq, Journaled, ControlOk, Matches, HeldThroughout;
    var r := records[i];
    LookupFinds(r.disable, true, r.rewind, f.journal);
    LookupFinds(r.enable, false, r.rewind, f.journal);
    FreshTokens(f.results, records, i);
  }

  /** The tokens of a case are new, distinct and not zero. */
  lemma FreshTokens(results: seq<Row<Record>>, records: seq<Record>, i: nat)
    requires i < |records| <= |results| && |records| <= 10
    requires forall k :: 0 <= k < |records| ==>
               results[k] == Whole(records[k]) &&
               records[k].oldExpected == OldToken(k) && records[k].newExpected == NewToken(k)
    ensures OldToken(i) != NewToken(i) && OldToken(i) != 0 && NewToken(i) != 0
    ensures OldToken(i) !in TokensOf(results, i) && NewToken(i) !in TokensOf(results, i)
  {
    TokensDistinctExactly(10);
    hide TokensOf;
    if OldToken(i) in TokensOf(results, i) {
      var k := TokenOwner(results, i, OldToken(i));
    }
    if NewToken(i) in TokensOf(results, i) {
      var k := TokenOwner(results, i, NewToken(i));
    }
  }

  lemma {:induction false} TokenOwner(results: seq<Row<Record>>, n: nat, token: nat) returns (k: nat)
    requires n <= |results| && token in TokensOf(results, n)
    ensures k < n && results[k].Whole? && token in {results[k].value.oldExpected, results[k].value.newExpected}
  {
    if results[n - 1].Whole? && token in {results[n - 1].value.oldExpected, results[n - 1].value.newExpected} {
      k := n - 1;
    } else {
      k := TokenOwner(results, n - 1, token);
    }
  }

  lemma SmoothCase(e: Env, first: nat, slot: nat)
    ensures Smooth(e, first) ==> Steady(e) && Holds(e, slot, first + 2 * slot)
  {
  }

  lemma OnePreserved(records: seq<Record>, r: Record)
    ensures AllPreserved(records) && r.classification.Preserved? ==> AllPreserved(records + [r])
  {
  }

  /** One case more, with at most two entries of its own. */
  lemma NextPlanned(before: seq<Entry>, journal: seq<Entry>, first: nat, plan: Plan, index: nat, rewind: bool)
    requires AsPlanned(before, first, plan) && |before| == first + 2 * index && before <= journal && |journal| <= |before| + 2
    requires forall i :: |before| <= i < |journal| ==>
               && (journal[i].disables <==> i == |before|)
               && (journal[i].rewinds <==> journal[i].disables && rewind)
    requires rewind <==> RewindsCase(index, plan)
    ensures AsPlanned(journal, first, plan)
  {
    hide RewindsCase;
    forall i | first <= i < |journal|
      ensures journal[i].disables <==> (i - first) % 2 == 0
      ensures journal[i].rewinds <==> journal[i].disables && RewindsCase((i - first) / 2, plan)
    {
      if i < |before| {
        assert journal[i] == before[i];
      }
    }
  }

  lemma PlacedRewinds(r: Record, i: nat, plan: Plan)
    requires Placed(r, i, plan)
    ensures r.rewind <==> RewindsCase(i, plan)
  {
  }

  lemma NextPlaced(records: seq<Record>, r: Record, plan: Plan)
    requires AllPlaced(records, plan) && Placed(r, |records|, plan)
    ensures AllPlaced(records + [r], plan)
  {
  }

  lemma FewerJournaled(records: seq<Record>, journal: seq<Entry>)
    ensures AllJournaled(records, journal) ==> AllJournaled(ButLast(records), journal)
  {
  }

  /** A whole row more in both files. */
  lemma WholeRows(samples: seq<Row<Sample>>, results: seq<Row<Record>>, records: seq<Record>, world: World, s: Sample, r: Record)
    requires RowsFit(samples, results, records, world, false) && AllKept(records, |records|, world)
    requires Matches(s, r) && !world.evidence(|records|).MainFailed?
    ensures |results| == |records|
    ensures RowsFit(samples + [Whole(s)], results + [Whole(r)], records + [r], world, false)
  {
    hide Matches;
    assert records != [] ==> world.evidence(|records| - 1).Kept?;
  }

  /** A whole result row, and a main row that cannot be written. */
  lemma BrokenRow(samples: seq<Row<Sample>>, results: seq<Row<Record>>, records: seq<Record>, world: World, left: Left,
                  s: Sample, r: Record)
    requires RowsFit(samples, results, records, world, false) && AllKept(records, |records|, world)
    requires Matches(s, r) && world.evidence(|records|) == MainFailed(left)
    ensures |results| == |records|
    ensures RowsFit(samples + match left case Gone => [] case Piece => [Fragment] case Enough => [Whole(s)],
                    results + [Whole(r)], records + [r], world, false)
  {
    hide Matches;
    assert records != [] ==> world.evidence(|records| - 1).Kept?;
  }

  lemma OneMoreKept(records: seq<Record>, r: Record, world: World)
    requires AllKept(records, |records|, world)
    ensures AllKept(records + [r], |records|, world)
    ensures IsValid(r.classification) && world.evidence(|records|).Kept? ==> AllKept(records + [r], |records| + 1, world)
  {
  }

  // ----- Runs that can happen

  /** A clock that ticks, calls that work, and memory in which every sentinel waits for
      the enable of its case. */
  function HeldEnv(): Env {
    Env(t => t, (phase, t) => Expected(phase),
        (slot: nat, asked: nat, t: nat) => Waiting(OldToken(slot), slot, asked),
        (slot: nat, asked: nat, t: nat) => Waiting(NewToken(slot), slot, asked),
        t => false, t => Written, t => Control(true, true, 0, 0, t, t, false), t => true, t => 1, 0)
  }

  function Waiting(token: U32, slot: nat, asked: nat): Cell {
    if asked >= 2 * slot + 2 then Cell(token, Masked(token)) else Cell(0, 0)
  }

  lemma HeldEnvIsSmooth()
    ensures Sane(HeldEnv()) && Smooth(HeldEnv(), 0)
  {
    hide OldToken, NewToken, Waiting;
    var e := HeldEnv();
    forall slot: nat, n: nat, t: nat ensures Published(e.oldCell(slot, n, t), OldToken(slot)) <==> n >= 2 * slot + 2 {
      WaitsFor(OldToken(slot), slot, n);
    }
    forall slot: nat, n: nat, t: nat ensures Published(e.newCell(slot, n, t), NewToken(slot)) <==> n >= 2 * slot + 2 {
      WaitsFor(NewToken(slot), slot, n);
    }
    forall slot: nat ensures Holds(e, slot, 2 * slot) {
      WaitsFor(OldToken(slot), slot, 2 * slot);
      WaitsFor(OldToken(slot), slot, 2 * slot + 1);
      WaitsFor(NewToken(slot), slot, 2 * slot);
    }
  }

  lemma WaitsFor(token: U32, slot: nat, asked: nat)
    ensures Published(Waiting(token, slot, asked), token) <==> asked >= 2 * slot + 2
    ensures asked < 2 * slot + 2 ==> Waiting(token, slot, asked).token == 0
  {
  }

  /** A run of which all cases are preserved and everything is kept: it completes and is
      accepted. */
  method CompletesAccepted(plan: Plan) returns (e: Experiment, stopped: bool)
    requires 1 <= plan.trials <= 5
    ensures fresh(e) && !stopped && Accepts(e.Disk()) && |e.records| == plan.Total() && AllPreserved(e.records)
  {
    HeldEnvIsSmooth();
    hide Sane, Smooth, Accepts, CanBeRead, MustStop, HeldEnv;
    e := new Experiment(HeldEnv(), 100, 1000, []);
    var world := World(t => true, t => 1, i => Kept, true, true);
    stopped := e.Run(plan, world);
  }

  /** A run whose only case is preserved, but whose journal cannot be saved, neither
      then nor by the handler: the analyzer finds no entry for its controls. */
  method RejectedWithoutJournal() returns (e: Experiment, stopped: bool)
    ensures fresh(e) && stopped && |e.records| == 1 && AllPreserved(e.records) && !Accepts(e.Disk())
  {
    HeldEnvIsSmooth();
    hide Sane, Smooth, Accepts, HeldEnv;
    e := new Experiment(HeldEnv(), 100, 1000, []);
    var plan := Plan(1, false, true);
    var world := World(t => true, t => 1, i => SaveFailed(false), true, false);
    stopped := e.Run(plan, world);
    assert plan.Total() == 1 && e.records != [];
    assert NeedsSave(e.records[0]);
  }

  lemma GrewNone(calls: seq<Call>, index: nat)
    ensures Grew(calls, calls, index)
  {
  }

  lemma GrewTwice(a: seq<Call>, b: seq<Call>, c: seq<Call>, index: nat)
    requires Grew(a, b, index) && Grew(b, c, index)
    ensures Grew(a, c, index)
  {
  }
}
