/** What a rewind experiment leaves behind, and what its analyzer makes of it. */
module RewindEvidence {
  import opened Results

  const SUCCESS: int := 0
  const NOT_READY: int := 600
  const TWO_32: nat := 0x1_0000_0000
  const OLD_TOKENS: nat := 0x10000001
  const NEW_TOKENS: nat := 0x20000001

  type U32 = n: nat | n < TWO_32

  datatype Phase =
    Enqueue | BeforeDisable | Hold | HoldEnd | AfterEnable | NewEpoch | AfterNew | Identity | ResultRead

  datatype Edge = Begin | End

  /** One row of the call log. */
  datatype Call = Call(caseIndex: nat, phase: Phase, edge: Edge, result: int, oldToken: U32, newToken: U32)

  /** A control as the case saw it: whether the bridge accepted it, whether the driver
      was called, under which number and when; `savedOnError` is whether the bridge's
      journal could be saved right after an error. */
  datatype Control = Control(accepted: bool, attempted: bool, rmStatus: nat, seqNo: nat, begin: int, end: int,
                             savedOnError: bool)

  const NO_CONTROL := Control(false, false, 0xffff_ffff, 0, 0, 0, false)

  /** The same control in the bridge's journal. */
  datatype Entry = Entry(seqNo: nat, attempted: bool, disables: bool, rewinds: bool, begin: int, end: int)

  datatype Classification = Preserved | Removed | Poisoned | Ambiguous

  /** The result row of a case. */
  datatype Record = Record(
    caseIndex: nat, trial: nat, order: nat, rewind: bool, classification: Classification,
    oldExpected: U32, newExpected: U32, oldObserved: U32, newObserved: U32, oldValueOk: bool, newValueOk: bool,
    aResult: int, oldResult: int, newResult: int, holdObservations: nat, holdAllPending: bool,
    contextSame: bool, bufferSame: bool, oldStream: nat, newStream: nat, disable: Control, enable: Control,
    iterations: nat, invalidate: int)

  /** The row of the case in the main result file. */
  datatype Sample = Sample(trial: nat, order: nat, status: Classification, iterations: nat, invalidate: int)

  /** A row in a file. One cut off before the last field the analyzer reads is a
      fragment; one cut off behind it is as good as whole. */
  datatype Row<T> = Whole(value: T) | Fragment

  /** `cut` is the case of a fragment at the end of the call log. */
  datatype Files = Files(samples: seq<Row<Sample>>, results: seq<Row<Record>>, calls: seq<Call>, cut: Option<nat>,
                         journal: seq<Entry>)

  function OldToken(slot: nat): U32 {
    (OLD_TOKENS + slot) % TWO_32
  }

  function NewToken(slot: nat): U32 {
    (NEW_TOKENS + slot) % TWO_32
  }

  predicate AllDistinct(slots: nat) {
    forall i, j :: 0 <= i < slots && 0 <= j < slots ==>
      OldToken(i) != NewToken(j) && (i != j ==> OldToken(i) != OldToken(j) && NewToken(i) != NewToken(j))
  }

  /** The two token ranges stay apart exactly up to 2^28 slots. */
  lemma TokensDistinctExactly(slots: nat)
    ensures AllDistinct(slots) <==> slots <= 0x1000_0000
  {
    if slots > 0x1000_0000 {
      assert OldToken(0x1000_0000) == NewToken(0);
    } else {
      Apart(slots);
    }
  }

  lemma Apart(slots: nat)
    requires slots <= 0x1000_0000
    ensures AllDistinct(slots)
  {
    assert forall i :: 0 <= i < slots ==> OldToken(i) == OLD_TOKENS + i;
    assert forall i :: 0 <= i < slots ==> NewToken(i) == NEW_TOKENS + i;
    hide OldToken, NewToken;
  }

  // ----- The demands on one case

  predicate Fine(call: Call) {
    call.edge.End? ==> call.result == 0 || call.result == 600
  }

  /** No logged call of the case returned anything but success or not-ready. */
  predicate NoErrors(calls: seq<Call>, index: nat) {
    forall i :: 0 <= i < |calls| && calls[i].caseIndex == index ==> Fine(calls[i])
  }

  /** What the analyzer demands of a result recorded as preserved. */
  predicate PreservedGate(r: Record, calls: seq<Call>) {
    && NoErrors(calls, r.caseIndex)
    && r.oldValueOk && r.newValueOk && r.holdAllPending && r.contextSame && r.bufferSame
    && r.aResult == 0 && r.oldResult == 0 && r.newResult == 0
    && r.disable.rmStatus == 0 && r.enable.rmStatus == 0
    && r.oldObserved == r.oldExpected && r.newObserved == r.newExpected
    && r.oldStream != r.newStream
  }

  /** The main row says the same of the case as the result row. */
  predicate Matches(s: Sample, r: Record) {
    && s.status == r.classification && s.trial == r.trial && s.order == r.order
    && s.iterations == r.iterations && s.invalidate == r.invalidate
  }

  /** Attempted controls by number; a later entry replaces an earlier one. */
  function BySeq(journal: seq<Entry>): map<nat, Entry> {
    if journal == [] then map[]
    else
      var last := journal[|journal| - 1];
      var before := BySeq(journal[..|journal| - 1]);
      if last.attempted then before[last.seqNo := last] else before
  }

  /** An attempted control has its entry, of the right kind and with the same times. */
  predicate ControlOk(c: Control, disables: bool, rewind: bool, bySeq: map<nat, Entry>) {
    c.attempted ==>
      && c.seqNo in bySeq
      && var e := bySeq[c.seqNo];
      && e.disables == disables && e.rewinds == (disables && rewind) && e.begin == c.begin && e.end == c.end
  }

  function TokensOf(results: seq<Row<Record>>, n: nat): (tokens: set<nat>)
    requires n <= |results|
  {
    if n == 0 then {}
    else
      match results[n - 1]
      case Fragment => TokensOf(results, n - 1)
      case Whole(r) => TokensOf(results, n - 1) + {r.oldExpected, r.newExpected}
  }

  /** One turn of the analyzer's loop. */
  predicate Passes(f: Files, n: nat) {
    && n < |f.samples| && n < |f.results|
    && f.samples[n].Whole? && f.results[n].Whole?
    && var r := f.results[n].value;
    && Matches(f.samples[n].value, r)
    && r.oldExpected != r.newExpected
    && r.oldExpected !in TokensOf(f.results, n) && r.newExpected !in TokensOf(f.results, n)
    && r.oldExpected != 0 && r.newExpected != 0
    && f.cut != Some(r.caseIndex)
    && ControlOk(r.disable, true, r.rewind, BySeq(f.journal)) && ControlOk(r.enable, false, r.rewind, BySeq(f.journal))
    && (r.classification.Preserved? ==> PreservedGate(r, f.calls))
  }

  predicate Accepts(f: Files) {
    && |f.samples| == |f.results| && f.results != []
    && forall i :: 0 <= i < |f.results| ==> Passes(f, i)
  }

  method IndexJournal(journal: seq<Entry>) returns (bySeq: map<nat, Entry>)
    ensures bySeq == BySeq(journal)
  {
    bySeq := map[];
    for i := 0 to |journal|
      invariant bySeq == BySeq(journal[..i])
    {
      assert journal[..i + 1][..i] == journal[..i];
      if journal[i].attempted {
        bySeq := bySeq[journal[i].seqNo := journal[i]];
      }
    }
    assert journal[..|journal|] == journal;
  }

  method Analyze(f: Files) returns (accepted: bool)
    ensures accepted == Accepts(f)
  {
    hide PreservedGate, TokensOf, ControlOk, BySeq, Matches;
    var bySeq := IndexJournal(f.journal);
    if |f.samples| != |f.results| || f.results == [] {
      return false;
    }
    var tokens: set<nat> := {};
    NoTokens(f.results);
    for i := 0 to |f.results|
      invariant tokens == TokensOf(f.results, i)
      invariant forall k :: 0 <= k < i ==> Passes(f, k)
    {
      var ok := CheckCase(f, i, tokens, bySeq);
      if !ok {
        return false;
      }
      MoreTokens(f.results, i);
      tokens := tokens + {f.results[i].value.oldExpected, f.results[i].value.newExpected};
    }
    return true;
  }

  method CheckCase(f: Files, n: nat, tokens: set<nat>, bySeq: map<nat, Entry>) returns (ok: bool)
    requires n < |f.samples| && n < |f.results|
    requires tokens == TokensOf(f.results, n) && bySeq == BySeq(f.journal)
    ensures ok == Passes(f, n)
  {
    hide PreservedGate, TokensOf, ControlOk, BySeq;
    if !f.samples[n].Whole? || !f.results[n].Whole? {
      return false;
    }
    var s, r := f.samples[n].value, f.results[n].value;
    if s.status != r.classification || s.trial != r.trial || s.order != r.order ||
       s.iterations != r.iterations || s.invalidate != r.invalidate {
      return false;
    }
    if r.oldExpected == r.newExpected || r.oldExpected in tokens || r.newExpected in tokens ||
       r.oldExpected == 0 || r.newExpected == 0 {
      return false;
    }
    if f.cut == Some(r.caseIndex) {
      return false;
    }
    ok := CheckControl(r.disable, true, r.rewind, bySeq);
    if !ok { return; }
    ok := CheckControl(r.enable, false, r.rewind, bySeq);
    if ok && r.classification.Preserved? {
      ok := CheckPreserved(r, f.calls);
    }
  }

  method CheckControl(c: Control, disables: bool, rewind: bool, bySeq: map<nat, Entry>) returns (ok: bool)
    ensures ok == ControlOk(c, disables, rewind, bySeq)
  {
    if !c.attempted {
      return true;
    }
    if c.seqNo !in bySeq {
      return false;
    }
    var e := bySeq[c.seqNo];
    if e.disables != disables || e.rewinds != (if disables then rewind else false) {
      return false;
    }
    return c.begin == e.begin && c.end == e.end;
  }

  method CheckPreserved(r: Record, calls: seq<Call>) returns (ok: bool)
    ensures ok == PreservedGate(r, calls)
  {
    for i := 0 to |calls|
      invariant forall k :: 0 <= k < i && calls[k].caseIndex == r.caseIndex ==> Fine(calls[k])
    {
      if calls[i].caseIndex == r.caseIndex && calls[i].edge.End? && calls[i].result !in [SUCCESS, NOT_READY] {
        assert !Fine(calls[i]);
        return false;
      }
    }
    if !(r.oldValueOk && r.newValueOk && r.holdAllPending && r.contextSame && r.bufferSame) {
      return false;
    }
    if r.aResult != SUCCESS || r.oldResult != SUCCESS || r.newResult != SUCCESS ||
       r.disable.rmStatus != 0 || r.enable.rmStatus != 0 {
      return false;
    }
    return r.oldObserved == r.oldExpected && r.newObserved == r.newExpected && r.oldStream != r.newStream;
  }

  lemma NoTokens(results: seq<Row<Record>>)
    ensures TokensOf(results, 0) == {}
  {
  }

  lemma MoreTokens(results: seq<Row<Record>>, n: nat)
    requires n < |results| && results[n].Whole?
    ensures TokensOf(results, n + 1) ==
            TokensOf(results, n) + {results[n].value.oldExpected, results[n].value.newExpected}
  {
  }

  // ----- A journal in order

  predicate Numbered(journal: seq<Entry>) {
    forall i :: 0 <= i < |journal| ==> journal[i].seqNo == i + 1
  }

  /** The control's own entry stands in the journal, if it was attempted. */
  predicate Journaled(c: Control, disables: bool, rewind: bool, journal: seq<Entry>) {
    c.attempted ==>
      1 <= c.seqNo <= |journal| &&
      journal[c.seqNo - 1] == Entry(c.seqNo, true, disables, disables && rewind, c.begin, c.end)
  }

  /** The same, at an entry that is newer than the first `before`. */
  predicate FoundBehind(c: Control, disables: bool, rewind: bool, before: nat, journal: seq<Entry>) {
    Journaled(c, disables, rewind, journal) && (c.attempted ==> before < c.seqNo)
  }

  lemma StillFound(c: Control, disables: bool, rewind: bool, before: nat, journal: seq<Entry>, more: seq<Entry>)
    requires FoundBehind(c, disables, rewind, before, journal) && journal <= more
    ensures FoundBehind(c, disables, rewind, before, more)
  {
  }

  lemma FoundEarlier(c: Control, disables: bool, rewind: bool, before: nat, later: nat, journal: seq<Entry>)
    requires FoundBehind(c, disables, rewind, later, journal) && before <= later
    ensures FoundBehind(c, disables, rewind, before, journal)
  {
  }

  lemma NothingAsked(journal: seq<Entry>, rewind: bool)
    ensures forall d, before :: FoundBehind(NO_CONTROL, d, rewind, before, journal)
  {
  }

  predicate WentThrough(c: Control) {
    c.accepted && c.attempted && c.rmStatus == 0
  }

  predicate SavedOnError(c: Control) {
    !c.accepted && c.savedOnError
  }

  lemma {:induction false} BySeqIs(journal: seq<Entry>, n: nat)
    requires Numbered(journal)
    ensures n in BySeq(journal) <==> 1 <= n <= |journal| && journal[n - 1].attempted
    ensures n in BySeq(journal) ==> BySeq(journal)[n] == journal[n - 1]
  {
    if journal != [] {
      BySeqIs(journal[..|journal| - 1], n);
    }
  }

  /** In a journal in order, the lookup passes exactly for a control that stands in it. */
  lemma LookupFinds(c: Control, disables: bool, rewind: bool, journal: seq<Entry>)
    requires Numbered(journal)
    ensures ControlOk(c, disables, rewind, BySeq(journal)) <==> Journaled(c, disables, rewind, journal)
  {
    hide BySeq;
    BySeqIs(journal, c.seqNo);
  }
}
