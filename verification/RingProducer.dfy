/** A ring producer, which stores an entry and then advances PUT, and what the
    frame comparisons say about it. */
module RingProducer {
  import opened Hardware
  import opened Results
  import opened RingInterval
  import opened EntryFrames

  datatype Ring = Ring(slots: seq<Word>, put: nat)

  predicate WellFormed(ring: Ring) {
    ring.put < |ring.slots|
  }

  function Submit(ring: Ring, word: Word): (r: Ring)
    requires WellFormed(ring)
    ensures WellFormed(r) && |r.slots| == |ring.slots|
  {
    Ring(ring.slots[ring.put := word], (ring.put + 1) % |ring.slots|)
  }

  function Produce(ring: Ring, words: seq<Word>): (r: Ring)
    requires WellFormed(ring)
    ensures WellFormed(r) && |r.slots| == |ring.slots|
  {
    if words == [] then ring
    else Submit(Produce(ring, words[..|words| - 1]), words[|words| - 1])
  }

  lemma ProduceAppend(ring: Ring, words: seq<Word>, word: Word)
    requires WellFormed(ring)
    ensures Produce(ring, words + [word]) == Submit(Produce(ring, words), word)
  {
    assert (words + [word])[..|words|] == words;
  }

  /** Any number of submissions moves PUT by their count, modulo the ring. */
  lemma {:induction false} PutAdvances(ring: Ring, words: seq<Word>)
    requires WellFormed(ring)
    ensures Produce(ring, words).put == (ring.put + |words|) % |ring.slots|
  {
    var n := |ring.slots|;
    if words == [] {
      OneTurn(ring.put, n);
    } else {
      PutAdvances(ring, words[..|words| - 1]);
      NextMod(ring.put + |words| - 1, n);
    }
  }

  lemma NextMod(x: int, n: int)
    requires 0 < n
    ensures (x % n + 1) % n == (x + 1) % n
  {
    OneTurn(x % n + 1, n);
    ModUnique(x + 1, n, x / n + (if x % n + 1 == n then 1 else 0), (x % n + 1) % n);
  }

  predicate Written(j: int, count: nat, put: int, size: int)
    requires 0 < size
  {
    (j - put) % size < count
  }

  /** Fewer submissions than slots write each interval slot once and no other. */
  lemma {:induction false} ProduceWrites(ring: Ring, words: seq<Word>, j: nat)
    requires WellFormed(ring) && |words| <= |ring.slots| && j < |ring.slots|
    ensures Produce(ring, words).slots[j] ==
            if Written(j, |words|, ring.put, |ring.slots|) then words[(j - ring.put) % |ring.slots|] else ring.slots[j]
  {
    var n := |ring.slots|;
    if words != [] {
      var front := words[..|words| - 1];
      ProduceWrites(ring, front, j);
      PutAdvances(ring, front);
      OneTurn(ring.put + |front|, n);
      OneTurn(j - ring.put, n);
    }
  }

  /** The comparison's delta is the number of submissions exactly when there were
      fewer than the ring has slots. */
  lemma DeltaIsCount(ring: Ring, words: seq<Word>)
    requires WellFormed(ring)
    ensures Delta(ring.put, Produce(ring, words).put, |ring.slots|) == |words| % |ring.slots|
    ensures Delta(ring.put, Produce(ring, words).put, |ring.slots|) == |words| <==> |words| < |ring.slots|
  {
    hide Produce, Delta;
    PutAdvances(ring, words);
    DeltaOfAdvance(ring.put, |words|, |ring.slots|);
  }

  lemma DeltaOfAdvance(p: int, k: nat, n: int)
    requires 0 < n
    ensures Delta(p, (p + k) % n, n) == k % n
    ensures k % n == k <==> k < n
  {
    DeltaMod(p, k, n);
    if k < n {
      OneTurn(k, n);
    }
  }

  lemma DeltaMod(p: int, k: int, n: int)
    requires 0 < n
    ensures ((p + k) % n - p) % n == k % n
  {
    var q, m := (p + k) % n, (p + k) / n;
    assert q - p == k - n * m;
    assert k == n * (k / n) + k % n;
    assert (k / n - m) * n == n * (k / n) - n * m;
    ModUnique(q - p, n, k / n - m, k % n);
  }

  // ----- Several rings

  datatype Submission = Submission(channel: nat, word: Word)

  predicate InSystem(submissions: seq<Submission>, rings: seq<Ring>) {
    && (forall i :: 0 <= i < |rings| ==> WellFormed(rings[i]))
    && (forall i :: 0 <= i < |submissions| ==> submissions[i].channel < |rings|)
  }

  function ProduceAll(rings: seq<Ring>, submissions: seq<Submission>): (r: seq<Ring>)
    requires InSystem(submissions, rings)
    ensures |r| == |rings| && InSystem([], r)
  {
    if submissions == [] then rings
    else
      var before := ProduceAll(rings, submissions[..|submissions| - 1]);
      var last := submissions[|submissions| - 1];
      before[last.channel := Submit(before[last.channel], last.word)]
  }

  function WordsFor(submissions: seq<Submission>, channel: nat): seq<Word> {
    if submissions == [] then []
    else
      var last := submissions[|submissions| - 1];
      WordsFor(submissions[..|submissions| - 1], channel) + if last.channel == channel then [last.word] else []
  }

  lemma ProduceNothing(ring: Ring)
    requires WellFormed(ring)
    ensures Produce(ring, []) == ring
  {
  }

  /** Interleaved submissions act on each ring as its own submissions alone. */
  lemma {:induction false} RingsAreIndependent(rings: seq<Ring>, submissions: seq<Submission>, i: nat)
    requires InSystem(submissions, rings) && i < |rings|
    ensures ProduceAll(rings, submissions)[i] == Produce(rings[i], WordsFor(submissions, i))
  {
    hide Submit, Produce;
    if submissions == [] {
      assert Produce(rings[i], []) == rings[i] by {
        ProduceNothing(rings[i]);
      }
    } else {
      var front, last := submissions[..|submissions| - 1], submissions[|submissions| - 1];
      RingsAreIndependent(rings, front, i);
      if last.channel == i {
        ProduceAppend(rings[i], WordsFor(front, i), last.word);
      } else {
        assert WordsFor(submissions, i) == WordsFor(front, i);
      }
    }
  }

  // ----- Frames of a producer

  /** The frame was taken while the rings stood at these contents. */
  predicate Shows(frame: Frame, rings: seq<Ring>) {
    && |frame.rings| == |frame.after| == |rings|
    && forall i :: 0 <= i < |rings| ==>
         WellFormed(rings[i]) && frame.rings[i].first == rings[i].slots && frame.after[i].put == rings[i].put
  }

  /** What a comparison of one ring finds after `words` were submitted to it. */
  predicate Finds(c: Change, ring: Ring, words: seq<Word>)
    requires WellFormed(ring)
  {
    var n := |ring.slots|;
    && c.delta == |words| && c.changedOutside == []
    && c.interval == Run(ring.put, |words|, n)
    && (forall slot :: slot in c.unchangedInside ==> slot in c.interval)
    && forall j :: 0 <= j < |words| ==>
         (Slot(ring.put, j, n) in c.unchangedInside <==> words[j] == ring.slots[Slot(ring.put, j, n)])
  }

  lemma OffsetOf(put: nat, j: nat, n: nat)
    requires put < n && j < n
    ensures (Slot(put, j, n) - put) % n == j
  {
    OneTurn(put + j, n);
    OneTurn(Slot(put, j, n) - put, n);
  }

  lemma SlotOf(put: nat, slot: nat, n: nat)
    requires put < n && slot < n
    ensures Slot(put, (slot - put) % n, n) == slot
  {
    OneTurn(slot - put, n);
    OneTurn(put + (slot - put) % n, n);
  }

  /** The slot that the j-th word went to differs exactly when that word is new there. */
  lemma SlotFate(ring: Ring, words: seq<Word>, j: nat)
    requires WellFormed(ring) && |words| < |ring.slots| && j < |words|
    ensures var slot := Slot(ring.put, j, |ring.slots|);
            Differ(ring.slots, Produce(ring, words).slots, slot) <==> words[j] != ring.slots[slot]
  {
    hide Produce;
    OffsetOf(ring.put, j, |ring.slots|);
    ProduceWrites(ring, words, Slot(ring.put, j, |ring.slots|));
  }

  lemma OnlyIntervalDiffers(ring: Ring, words: seq<Word>, slot: nat)
    requires WellFormed(ring) && |words| < |ring.slots|
    requires Differ(ring.slots, Produce(ring, words).slots, slot)
    ensures slot in Run(ring.put, |words|, |ring.slots|)
  {
    hide Produce;
    var n := |ring.slots|;
    ProduceWrites(ring, words, slot);
    var j := (slot - ring.put) % n;
    assert Written(slot, |words|, ring.put, n);
    SlotOf(ring.put, slot, n);
    assert Run(ring.put, |words|, n)[j] == slot;
  }

  /** A ring compared before and after fewer submissions than it has slots. */
  lemma RingFound(c: Change, ring: Ring, words: seq<Word>)
    requires WellFormed(ring) && |words| < |ring.slots|
    requires Describes(c, ring.slots, Produce(ring, words).slots, ring.put, Produce(ring, words).put)
    ensures Finds(c, ring, words)
  {
    hide Produce, Slots, ChangedSlots, UnchangedInside, ChangedOutside, Differ, Slot;
    var n, later := |ring.slots|, Produce(ring, words);
    DeltaIsCount(ring, words);
    assert c.interval == Run(ring.put, |words|, n);
    forall j | 0 <= j < |words|
      ensures Slot(ring.put, j, n) in c.unchangedInside <==> words[j] == ring.slots[Slot(ring.put, j, n)]
    {
      assert c.interval[j] == Slot(ring.put, j, n);
      SlotFate(ring, words, j);
    }
    if c.changedOutside != [] {
      assert c.changedOutside[0] in c.changedOutside;
      OnlyIntervalDiffers(ring, words, c.changedOutside[0]);
      assert false;
    }
  }

  /** Comparing frames taken before and after any interleaved submissions, fewer
      to each ring than it has slots: every delta is that ring's count, nothing
      changed outside its interval, and a slot inside is reported unchanged
      exactly when the word stored there was already there. */
  lemma ComparisonFindsSubmissions(rings: seq<Ring>, submissions: seq<Submission>, pre: Frame, post: Frame, i: nat,
                                   c: Change)
    requires InSystem(submissions, rings) && i < |rings|
    requires Shows(pre, rings) && Shows(post, ProduceAll(rings, submissions))
    requires |WordsFor(submissions, i)| < |rings[i].slots|
    requires Compares(c, pre, post, |rings[i].slots|, i)
    ensures Finds(c, rings[i], WordsFor(submissions, i))
  {
    hide Describes, Finds, ProduceAll, WordsFor, Produce;
    RingsAreIndependent(rings, submissions, i);
    RingFound(c, rings[i], WordsFor(submissions, i));
  }

  // ----- Filling up to the last slot

  /** Launches one-entry kernels until PUT stands on the last slot. `words` are the
      supply of entries to publish; `proceed` is whether the audit and the deadline still
      hold after each. */
  method FillToLastSlot(ring: Ring, words: seq<Word>, proceed: nat -> bool) returns (filled: Result<Ring>)
    requires 0 < |ring.slots| <= |words|
    ensures filled.Ok? <==> WellFormed(ring) && forall j :: 0 <= j < |ring.slots| - 1 - ring.put ==> proceed(j)
    ensures filled.Ok? ==>
              && |filled.value.slots| == |ring.slots| && filled.value.put == |ring.slots| - 1
              && filled.value == Produce(ring, words[..|ring.slots| - 1 - ring.put])
  {
    if ring.put >= |ring.slots| {
      return Err("Wrap PUT outside ring");
    }
    hide Produce;
    ProduceNothing(ring);
    var preparation := |ring.slots| - 1 - ring.put;
    var current := ring;
    for j := 0 to preparation
      invariant WellFormed(current) && |current.slots| == |ring.slots| && current.put == ring.put + j
      invariant current == Produce(ring, words[..j])
      invariant forall k :: 0 <= k < j ==> proceed(k)
    {
      assert words[..j + 1] == words[..j] + [words[j]];
      ProduceAppend(ring, words[..j], words[j]);
      OneTurn(current.put + 1, |ring.slots|);
      current := Submit(current, words[j]);
      if !proceed(j) {
        return Err("preparation stopped");
      }
    }
    return Ok(current);
  }

  /** From there the next two one-entry launches own slots n-1 and 0. */
  lemma NextTwoSlots(ring: Ring, x: Word, y: Word)
    requires WellFormed(ring) && |ring.slots| >= 2 && ring.put == |ring.slots| - 1
    ensures Interval(ring.put, Submit(ring, x).put, |ring.slots|) == Ok([|ring.slots| - 1])
    ensures Interval(Submit(ring, x).put, Submit(Submit(ring, x), y).put, |ring.slots|) == Ok([0])
    ensures WrapObserved(ring.put, Submit(ring, x).put, |ring.slots|)
    ensures !WrapObserved(Submit(ring, x).put, Submit(Submit(ring, x), y).put, |ring.slots|)
  {
    var n := |ring.slots|;
    OneTurn(n, n);
    OneTurn(1, n);
    OneSlot(n - 1, 0, n, n - 1);
    OneSlot(0, 1, n, 0);
  }

  /** A one-entry launch on the active ring, compared over stable frames, is
      attributed to the slot it filled exactly when the word stored differs from
      the word that was there. */
  lemma LaunchIsAttributed(rings: seq<Ring>, active: nat, word: Word, pre: Frame, post: Frame, counts: seq<nat>)
    requires active < |rings| && |rings[active].slots| >= 2
    requires Shows(pre, rings) && Shows(post, rings[active := Submit(rings[active], word)])
    requires ValidFrame(pre, counts) && ValidFrame(post, counts)
    ensures AttributeLaunch(pre, pre.rings[active].first, post, post.rings[active].first, active, |rings[active].slots|)
              == Ok(rings[active].put)
       <==> word != rings[active].slots[rings[active].put]
  {
    hide Describes, AttributeLaunch, ChangedSlots, Interval, Stable, Submit;
    var ring := rings[active];
    var n, after := |ring.slots|, Submit(ring, word);
    FrameOf(pre, rings, counts, active);
    FrameOf(post, rings[active := after], counts, active);
    AttributedExactly(pre, pre.rings[active], post, post.rings[active], counts, active, n, ring.put);
    OneEntry(ring, word);
  }

  lemma FrameOf(frame: Frame, rings: seq<Ring>, counts: seq<nat>, active: nat)
    requires Shows(frame, rings) && ValidFrame(frame, counts) && active < |rings|
    ensures |counts| == |rings| && counts[active] == |rings[active].slots| && Stable(frame, frame.rings[active], counts)
    ensures forall i :: 0 <= i < |rings| ==> Puts(frame.after)[i] == rings[i].put
  {
  }

  lemma OneEntry(ring: Ring, word: Word)
    requires WellFormed(ring) && |ring.slots| >= 2
    ensures Interval(ring.put, Submit(ring, word).put, |ring.slots|) == Ok([ring.put])
    ensures ChangedSlots(ring.slots, Submit(ring, word).slots) == [ring.put] <==> word != ring.slots[ring.put]
  {
    hide Interval, Slots;
    var n, after := |ring.slots|, Submit(ring, word);
    OneTurn(ring.put + 1, n);
    OneSlot(ring.put, after.put, n, ring.put);
    var changed := ChangedSlots(ring.slots, after.slots);
    assert forall j: nat :: j in changed <==> Differ(ring.slots, after.slots, j);
    if word != ring.slots[ring.put] {
      assert Differ(ring.slots, after.slots, ring.put);
      OnlyValue(changed, ring.put);
    } else {
      assert ring.put !in changed;
    }
  }
}
