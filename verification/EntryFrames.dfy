/** Frames of published ring contents, and the comparisons made between them. */
module EntryFrames {
  import opened Hardware
  import opened Results
  import opened RingInterval
  import opened Pigeonhole

  datatype Field = Field(ordinal: nat, beginNs: int, endNs: int, get: int, put: int)

  datatype Frame = Frame(beginNs: int, endNs: int, before: seq<Field>, after: seq<Field>, rings: seq<RingRead>)

  function Puts(fields: seq<Field>): (puts: seq<int>)
    ensures |puts| == |fields| && forall i :: 0 <= i < |puts| ==> puts[i] == fields[i].put
  {
    seq(|fields|, i requires 0 <= i < |fields| => fields[i].put)
  }

  // ----- Stability

  predicate FieldOk(field: Field, count: nat, start: int, end: int) {
    && start <= field.beginNs <= field.endNs <= end
    && Index(field.get, count) && Index(field.put, count)
  }

  function EndBefore(fields: seq<Field>, i: nat, start: int): int
    requires i <= |fields|
  {
    if i == 0 then start else fields[i - 1].endNs
  }

  /** One reading per channel, in order, each inside the ring, none overlapping
      the one before it. */
  predicate FieldsOk(fields: seq<Field>, counts: seq<nat>, start: int, end: int) {
    && |fields| == |counts|
    && forall i :: 0 <= i < |fields| ==>
         fields[i].ordinal == i && FieldOk(fields[i], counts[i], EndBefore(fields, i, start), end)
  }

  predicate Stable(frame: Frame, ring: RingRead, counts: seq<nat>) {
    && ring.first != [] && ring.first == ring.second
    && FieldsOk(frame.before, counts, frame.beginNs, frame.endNs)
    && FieldsOk(frame.after, counts, EndBefore(frame.before, |frame.before|, frame.beginNs), frame.endNs)
    && Puts(frame.before) == Puts(frame.after)
  }

  predicate Ordinals(rings: seq<RingRead>, n: nat) {
    |rings| == n && forall i :: 0 <= i < n ==> rings[i].ordinal == i
  }

  predicate ValidFrame(frame: Frame, counts: seq<nat>) {
    && frame.beginNs <= frame.endNs
    && Ordinals(frame.rings, |counts|)
    && forall i :: 0 <= i < |counts| ==> |frame.rings[i].first| == counts[i] && Stable(frame, frame.rings[i], counts)
  }

  method CheckFields(fields: seq<Field>, counts: seq<nat>, start: int, end: int) returns (last: Result<int>)
    ensures last.Ok? <==> FieldsOk(fields, counts, start, end)
    ensures last.Ok? ==> last.value == EndBefore(fields, |fields|, start)
  {
    if |fields| != |counts| || exists i :: 0 <= i < |fields| && fields[i].ordinal != i {
      return Err("ring_userd_members_missing");
    }
    var previousEnd := start;
    for i := 0 to |fields|
      invariant previousEnd == EndBefore(fields, i, start)
      invariant forall k :: 0 <= k < i ==> FieldOk(fields[k], counts[k], EndBefore(fields, k, start), end)
    {
      var field := fields[i];
      if !(previousEnd <= field.beginNs <= field.endNs <= end) {
        return Err("ring_field_clock_invalid");
      }
      previousEnd := field.endNs;
      if !(0 <= field.get < counts[i] && 0 <= field.put < counts[i]) {
        return Err("ring_pointer_out_of_range");
      }
    }
    return Ok(previousEnd);
  }

  method StableFrame(frame: Frame, ring: RingRead, counts: seq<nat>) returns (puts: Result<seq<int>>)
    ensures puts.Ok? <==> Stable(frame, ring, counts)
    ensures puts.Ok? ==> puts.value == Puts(frame.before) == Puts(frame.after)
  {
    if ring.first == [] || ring.first != ring.second {
      return Err("ring_double_read_unstable");
    }
    var middle := CheckFields(frame.before, counts, frame.beginNs, frame.endNs);
    if middle.Err? {
      return Err(middle.reason);
    }
    var last := CheckFields(frame.after, counts, middle.value, frame.endNs);
    if last.Err? {
      return Err(last.reason);
    }
    if Puts(frame.before) != Puts(frame.after) {
      return Err("publication_changed_during_ring_snapshot");
    }
    return Ok(Puts(frame.before));
  }

  method ValidateFrame(frame: Frame, counts: seq<nat>) returns (puts: Result<seq<int>>)
    ensures puts.Ok? <==> ValidFrame(frame, counts)
    ensures puts.Ok? ==> puts.value == Puts(frame.after)
  {
    hide Stable;
    if frame.beginNs > frame.endNs || !Ordinals(frame.rings, |counts|) {
      return Err("graph_ring_set_members_missing");
    }
    for i := 0 to |counts|
      invariant forall k :: 0 <= k < i ==>
                  |frame.rings[k].first| == counts[k] && Stable(frame, frame.rings[k], counts)
    {
      if |frame.rings[i].first| != counts[i] {
        return Err("graph_ring_size_mismatch");
      }
      var stable := StableFrame(frame, frame.rings[i], counts);
      if stable.Err? {
        return Err(stable.reason);
      }
    }
    return Ok(Puts(frame.after));
  }

  // ----- Comparison

  /** The slots below `n` that satisfy `keep`, ascending. */
  function Slots(n: nat, keep: nat -> bool): (slots: seq<nat>)
    ensures forall j: nat :: j in slots <==> j < n && keep(j)
    ensures forall i, k :: 0 <= i < k < |slots| ==> slots[i] < slots[k]
  {
    if n == 0 then []
    else
      var below := Slots(n - 1, keep);
      assert forall i :: 0 <= i < |below| ==> below[i] in below;
      below + if keep(n - 1) then [n - 1] else []
  }

  datatype Change = Change(
    ordinal: nat, entries: nat, putBefore: int, putAfter: int, delta: nat, interval: seq<nat>, changed: seq<nat>,
    unchangedInside: seq<nat>, changedOutside: seq<nat>, exactCoverage: bool, wrapObserved: bool)

  predicate Differ(before: seq<Word>, after: seq<Word>, j: nat)
    requires |before| == |after|
  {
    j < |before| && before[j] != after[j]
  }

  function ChangedSlots(before: seq<Word>, after: seq<Word>): (slots: seq<nat>)
    requires |before| == |after|
    ensures forall j: nat :: j in slots <==> Differ(before, after, j)
    ensures forall i, k :: 0 <= i < k < |slots| ==> slots[i] < slots[k]
  {
    Slots(|before|, (j: nat) => Differ(before, after, j))
  }

  function UnchangedInside(before: seq<Word>, after: seq<Word>, interval: seq<nat>): (slots: seq<nat>)
    requires |before| == |after|
    ensures forall j: nat :: j in slots <==> j < |before| && j in interval && !Differ(before, after, j)
  {
    Slots(|before|, (j: nat) => j in interval && !Differ(before, after, j))
  }

  function ChangedOutside(before: seq<Word>, after: seq<Word>, interval: seq<nat>): (slots: seq<nat>)
    requires |before| == |after|
    ensures forall j: nat :: j in slots <==> j !in interval && Differ(before, after, j)
  {
    Slots(|before|, (j: nat) => j !in interval && Differ(before, after, j))
  }

  /** Nothing missing and nothing outside means the interval is the changed set. */
  lemma CoverageExact(before: seq<Word>, after: seq<Word>, interval: seq<nat>)
    requires |before| == |after| && forall j :: j in interval ==> j < |before|
    ensures UnchangedInside(before, after, interval) == [] && ChangedOutside(before, after, interval) == []
       <==> forall j: nat :: j in interval <==> Differ(before, after, j)
  {
    var missing, outside := UnchangedInside(before, after, interval), ChangedOutside(before, after, interval);
    hide UnchangedInside, ChangedOutside;
    if missing != [] {
      assert missing[0] in missing;
    }
    if outside != [] {
      assert outside[0] in outside;
    }
  }

  /** What `c` must say about a ring whose contents and PUT went from one to the other. */
  ghost predicate Describes(c: Change, before: seq<Word>, after: seq<Word>, putBefore: int, putAfter: int)
    requires |before| == |after| && Index(putBefore, |before|) && Index(putAfter, |before|)
  {
    var n := |before|;
    var interval := Interval(putBefore, putAfter, n).value;
    && c.entries == n && c.putBefore == putBefore && c.putAfter == putAfter
    && c.interval == interval && c.delta == |interval|
    && c.changed == ChangedSlots(before, after)
    && c.unchangedInside == UnchangedInside(before, after, interval)
    && c.changedOutside == ChangedOutside(before, after, interval)
    && c.exactCoverage == (forall j: nat :: j in interval <==> Differ(before, after, j))
    && c.wrapObserved == WrapObserved(putBefore, putAfter, n)
  }

  lemma ValidPuts(frame: Frame, counts: seq<nat>, i: nat)
    requires ValidFrame(frame, counts) && i < |counts|
    ensures |frame.rings| == |frame.after| == |counts| && Puts(frame.before) == Puts(frame.after)
    ensures |frame.rings[i].first| == counts[i] && Index(Puts(frame.after)[i], counts[i])
  {
    assert Stable(frame, frame.rings[i], counts);
  }

  /** `c` is the comparison of ring `i`, of `n` entries, between the two frames. */
  ghost predicate Compares(c: Change, pre: Frame, post: Frame, n: nat, i: nat) {
    && i < |pre.rings| && i < |post.rings| && i < |pre.after| && i < |post.after|
    && |pre.rings[i].first| == |post.rings[i].first| == n
    && Index(pre.after[i].put, n) && Index(post.after[i].put, n)
    && c.ordinal == i
    && Describes(c, pre.rings[i].first, post.rings[i].first, pre.after[i].put, post.after[i].put)
  }

  method CompareFrames(pre: Frame, post: Frame, counts: seq<nat>) returns (changes: Result<seq<Change>>)
    ensures changes.Ok? <==> ValidFrame(pre, counts) && ValidFrame(post, counts)
    ensures changes.Ok? ==> |changes.value| == |counts|
    ensures changes.Ok? ==> forall i :: 0 <= i < |counts| ==> Compares(changes.value[i], pre, post, counts[i], i)
  {
    hide ValidFrame, Describes, Index;
    var pa := ValidateFrame(pre, counts);
    if pa.Err? {
      return Err(pa.reason);
    }
    var pb := ValidateFrame(post, counts);
    if pb.Err? {
      return Err(pb.reason);
    }
    var result: seq<Change> := [];
    for i := 0 to |counts|
      invariant |result| == i
      invariant forall k :: 0 <= k < i ==> Compares(result[k], pre, post, counts[k], k)
    {
      ValidPuts(pre, counts, i);
      ValidPuts(post, counts, i);
      var change := CompareRing(i, pre.rings[i].first, post.rings[i].first, pa.value[i], pb.value[i]);
      assert Compares(change, pre, post, counts[i], i);
      result := result + [change];
    }
    return Ok(result);
  }

  method CompareRing(ordinal: nat, before: seq<Word>, after: seq<Word>, putBefore: int,
                     putAfter: int) returns (c: Change)
    requires |before| == |after| && Index(putBefore, |before|) && Index(putAfter, |before|)
    ensures c.ordinal == ordinal && Describes(c, before, after, putBefore, putAfter)
  {
    var n := |before|;
    var expected := Interval(putBefore, putAfter, n).value;
    var changed := ChangedSlots(before, after);
    var missing := UnchangedInside(before, after, expected);
    var outside := ChangedOutside(before, after, expected);
    c := Change(ordinal, n, putBefore, putAfter, |expected|, expected, changed, missing, outside,
                missing == [] && outside == [], |expected| != 0 && putAfter < putBefore);
    CoverageExact(before, after, expected);
  }

  /** Exact coverage means as many changed slots as the PUT advanced: the interval
      names no slot twice, and neither does the list of changed slots. */
  lemma ExactMeansEqualCounts(c: Change, before: seq<Word>, after: seq<Word>, putBefore: int, putAfter: int)
    requires |before| == |after| && Index(putBefore, |before|) && Index(putAfter, |before|)
    requires Describes(c, before, after, putBefore, putAfter) && c.exactCoverage
    ensures |c.changed| == c.delta
  {
    hide Interval, UnchangedInside, ChangedOutside, Differ, WrapObserved;
    DistinctSlots(putBefore, putAfter, |before|);
    SameLength(c.interval, ChangedSlots(before, after));
  }

  lemma DistinctSlots(putBefore: int, putAfter: int, n: nat)
    requires Index(putBefore, n) && Index(putAfter, n)
    ensures Injective(Interval(putBefore, putAfter, n).value)
  {
    forall i: nat, j: nat | i < j < Delta(putBefore, putAfter, n)
      ensures Interval(putBefore, putAfter, n).value[i] != Interval(putBefore, putAfter, n).value[j]
    {
      IntervalInjective(putBefore, putAfter, n, i, j);
    }
  }

  lemma SameLength(s: seq<nat>, t: seq<nat>)
    requires Injective(s) && (forall i, k :: 0 <= i < k < |t| ==> t[i] < t[k])
    requires forall j: nat :: j in s <==> j in t
    ensures |s| == |t|
  {
    ElementCount(s);
    ElementCount(t);
    assert Elements(s) == Elements(t);
  }

  /** Between the two frames ring `i` neither advanced nor changed. */
  predicate Untouched(a: Frame, b: Frame, n: nat, i: nat) {
    && i < |a.rings| && i < |b.rings| && i < |a.after| && i < |b.after|
    && |a.rings[i].first| == |b.rings[i].first| == n
    && Interval(a.after[i].put, b.after[i].put, n) == Ok([])
    && ChangedSlots(a.rings[i].first, b.rings[i].first) == []
  }

  /** Two valid frames show the same publication exactly when comparing them finds
      every interval and every list of changed slots empty. */
  method SamePublication(a: Frame, b: Frame, counts: seq<nat>) returns (same: Result<bool>)
    ensures same.Ok? <==> ValidFrame(a, counts) && ValidFrame(b, counts)
    ensures same.Ok? && counts != [] ==>
              (same.value <==> forall i :: 0 <= i < |counts| ==> Untouched(a, b, counts[i], i))
  {
    hide ValidFrame, Untouched;
    var pa := ValidateFrame(a, counts);
    if pa.Err? {
      return Err(pa.reason);
    }
    var pb := ValidateFrame(b, counts);
    if pb.Err? {
      return Err(pb.reason);
    }
    forall i: nat | i < |counts|
      ensures |a.rings| == |b.rings| == |a.after| == |b.after| == |counts|
      ensures Untouched(a, b, counts[i], i) <==> pa.value[i] == pb.value[i] && a.rings[i].first == b.rings[i].first
    {
      ValidPuts(a, counts, i);
      ValidPuts(b, counts, i);
      UntouchedMeans(a, b, counts[i], i);
    }
    if counts == [] {
      return Ok(pa.value == pb.value);
    }
    assert 0 < |counts|;
    ValidPuts(a, counts, 0);
    ValidPuts(b, counts, 0);
    return Ok(pa.value == pb.value && forall i :: 0 <= i < |counts| ==> a.rings[i].first == b.rings[i].first);
  }

  lemma UntouchedMeans(a: Frame, b: Frame, n: nat, i: nat)
    requires i < |a.rings| && i < |b.rings| && i < |a.after| && i < |b.after|
    requires |a.rings[i].first| == |b.rings[i].first| == n && Index(a.after[i].put, n) && Index(b.after[i].put, n)
    ensures Untouched(a, b, n, i) <==> a.after[i].put == b.after[i].put && a.rings[i].first == b.rings[i].first
  {
    hide ChangedSlots, Slots;
    OneTurn(b.after[i].put - a.after[i].put, n);
    var changed := ChangedSlots(a.rings[i].first, b.rings[i].first);
    if changed == [] {
      forall j: nat | j < n ensures a.rings[i].first[j] == b.rings[i].first[j] {
        assert j !in changed;
      }
    } else {
      assert changed[0] in changed;
    }
  }

  // ----- One launch, one entry

  /** The ordinals whose PUT differs. */
  function Moved(before: seq<Field>, after: seq<Field>): seq<nat>
    requires |before| == |after|
  {
    Slots(|before|, (i: nat) => i < |before| && before[i].put != after[i].put)
  }

  function AttributeLaunch(pre: Frame, preRing: seq<Word>, post: Frame, postRing: seq<Word>, active: int,
                           entries: nat): Result<nat> {
    var complete := |preRing| == |postRing| == entries;
    :- Need(complete, "ring_entry_count_mismatch");
    :- Need(0 <= active < |pre.before| == |post.after|, "active_ordinal_invalid");
    :- Need(Moved(pre.before, post.after) == [active], "multiple_or_wrong_active_channels");
    var slot := pre.before[active].put;
    :- Need(entries > 0 && post.after[active].put == (slot + 1) % entries, "put_delta_not_one_entry");
    :- Need(slot >= 0 && ChangedSlots(preRing, postRing) == [slot], "changed_slots_do_not_uniquely_match_put");
    Ok(slot)
  }

  /** On stable frames a launch is attributed to slot `s` exactly when the active
      ring advanced by just [s], only slot s changed, and no other PUT moved. */
  lemma AttributedExactly(pre: Frame, preRing: RingRead, post: Frame, postRing: RingRead, counts: seq<nat>,
                          active: nat, entries: nat, s: nat)
    requires Stable(pre, preRing, counts) && Stable(post, postRing, counts)
    requires active < |counts| && counts[active] == entries == |preRing.first| == |postRing.first|
    ensures AttributeLaunch(pre, preRing.first, post, postRing.first, active, entries) == Ok(s)
       <==> && Interval(Puts(pre.after)[active], Puts(post.after)[active], entries) == Ok([s])
            && ChangedSlots(preRing.first, postRing.first) == [s]
            && forall i :: 0 <= i < |counts| && i != active ==> Puts(pre.after)[i] == Puts(post.after)[i]
  {
    hide Interval, ChangedSlots, Moved, AttributeLaunch, Stable;
    StablePuts(pre, preRing, counts);
    StablePuts(post, postRing, counts);
    var p, q := pre.before[active].put, post.after[active].put;
    OneSlot(p, q, entries, s);
    OnlyActiveMoved(pre.before, post.after, active);
    AttributedWhen(pre, preRing.first, post, postRing.first, active, entries, s);
  }

  lemma StablePuts(frame: Frame, ring: RingRead, counts: seq<nat>)
    requires Stable(frame, ring, counts)
    ensures |frame.before| == |frame.after| == |counts| && Puts(frame.before) == Puts(frame.after)
    ensures forall i :: 0 <= i < |counts| ==>
              && frame.before[i].put == frame.after[i].put == Puts(frame.after)[i] && Index(frame.after[i].put, counts[i])
  {
    forall i | 0 <= i < |counts|
      ensures frame.before[i].put == frame.after[i].put == Puts(frame.after)[i] && Index(frame.after[i].put, counts[i])
    {
      assert Puts(frame.before)[i] == Puts(frame.after)[i];
    }
  }

  lemma AttributedWhen(pre: Frame, preRing: seq<Word>, post: Frame, postRing: seq<Word>, active: nat, entries: nat,
                       s: nat)
    requires |preRing| == |postRing| == entries > 0 && active < |pre.before| == |post.after|
    requires pre.before[active].put >= 0
    ensures AttributeLaunch(pre, preRing, post, postRing, active, entries) == Ok(s)
       <==> && Moved(pre.before, post.after) == [active]
            && pre.before[active].put == s && post.after[active].put == (s + 1) % entries
            && ChangedSlots(preRing, postRing) == [s]
  {
    hide ChangedSlots, Moved;
  }

  lemma OneSlot(p: int, q: int, entries: nat, s: nat)
    requires Index(p, entries) && Index(q, entries)
    ensures Interval(p, q, entries) == Ok([s]) <==> p != q && p == s && q == (p + 1) % entries
  {
    var slots := Interval(p, q, entries).value;
    OneTurn(q - p, entries);
    OneTurn(p + 1, entries);
    OneTurn(p, entries);
    if |slots| == 1 {
      assert slots == [p];
    }
  }

  lemma OnlyActiveMoved(before: seq<Field>, after: seq<Field>, active: nat)
    requires |before| == |after| && active < |before|
    ensures Moved(before, after) == [active]
       <==> before[active].put != after[active].put &&
            forall i :: 0 <= i < |before| && i != active ==> before[i].put == after[i].put
  {
    var moved := Moved(before, after);
    assert forall i: nat :: i in moved <==> i < |before| && before[i].put != after[i].put;
    if active in moved && forall i: nat :: i in moved ==> i == active {
      OnlyValue(moved, active);
    }
  }

  lemma OnlyValue(slots: seq<nat>, x: nat)
    requires x in slots && forall j: nat :: j in slots ==> j == x
    requires forall i, k :: 0 <= i < k < |slots| ==> slots[i] < slots[k]
    ensures slots == [x]
  {
    assert slots[0] in slots;
    if |slots| > 1 {
      assert slots[1] != x && slots[1] in slots by {
        assert slots[0] < slots[1];
      }
    }
  }
}
