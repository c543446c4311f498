/** Intervals of ring slots between two PUT values. */
module RingInterval {
  import opened Results

  lemma ModUnique(x: int, n: int, q: int, r: int)
    requires 0 < n && 0 <= r < n && x == q * n + r
    ensures x % n == r
  {
    var d := x / n - q;
    assert n * (x / n) == x - x % n;
    assert n * d == r - x % n by {
      assert n * d == n * (x / n) - n * q;
    }
    if d >= 1 {
      assert false;
    } else if d <= -1 {
      assert false;
    }
  }

  /** Reduction of a number at most one turn away. */
  lemma OneTurn(x: int, n: int)
    requires 0 < n && -n <= x < 2 * n
    ensures x % n == if x < 0 then x + n else if x < n then x else x - n
  {
    if x < 0 {
      ModUnique(x, n, -1, x + n);
    } else if x < n {
      ModUnique(x, n, 0, x);
    } else {
      ModUnique(x, n, 1, x - n);
    }
  }

  function Delta(before: int, after: int, size: int): (d: nat)
    requires 0 < size
    ensures d < size
  {
    (after - before) % size
  }

  function Slot(before: int, j: int, size: int): (s: nat)
    requires 0 < size
    ensures s < size
  {
    (before + j) % size
  }

  /** `count` consecutive slots, wrapping. */
  function Run(start: int, count: nat, size: int): (slots: seq<nat>)
    requires 0 < size
    ensures |slots| == count
  {
    seq(count, j => Slot(start, j, size))
  }

  predicate Index(i: int, size: int) {
    0 <= i < size
  }

  /** The slots a producer at `before` fills to reach `after`, oldest first. */
  function Interval(before: int, after: int, size: int): (slots: Result<seq<nat>>)
    ensures slots.Ok? <==> Index(before, size) && Index(after, size)
  {
    var inside := size > 0 && Index(before, size) && Index(after, size);
    :- Need(inside, "invalid_ring_index");
    Ok(Run(before, Delta(before, after, size), size))
  }

  lemma IntervalMembers(before: int, after: int, size: int, slot: int)
    requires Index(before, size) && Index(after, size)
    ensures slot in Interval(before, after, size).value
       <==> if before <= after then before <= slot < after else 0 <= slot < after || before <= slot < size
  {
    var slots := Interval(before, after, size).value;
    OneTurn(after - before, size);
    forall j | 0 <= j < |slots|
      ensures slots[j] == if before + j < size then before + j else before + j - size
    {
      OneTurn(before + j, size);
    }
    if before <= slot < size && (before <= after ==> slot < after) {
      assert slots[slot - before] == slot;
    } else if after < before && 0 <= slot < after {
      assert slots[slot + size - before] == slot;
    }
  }

  /** No slot appears twice. */
  lemma IntervalInjective(before: int, after: int, size: int, i: nat, j: nat)
    requires Index(before, size) && Index(after, size) && i < j < Delta(before, after, size)
    ensures Interval(before, after, size).value[i] != Interval(before, after, size).value[j]
  {
    OneTurn(before + i, size);
    OneTurn(before + j, size);
  }

  /** Two adjacent intervals concatenate to the outer one exactly when together
      they stay short of a whole turn. */
  lemma IntervalsCompose(a: int, b: int, c: int, size: int)
    requires Index(a, size) && Index(b, size) && Index(c, size)
    ensures Interval(a, b, size).value + Interval(b, c, size).value == Interval(a, c, size).value
       <==> Delta(a, b, size) + Delta(b, c, size) < size
  {
    var left, right, whole := Interval(a, b, size).value, Interval(b, c, size).value, Interval(a, c, size).value;
    OneTurn(b - a, size);
    OneTurn(c - b, size);
    OneTurn(c - a, size);
    if Delta(a, b, size) + Delta(b, c, size) < size {
      forall j | 0 <= j < |whole| ensures whole[j] == (left + right)[j] {
        OneTurn(a + j, size);
        if j >= |left| {
          OneTurn(b + (j - |left|), size);
        }
      }
      assert left + right == whole;
    } else {
      assert |left + right| != |whole|;
    }
  }

  predicate WrapObserved(before: int, after: int, size: int)
    requires Index(before, size) && Index(after, size)
  {
    Interval(before, after, size).value != [] && after < before
  }

  lemma WrapIsLastSlot(before: int, after: int, size: int)
    requires Index(before, size) && Index(after, size)
    ensures WrapObserved(before, after, size) <==> size - 1 in Interval(before, after, size).value
  {
    IntervalMembers(before, after, size, size - 1);
    OneTurn(after - before, size);
  }
}
