/** Bounds on one clock's readings through brackets taken on another: the
    CPU-GPU start estimate and the profiler's API bracket. Times are exact reals;
    rounding to a double is not modelled. */
module Clock {

  /** A GPU timestamp taken between two host timestamps. */
  datatype Anchor = Anchor(before: real, after: real, gpu: real) {
    function Low(): real {
      before - gpu
    }

    function High(): real {
      after - gpu
    }

    function Width(): real {
      after - before
    }

    /** The host clock reads the GPU clock plus `offset`. */
    predicate Allows(offset: real) {
      before <= gpu + offset <= after
    }
  }

  function Min(a: real, b: real): real {
    if b < a then b else a
  }

  function Max(a: real, b: real): real {
    if a < b then b else a
  }

  // ----- Choosing an anchor

  /** Keeps the narrowest of the probe runs; `after` 0 means none kept yet. */
  method ClockAnchor(runs: seq<Anchor>) returns (best: Anchor)
    requires |runs| == 7
    ensures (forall i :: 0 <= i < |runs| ==> runs[i].after != 0.0) ==>
              exists i :: 0 <= i < |runs| && best == runs[i] &&
                          (forall j :: 0 <= j < |runs| ==> best.Width() <= runs[j].Width()) &&
                          (forall j :: 0 <= j < i ==> best.Width() < runs[j].Width())
  {
    best := Anchor(0.0, 0.0, 0.0);
    ghost var chosen := 0;
    for i := 0 to |runs|
      invariant i == 0 ==> best.after == 0.0
      invariant (forall k :: 0 <= k < |runs| ==> runs[k].after != 0.0) && i > 0 ==>
                  && 0 <= chosen < i && best == runs[chosen]
                  && (forall j :: 0 <= j < i ==> best.Width() <= runs[j].Width())
                  && (forall j :: 0 <= j < chosen ==> best.Width() < runs[j].Width())
    {
      if best.after == 0.0 || runs[i].after - runs[i].before < best.after - best.before {
        best, chosen := runs[i], i;
      }
    }
  }

  // ----- The start estimate

  function Lowest(pre: Anchor, post: Anchor): real {
    Min(pre.Low(), post.Low())
  }

  function Highest(pre: Anchor, post: Anchor): real {
    Max(pre.High(), post.High())
  }

  function BoundedLow(run: Anchor, pre: Anchor, post: Anchor): real {
    Max(run.gpu + Lowest(pre, post), run.before)
  }

  function BoundedHigh(run: Anchor, pre: Anchor, post: Anchor): real {
    Min(run.gpu + Highest(pre, post), run.after)
  }

  predicate Monotone(run: Anchor, pre: Anchor, post: Anchor) {
    pre.gpu <= run.gpu <= post.gpu
  }

  predicate AnchorsMeet(pre: Anchor, post: Anchor) {
    Max(pre.Low(), post.Low()) <= Min(pre.High(), post.High())
  }

  predicate Accepts(run: Anchor, pre: Anchor, post: Anchor) {
    Monotone(run, pre, post) && AnchorsMeet(pre, post) && BoundedLow(run, pre, post) <= BoundedHigh(run, pre, post)
  }

  /** The true start is `x` on the host clock: within the run, and by an offset that one
      of the anchors allows. */
  predicate MayStartAt(x: real, run: Anchor, pre: Anchor, post: Anchor) {
    run.before <= x <= run.after && (pre.Allows(x - run.gpu) || post.Allows(x - run.gpu))
  }

  predicate AllowedByBoth(offset: real, pre: Anchor, post: Anchor) {
    pre.Allows(offset) && post.Allows(offset)
  }

  /** The bounds are exactly the starts that some offset of either anchor gives. */
  lemma EnvelopeIsExact(x: real, run: Anchor, pre: Anchor, post: Anchor)
    requires AnchorsMeet(pre, post)
    ensures BoundedLow(run, pre, post) <= x <= BoundedHigh(run, pre, post) <==> MayStartAt(x, run, pre, post)
  {
  }

  /** An estimate is accepted exactly if the GPU samples are monotone, some offset is
      allowed by both anchors, and some start is possible at all. */
  lemma AcceptedMeans(run: Anchor, pre: Anchor, post: Anchor)
    ensures Accepts(run, pre, post)
       <==> && pre.gpu <= run.gpu <= post.gpu
            && (exists offset :: AllowedByBoth(offset, pre, post))
            && exists x :: MayStartAt(x, run, pre, post)
  {
    if AnchorsMeet(pre, post) {
      assert AllowedByBoth(Max(pre.Low(), post.Low()), pre, post);
      EnvelopeIsExact(BoundedLow(run, pre, post), run, pre, post);
      forall x ensures MayStartAt(x, run, pre, post) ==> BoundedLow(run, pre, post) <= BoundedHigh(run, pre, post) {
        EnvelopeIsExact(x, run, pre, post);
      }
    }
  }

  /** A measured run: launch and completion on the host, start on the GPU. `NaN`
      fields are modelled by `valid` staying false. */
  class Measurement {
    const run: Anchor
    var bracket: real
    var offsetChange: real
    var low: real
    var high: real
    var estimate: real
    var valid: bool

    constructor (run: Anchor)
      ensures this.run == run && !valid
    {
      this.run := run;
      valid := false;
    }

    method EstimateStart(pre: Anchor, post: Anchor)
      requires !valid
      modifies this
      ensures bracket == (if pre.Width() < post.Width() then post.Width() else pre.Width())
      ensures offsetChange == (post.Low() + post.High()) / 2.0 - (pre.Low() + pre.High()) / 2.0
      ensures valid <==> && pre.gpu <= run.gpu <= post.gpu
                         && (exists offset :: AllowedByBoth(offset, pre, post))
                         && exists x :: MayStartAt(x, run, pre, post)
      ensures valid ==> forall x :: low <= x <= high <==> MayStartAt(x, run, pre, post)
      ensures if valid then low <= estimate <= high && estimate - low == high - estimate
              else low == old(low) && high == old(high) && estimate == old(estimate)
      ensures valid ==> low == BoundedLow(run, pre, post) && high == BoundedHigh(run, pre, post)
    {
      AcceptedMeans(run, pre, post);
      forall x | AnchorsMeet(pre, post)
        ensures BoundedLow(run, pre, post) <= x <= BoundedHigh(run, pre, post) <==> MayStartAt(x, run, pre, post) {
        EnvelopeIsExact(x, run, pre, post);
      }
      var lowest := Min(pre.Low(), post.Low());
      var highest := Max(pre.High(), post.High());
      bracket := Max(pre.after - pre.before, post.after - post.before);
      offsetChange := (post.Low() + post.High() - pre.Low() - pre.High()) / 2.0;
      var rawLow, rawHigh := run.gpu + lowest, run.gpu + highest;
      var boundedLow, boundedHigh := Max(rawLow, run.before), Min(rawHigh, run.after);
      if pre.gpu <= run.gpu && run.gpu <= post.gpu &&
         Max(pre.Low(), post.Low()) <= Min(pre.High(), post.High()) && boundedLow <= boundedHigh {
        low, high, estimate := boundedLow, boundedHigh, (boundedLow + boundedHigh) / 2.0;
        valid := true;
      }
    }
  }

  predicate Explains(offset: real, run: Anchor, pre: Anchor, post: Anchor) {
    pre.Allows(offset) && run.Allows(offset) && post.Allows(offset)
  }

  /** With monotone GPU samples, a constant offset that explains both anchors and
      the run makes the estimate valid and puts the true start inside it. So a
      rejected estimate refutes every constant offset. */
  lemma OffsetMakesValid(offset: real, run: Anchor, pre: Anchor, post: Anchor)
    requires Monotone(run, pre, post) && Explains(offset, run, pre, post)
    ensures Accepts(run, pre, post)
    ensures BoundedLow(run, pre, post) <= run.gpu + offset <= BoundedHigh(run, pre, post)
    ensures -(pre.Width() + post.Width()) <= post.Low() + post.High() - pre.Low() - pre.High() <= pre.Width() + post.Width()
  {
  }

  /** An accepted envelope is never wider than both anchors together, nor than the run. */
  lemma EnvelopeWidth(run: Anchor, pre: Anchor, post: Anchor)
    requires Accepts(run, pre, post)
    ensures BoundedHigh(run, pre, post) - BoundedLow(run, pre, post) <= pre.Width() + post.Width()
    ensures BoundedHigh(run, pre, post) - BoundedLow(run, pre, post) <= run.Width()
    ensures run.before <= BoundedLow(run, pre, post) && BoundedHigh(run, pre, post) <= run.after
  {
  }

  predicate RunMeetsBoth(run: Anchor, pre: Anchor, post: Anchor) {
    run.Low() <= run.High() && run.Low() <= Min(pre.High(), post.High()) && Max(pre.Low(), post.Low()) <= run.High()
  }

  /** Validity does not itself provide an offset: it does exactly when the run's
      bracket also reaches what both anchors have in common. */
  lemma OffsetExistsExactly(run: Anchor, pre: Anchor, post: Anchor)
    requires Monotone(run, pre, post)
    ensures (exists offset :: Explains(offset, run, pre, post)) <==> Accepts(run, pre, post) && RunMeetsBoth(run, pre, post)
  {
    if offset :| Explains(offset, run, pre, post) {
      OffsetMakesValid(offset, run, pre, post);
    }
    if Accepts(run, pre, post) && RunMeetsBoth(run, pre, post) {
      assert Explains(Max(run.Low(), Max(pre.Low(), post.Low())), run, pre, post);
    }
  }

  /** A valid estimate that no constant offset explains. */
  lemma ValidWithoutOffset() returns (run: Anchor, pre: Anchor, post: Anchor)
    ensures Monotone(run, pre, post) && Accepts(run, pre, post)
    ensures forall a :: a in [run, pre, post] ==> 0.0 < a.before && 0.0 < a.after && 0.0 < a.gpu
    ensures forall offset :: !Explains(offset, run, pre, post)
  {
    pre, run, post := Anchor(1000.0, 1010.0, 500.0), Anchor(1035.0, 1040.0, 520.0), Anchor(1045.0, 1060.0, 540.0);
  }

  // ----- The profiler's API bracket

  /** Profiler times of the launch call and of the kernel start, and the host's
      bracket around the same call. */
  datatype Launch = Launch(apiStart: int, apiEnd: int, kernelStart: int, hostLaunch: int, hostReturn: int, hostComplete: int)

  function Lower(l: Launch, invalidate: int): int {
    l.kernelStart - l.apiStart + l.hostLaunch - invalidate
  }

  function Upper(l: Launch, invalidate: int): int {
    l.kernelStart - l.apiEnd + l.hostReturn - invalidate
  }

  predicate AlignmentValid(l: Launch, invalidate: int) {
    0 <= Lower(l, invalidate) <= Upper(l, invalidate) <= l.hostComplete - invalidate
  }

  /** The call lies inside the host bracket under this host-minus-profiler offset. */
  predicate Inside(l: Launch, offset: int) {
    l.hostLaunch <= l.apiStart + offset && l.apiEnd + offset <= l.hostReturn
  }

  /** The bounds are exactly the kernel starts that some admissible offset gives. */
  lemma BoundsAreExact(l: Launch, invalidate: int, x: int)
    ensures Lower(l, invalidate) <= x <= Upper(l, invalidate)
       <==> exists offset :: Inside(l, offset) && x == l.kernelStart + offset - invalidate
  {
    var offset := x - l.kernelStart + invalidate;
    assert Inside(l, offset) <==> Lower(l, invalidate) <= x <= Upper(l, invalidate);
  }

  /** The bounds are ordered exactly when the call is no wider than the host
      bracket, and invalid alignment without that excess means that the kernel
      start may precede the mark or outlast the observed completion. */
  lemma AlignmentMeaning(l: Launch, invalidate: int)
    ensures Lower(l, invalidate) <= Upper(l, invalidate) <==> l.apiEnd - l.apiStart <= l.hostReturn - l.hostLaunch
    ensures Upper(l, invalidate) - Lower(l, invalidate) == (l.hostReturn - l.hostLaunch) - (l.apiEnd - l.apiStart)
    ensures AlignmentValid(l, invalidate)
       <==> && (exists offset :: Inside(l, offset))
            && forall offset :: Inside(l, offset) ==> invalidate <= l.kernelStart + offset <= l.hostComplete
  {
    if Lower(l, invalidate) <= Upper(l, invalidate) {
      assert Inside(l, l.hostLaunch - l.apiStart) && Inside(l, l.hostReturn - l.apiEnd);
    }
  }
}
