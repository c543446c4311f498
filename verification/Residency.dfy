/** Context residency from paired context-switch events. */
module Residency {
  import opened Results

  datatype Tag = RestoreStart | SaveEnd | OtherTag

  datatype Event = Event(timestamp: int, context: nat, tag: Tag)

  datatype Interval = Interval(context: nat, start: int, finish: int)

  predicate Sorted(events: seq<Event>) {
    forall i, j :: 0 <= i < j < |events| ==> events[i].timestamp <= events[j].timestamp
  }

  // ----- The reference: replaying the trace

  /** Whether the context is resident once all events have happened. */
  predicate ResidentAfter(events: seq<Event>, context: nat) {
    if events == [] then false
    else
      var last := events[|events| - 1];
      if last.context == context && last.tag.RestoreStart? then true
      else if last.context == context && last.tag.SaveEnd? then false
      else ResidentAfter(events[..|events| - 1], context)
  }

  function UpTo(events: seq<Event>, t: int): seq<Event> {
    if events == [] then []
    else
      UpTo(events[..|events| - 1], t) +
      if events[|events| - 1].timestamp <= t then [events[|events| - 1]] else []
  }

  predicate ResidentAt(events: seq<Event>, context: nat, t: int) {
    ResidentAfter(UpTo(events, t), context)
  }

  /** How many instants of [begin, end) find the context resident. */
  function ResidentInstants(events: seq<Event>, context: nat, begin: int, end: int): (n: nat)
    requires begin <= end
    ensures n <= end - begin
    decreases end - begin
  {
    if begin == end then 0
    else ResidentInstants(events, context, begin, end - 1) + if ResidentAt(events, context, end - 1) then 1 else 0
  }

  /** A context restored again while resident. */
  predicate RepeatsRestore(events: seq<Event>, i: nat)
    requires i < |events|
  {
    events[i].tag.RestoreStart? && ResidentAfter(events[..i], events[i].context)
  }

  // ----- Pairing

  function Max(a: int, b: int): int {
    if a < b then b else a
  }

  function Min(a: int, b: int): int {
    if a < b then a else b
  }

  function Clip(begin: int, end: int, start: int, finish: int): nat {
    Max(0, Min(end, finish) - Max(begin, start))
  }

  /** Time of [begin, end) the intervals of one context cover, interval by interval. */
  function Residency(intervals: seq<Interval>, context: nat, begin: int, end: int): nat {
    if intervals == [] then 0
    else
      var last := intervals[|intervals| - 1];
      Residency(intervals[..|intervals| - 1], context, begin, end) +
      if last.context == context then Clip(begin, end, last.start, last.finish) else 0
  }

  function StillOpen(starts: map<nat, int>, context: nat, begin: int, end: int): nat {
    if context in starts then Max(0, end - Max(begin, starts[context])) else 0
  }

  /** Closed intervals plus open starts account for every resident instant so far. */
  ghost predicate Accounts(starts: map<nat, int>, intervals: seq<Interval>, events: seq<Event>) {
    && (forall c :: c in starts <==> ResidentAfter(events, c))
    && (forall c :: c in starts ==> events != [] && starts[c] <= events[|events| - 1].timestamp)
    && forall c, begin, end :: begin <= end ==>
         Residency(intervals, c, begin, end) + StillOpen(starts, c, begin, end) == ResidentInstants(events, c, begin, end)
  }

  lemma {:induction false} AllSeen(events: seq<Event>, t: int)
    requires Sorted(events) && (events != [] ==> events[|events| - 1].timestamp <= t)
    ensures UpTo(events, t) == events
  {
    if events != [] {
      AllSeen(events[..|events| - 1], t);
    }
  }

  /** A new last event changes what is resident only from its timestamp on. */
  lemma ResidentAppend(events: seq<Event>, e: Event, c: nat, t: int)
    requires Sorted(events + [e])
    ensures t < e.timestamp ==> ResidentAt(events + [e], c, t) == ResidentAt(events, c, t)
    ensures t >= e.timestamp ==>
              ResidentAt(events + [e], c, t) == ResidentAfter(events + [e], c) &&
              ResidentAt(events, c, t) == ResidentAfter(events, c)
  {
    assert (events + [e])[..|events|] == events;
    if t < e.timestamp {
      assert UpTo(events + [e], t) == UpTo(events, t);
    } else {
      assert forall i :: 0 <= i < |events| ==> events[i] == (events + [e])[i];
      AllSeen(events, t);
      AllSeen(events + [e], t);
    }
  }

  function Change(before: bool, after: bool): int {
    if after && !before then 1 else if before && !after then -1 else 0
  }

  lemma {:induction false} InstantsAppend(events: seq<Event>, e: Event, c: nat, begin: int, end: int)
    requires Sorted(events + [e]) && begin <= end
    ensures ResidentInstants(events + [e], c, begin, end)
         == ResidentInstants(events, c, begin, end)
            + Change(ResidentAfter(events, c), ResidentAfter(events + [e], c)) * Max(0, end - Max(begin, e.timestamp))
    decreases end - begin
  {
    hide ResidentAt, ResidentAfter;
    if begin < end {
      InstantsAppend(events, e, c, begin, end - 1);
      ResidentAppend(events, e, c, end - 1);
    }
  }

  /** One event of the pairing loop keeps the account. */
  lemma AccountsStep(starts: map<nat, int>, intervals: seq<Interval>, events: seq<Event>, e: Event)
    requires Accounts(starts, intervals, events) && Sorted(events + [e])
    requires !(e.tag.RestoreStart? && e.context in starts)
    ensures e.tag.RestoreStart? ==> Accounts(starts[e.context := e.timestamp], intervals, events + [e])
    ensures e.tag.SaveEnd? && e.context in starts ==>
              Accounts(starts - {e.context}, intervals + [Interval(e.context, starts[e.context], e.timestamp)], events + [e])
    ensures !e.tag.RestoreStart? && !(e.tag.SaveEnd? && e.context in starts) ==> Accounts(starts, intervals, events + [e])
  {
    assert (events + [e])[..|events|] == events;
    var closes := e.tag.SaveEnd? && e.context in starts;
    var starts' := if e.tag.RestoreStart? then starts[e.context := e.timestamp]
                   else if closes then starts - {e.context} else starts;
    var intervals' := if closes then intervals + [Interval(e.context, starts[e.context], e.timestamp)] else intervals;
    forall c, begin, end | begin <= end
      ensures Residency(intervals', c, begin, end) + StillOpen(starts', c, begin, end)
           == ResidentInstants(events + [e], c, begin, end)
    {
      OneContextStep(starts, intervals, starts', intervals', events, e, c, begin, end);
    }
    forall c | c in starts' ensures starts'[c] <= e.timestamp {
      StartBefore(starts, intervals, events, e, c);
    }
  }

  lemma OneContextStep(starts: map<nat, int>, intervals: seq<Interval>, starts': map<nat, int>, intervals': seq<Interval>,
                       events: seq<Event>, e: Event, c: nat, begin: int, end: int)
    requires Accounts(starts, intervals, events) && Sorted(events + [e]) && begin <= end
    requires !(e.tag.RestoreStart? && e.context in starts)
    requires var closes := e.tag.SaveEnd? && e.context in starts;
             && starts' == (if e.tag.RestoreStart? then starts[e.context := e.timestamp]
                            else if closes then starts - {e.context} else starts)
             && intervals' == if closes then intervals + [Interval(e.context, starts[e.context], e.timestamp)] else intervals
    ensures Residency(intervals', c, begin, end) + StillOpen(starts', c, begin, end)
         == ResidentInstants(events + [e], c, begin, end)
  {
    hide ResidentInstants, Sorted;
    assert (events + [e])[..|events|] == events;
    assert intervals'[..|intervals|] == intervals;
    InstantsAppend(events, e, c, begin, end);
    StartBefore(starts, intervals, events, e, c);
    assert Residency(intervals, c, begin, end) + StillOpen(starts, c, begin, end) == ResidentInstants(events, c, begin, end);
  }

  lemma StartBefore(starts: map<nat, int>, intervals: seq<Interval>, events: seq<Event>, e: Event, c: nat)
    requires Accounts(starts, intervals, events) && Sorted(events + [e])
    ensures c in starts ==> starts[c] <= e.timestamp
  {
    if c in starts {
      assert events != [];
      var all := events + [e];
      assert all[|events| - 1].timestamp <= all[|events|].timestamp;
      assert starts[c] <= events[|events| - 1].timestamp;
    }
  }

  /** The intervals give exactly the replayed residency of every range that ends
      by the end of the trace. */
  ghost predicate Exact(intervals: seq<Interval>, events: seq<Event>, traceEnd: int) {
    forall c, begin, end :: begin <= end <= traceEnd ==>
      Residency(intervals, c, begin, end) == ResidentInstants(events, c, begin, end)
  }

  method Pair(events: seq<Event>, traceEnd: int) returns (r: Result<seq<Interval>>)
    requires Sorted(events)
    ensures r.Err? <==> exists i :: 0 <= i < |events| && RepeatsRestore(events, i)
    ensures r.Ok? ==> Exact(r.value, events, traceEnd)
  {
    hide Accounts, RepeatsRestore;
    var starts: map<nat, int> := map[];
    var intervals: seq<Interval> := [];
    NothingYet();
    for i := 0 to |events|
      invariant Accounts(starts, intervals, events[..i])
      invariant forall k :: 0 <= k < i ==> !RepeatsRestore(events, k)
    {
      var e := events[i];
      assert events[..i + 1] == events[..i] + [e];
      OpenMeansResident(starts, intervals, events, i);
      if e.tag.RestoreStart? && e.context in starts {
        return Err("Repeated RESTORE without SAVE");
      }
      AccountsStep(starts, intervals, events[..i], e);
      if e.tag.RestoreStart? {
        starts := starts[e.context := e.timestamp];
      } else if e.tag.SaveEnd? && e.context in starts {
        intervals := intervals + [Interval(e.context, starts[e.context], e.timestamp)];
        starts := starts - {e.context};
      }
    }
    assert events[..|events|] == events;
    intervals := CloseAll(starts, intervals, events, traceEnd);
    return Ok(intervals);
  }

  lemma NothingYet()
    ensures Accounts(map[], [], [])
  {
    forall c, begin, end | begin <= end ensures ResidentInstants([], c, begin, end) == 0 {
      NeverResident(c, begin, end);
    }
  }

  lemma {:induction false} NeverResident(c: nat, begin: int, end: int)
    requires begin <= end
    ensures ResidentInstants([], c, begin, end) == 0
    decreases end - begin
  {
    if begin < end {
      NeverResident(c, begin, end - 1);
    }
  }

  lemma OpenMeansResident(starts: map<nat, int>, intervals: seq<Interval>, events: seq<Event>, i: nat)
    requires i < |events| && Accounts(starts, intervals, events[..i])
    ensures RepeatsRestore(events, i) <==> events[i].tag.RestoreStart? && events[i].context in starts
  {
  }

  /** Contexts still resident stay so until the end of the trace. */
  method CloseAll(starts: map<nat, int>, intervals: seq<Interval>, ghost events: seq<Event>, traceEnd: int)
    returns (closed: seq<Interval>)
    requires Accounts(starts, intervals, events)
    ensures Exact(closed, events, traceEnd)
  {
    closed := intervals;
    var rest := starts;
    while rest.Keys != {}
      invariant forall c, begin, end :: begin <= end <= traceEnd ==>
                  Residency(closed, c, begin, end) + StillOpen(rest, c, begin, end) == ResidentInstants(events, c, begin, end)
      decreases |rest|
    {
      var c :| c in rest.Keys;
      ghost var before := closed;
      closed := closed + [Interval(c, rest[c], traceEnd)];
      assert closed[..|before|] == before;
      var fewer := rest - {c};
      assert fewer.Keys == rest.Keys - {c};
      rest := fewer;
    }
  }

  // ----- What exactness gives the caller

  lemma {:induction false} InstantsAdd(events: seq<Event>, c: nat, begin: int, middle: int, end: int)
    requires begin <= middle <= end
    ensures ResidentInstants(events, c, begin, middle) + ResidentInstants(events, c, middle, end)
         == ResidentInstants(events, c, begin, end)
    decreases end - middle
  {
    hide ResidentAt;
    if middle < end {
      InstantsAdd(events, c, begin, middle, end - 1);
    }
  }

  /** Residency of adjacent ranges adds up, never exceeds the range, and fills it
      exactly when the context is resident throughout. */
  lemma ResidencyIsAMeasure(intervals: seq<Interval>, events: seq<Event>, traceEnd: int, c: nat, begin: int,
                            middle: int, end: int)
    requires Exact(intervals, events, traceEnd) && begin <= middle <= end <= traceEnd
    ensures Residency(intervals, c, begin, middle) + Residency(intervals, c, middle, end) == Residency(intervals, c, begin, end)
    ensures Residency(intervals, c, begin, end) <= end - begin
    ensures Residency(intervals, c, begin, end) == end - begin <==> forall t :: begin <= t < end ==> ResidentAt(events, c, t)
    ensures Residency(intervals, c, begin, end) == 0 <==> forall t :: begin <= t < end ==> !ResidentAt(events, c, t)
  {
    InstantsAdd(events, c, begin, middle, end);
    Extremes(events, c, begin, end);
  }

  lemma {:induction false} Extremes(events: seq<Event>, c: nat, begin: int, end: int)
    requires begin <= end
    ensures ResidentInstants(events, c, begin, end) == end - begin <==> forall t :: begin <= t < end ==> ResidentAt(events, c, t)
    ensures ResidentInstants(events, c, begin, end) == 0 <==> forall t :: begin <= t < end ==> !ResidentAt(events, c, t)
    decreases end - begin
  {
    hide ResidentAt;
    if begin < end {
      Extremes(events, c, begin, end - 1);
    }
  }
}
