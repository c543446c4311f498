/** The backward search for a handle's birth agrees with the table of live
    objects kept by the replaying machine. */
module LiveObjects {
  import opened Results
  import opened EventLog
  import opened Kernel

  lemma {:induction false} LastAllocationIsLive(events: seq<Event>, n: nat, client: nat, handle: nat)
    requires Numbered(events) && n <= |events|
    ensures var live := Replay(events, n).objects;
            var last := LastAllocation(events, n, client, handle);
            && ((client, handle) in live <==>
                 last.Some? && forall j :: last.value < j < n ==> !Frees(events[j], client, handle))
            && ((client, handle) in live ==> live[(client, handle)] == events[last.value])
  {
    if n != 0 {
      LastAllocationIsLive(events, n - 1, client, handle);
      ObjectStep(Replay(events, n - 1), events[n - 1], client, handle);
    }
  }

  lemma ObjectStep(k: State, e: Event, client: nat, handle: nat)
    ensures var live := Step(k, e).objects;
            if Allocates(e, client, handle) then (client, handle) in live && live[(client, handle)] == e
            else if Frees(e, client, handle) then (client, handle) !in live
            else ((client, handle) in live <==> (client, handle) in k.objects) &&
                 ((client, handle) in live ==> live[(client, handle)] == k.objects[(client, handle)])
  {
  }

  /** `birth` returns exactly the live object, for every client, handle and log,
      up to its check that the allocation's encoding is known. */
  lemma BirthIsLiveObject(events: seq<Event>, client: nat, handle: nat, e: Event)
    requires Numbered(events)
    ensures var live := Replay(events, |events|).objects;
            Birth(events, client, handle) == Ok(e) <==>
              (client, handle) in live && live[(client, handle)] == e &&
              IsAllocation(e.op) && EncodingKnown(e.op)
  {
    hide Replay;
    LastAllocationIsLive(events, |events|, client, handle);
    var last := LastAllocation(events, |events|, client, handle);
    if last.Some? {
      var seqNo := events[last.value].seqNo;
      if FreedAfter(events, seqNo, client, handle) {
        var j :| 0 <= j < |events| && events[j].seqNo > seqNo && Frees(events[j], client, handle);
        assert last.value < j;
      } else {
        forall j | last.value < j < |events| ensures !Frees(events[j], client, handle) {
          assert events[j].seqNo > seqNo;
        }
      }
    }
  }

  /** A live last allocation was already the live object at every earlier point
      after it. */
  lemma LiveSinceBirth(events: seq<Event>, client: nat, handle: nat, e: Event, n: nat)
    requires Numbered(events) && Birth(events, client, handle) == Ok(e)
    requires e.seqNo <= n <= |events|
    ensures (client, handle) in Replay(events, n).objects
    ensures Replay(events, n).objects[(client, handle)] == e
  {
    LastAllocationIsLive(events, |events|, client, handle);
    LastAllocationIsLive(events, n, client, handle);
    BirthIsLiveObject(events, client, handle, e);
    var last := LastAllocation(events, |events|, client, handle);
    assert events[last.value] == e && e.seqNo == last.value + 1;
    assert Allocates(events[last.value], client, handle);
  }
}
