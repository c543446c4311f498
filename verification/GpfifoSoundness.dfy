/** `resolve_ring` against the replaying machine: the commuting square of the
    ring's GPU address and its CPU address, and exactly when it holds. */
module GpfifoSoundness {
  import opened Results
  import opened EventLog
  import opened Kernel
  import opened LiveObjects
  import opened UserdMapping
  import opened MappingSoundness
  import opened GpfifoBinding
  import opened UvmLifetime

  // ----- Ring bytes under one UVM operation

  ghost predicate SameBytes(before: map<int, Backing>, after: map<int, Backing>, base: int, size: int) {
    forall a :: base <= a < base + size ==>
      (a in after <==> a in before) && (a in after ==> after[a] == before[a])
  }

  ghost predicate Absent(bytes: map<int, Backing>, base: int, size: int) {
    forall a :: base <= a < base + size ==> a !in bytes
  }

  /** An event the scan after the mapping lets pass, on the ring's own space. */
  predicate Passes(e: Event, fd: int, uuid: string, base: nat, size: nat) {
    && Succeeded(e) && OnUvmSpace(e.op) && e.op.fd == fd
    && !TouchesVaspace(e, fd, uuid)
    && !e.op.UvmUnreviewed?
    && (e.op.UvmUnmapExternal? || e.op.UvmOtherRange? || e.op.UvmMapExternal? || e.op.UvmCreateRange? ==>
          !Overlaps(base, size, e.op.base, e.op.length))
  }

  predicate FreesRange(e: Event, fd: int, host: int) {
    Succeeded(e) && e.op.UvmFree? && e.op.fd == fd && e.op.base == host
  }

  lemma MappedElsewhere(space: UvmSpace, op: Op, generation: nat, uuid: string, base: nat, size: nat)
    requires op.UvmMapExternal? && !Overlaps(base, size, op.base, op.length)
    ensures SameBytes(GpuBytes(space, uuid), GpuBytes(MapExternal(space, op, generation), uuid), base, size)
  {
  }

  lemma ClearedElsewhere(space: UvmSpace, b: int, length: nat, uuid: string, base: nat, size: nat)
    requires base + size <= b || b + length <= base || length == 0
    ensures SameBytes(GpuBytes(space, uuid), GpuBytes(ClearRange(space, b, length), uuid), base, size)
  {
  }

  /** Freeing any live range but the host leaves the hosted bytes alone. */
  lemma FreedElsewhere(space: UvmSpace, b: int, host: int, uuid: string, base: nat, size: nat)
    requires RangesApart(space) && HostedBy(space, host, base, size) && b != host
    ensures SameBytes(GpuBytes(space, uuid), GpuBytes(FreeRange(space, b), uuid), base, size)
    ensures HostedBy(FreeRange(space, b), host, base, size)
  {
    if b in space.ranges {
      ClearedElsewhere(space, b, space.ranges[b].length, uuid, base, size);
    }
  }

  lemma PassingStep(k: State, space: UvmSpace, e: Event, fd: int, uuid: string, host: int, base: nat, size: nat)
    requires Passes(e, fd, uuid, base, size) && 0 < size
    requires Lawful(k, e) && fd in k.spaces && k.spaces[fd] == space
    requires RangesApart(space) && HostedBy(space, host, base, size)
    requires !FreesRange(e, fd, host)
    ensures SameBytes(GpuBytes(space, uuid), GpuBytes(UvmStep(k, space, e.op), uuid), base, size)
    ensures HostedBy(UvmStep(k, space, e.op), host, base, size)
  {
    hide MapExternal, ClearRange, FreeRange, SameBytes;
    match e.op
    case UvmMapExternal(_, _, client, memory, _, _, _, _, _, _) =>
      MappedElsewhere(space, e.op, Generation(k, client, memory), uuid, base, size);
      RangesUnderMap(space, e.op, Generation(k, client, memory));
    case UvmFree(_, b) => FreedElsewhere(space, b, host, uuid, base, size);
    case UvmCreateRange(_, b, length) => CreatedElsewhere(space, b, length, true, host, uuid, base, size);
    case UvmOtherRange(_, b, length) => CreatedElsewhere(space, b, length, false, host, uuid, base, size);
    case UvmUnmapExternal(_, b, length, u) => UnmappedElsewhere(k, space, e.op, uuid, base, size);
    case _ => BytesUntouched(k, space, e, fd, uuid, base, size);
  }

  lemma RangesUnderMap(space: UvmSpace, op: Op, generation: nat)
    requires op.UvmMapExternal?
    ensures MapExternal(space, op, generation).ranges == space.ranges
  {
  }

  lemma CreatedElsewhere(space: UvmSpace, b: int, length: nat, external: bool, host: int,
                         uuid: string, base: nat, size: nat)
    requires HostedBy(space, host, base, size) && 0 < size && RangeFree(space, b, length) && 0 < length
    requires !Overlaps(base, size, b, length)
    ensures SameBytes(GpuBytes(space, uuid), GpuBytes(CreateRange(space, b, length, external), uuid), base, size)
    ensures HostedBy(CreateRange(space, b, length, external), host, base, size)
  {
    ClearedElsewhere(space, b, length, uuid, base, size);
  }

  lemma UnmappedElsewhere(k: State, space: UvmSpace, op: Op, uuid: string, base: nat, size: nat)
    requires op.UvmUnmapExternal? && !Overlaps(base, size, op.base, op.length)
    ensures SameBytes(GpuBytes(space, uuid), GpuBytes(UvmStep(k, space, op), uuid), base, size)
  {
  }

  lemma BytesUntouched(k: State, space: UvmSpace, e: Event, fd: int, uuid: string, base: nat, size: nat)
    requires e.op.UvmRegisterVaspace? || e.op.UvmUnregisterVaspace? || e.op.UvmRegisterChannel? || e.op.UvmUnregisterChannel?
    requires Passes(e, fd, uuid, base, size)
    ensures SameBytes(GpuBytes(space, uuid), GpuBytes(UvmStep(k, space, e.op), uuid), base, size)
    ensures UvmStep(k, space, e.op).ranges == space.ranges
  {
  }

  /** A passing event never brings lost ring bytes back. */
  lemma AbsentStep(k: State, space: UvmSpace, e: Event, fd: int, uuid: string, base: nat, size: nat)
    requires Passes(e, fd, uuid, base, size) && Absent(GpuBytes(space, uuid), base, size)
    ensures Absent(GpuBytes(UvmStep(k, space, e.op), uuid), base, size)
  {
    hide Generation, ClearRange, MapExternal, GpuBytes;
    match e.op
    case UvmMapExternal(_, _, client, memory, _, _, _, _, _, _) =>
      MappedElsewhere(space, e.op, Generation(k, client, memory), uuid, base, size);
    case UvmFree(_, b) =>
      if b in space.ranges {
        ClearedAbsent(space, b, space.ranges[b].length, space.ranges - {b}, uuid, base, size);
      }
    case UvmCreateRange(_, b, length) =>
      ClearedAbsent(space, b, length, space.ranges[b := Range(length, true)], uuid, base, size);
    case UvmOtherRange(_, b, length) =>
      ClearedAbsent(space, b, length, space.ranges[b := Range(length, false)], uuid, base, size);
    case UvmUnmapExternal(_, b, length, u) => UnmappedElsewhere(k, space, e.op, uuid, base, size);
    case _ => BytesUntouched(k, space, e, fd, uuid, base, size);
  }

  lemma ClearedAbsent(space: UvmSpace, b: int, length: nat, ranges: map<int, Range>, uuid: string, base: nat, size: nat)
    requires Absent(GpuBytes(space, uuid), base, size)
    ensures Absent(GpuBytes(ClearRange(space, b, length).(ranges := ranges), uuid), base, size)
  {
  }

  lemma HostFreeLosesBytes(space: UvmSpace, host: int, uuid: string, base: nat, size: nat)
    requires HostedBy(space, host, base, size)
    ensures Absent(GpuBytes(FreeRange(space, host), uuid), base, size)
  {
  }

  // ----- From the mapping to the end of the log

  ghost predicate FreesHost(events: seq<Event>, g: nat, n: nat, fd: int, host: int)
    requires n <= |events|
  {
    exists j :: g < j < n && FreesRange(events[j], fd, host)
  }

  /** The bytes a GPU sees at the ring's addresses are those of one generation
      of one Memory object, in order. */
  ghost predicate RingOf(space: UvmSpace, uuid: string, base: nat, size: nat, memory: Backing)
    requires memory.Rm?
  {
    ShowsMemory(GpuBytes(space, uuid), base, size, memory.client, memory.memory, memory.generation, memory.offset)
  }

  lemma RingStep(k: State, space: UvmSpace, e: Event, fd: int, uuid: string, host: int, base: nat, size: nat,
                 memory: Backing, freed: bool)
    requires Passes(e, fd, uuid, base, size) && 0 < size && memory.Rm?
    requires Lawful(k, e) && fd in k.spaces && k.spaces[fd] == space && RangesApart(space)
    requires if freed then Absent(GpuBytes(space, uuid), base, size)
             else HostedBy(space, host, base, size) && RingOf(space, uuid, base, size, memory)
    ensures var after := UvmStep(k, space, e.op);
            if freed || FreesRange(e, fd, host) then Absent(GpuBytes(after, uuid), base, size)
            else HostedBy(after, host, base, size) && RingOf(after, uuid, base, size, memory)
  {
    if freed {
      AbsentStep(k, space, e, fd, uuid, base, size);
    } else if FreesRange(e, fd, host) {
      HostFreeLosesBytes(space, host, uuid, base, size);
    } else {
      PassingStep(k, space, e, fd, uuid, host, base, size);
      hide UvmStep, GpuBytes;
    }
  }

  /** After the first `n` events the ring bytes are in place, or gone if the host was freed. */
  ghost predicate RingState(events: seq<Event>, n: nat, fd: int, uuid: string, host: int, base: nat, size: nat,
                            memory: Backing, freed: bool)
    requires n <= |events| && memory.Rm?
  {
    && fd in Replay(events, n).spaces
    && if freed then Absent(GpuBytes(SpaceAt(events, n, fd), uuid), base, size)
       else HostedBy(SpaceAt(events, n, fd), host, base, size) && RingOf(SpaceAt(events, n, fd), uuid, base, size, memory)
  }

  lemma {:induction false} RingSince(events: seq<Event>, i: nat, g: nat, n: nat, fd: int, live: set<int>, uuid: string,
                                     host: int, base: nat, size: nat, memory: Backing)
    requires WellFormed(events) && SpaceUndisturbed(events, i, fd, live) && i < g < n <= |events|
    requires 0 < size && memory.Rm?
    requires forall j :: g < j < |events| && Succeeded(events[j]) && OnUvmSpace(events[j].op) && events[j].op.fd == fd ==>
               Passes(events[j], fd, uuid, base, size)
    requires RingState(events, g + 1, fd, uuid, host, base, size, memory, false)
    ensures RingState(events, n, fd, uuid, host, base, size, memory, FreesHost(events, g, n, fd, host))
  {
    hide UvmStep, Lawful, Passes, HostedBy, RingOf, Absent, Step, GpuBytes, RangesApart, FreesRange, FreesHost,
         Replay, SpaceAt, SpaceUndisturbed;
    FreesHostGrows(events, g, n, fd, host);
    if n > g + 1 {
      RingSince(events, i, g, n - 1, fd, live, uuid, host, base, size, memory);
      SpaceMoves(events, i, n - 1, fd, live);
      RangesStayApart(events, i, n - 1, fd, live);
      SpaceIs(events, n - 1, fd);
      var k, e, space := Replay(events, n - 1), events[n - 1], SpaceAt(events, n - 1, fd);
      if Succeeded(e) && OnUvmSpace(e.op) && e.op.fd == fd {
        RingStep(k, space, e, fd, uuid, host, base, size, memory, FreesHost(events, g, n - 1, fd, host));
      } else {
        FreesNothing(e, fd, host);
      }
    }
  }

  lemma FreesNothing(e: Event, fd: int, host: int)
    requires !(Succeeded(e) && OnUvmSpace(e.op) && e.op.fd == fd)
    ensures !FreesRange(e, fd, host)
  {
  }

  lemma FreesHostGrows(events: seq<Event>, g: nat, n: nat, fd: int, host: int)
    requires g < n <= |events|
    ensures n == g + 1 ==> !FreesHost(events, g, n, fd, host)
    ensures n > g + 1 ==>
              (FreesHost(events, g, n, fd, host) <==>
                 FreesHost(events, g, n - 1, fd, host) || FreesRange(events[n - 1], fd, host))
  {
    hide FreesRange;
  }
}
