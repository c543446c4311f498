/** The passive observer's decoded event log, and the queries both mapping
    analyzers put to it. */
module EventLog {
  import opened Results

  const PAGE: nat := 4096

  datatype FdSignature = FdSignature(dev: nat, ino: nat, rdev: nat, path: Option<string>)

  /** Payload logged only for a successful channel allocation. */
  datatype ChannelParams = ChannelParams(
    userdHandles: seq<nat>, userdOffsets: seq<nat>,
    gpfifoVa: nat, gpfifoEntries: nat, vaspace: nat, contextShare: nat)

  datatype GpuAttribute = GpuAttribute(uuid: string, mappingType: nat)

  datatype Op =
    | Alloc(fd: int, sig: FdSignature, client: nat, handle: nat, parent: nat, class_: nat, flags: nat,
            params: Option<ChannelParams>, ctxshareVaspace: nat)
    | AllocMemory(client: nat, handle: nat, parent: nat, class_: nat, flags: nat, limit: nat, mapFd: int)
    | Free(client: nat, handle: nat)
    | MapMemory(client: nat, device: nat, memory: nat, offset: nat, length: nat, flags: nat,
                mapFd: int, mapSig: FdSignature)
    | UnmapMemory(client: nat, memory: nat)
    | Mmap(fd: int, sig: FdSignature, address: nat, length: nat, offset: nat,
           readable: bool, shared: bool, fixed: bool)
    | Munmap(address: nat, length: nat)
    | Mremap(address: nat, length: nat, newAddress: nat, newLength: nat)
    | Close(fd: int)
    | UvmInitialize(fd: int, sig: FdSignature, flags: nat)
    | UvmMmInitialize(fd: int, uvmFd: int)
    | UvmRegisterVaspace(fd: int, sig: FdSignature, client: nat, vaspace: nat,
                         rmFd: int, rmSig: FdSignature, uuid: string)
    | UvmUnregisterVaspace(fd: int, uuid: string)
    | UvmRegisterChannel(fd: int, sig: FdSignature, client: nat, channel: nat,
                         rmFd: int, rmSig: FdSignature, uuid: string)
    | UvmUnregisterChannel(fd: int, client: nat, channel: nat)
    | UvmMapExternal(fd: int, sig: FdSignature, client: nat, memory: nat, rmFd: int, rmSig: FdSignature,
                     base: nat, length: nat, offset: nat, attributes: seq<GpuAttribute>)
    | UvmUnmapExternal(fd: int, base: nat, length: nat, uuid: string)
    | UvmFree(fd: int, base: nat)
    | UvmCreateRange(fd: int, base: nat, length: nat)
    | UvmOtherRange(fd: int, base: nat, length: nat)
    | UvmUnreviewed(fd: int)
    | Other

  /** `rc` and `status` are 0 where the log row carries none. */
  datatype Event = Event(seqNo: nat, tid: nat, rc: int, status: int, op: Op)

  predicate Succeeded(e: Event) {
    e.rc == 0 && e.status == 0
  }

  /** What `read_observations` demands of a capture without lost rows. */
  predicate Numbered(events: seq<Event>) {
    forall i :: 0 <= i < |events| ==> events[i].seqNo == i + 1
  }

  predicate IsAllocation(op: Op) {
    op.Alloc? || op.AllocMemory?
  }

  /** A root object is allocated under client 0 and is then its own client. */
  predicate Allocates(e: Event, client: nat, handle: nat) {
    && Succeeded(e)
    && IsAllocation(e.op)
    && e.op.handle == handle
    && (e.op.client == client || (handle == client && e.op.client == 0))
  }

  predicate Frees(e: Event, client: nat, handle: nat) {
    Succeeded(e) && e.op.Free? && e.op.client == client && e.op.handle == handle
  }

  /** Index of the last of the first `n` events that allocates the handle. */
  function LastAllocation(events: seq<Event>, n: nat, client: nat, handle: nat): (i: Option<nat>)
    requires n <= |events|
    ensures i.Some? ==> i.value < n && Allocates(events[i.value], client, handle)
    ensures forall j :: (if i.Some? then i.value + 1 else 0) <= j < n ==> !Allocates(events[j], client, handle)
  {
    if n == 0 then None
    else if Allocates(events[n - 1], client, handle) then Some(n - 1)
    else LastAllocation(events, n - 1, client, handle)
  }

  predicate EncodingKnown(op: Op)
    requires IsAllocation(op)
  {
    op.AllocMemory? || op.flags == 0
  }

  predicate FreedAfter(events: seq<Event>, seqNo: nat, client: nat, handle: nat) {
    exists i :: 0 <= i < |events| && events[i].seqNo > seqNo && Frees(events[i], client, handle)
  }

  function Birth(events: seq<Event>, client: nat, handle: nat): Result<Event> {
    var last := LastAllocation(events, |events|, client, handle);
    :- Need(last.Some?, "owned_allocation_missing");
    var e := events[last.value];
    :- Need(EncodingKnown(e.op), "unknown_allocation_encoding");
    :- Need(!FreedAfter(events, e.seqNo, client, handle), "object_freed");
    Ok(e)
  }

  predicate Overlaps(start: int, size: int, other: int, otherSize: int) {
    start < other + otherSize && other < start + size
  }

  function PageUp(n: nat): (r: nat)
    ensures n <= r < n + PAGE && r % PAGE == 0
  {
    (n + PAGE - 1) / PAGE * PAGE
  }

  /** The whole-page range a call with a byte length really touches. */
  predicate InPages(a: int, start: int, length: nat) {
    start <= a < start + PageUp(length)
  }

  /** Comparing raw byte lengths misses no page-rounded unmap of a page-aligned
      mapping, and reports none that shares no byte with it. */
  lemma RawOverlapIsPageOverlap(start: int, size: nat, other: int, otherSize: nat)
    requires start % PAGE == 0 && size % PAGE == 0 && 0 < size
    requires other % PAGE == 0 && 0 < otherSize
    ensures Overlaps(start, size, other, otherSize)
       <==> exists a :: start <= a < start + size && InPages(a, other, otherSize)
  {
    var up := PageUp(otherSize);
    if Overlaps(start, size, other, otherSize) {
      var a := if start < other then other else start;
      assert start <= a < start + size && InPages(a, other, otherSize);
    }
    if a :| start <= a < start + size && InPages(a, other, otherSize) {
      AlignedBelow(start, other + up);
      assert start < other + otherSize by {
        assert start + PAGE <= other + up;
      }
    }
  }

  lemma AlignedBelow(x: int, y: int)
    requires x % PAGE == 0 && y % PAGE == 0 && x < y
    ensures x + PAGE <= y
  {
  }
}
