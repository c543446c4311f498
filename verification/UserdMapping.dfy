/** `resolve_channel`: the join from an owned channel to the existing CPU
    mapping of its USERD block. */
module UserdMapping {
  import opened Results
  import opened EventLog
  import opened Hardware

  const CHANNEL_CLASS: nat := 0xc56f

  datatype Owned = Owned(handle: nat, generation: nat)

  datatype Identity = Identity(
    hClient: nat, clientGeneration: nat, uuid: string, group: Owned, device: Owned, subdevice: Owned)

  datatype Channel = Channel(handle: nat, class_: nat, generation: nat, parent: nat, parentGeneration: nat)

  datatype MemoryRecord = MemoryRecord(
    client: nat, handle: nat, clientGeneration: nat, generation: nat,
    parent: nat, parentGeneration: nat, class_: nat)

  datatype Vma = Vma(start: nat, end: nat, perms: string, fileOffset: nat, inode: nat, path: string)

  datatype UserdBinding = UserdBinding(
    channelGeneration: nat, memoryGeneration: nat, channelAllocSeq: nat, memoryAllocSeq: nat,
    rmMapSeq: nat, mmapSeq: nat, userdOffset: nat, mappingBytes: nat,
    gpfifoEntries: nat, userdCpuAddress: int, gpfifoVa: nat)

  /** The owned channel and the live Memory generation its USERD lies in. */
  datatype Layout = Layout(channel: Event, memory: Event, offset: nat, record: MemoryRecord)

  datatype Candidate = Candidate(setup: Event, mapping: Event, cpu: int)

  predicate OnlyFirst(handles: seq<nat>) {
    |handles| > 0 && handles[0] != 0 && forall i :: 1 <= i < |handles| ==> handles[i] == 0
  }

  function OwnedRecords(memories: seq<MemoryRecord>, client: nat, memory: nat): (r: seq<MemoryRecord>)
    ensures forall m :: m in r <==> m in memories && m.client == client && m.handle == memory
  {
    if memories == [] then []
    else
      var rest := OwnedRecords(memories[1..], client, memory);
      if memories[0].client == client && memories[0].handle == memory then [memories[0]] + rest else rest
  }

  /** The channel's own allocation, with its payload and a single USERD handle. */
  function OwnedChannel(events: seq<Event>, identity: Identity, channel: Channel): (r: Result<Event>)
    ensures r.Ok? ==>
              && r.value.op.Alloc? && r.value.op.params.Some? && OnlyFirst(r.value.op.params.value.userdHandles)
              && |r.value.op.params.value.userdHandles| == |r.value.op.params.value.userdOffsets|
              && Birth(events, identity.hClient, channel.handle) == Ok(r.value)
  {
    var client := identity.hClient;
    :- Need(channel.class_ == CHANNEL_CLASS && channel.generation > 0, "channel_class_or_generation");
    :- Need(channel.parent == identity.group.handle && channel.parentGeneration == identity.group.generation,
            "channel_parent_generation");
    var ca :- Birth(events, client, channel.handle);
    :- Need(ca.op.class_ == CHANNEL_CLASS && ca.op.parent == channel.parent, "channel_allocation_binding");
    :- Need(ca.op.Alloc? && ca.op.params.Some? &&
            |ca.op.params.value.userdHandles| == |ca.op.params.value.userdOffsets|, "channel_payload_missing");
    :- Need(OnlyFirst(ca.op.params.value.userdHandles), "ambiguous_userd_subdevice");
    Ok(ca)
  }

  datatype OwnedMemory = OwnedMemory(birth: Event, record: MemoryRecord)

  /** The one record of the Memory object, with its allocation before the channel's. */
  function ResolveMemory(events: seq<Event>, identity: Identity, memories: seq<MemoryRecord>, memory: nat, before: nat)
    : (r: Result<OwnedMemory>)
    ensures r.Ok? ==>
              && IsAllocation(r.value.birth.op) && r.value.birth.op.handle == memory && r.value.birth.seqNo < before
              && Birth(events, identity.hClient, memory) == Ok(r.value.birth)
  {
    var records := OwnedRecords(memories, identity.hClient, memory);
    :- Need(|records| == 1, "owned_memory_record_missing_or_ambiguous");
    var m := records[0];
    :- Need(m.clientGeneration == identity.clientGeneration && m.generation > 0 &&
            m.parent == identity.device.handle && m.parentGeneration == identity.device.generation,
            "memory_owner_generation_or_device");
    var ma :- Birth(events, identity.hClient, memory);
    :- Need(ma.op.class_ == m.class_ && ma.op.parent == m.parent && ma.seqNo < before,
            "memory_reallocated_or_wrong_class");
    Ok(OwnedMemory(ma, m))
  }

  /** The handles above the channel still name live objects. */
  function OwnerBirths(events: seq<Event>, identity: Identity): Result<Event> {
    var client := identity.hClient;
    var _ :- Birth(events, client, client);
    var _ :- Birth(events, client, identity.device.handle);
    var _ :- Birth(events, client, identity.subdevice.handle);
    Birth(events, client, identity.group.handle)
  }

  function ChannelLayout(events: seq<Event>, identity: Identity, channel: Channel, memories: seq<MemoryRecord>)
    : (r: Result<Layout>)
    ensures r.Ok? ==>
              && r.value.channel.op.Alloc? && r.value.channel.op.params.Some?
              && Birth(events, identity.hClient, channel.handle) == Ok(r.value.channel)
              && IsAllocation(r.value.memory.op)
              && Birth(events, identity.hClient, r.value.memory.op.handle) == Ok(r.value.memory)
              && r.value.memory.seqNo < r.value.channel.seqNo
              && r.value.offset % USERD_BYTES == 0
              && |r.value.channel.op.params.value.userdHandles| > 0
              && r.value.channel.op.params.value.userdHandles[0] == r.value.memory.op.handle
  {
    var ca :- OwnedChannel(events, identity, channel);
    var p := ca.op.params.value;
    var owned :- ResolveMemory(events, identity, memories, p.userdHandles[0], ca.seqNo);
    var _ :- OwnerBirths(events, identity);
    :- Need(p.userdOffsets[0] % USERD_BYTES == 0 && p.gpfifoEntries > 0, "invalid_channel_layout");
    Ok(Layout(ca, owned.birth, p.userdOffsets[0], owned.record))
  }

  /** Complete, page-aligned, readable mappings of the Memory object that hold
      the whole USERD block. */
  predicate MapsUserd(e: Event, identity: Identity, layout: Layout) {
    && e.op.MapMemory?
    && Succeeded(e)
    && e.op.client == identity.hClient
    && IsAllocation(layout.memory.op)
    && e.op.memory == layout.memory.op.handle
    && e.seqNo > layout.memory.seqNo
    && e.op.device in {identity.device.handle, identity.subdevice.handle}
    && e.op.offset % PAGE == 0 && e.op.length % PAGE == 0 && e.op.flags % 4 in {0, 1}
    && e.op.offset <= layout.offset
    && layout.offset + USERD_BYTES <= e.op.offset + e.op.length
  }

  /** The descriptor no longer carries the RM mmap context of `setup`. */
  predicate EndsContext(e: Event, mapFd: int) {
    || (e.op.Close? && e.op.fd == mapFd)
    || ((e.op.MapMemory? || e.op.AllocMemory?) && e.op.mapFd == mapFd && Succeeded(e))
  }

  predicate MmapsFd(e: Event, mapFd: int) {
    e.op.Mmap? && e.op.fd == mapFd
  }

  /** The first mmap of the setup's descriptor from index `i` on that still
      carries its context. */
  function FirstMmap(events: seq<Event>, setup: Event, i: nat): (mm: Option<Event>)
    requires setup.op.MapMemory? && i <= |events|
    ensures mm.Some? ==> mm.value in events && MmapsFd(mm.value, setup.op.mapFd)
    decreases |events| - i
  {
    if i == |events| then None
    else if events[i].seqNo <= setup.seqNo then FirstMmap(events, setup, i + 1)
    else if EndsContext(events[i], setup.op.mapFd) then None
    else if MmapsFd(events[i], setup.op.mapFd) then Some(events[i])
    else FirstMmap(events, setup, i + 1)
  }

  predicate SameRequest(setup: Event, mm: Event)
    requires setup.op.MapMemory? && mm.op.Mmap?
  {
    && Succeeded(mm)
    && mm.op.sig == setup.op.mapSig
    && mm.tid == setup.tid
    && mm.op.offset == 0
    && mm.op.length == setup.op.length
    && mm.op.readable
    && mm.op.shared
  }

  /** A later successful call that may have changed the mapped range. */
  predicate Disturbs(e: Event, client: nat, memory: nat, address: nat, length: nat) {
    match e.op
    case UnmapMemory(c, m) => c == client && m == memory
    case Munmap(a, n) => Overlaps(address, length, a, n)
    case Mmap(_, _, a, n, _, _, _, fixed) => fixed && Overlaps(address, length, a, n)
    case Mremap(a, n, b, m) => Overlaps(address, length, a, n) || Overlaps(address, length, b, m)
    case _ => false
  }

  predicate Invalidated(events: seq<Event>, mm: Event, client: nat, memory: nat, n: nat)
    requires mm.op.Mmap? && n <= |events|
  {
    exists i :: 0 <= i < n && events[i].seqNo > mm.seqNo && Succeeded(events[i]) &&
                Disturbs(events[i], client, memory, mm.op.address, mm.op.length)
  }

  predicate ShowsUserd(v: Vma, mm: Event, cpu: int, bytes: nat)
    requires mm.op.Mmap?
  {
    && v.start <= cpu && cpu + bytes <= v.end
    && |v.perms| > 0 && v.perms[0] == 'r' && v.perms[|v.perms| - 1] == 's'
    && mm.op.sig.path == Some(v.path)
    && v.inode == mm.op.sig.ino
    && v.fileOffset + cpu - v.start == cpu - mm.op.address
  }

  function LiveVmas(vmas: seq<Vma>, mm: Event, cpu: int, bytes: nat): (r: seq<Vma>)
    requires mm.op.Mmap?
    ensures forall v :: v in r <==> v in vmas && ShowsUserd(v, mm, cpu, bytes)
  {
    if vmas == [] then []
    else
      var rest := LiveVmas(vmas[1..], mm, cpu, bytes);
      if ShowsUserd(vmas[0], mm, cpu, bytes) then [vmas[0]] + rest else rest
  }

  /** The candidate that one RM map event gives rise to, if it survives. */
  function CandidateOf(events: seq<Event>, setup: Event, identity: Identity, layout: Layout, vmas: seq<Vma>)
    : (c: Option<Candidate>)
    ensures c.Some? ==> c.value.setup == setup && setup.op.MapMemory? && c.value.mapping.op.Mmap?
  {
    if !MapsUserd(setup, identity, layout) then None
    else
      var found := FirstMmap(events, setup, 0);
      if found.None? || !SameRequest(setup, found.value) then None
      else
        var mm := found.value;
        if Invalidated(events, mm, identity.hClient, setup.op.memory, |events|) then None
        else
          var cpu := mm.op.address + layout.offset - setup.op.offset;
          if |LiveVmas(vmas, mm, cpu, USERD_BYTES)| == 1 then Some(Candidate(setup, mm, cpu)) else None
  }

  function Candidates(events: seq<Event>, n: nat, identity: Identity, layout: Layout, vmas: seq<Vma>)
    : (r: seq<Candidate>)
    requires n <= |events|
    ensures forall c :: c in r ==>
              exists i :: 0 <= i < n && CandidateOf(events, events[i], identity, layout, vmas) == Some(c)
  {
    if n == 0 then []
    else
      var before := Candidates(events, n - 1, identity, layout, vmas);
      var c := CandidateOf(events, events[n - 1], identity, layout, vmas);
      if c.Some? then before + [c.value] else before
  }

  function BindingOf(channel: Channel, layout: Layout, c: Candidate): UserdBinding
    requires layout.channel.op.Alloc? && layout.channel.op.params.Some?
    requires c.mapping.op.Mmap?
  {
    var p := layout.channel.op.params.value;
    UserdBinding(channel.generation, layout.record.generation, layout.channel.seqNo, layout.memory.seqNo,
                 c.setup.seqNo, c.mapping.seqNo, layout.offset, c.mapping.op.length,
                 p.gpfifoEntries, c.cpu, p.gpfifoVa)
  }

  function ResolveChannel(events: seq<Event>, identity: Identity, channel: Channel,
                          memories: seq<MemoryRecord>, vmas: seq<Vma>): Result<UserdBinding>
  {
    var layout :- ChannelLayout(events, identity, channel, memories);
    var candidates := Candidates(events, |events|, identity, layout, vmas);
    :- Need(|candidates| == 1, "mapping_missing_stale_or_ambiguous");
    var c := candidates[0];
    assert c in candidates;
    Ok(BindingOf(channel, layout, c))
  }

  // ----- The scan as the analyzer runs it

  method FindMmap(events: seq<Event>, setup: Event) returns (mm: Option<Event>)
    requires setup.op.MapMemory?
    ensures mm == FirstMmap(events, setup, 0)
  {
    mm := None;
    for i := 0 to |events|
      invariant mm.None? && FirstMmap(events, setup, 0) == FirstMmap(events, setup, i)
    {
      var e := events[i];
      if e.seqNo <= setup.seqNo {
        continue;
      }
      if e.op.Close? && e.op.fd == setup.op.mapFd {
        break;
      }
      if (e.op.MapMemory? || e.op.AllocMemory?) && e.op.mapFd == setup.op.mapFd && Succeeded(e) {
        break;
      }
      if e.op.Mmap? && e.op.fd == setup.op.mapFd {
        mm := Some(e);
        break;
      }
    }
  }

  method ScanInvalidations(events: seq<Event>, mm: Event, client: nat, memory: nat) returns (invalid: bool)
    requires mm.op.Mmap?
    ensures invalid == Invalidated(events, mm, client, memory, |events|)
  {
    invalid := false;
    for i := 0 to |events|
      invariant invalid == Invalidated(events, mm, client, memory, i)
    {
      var e := events[i];
      if e.seqNo <= mm.seqNo || !Succeeded(e) {
        continue;
      }
      if e.op.UnmapMemory? && e.op.client == client && e.op.memory == memory {
        invalid := true;
      }
      if e.op.Munmap? || (e.op.Mmap? && e.op.fixed) {
        invalid := invalid || Overlaps(mm.op.address, mm.op.length, e.op.address, e.op.length);
      }
      if e.op.Mremap? {
        invalid := invalid || Overlaps(mm.op.address, mm.op.length, e.op.address, e.op.length);
        invalid := invalid || Overlaps(mm.op.address, mm.op.length, e.op.newAddress, e.op.newLength);
      }
    }
  }

  method CollectCandidates(events: seq<Event>, identity: Identity, layout: Layout, vmas: seq<Vma>)
    returns (candidates: seq<Candidate>)
    ensures candidates == Candidates(events, |events|, identity, layout, vmas)
  {
    candidates := [];
    for i := 0 to |events|
      invariant candidates == Candidates(events, i, identity, layout, vmas)
    {
      var setup := events[i];
      if !MapsUserd(setup, identity, layout) {
        continue;
      }
      var mm := FindMmap(events, setup);
      if mm.None? || !SameRequest(setup, mm.value) {
        continue;
      }
      var invalid := ScanInvalidations(events, mm.value, identity.hClient, setup.op.memory);
      if invalid {
        continue;
      }
      var cpu := mm.value.op.address + layout.offset - setup.op.offset;
      var live := LiveVmas(vmas, mm.value, cpu, USERD_BYTES);
      if |live| == 1 {
        candidates := candidates + [Candidate(setup, mm.value, cpu)];
      }
    }
  }
}
