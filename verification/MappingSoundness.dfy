/** Soundness of `resolve_channel` against the replaying machine. */
module MappingSoundness {
  import opened Results
  import opened EventLog
  import opened Hardware
  import opened Kernel
  import opened LiveObjects
  import opened UserdMapping

  /** Every address in the range shows the matching byte of one generation of
      one Memory object. */
  ghost predicate ShowsMemory(cpu: map<int, Backing>, address: int, length: int,
                              client: nat, memory: nat, generation: nat, offset: int)
  {
    forall a :: address <= a < address + length ==>
      a in cpu && cpu[a] == Rm(client, memory, generation, offset + a - address)
  }

  // ----- From the RM map to its mmap

  lemma {:induction false} MmapFound(events: seq<Event>, s: nat, i: nat) returns (m: nat)
    requires Numbered(events) && s < |events| && events[s].op.MapMemory? && i <= |events|
    requires FirstMmap(events, events[s], i).Some?
    ensures s < m < |events| && i <= m
    ensures FirstMmap(events, events[s], i) == Some(events[m]) && MmapsFd(events[m], events[s].op.mapFd)
    ensures forall j :: i <= j < m && s < j ==> !EndsContext(events[j], events[s].op.mapFd)
    decreases |events| - i
  {
    var fd := events[s].op.mapFd;
    if events[i].seqNo > events[s].seqNo && MmapsFd(events[i], fd) {
      m := i;
    } else {
      m := MmapFound(events, s, i + 1);
    }
  }

  /** Nothing between the RM map and its mmap replaces the descriptor's context. */
  lemma {:induction false} ContextKept(events: seq<Event>, s: nat, m: nat)
    requires s < m <= |events| && events[s].op.MapMemory? && Succeeded(events[s])
    requires forall j :: s < j < m ==> !EndsContext(events[j], events[s].op.mapFd)
    ensures var op := events[s].op; var k := Replay(events, m);
            && op.mapFd in k.contexts
            && k.contexts[op.mapFd] ==
                 Context(op.client, op.memory, Generation(Replay(events, s), op.client, op.memory), op.offset, op.length)
  {
    if m > s + 1 {
      ContextKept(events, s, m - 1);
      assert !EndsContext(events[m - 1], events[s].op.mapFd);
    }
  }

  /** The mmap then shows the RM map's bytes of that Memory generation. */
  lemma MmapShowsContext(events: seq<Event>, s: nat, m: nat)
    requires s < m < |events| && events[s].op.MapMemory? && Succeeded(events[s])
    requires forall j :: s < j < m ==> !EndsContext(events[j], events[s].op.mapFd)
    requires MmapsFd(events[m], events[s].op.mapFd) && SameRequest(events[s], events[m])
    requires events[m].op.sig.path.Some?
    ensures var op := events[s].op;
            ShowsMemory(Replay(events, m + 1).cpu, events[m].op.address, op.length, op.client, op.memory,
                        Generation(Replay(events, s), op.client, op.memory), op.offset)
  {
    ContextKept(events, s, m);
    MmapStep(Replay(events, m), events[m]);
  }

  lemma MmapStep(k: State, e: Event)
    requires Succeeded(e) && e.op.Mmap? && e.op.sig.path.Some? && e.op.fd in k.contexts
    requires e.op.offset == 0 && e.op.length == k.contexts[e.op.fd].length
    ensures var c := k.contexts[e.op.fd];
            ShowsMemory(Step(k, e).cpu, e.op.address, e.op.length, c.client, c.memory, c.generation, c.offset)
  {
    forall a | e.op.address <= a < e.op.address + e.op.length
      ensures a in Step(k, e).cpu && Step(k, e).cpu[a] == ContextByte(k.contexts[e.op.fd], a - e.op.address)
    {
      assert MmapByte(k, e.op, a) == ContextByte(k.contexts[e.op.fd], a - e.op.address);
    }
  }

  // ----- From the mmap to the end of the log

  /** Addresses outside a call's pages keep what they show. */
  lemma PagesMissed(address: nat, length: nat, other: nat, otherLength: nat, a: int)
    requires address % PAGE == 0 && length % PAGE == 0 && address <= a < address + length
    requires other % PAGE == 0 && 0 < otherLength
    requires !Overlaps(address, length, other, otherLength)
    ensures !InPages(a, other, otherLength)
  {
    RawOverlapIsPageOverlap(address, length, other, otherLength);
  }

  /** A lawful event that the invalidation scan passes over leaves a mapped
      address as it is. */
  lemma UndisturbedAddress(k: State, e: Event, address: nat, length: nat, client: nat, memory: nat, a: int)
    requires address % PAGE == 0 && length % PAGE == 0 && address <= a < address + length
    requires Lawful(k, e) && Succeeded(e) && !Disturbs(e, client, memory, address, length)
    requires a in k.cpu && k.cpu[a].Rm? && k.cpu[a].client == client && k.cpu[a].memory == memory
    ensures a in CpuAfter(k, e.op) && CpuAfter(k, e.op)[a] == k.cpu[a]
  {
    match e.op
    case Munmap(b, n) => PagesMissed(address, length, b, n, a);
    case Mmap(_, _, b, n, _, _, _, fixed) =>
      if fixed {
        PagesMissed(address, length, b, n, a);
      }
      assert !InPages(a, b, n);
    case Mremap(b, n, c, m) =>
      if 0 < n {
        PagesMissed(address, length, b, n, a);
      }
      PagesMissed(address, length, c, m, a);
      assert !InPages(a, b, n) && !InPages(a, c, m);
    case _ =>
  }

  lemma UndisturbedByStep(k: State, e: Event, address: nat, length: nat,
                          client: nat, memory: nat, generation: nat, offset: int)
    requires address % PAGE == 0 && length % PAGE == 0
    requires Lawful(k, e) && !(Succeeded(e) && Disturbs(e, client, memory, address, length))
    requires ShowsMemory(k.cpu, address, length, client, memory, generation, offset)
    ensures ShowsMemory(Step(k, e).cpu, address, length, client, memory, generation, offset)
  {
    hide CpuAfter, Lawful, Disturbs;
    if Succeeded(e) {
      forall a | address <= a < address + length
        ensures a in Step(k, e).cpu && Step(k, e).cpu[a] == Rm(client, memory, generation, offset + a - address)
      {
        UndisturbedAddress(k, e, address, length, client, memory, a);
      }
    }
  }

  lemma {:induction false} UndisturbedSince(events: seq<Event>, m: nat, n: nat,
                                            client: nat, memory: nat, generation: nat, offset: int)
    requires WellFormed(events) && m < n <= |events| && events[m].op.Mmap?
    requires var mm := events[m].op; mm.address % PAGE == 0 && mm.length % PAGE == 0
    requires !Invalidated(events, events[m], client, memory, |events|)
    requires var mm := events[m].op;
             ShowsMemory(Replay(events, m + 1).cpu, mm.address, mm.length, client, memory, generation, offset)
    ensures var mm := events[m].op;
            ShowsMemory(Replay(events, n).cpu, mm.address, mm.length, client, memory, generation, offset)
  {
    if n > m + 1 {
      UndisturbedSince(events, m, n - 1, client, memory, generation, offset);
      assert events[n - 1].seqNo > events[m].seqNo;
      UndisturbedByStep(Replay(events, n - 1), events[n - 1], events[m].op.address, events[m].op.length,
                        client, memory, generation, offset);
    }
  }

  // ----- The theorem

  /** What `resolve_channel` found out, step by step: the RM map at index `s`,
      its mmap at index `m`, and how the binding was computed from them. */
  ghost predicate Evidence(events: seq<Event>, identity: Identity, layout: Layout, u: UserdBinding, s: nat, m: nat) {
    && IsAllocation(layout.memory.op)
    && s < m < |events| && u.rmMapSeq == s + 1 && u.mmapSeq == m + 1
    && MapsUserd(events[s], identity, layout)
    && (forall j :: s < j < m ==> !EndsContext(events[j], events[s].op.mapFd))
    && MmapsFd(events[m], events[s].op.mapFd) && SameRequest(events[s], events[m])
    && events[m].op.sig.path.Some?
    && !Invalidated(events, events[m], identity.hClient, events[s].op.memory, |events|)
    && u.memoryAllocSeq == layout.memory.seqNo && u.channelAllocSeq == layout.channel.seqNo
    && u.userdOffset == layout.offset
    && (layout.channel.op.Alloc? && layout.channel.op.params.Some? ==>
          u.gpfifoEntries == layout.channel.op.params.value.gpfifoEntries &&
          u.gpfifoVa == layout.channel.op.params.value.gpfifoVa)
    && u.userdCpuAddress == events[m].op.address + layout.offset - events[s].op.offset
  }

  lemma {:induction false} CandidateEvidence(events: seq<Event>, s: nat, identity: Identity, layout: Layout,
                                             vmas: seq<Vma>)
    returns (m: nat)
    requires Numbered(events) && s < |events|
    requires CandidateOf(events, events[s], identity, layout, vmas).Some?
    requires layout.channel.op.Alloc? && layout.channel.op.params.Some? && IsAllocation(layout.memory.op)
    ensures var c := CandidateOf(events, events[s], identity, layout, vmas).value;
            forall channel :: Evidence(events, identity, layout, BindingOf(channel, layout, c), s, m)
  {
    m := MmapFound(events, s, 0);
    var cpu := events[m].op.address + layout.offset - events[s].op.offset;
    var live := LiveVmas(vmas, events[m], cpu, USERD_BYTES);
    assert live[0] in live;
  }

  lemma {:induction false} AcceptedEvidence(events: seq<Event>, identity: Identity, channel: Channel,
                         memories: seq<MemoryRecord>, vmas: seq<Vma>)
    returns (layout: Layout, s: nat, m: nat)
    requires Numbered(events) && ResolveChannel(events, identity, channel, memories, vmas).Ok?
    ensures ChannelLayout(events, identity, channel, memories) == Ok(layout)
    ensures Evidence(events, identity, layout,
                     ResolveChannel(events, identity, channel, memories, vmas).value, s, m)
  {
    hide ChannelLayout, CandidateOf, Evidence;
    layout := ChannelLayout(events, identity, channel, memories).value;
    var candidates := Candidates(events, |events|, identity, layout, vmas);
    assert candidates[0] in candidates;
    s :| 0 <= s < |events| && CandidateOf(events, events[s], identity, layout, vmas) == Some(candidates[0]);
    m := CandidateEvidence(events, s, identity, layout, vmas);
  }

  /** The whole chosen mmap, not only the USERD block, still shows the Memory
      object at the end of the log. */
  lemma {:induction false} MappingIsLive(events: seq<Event>, identity: Identity, layout: Layout, u: UserdBinding,
                                         s: nat, m: nat)
    requires WellFormed(events) && Evidence(events, identity, layout, u, s, m)
    requires Birth(events, identity.hClient, layout.memory.op.handle) == Ok(layout.memory)
    ensures events[m].op.address % PAGE == 0 && events[m].op.length == events[s].op.length
    ensures ShowsMemory(Replay(events, |events|).cpu, events[m].op.address, events[m].op.length, identity.hClient,
                        layout.memory.op.handle, u.memoryAllocSeq, events[s].op.offset)
  {
    hide Birth, Invalidated;
    assert Lawful(Replay(events, m), events[m]);
    MmapShowsContext(events, s, m);
    var op := events[s].op;
    LiveSinceBirth(events, identity.hClient, op.memory, layout.memory, s);
    UndisturbedSince(events, m, |events|, op.client, op.memory, layout.memory.seqNo, op.offset);
  }

  predicate LiveAs(k: State, client: nat, handle: nat, seqNo: nat) {
    (client, handle) in k.objects && k.objects[(client, handle)].seqNo == seqNo
  }

  /** The channel the machine holds live under the owned handle is of the supported
      class, in the owned group, and carries what the binding reports of it: its
      first USERD handle names `memory`, its first USERD offset, its ring. */
  ghost predicate ChannelHolds(k: State, identity: Identity, channel: Channel, memory: nat, u: UserdBinding) {
    && LiveAs(k, identity.hClient, channel.handle, u.channelAllocSeq)
    && var op := k.objects[(identity.hClient, channel.handle)].op;
    && op.Alloc? && op.class_ == CHANNEL_CLASS && op.parent == identity.group.handle
    && op.params.Some?
    && var p := op.params.value;
    && |p.userdHandles| == |p.userdOffsets| > 0
    && p.userdHandles[0] == memory && p.userdOffsets[0] == u.userdOffset
    && p.gpfifoEntries == u.gpfifoEntries && p.gpfifoVa == u.gpfifoVa
  }

  /** The Memory object is live, a child of the owned device, older than the channel. */
  ghost predicate MemoryHolds(k: State, identity: Identity, memory: nat, u: UserdBinding) {
    && LiveAs(k, identity.hClient, memory, u.memoryAllocSeq)
    && IsAllocation(k.objects[(identity.hClient, memory)].op)
    && k.objects[(identity.hClient, memory)].op.parent == identity.device.handle
    && u.memoryAllocSeq < u.channelAllocSeq
  }

  predicate OwnersLive(k: State, identity: Identity) {
    forall handle :: handle in {identity.hClient, identity.device.handle, identity.subdevice.handle, identity.group.handle} ==>
      (identity.hClient, handle) in k.objects
  }

  /** The machine agrees with a reported binding: channel, Memory and owners are
      live as reported, and the 512 bytes at the reported, aligned address show
      the channel's own USERD block of that Memory. */
  ghost predicate BindingHolds(k: State, identity: Identity, channel: Channel, memory: nat, u: UserdBinding) {
    && ChannelHolds(k, identity, channel, memory, u)
    && MemoryHolds(k, identity, memory, u)
    && OwnersLive(k, identity)
    && ShowsMemory(k.cpu, u.userdCpuAddress, USERD_BYTES, identity.hClient, memory, u.memoryAllocSeq, u.userdOffset)
    && u.userdCpuAddress % USERD_BYTES == 0
  }

  /** What the layout checks established of the channel and its Memory. */
  ghost predicate LayoutFacts(identity: Identity, layout: Layout) {
    && layout.channel.op.Alloc? && layout.channel.op.params.Some? && IsAllocation(layout.memory.op)
    && layout.channel.op.class_ == CHANNEL_CLASS && layout.channel.op.parent == identity.group.handle
    && var p := layout.channel.op.params.value;
    && |p.userdHandles| == |p.userdOffsets| > 0
    && p.userdHandles[0] == layout.memory.op.handle && p.userdOffsets[0] == layout.offset
    && layout.memory.op.parent == identity.device.handle
    && layout.memory.seqNo < layout.channel.seqNo
  }

  lemma LayoutEstablishes(events: seq<Event>, identity: Identity, channel: Channel, memories: seq<MemoryRecord>, layout: Layout)
    requires ChannelLayout(events, identity, channel, memories) == Ok(layout)
    ensures LayoutFacts(identity, layout)
    ensures forall handle ::
              handle in {identity.hClient, identity.device.handle, identity.subdevice.handle, identity.group.handle} ==>
                Birth(events, identity.hClient, handle).Ok?
  {
    hide Birth, OwnedRecords;
  }

  lemma OwnersStayLive(events: seq<Event>, identity: Identity)
    requires Numbered(events)
    requires forall handle ::
               handle in {identity.hClient, identity.device.handle, identity.subdevice.handle, identity.group.handle} ==>
                 Birth(events, identity.hClient, handle).Ok?
    ensures OwnersLive(Replay(events, |events|), identity)
  {
    hide Birth, Replay;
    forall handle | handle in {identity.hClient, identity.device.handle, identity.subdevice.handle, identity.group.handle}
      ensures (identity.hClient, handle) in Replay(events, |events|).objects
    {
      BirthIsLiveObject(events, identity.hClient, handle, Birth(events, identity.hClient, handle).value);
    }
  }

  lemma EvidenceIndices(events: seq<Event>, identity: Identity, layout: Layout, u: UserdBinding, s: nat, m: nat)
    requires Evidence(events, identity, layout, u, s, m)
    ensures s < m < |events| && events[s].op.MapMemory? && events[m].op.Mmap?
    ensures u.memoryAllocSeq == layout.memory.seqNo && u.channelAllocSeq == layout.channel.seqNo
    ensures u.userdOffset == layout.offset
    ensures layout.channel.op.Alloc? && layout.channel.op.params.Some? ==>
              u.gpfifoEntries == layout.channel.op.params.value.gpfifoEntries &&
              u.gpfifoVa == layout.channel.op.params.value.gpfifoVa
  {
  }

  /** The USERD block lies inside the chosen mmap, aligned. */
  lemma BlockShown(events: seq<Event>, identity: Identity, layout: Layout, u: UserdBinding, s: nat, m: nat,
                   cpu: map<int, Backing>)
    requires Evidence(events, identity, layout, u, s, m) && layout.offset % USERD_BYTES == 0
    requires events[m].op.address % PAGE == 0 && events[m].op.length == events[s].op.length
    requires ShowsMemory(cpu, events[m].op.address, events[m].op.length, identity.hClient,
                         layout.memory.op.handle, u.memoryAllocSeq, events[s].op.offset)
    ensures ShowsMemory(cpu, u.userdCpuAddress, USERD_BYTES, identity.hClient,
                        layout.memory.op.handle, u.memoryAllocSeq, u.userdOffset)
    ensures u.userdCpuAddress % USERD_BYTES == 0
  {
    hide Invalidated, ShowsMemory;
    var d := layout.offset - events[s].op.offset;
    PartShown(cpu, events[m].op.address, events[m].op.length, identity.hClient, layout.memory.op.handle,
              u.memoryAllocSeq, events[s].op.offset, d, USERD_BYTES);
    AlignedBlock(events[m].op.address, layout.offset, events[s].op.offset);
  }

  lemma PartShown(cpu: map<int, Backing>, address: int, length: int, client: nat, memory: nat, generation: nat,
                  offset: int, d: nat, n: nat)
    requires ShowsMemory(cpu, address, length, client, memory, generation, offset) && d + n <= length
    ensures ShowsMemory(cpu, address + d, n, client, memory, generation, offset + d)
  {
  }

  lemma AlignedBlock(address: int, offset: int, base: int)
    requires address % PAGE == 0 && base % PAGE == 0 && offset % USERD_BYTES == 0
    ensures (address + offset - base) % USERD_BYTES == 0
  {
  }

  /** Whenever `resolve_channel` accepts, replaying the whole log leaves all 512
      bytes at the reported address showing the live channel's own USERD block of
      the still-live last allocation of the Memory its first USERD handle names. */
  lemma {:induction false} MappingIsSound(events: seq<Event>, identity: Identity, channel: Channel,
                                          memories: seq<MemoryRecord>, vmas: seq<Vma>, u: UserdBinding)
    requires WellFormed(events)
    requires ResolveChannel(events, identity, channel, memories, vmas) == Ok(u)
    ensures exists memory :: BindingHolds(Replay(events, |events|), identity, channel, memory, u)
  {
    hide ChannelLayout, ResolveChannel, Birth, Invalidated, Replay, ShowsMemory, Evidence, Lawful, OwnersLive;
    var layout, s, m := AcceptedEvidence(events, identity, channel, memories, vmas);
    var memory := layout.memory.op.handle;
    LayoutEstablishes(events, identity, channel, memories, layout);
    OwnersStayLive(events, identity);
    EvidenceIndices(events, identity, layout, u, s, m);
    MappingIsLive(events, identity, layout, u, s, m);
    BlockShown(events, identity, layout, u, s, m, Replay(events, |events|).cpu);
    BirthIsLiveObject(events, identity.hClient, channel.handle, layout.channel);
    BirthIsLiveObject(events, identity.hClient, memory, layout.memory);
    assert BindingHolds(Replay(events, |events|), identity, channel, memory, u);
  }
}
