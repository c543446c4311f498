/** The ring's commuting square: the GPU address of every ring byte and its CPU
    address lead to the same byte of the same Memory allocation, exactly when no
    later call freed the UVM range that hosts the mapping. */
module RingSquare {
  import opened Results
  import opened EventLog
  import opened Hardware
  import opened Kernel
  import opened LiveObjects
  import opened UserdMapping
  import opened MappingSoundness
  import opened GpfifoBinding
  import opened UvmLifetime
  import opened GpfifoSoundness

  lemma InLog(events: seq<Event>, e: Event)
    requires Numbered(events) && e in events
    ensures 0 < e.seqNo <= |events| && events[e.seqNo - 1] == e
  {
  }

  // ----- What each stage of the join established, by position in the log

  /** The space: initialized at index `i`, undisturbed since. */
  ghost predicate SpaceEvidence(events: seq<Event>, uvm: UvmBinding, i: nat) {
    && uvm.register.op.UvmRegisterVaspace? && uvm.mm.op.UvmMmInitialize? && uvm.init.seqNo == i + 1
    && SpaceUndisturbed(events, i, uvm.register.op.fd, LiveFds(uvm))
  }

  /** The owned VA space registered at index `r`, and its registration untouched since. */
  ghost predicate VaspaceEvidence(events: seq<Event>, identity: Identity, owned: OwnedVaspace, uvm: UvmBinding, r: nat) {
    && IsAllocation(owned.vaspace.op) && uvm.register.op.UvmRegisterVaspace? && uvm.register.seqNo == r + 1
    && r < |events| && events[r] == uvm.register && Succeeded(uvm.register)
    && uvm.register.op.client == identity.hClient && uvm.register.op.vaspace == owned.vaspace.op.handle
    && uvm.register.op.uuid == identity.uuid && owned.vaspace.seqNo <= r
    && forall j :: r < j < |events| ==> !TouchesVaspace(events[j], uvm.register.op.fd, identity.uuid)
  }

  /** The owned channel registered at index `c` on the same descriptor, and never unregistered. */
  ghost predicate ChannelEvidence(events: seq<Event>, identity: Identity, owned: OwnedVaspace, uvm: UvmBinding, c: nat) {
    && owned.channel.op.Alloc? && uvm.register.op.UvmRegisterVaspace? && uvm.channel.op.UvmRegisterChannel?
    && c < |events| && events[c] == uvm.channel && Succeeded(uvm.channel)
    && uvm.channel.op.client == identity.hClient && uvm.channel.op.channel == owned.channel.op.handle
    && uvm.channel.op.uuid == identity.uuid && uvm.channel.op.fd == uvm.register.op.fd && owned.channel.seqNo <= c
    && forall j :: c < j < |events| ==>
         !UnregistersIn(events[j], uvm.register.op.fd, identity.hClient, owned.channel.op.handle)
  }

  ghost predicate UvmEvidence(events: seq<Event>, identity: Identity, owned: OwnedVaspace, uvm: UvmBinding,
                              i: nat, r: nat, c: nat)
  {
    && i < r && i < c
    && SpaceEvidence(events, uvm, i)
    && VaspaceEvidence(events, identity, owned, uvm, r)
    && ChannelEvidence(events, identity, owned, uvm, c)
  }

  /** The chain of requirements in `ResolveUvm`, passed. */
  ghost predicate UvmResolved(events: seq<Event>, identity: Identity, owned: OwnedVaspace, uvm: UvmBinding) {
    var client, uuid := identity.hClient, identity.uuid;
    && owned.channel.op.Alloc? && IsAllocation(owned.vaspace.op)
    && uvm.register.op.UvmRegisterVaspace? && uvm.init.op.UvmInitialize?
    && uvm.mm.op.UvmMmInitialize? && uvm.channel.op.UvmRegisterChannel?
    && var fd := uvm.register.op.fd;
    && Picked(events, Registrations(client, owned.vaspace.op.handle, uuid, owned.vaspace.seqNo), uvm.register)
    && Picked(events, Initializations(fd, uvm.register.seqNo), uvm.init)
    && Picked(events, MmInitializations(fd, uvm.init.seqNo), uvm.mm)
    && Picked(events, ChannelRegistrations(client, owned.channel.op.handle, uuid, fd, owned.channel.seqNo), uvm.channel)
    && !ClosedAfter(events, uvm.init.seqNo, LiveFds(uvm))
    && !VaspaceChangedAfter(events, uvm.register.seqNo, fd, uuid)
    && !ChannelUnregisteredAfter(events, uvm.channel.seqNo, client, owned.channel.op.handle)
  }

  /** `e` is the one event of the log that the query selects. */
  ghost predicate Picked(events: seq<Event>, q: Query, e: Event) {
    e in events && Selects(q, e) && forall x :: x in events && Selects(q, x) ==> x == e
  }

  lemma PickedOnly(events: seq<Event>, q: Query, reason: string)
    requires TheOnly(events, q, reason).Ok?
    ensures Picked(events, q, TheOnly(events, q, reason).value)
  {
  }

  lemma UvmChain(events: seq<Event>, identity: Identity, owned: OwnedVaspace, uvm: UvmBinding)
    requires owned.channel.op.Alloc? && IsAllocation(owned.vaspace.op)
    requires ResolveUvm(events, identity, owned) == Ok(uvm)
    ensures UvmResolved(events, identity, owned, uvm)
  {
    hide TheOnly, Picked, ClosedAfter, VaspaceChangedAfter, ChannelUnregisteredAfter, Selects;
    UvmKinds(events, identity, owned, uvm);
    PickedOnly(events, Registrations(identity.hClient, owned.vaspace.op.handle, identity.uuid, owned.vaspace.seqNo),
               "uvm_vaspace_registration_missing_or_ambiguous");
    PickedOnly(events, Initializations(uvm.register.op.fd, uvm.register.seqNo), "uvm_owned_single_process_fd_required");
    PickedOnly(events, MmInitializations(uvm.register.op.fd, uvm.init.seqNo), "uvm_mm_lifetime_binding_missing");
    PickedOnly(events, ChannelRegistrations(identity.hClient, owned.channel.op.handle, identity.uuid,
                                            uvm.register.op.fd, owned.channel.seqNo),
               "channel_not_bound_to_uvm_vaspace");
  }

  lemma UvmKinds(events: seq<Event>, identity: Identity, owned: OwnedVaspace, uvm: UvmBinding)
    requires owned.channel.op.Alloc? && IsAllocation(owned.vaspace.op)
    requires ResolveUvm(events, identity, owned) == Ok(uvm)
    ensures uvm.register.op.UvmRegisterVaspace? && uvm.init.op.UvmInitialize?
    ensures uvm.mm.op.UvmMmInitialize? && uvm.channel.op.UvmRegisterChannel?
  {
  }

  lemma SpaceFromInit(events: seq<Event>, i: nat, fd: int, live: set<int>, mm: Event, registered: nat)
    requires Numbered(events) && i < |events| && Initializes(events[i], fd) && i + 1 < registered
    requires forall e :: e in events && Selects(Initializations(fd, registered), e) ==> e == events[i]
    requires forall e :: e in events && Selects(MmInitializations(fd, i + 1), e) ==> e == mm
    requires mm.op.UvmMmInitialize? && live == if mm.status == 0 then {fd, mm.op.fd} else {fd}
    requires !ClosedAfter(events, i + 1, live)
    ensures SpaceUndisturbed(events, i, fd, live)
  {
    forall j | 0 <= j < i ensures !Initializes(events[j], fd) {
      assert events[j] in events;
    }
    forall j | i < j < |events| ensures !EndsSpace(events[j], fd, live) {
      assert events[j] in events && events[j].seqNo > i + 1;
    }
  }

  lemma SpaceStage(events: seq<Event>, identity: Identity, owned: OwnedVaspace, uvm: UvmBinding) returns (i: nat)
    requires Numbered(events) && UvmResolved(events, identity, owned, uvm)
    ensures SpaceEvidence(events, uvm, i) && i + 1 < uvm.register.seqNo
    ensures i < |events| && Initializes(events[i], uvm.register.op.fd)
    ensures forall j :: 0 <= j < i ==> !Initializes(events[j], uvm.register.op.fd)
  {
    hide ClosedAfter, VaspaceChangedAfter, ChannelUnregisteredAfter;
    i := uvm.init.seqNo - 1;
    InLog(events, uvm.init);
    SpaceFromInit(events, i, uvm.register.op.fd, LiveFds(uvm), uvm.mm, uvm.register.seqNo);
  }

  lemma VaspaceStage(events: seq<Event>, identity: Identity, owned: OwnedVaspace, uvm: UvmBinding) returns (r: nat)
    requires Numbered(events) && UvmResolved(events, identity, owned, uvm)
    ensures VaspaceEvidence(events, identity, owned, uvm, r)
  {
    hide ClosedAfter, VaspaceChangedAfter, ChannelUnregisteredAfter, TouchesVaspace;
    r := uvm.register.seqNo - 1;
    InLog(events, uvm.register);
    StillRegistered(events, r, uvm.register.op.fd, identity.uuid);
  }

  lemma ChannelStage(events: seq<Event>, identity: Identity, owned: OwnedVaspace, uvm: UvmBinding) returns (c: nat)
    requires Numbered(events) && UvmResolved(events, identity, owned, uvm)
    ensures ChannelEvidence(events, identity, owned, uvm, c)
  {
    hide ClosedAfter, VaspaceChangedAfter, ChannelUnregisteredAfter, UnregistersIn;
    c := uvm.channel.seqNo - 1;
    InLog(events, uvm.channel);
    ChannelStillRegistered(events, c, uvm.register.op.fd, identity.hClient, owned.channel.op.handle);
  }

  lemma UvmStage(events: seq<Event>, identity: Identity, owned: OwnedVaspace, uvm: UvmBinding)
    returns (i: nat, r: nat, c: nat)
    requires WellFormed(events) && owned.channel.op.Alloc? && IsAllocation(owned.vaspace.op)
    requires ResolveUvm(events, identity, owned) == Ok(uvm)
    ensures UvmEvidence(events, identity, owned, uvm, i, r, c)
  {
    hide ResolveUvm, UvmResolved, SpaceUndisturbed, TouchesVaspace, UnregistersIn, Replay, Lawful, Initializes;
    UvmChain(events, identity, owned, uvm);
    i := SpaceStage(events, identity, owned, uvm);
    r := VaspaceStage(events, identity, owned, uvm);
    c := ChannelStage(events, identity, owned, uvm);
    RegisteredAfterInit(events, i, c, uvm.register.op.fd);
  }

  lemma StillRegistered(events: seq<Event>, r: nat, fd: int, uuid: string)
    requires Numbered(events) && !VaspaceChangedAfter(events, r + 1, fd, uuid)
    ensures forall j :: r < j < |events| ==> !TouchesVaspace(events[j], fd, uuid)
  {
    forall j | r < j < |events| ensures !TouchesVaspace(events[j], fd, uuid) {
      assert events[j].seqNo > r + 1;
      assert !ChangesVaspace(events[j], fd, uuid);
    }
  }

  lemma ChannelStillRegistered(events: seq<Event>, c: nat, fd: int, client: nat, channel: nat)
    requires Numbered(events) && !ChannelUnregisteredAfter(events, c + 1, client, channel)
    ensures forall j :: c < j < |events| ==> !UnregistersIn(events[j], fd, client, channel)
  {
    forall j | c < j < |events| ensures !UnregistersIn(events[j], fd, client, channel) {
      assert events[j].seqNo > c + 1;
      assert !UnregistersChannel(events[j], client, channel);
    }
  }

  /** A registration needs an initialized descriptor, so it follows the event that
      initialized it. */
  lemma RegisteredAfterInit(events: seq<Event>, i: nat, c: nat, fd: int)
    requires WellFormed(events) && i < |events| && c < |events| && Initializes(events[i], fd)
    requires forall j :: 0 <= j < i ==> !Initializes(events[j], fd)
    requires Succeeded(events[c]) && events[c].op.UvmRegisterChannel? && events[c].op.fd == fd
    ensures i < c
  {
    assert Lawful(Replay(events, c), events[c]);
    if c <= i {
      NoSpaceBefore(events, c, fd);
    }
  }

  ghost predicate GpuEvidence(events: seq<Event>, identity: Identity, owned: OwnedVaspace, uvm: UvmBinding,
                              userd: UserdBinding, gpu: GpuMapping, g: nat)
    requires owned.channel.op.Alloc? && owned.channel.op.params.Some? && uvm.register.op.UvmRegisterVaspace?
  {
    var p := owned.channel.op.params.value;
    var op := gpu.mapping.op;
    && g < |events| && events[g] == gpu.mapping && uvm.register.seqNo <= g
    && Succeeded(gpu.mapping) && op.UvmMapExternal? && op.fd == uvm.register.op.fd && op.client == identity.hClient
    && op.base <= p.gpfifoVa && p.gpfifoVa + p.gpfifoEntries * 8 <= op.base + op.length
    && |op.attributes| == 1 && op.attributes[0].uuid == identity.uuid
    && |p.userdHandles| > 0 && op.memory == p.userdHandles[0]
    && userd.memoryAllocSeq <= g
    && gpu.range in events && Selects(Ranges(op.fd, uvm.init.seqNo, gpu.mapping.seqNo, op.base, op.length), gpu.range)
    && (forall j :: 0 <= j < |events| ==>
          Objection(events[j], op.fd, g + 1, op.base, p.gpfifoVa, p.gpfifoEntries * 8).None?)
  }

  lemma GpuStage(events: seq<Event>, identity: Identity, owned: OwnedVaspace, uvm: UvmBinding,
                 userd: UserdBinding, gpu: GpuMapping) returns (g: nat)
    requires Numbered(events)
    requires owned.channel.op.Alloc? && owned.channel.op.params.Some?
    requires |owned.channel.op.params.value.userdHandles| > 0
    requires uvm.register.op.UvmRegisterVaspace? && uvm.init.op.UvmInitialize?
    requires ResolveGpuMapping(events, identity, owned, uvm, userd) == Ok(gpu)
    ensures GpuEvidence(events, identity, owned, uvm, userd, gpu, g)
  {
    hide Select, Objection, Birth;
    g := gpu.mapping.seqNo - 1;
    InLog(events, gpu.mapping);
  }

  // ----- The GPU side of the square

  lemma PassesAll(events: seq<Event>, g: nat, r: nat, fd: int, uuid: string, base: nat, size: nat, rangeBase: nat)
    requires Numbered(events) && r < g < |events|
    requires forall j :: r < j < |events| ==> !TouchesVaspace(events[j], fd, uuid)
    requires forall j :: 0 <= j < |events| ==> Objection(events[j], fd, g + 1, rangeBase, base, size).None?
    ensures forall j :: g < j < |events| && Succeeded(events[j]) && OnUvmSpace(events[j].op) && events[j].op.fd == fd ==>
              Passes(events[j], fd, uuid, base, size)
  {
    forall j | g < j < |events| && Succeeded(events[j]) && OnUvmSpace(events[j].op) && events[j].op.fd == fd
      ensures Passes(events[j], fd, uuid, base, size)
    {
      assert !TouchesVaspace(events[j], fd, uuid);
      assert Objection(events[j], fd, g + 1, rangeBase, base, size).None?;
    }
  }

  lemma MappedRing(k: State, space: UvmSpace, op: Op, uuid: string, base: nat, size: nat, host: int)
    requires op.UvmMapExternal? && |op.attributes| == 1 && op.attributes[0].uuid == uuid
    requires op.base <= base && base + size <= op.base + op.length
    requires HostedBy(space, host, op.base, op.length)
    ensures RingOf(UvmStep(k, space, op), uuid, base, size,
                   Rm(op.client, op.memory, Generation(k, op.client, op.memory), op.offset + base - op.base))
    ensures HostedBy(UvmStep(k, space, op), host, base, size)
    ensures HostedBy(UvmStep(k, space, op), host, op.base, op.length)
  {
    var after := UvmStep(k, space, op);
    assert op.attributes[0].uuid in NamedGpus(op.attributes);
    forall a | base <= a < base + size
      ensures a in GpuBytes(after, uuid) &&
              GpuBytes(after, uuid)[a] == ExternalByte(op, Generation(k, op.client, op.memory), a)
    {
    }
  }

  /** The host of the mapping was freed at some later point of the log. */
  ghost predicate HostFreedLater(events: seq<Event>, g: nat) {
    && g < |events| && events[g].op.UvmMapExternal?
    && var op := events[g].op;
       var spaces := Replay(events, g).spaces;
       op.fd in spaces && exists host ::
         HostedBy(spaces[op.fd], host, op.base, op.length) && FreesHost(events, g, |events|, op.fd, host)
  }

  lemma {:induction false} GpuSide(events: seq<Event>, i: nat, g: nat, live: set<int>, uuid: string, base: nat,
                                   size: nat)
    requires WellFormed(events) && i < g < |events| && 0 < size
    requires Succeeded(events[g]) && events[g].op.UvmMapExternal?
    requires var op := events[g].op;
             && SpaceUndisturbed(events, i, op.fd, live)
             && |op.attributes| == 1 && op.attributes[0].uuid == uuid
             && op.base <= base && base + size <= op.base + op.length
             && forall j :: g < j < |events| && Succeeded(events[j]) && OnUvmSpace(events[j].op) && events[j].op.fd == op.fd ==>
                  Passes(events[j], op.fd, uuid, base, size)
    ensures var op := events[g].op;
            var k := Replay(events, |events|);
            && op.fd in k.spaces
            && var memory := Rm(op.client, op.memory, Generation(Replay(events, g), op.client, op.memory),
                                op.offset + base - op.base);
               (if HostFreedLater(events, g) then Absent(GpuBytes(k.spaces[op.fd], uuid), base, size)
                else RingOf(k.spaces[op.fd], uuid, base, size, memory))
  {
    hide UvmStep, Passes, Absent, RingOf;
    var op := events[g].op;
    SpaceMoves(events, i, g, op.fd, live);
    RangesStayApart(events, i, g, op.fd, live);
    assert Lawful(Replay(events, g), events[g]);
    var space := SpaceAt(events, g, op.fd);
    var host :| HostedBy(space, host, op.base, op.length);
    MappedRing(Replay(events, g), space, op, uuid, base, size, host);
    var memory := Rm(op.client, op.memory, Generation(Replay(events, g), op.client, op.memory), op.offset + base - op.base);
    RingSince(events, i, g, |events|, op.fd, live, uuid, host, base, size, memory);
    HostFreedIffThisHost(events, g, host);
  }

  lemma HostFreedIffThisHost(events: seq<Event>, g: nat, host: int)
    requires g < |events| && events[g].op.UvmMapExternal? && events[g].op.fd in Replay(events, g).spaces
    requires RangesApart(SpaceAt(events, g, events[g].op.fd)) && 0 < events[g].op.length
    requires HostedBy(SpaceAt(events, g, events[g].op.fd), host, events[g].op.base, events[g].op.length)
    ensures HostFreedLater(events, g) <==> FreesHost(events, g, |events|, events[g].op.fd, host)
  {
    hide RangesApart, HostedBy;
    var op, space := events[g].op, SpaceAt(events, g, events[g].op.fd);
    if HostFreedLater(events, g) {
      var other :| HostedBy(space, other, op.base, op.length) && FreesHost(events, g, |events|, op.fd, other);
      HostIsUnique(space, host, other, op.base, op.length);
    }
  }

  // ----- The CPU side and the square

  /** `PlaceRing` puts the ring inside the mmap already validated for the USERD. */
  ghost predicate PlaceEvidence(events: seq<Event>, owned: OwnedVaspace, gpu: GpuMapping, layout: Layout,
                                u: UserdBinding, s: nat, m: nat, ring: RingBinding)
  {
    && owned.channel.op.Alloc? && owned.channel.op.params.Some? && gpu.mapping.op.UvmMapExternal?
    && s < |events| && events[s].op.MapMemory? && m < |events| && events[m].op.Mmap?
    && var p := owned.channel.op.params.value;
       var op := gpu.mapping.op;
    && ring.entries == p.gpfifoEntries
    && ring.gpuMapSeq == gpu.mapping.seqNo
    && ring.memoryOffset == op.offset + p.gpfifoVa - op.base
    && events[s].op.offset <= ring.memoryOffset
    && ring.memoryOffset + p.gpfifoEntries * 8 <= events[s].op.offset + events[s].op.length
    && ring.cpuAddress == events[m].op.address + ring.memoryOffset - events[s].op.offset
    && ring.cpuAddress % 8 == 0
  }

  lemma PlaceStage(events: seq<Event>, owned: OwnedVaspace, uvm: UvmBinding, gpu: GpuMapping, identity: Identity,
                   layout: Layout, u: UserdBinding, vmas: seq<Vma>, s: nat, m: nat, ring: RingBinding)
    requires Numbered(events) && Evidence(events, identity, layout, u, s, m)
    requires owned.channel.op.Alloc? && owned.channel.op.params.Some? && gpu.mapping.op.UvmMapExternal?
    requires PlaceRing(events, owned, uvm, gpu, u, vmas) == Ok(ring)
    ensures PlaceEvidence(events, owned, gpu, layout, u, s, m, ring)
  {
    hide Invalidated, LiveVmas;
  }

  /** Ring byte `a - gpuAddress`: its GPU address and its CPU address both show
      the same byte of the same generation of the Memory object. */
  ghost predicate SquareAt(k: State, identity: Identity, fd: int, gpuAddress: nat, memory: nat,
                           u: UserdBinding, ring: RingBinding, a: int)
    requires fd in k.spaces
  {
    var cpuAddress := ring.cpuAddress + a - gpuAddress;
    && a in GpuBytes(k.spaces[fd], identity.uuid)
    && cpuAddress in k.cpu
    && GpuBytes(k.spaces[fd], identity.uuid)[a] == k.cpu[cpuAddress]
    && k.cpu[cpuAddress] == Rm(identity.hClient, memory, u.memoryAllocSeq, ring.memoryOffset + a - gpuAddress)
  }

  ghost predicate RingCommutes(k: State, identity: Identity, fd: int, gpuAddress: nat, memory: nat,
                               u: UserdBinding, ring: RingBinding)
  {
    && fd in k.spaces
    && forall a :: gpuAddress <= a < gpuAddress + ring.entries * 8 ==>
         SquareAt(k, identity, fd, gpuAddress, memory, u, ring, a)
  }

  lemma SquareFromSides(k: State, identity: Identity, fd: int, gpuAddress: nat, u: UserdBinding, ring: RingBinding,
                        memory: nat, address: nat, length: nat, offset: nat, freed: bool)
    requires fd in k.spaces && 0 < ring.entries
    requires var bytes := GpuBytes(k.spaces[fd], identity.uuid); var size := ring.entries * 8;
             if freed then Absent(bytes, gpuAddress, size)
             else ShowsMemory(bytes, gpuAddress, size, identity.hClient, memory, u.memoryAllocSeq, ring.memoryOffset)
    requires ShowsMemory(k.cpu, address, length, identity.hClient, memory, u.memoryAllocSeq, offset)
    requires offset <= ring.memoryOffset && ring.memoryOffset + ring.entries * 8 <= offset + length
    requires ring.cpuAddress == address + ring.memoryOffset - offset
    ensures RingCommutes(k, identity, fd, gpuAddress, memory, u, ring) <==> !freed
  {
    if freed {
      assert !SquareAt(k, identity, fd, gpuAddress, memory, u, ring, gpuAddress);
    } else {
      forall a | gpuAddress <= a < gpuAddress + ring.entries * 8
        ensures SquareAt(k, identity, fd, gpuAddress, memory, u, ring, a)
      {
        assert address <= ring.cpuAddress + a - gpuAddress < address + length;
      }
    }
  }

  /** What the ring binding reports besides the address: the channel's whole ring,
      of a supported size, and the evidence of the USERD mapping it shares. */
  predicate ReportsRing(owner: ChannelParams, u: UserdBinding, ring: RingBinding) {
    && ring.entries == owner.gpfifoEntries && 0 < ring.entries <= 4096 && PowerOfTwo(ring.entries)
    && ring.cpuAddress % 8 == 0 && owner.gpfifoVa % 8 == 0
    && ring.memoryAllocSeq == u.memoryAllocSeq && ring.memoryGeneration == u.memoryGeneration
    && ring.rmMapSeq == u.rmMapSeq && ring.mmapSeq == u.mmapSeq
  }

  /** The owned channel's parameters at the end of the log. */
  function RingOwner(events: seq<Event>, identity: Identity, channel: nat): Option<ChannelParams> {
    match Birth(events, identity.hClient, channel)
    case Ok(e) => if e.op.Alloc? then e.op.params else None
    case Err(_) => None
  }

  lemma RingReported(events: seq<Event>, identity: Identity, channel: nat, owned: OwnedVaspace, uvm: UvmBinding,
                     gpu: GpuMapping, u: UserdBinding, vmas: seq<Vma>, ring: RingBinding)
    requires ResolveVaspace(events, identity, channel) == Ok(owned)
    requires owned.channel.op.Alloc? && owned.channel.op.params.Some? && gpu.mapping.op.UvmMapExternal?
    requires PlaceRing(events, owned, uvm, gpu, u, vmas) == Ok(ring)
    ensures ReportsRing(owned.channel.op.params.value, u, ring)
  {
    hide Birth, LiveVmas, PowerOfTwo;
  }

  /** For every well-formed log both analyzers accept: the binding reports the
      channel's whole ring, and the ring's square commutes if and only if no later
      call freed the range that hosted its mapping. */
  lemma {:induction false} RingSquareExactly(events: seq<Event>, identity: Identity, channel: Channel,
                                             memories: seq<MemoryRecord>,
                          vmas: seq<Vma>, u: UserdBinding, ring: RingBinding)
    requires WellFormed(events)
    requires ResolveChannel(events, identity, channel, memories, vmas) == Ok(u)
    requires ResolveRing(events, identity, channel.handle, u, vmas) == Ok(ring)
    ensures 0 < ring.gpuMapSeq <= |events| && events[ring.gpuMapSeq - 1].op.UvmMapExternal?
    ensures var owner := RingOwner(events, identity, channel.handle);
            && owner.Some? && |owner.value.userdHandles| > 0
            && var fd := events[ring.gpuMapSeq - 1].op.fd;
               var memory := owner.value.userdHandles[0];
               var k := Replay(events, |events|);
               && LiveAs(k, identity.hClient, memory, u.memoryAllocSeq)
               && ReportsRing(owner.value, u, ring)
               && (RingCommutes(k, identity, fd, owner.value.gpfifoVa, memory, u, ring) <==>
                     !HostFreedLater(events, ring.gpuMapSeq - 1))
  {
    hide ChannelLayout, ResolveChannel, Birth, Invalidated, Replay, ResolveVaspace, ResolveUvm, ResolveGpuMapping,
         PlaceRing, HostFreedLater, RingCommutes, Lawful, SpaceUndisturbed, Passes, Objection, Absent, ShowsMemory,
         PowerOfTwo, ReportsRing;
    var layout, s, m := AcceptedEvidence(events, identity, channel, memories, vmas);
    MappingIsLive(events, identity, layout, u, s, m);
    BirthIsLiveObject(events, identity.hClient, layout.memory.op.handle, layout.memory);
    var owned := ResolveVaspace(events, identity, channel.handle).value;
    var uvm := ResolveUvm(events, identity, owned).value;
    var gpu := ResolveGpuMapping(events, identity, owned, uvm, u).value;
    var i, r, c := UvmStage(events, identity, owned, uvm);
    var g := GpuStage(events, identity, owned, uvm, u, gpu);
    PlaceStage(events, owned, uvm, gpu, identity, layout, u, vmas, s, m, ring);
    RingReported(events, identity, channel.handle, owned, uvm, gpu, u, vmas, ring);
    var p := owned.channel.op.params.value;
    var size := p.gpfifoEntries * 8;
    PassesAll(events, g, r, gpu.mapping.op.fd, identity.uuid, p.gpfifoVa, size, gpu.mapping.op.base);
    GpuSide(events, i, g, LiveFds(uvm), identity.uuid, p.gpfifoVa, size);
    LiveSinceBirth(events, identity.hClient, gpu.mapping.op.memory, layout.memory, g);
    SquareFromSides(Replay(events, |events|), identity, gpu.mapping.op.fd, p.gpfifoVa, u, ring,
                    gpu.mapping.op.memory, events[m].op.address, events[m].op.length, events[s].op.offset,
                    HostFreedLater(events, g));
  }

  /** The space's registration for the GPU is a live VA space of the owned device,
      and the one that the live channel's own context share, a child of the owned
      group, was created over. */
  ghost predicate OwnsVaspace(k: State, space: UvmSpace, identity: Identity, channel: nat, ring: RingBinding) {
    var client := identity.hClient;
    && identity.uuid in space.vaspaces
    && var ref := space.vaspaces[identity.uuid];
    && ref.client == client && ref.generation == ring.vaspaceAllocSeq
    && LiveAs(k, client, ref.vaspace, ring.vaspaceAllocSeq)
    && IsAllocation(k.objects[(client, ref.vaspace)].op)
    && k.objects[(client, ref.vaspace)].op.class_ == VASPACE_CLASS
    && k.objects[(client, ref.vaspace)].op.parent == identity.device.handle
    && (client, channel) in k.objects
    && var op := k.objects[(client, channel)].op;
    && op.Alloc? && op.params.Some? && op.params.value.vaspace == 0
    && SharesVaspace(k, identity, op.params.value.contextShare, ref.vaspace, ring)
  }

  ghost predicate SharesVaspace(k: State, identity: Identity, share: nat, vaspace: nat, ring: RingBinding) {
    && share != 0 && LiveAs(k, identity.hClient, share, ring.ctxshareAllocSeq)
    && var op := k.objects[(identity.hClient, share)].op;
    && op.Alloc? && op.class_ == CTXSHARE_CLASS && op.parent == identity.group.handle
    && op.ctxshareVaspace == vaspace
    && ring.vaspaceAllocSeq < ring.ctxshareAllocSeq
  }

  /** What the checks on the context share established. */
  ghost predicate ShareFacts(events: seq<Event>, identity: Identity, channel: nat, owned: OwnedVaspace) {
    var client := identity.hClient;
    && owned.channel.op.Alloc? && owned.channel.op.params.Some? && owned.channel.op.handle == channel
    && Birth(events, client, channel) == Ok(owned.channel)
    && var p := owned.channel.op.params.value;
    && p.vaspace == 0 && p.contextShare != 0
    && Birth(events, client, p.contextShare) == Ok(owned.share)
    && owned.share.op.Alloc? && owned.share.op.class_ == CTXSHARE_CLASS
    && owned.share.op.parent == identity.group.handle
    && IsAllocation(owned.vaspace.op) && owned.share.op.ctxshareVaspace == owned.vaspace.op.handle
    && Birth(events, client, owned.share.op.ctxshareVaspace) == Ok(owned.vaspace)
    && owned.vaspace.op.class_ == VASPACE_CLASS && owned.vaspace.op.parent == identity.device.handle
    && owned.vaspace.seqNo < owned.share.seqNo < owned.channel.seqNo
  }

  lemma ShareEstablished(events: seq<Event>, identity: Identity, channel: nat, owned: OwnedVaspace)
    requires ResolveVaspace(events, identity, channel) == Ok(owned)
    ensures ShareFacts(events, identity, channel, owned)
  {
    hide PowerOfTwo;
  }

  lemma ShareStaysLive(events: seq<Event>, identity: Identity, channel: nat, owned: OwnedVaspace, space: UvmSpace,
                       ring: RingBinding)
    requires Numbered(events) && ShareFacts(events, identity, channel, owned)
    requires ring.ctxshareAllocSeq == owned.share.seqNo && ring.vaspaceAllocSeq == owned.vaspace.seqNo
    requires identity.uuid in space.vaspaces
    requires space.vaspaces[identity.uuid] == VaspaceRef(identity.hClient, owned.vaspace.op.handle, owned.vaspace.seqNo)
    ensures OwnsVaspace(Replay(events, |events|), space, identity, channel, ring)
  {
    hide Birth, Replay;
    var client := identity.hClient;
    BirthIsLiveObject(events, client, channel, owned.channel);
    BirthIsLiveObject(events, client, owned.channel.op.params.value.contextShare, owned.share);
    BirthIsLiveObject(events, client, owned.vaspace.op.handle, owned.vaspace);
  }

  /** The GPU address space of the square is the channel's own: the descriptor the
      ring was mapped on still has the live channel registered, and for the GPU the
      live VA space of that channel's own live context share. */
  lemma {:induction false} RingAddressSpaceIsOwned(events: seq<Event>, identity: Identity, channel: Channel,
                                                   vmas: seq<Vma>, u: UserdBinding, ring: RingBinding)
    requires WellFormed(events)
    requires ResolveRing(events, identity, channel.handle, u, vmas) == Ok(ring)
    ensures 0 < ring.gpuMapSeq <= |events| && events[ring.gpuMapSeq - 1].op.UvmMapExternal?
    ensures var k := Replay(events, |events|);
            var fd := events[ring.gpuMapSeq - 1].op.fd;
            && fd in k.spaces
            && OwnsVaspace(k, k.spaces[fd], identity, channel.handle, ring)
            && exists born ::
                 && LiveAs(k, identity.hClient, channel.handle, born)
                 && ChannelRef(identity.hClient, channel.handle, born, identity.uuid) in k.spaces[fd].channels
  {
    hide Birth, Replay, ResolveVaspace, ResolveUvm, ResolveGpuMapping, Lawful, SpaceUndisturbed, Objection, OwnsVaspace;
    var owned := ResolveVaspace(events, identity, channel.handle).value;
    var uvm := ResolveUvm(events, identity, owned).value;
    var gpu := ResolveGpuMapping(events, identity, owned, uvm, u).value;
    var i, r, c := UvmStage(events, identity, owned, uvm);
    var g := GpuStage(events, identity, owned, uvm, u, gpu);
    var fd := uvm.register.op.fd;
    var client := identity.hClient;
    ShareEstablished(events, identity, channel.handle, owned);
    VaspaceKept(events, i, r, |events|, fd, LiveFds(uvm), identity.uuid);
    ChannelKept(events, i, c, |events|, fd, LiveFds(uvm));
    LiveSinceBirth(events, client, owned.vaspace.op.handle, owned.vaspace, r);
    LiveSinceBirth(events, client, channel.handle, owned.channel, c);
    ShareStaysLive(events, identity, channel.handle, owned, SpaceAt(events, |events|, fd), ring);
    BirthIsLiveObject(events, client, channel.handle, owned.channel);
    assert LiveAs(Replay(events, |events|), client, channel.handle, owned.channel.seqNo);
  }

  // ----- A check a caller can make first

  lemma {:induction false} RangeKept(events: seq<Event>, i: nat, q: nat, n: nat, fd: int, live: set<int>)
    requires WellFormed(events) && SpaceUndisturbed(events, i, fd, live) && i < q < n <= |events|
    requires Succeeded(events[q]) && events[q].op.UvmCreateRange? && events[q].op.fd == fd
    requires forall j :: q < j < n ==> !FreesRange(events[j], fd, events[q].op.base)
    ensures fd in Replay(events, n).spaces
    ensures var op := events[q].op;
            var ranges := SpaceAt(events, n, fd).ranges;
            op.base in ranges && ranges[op.base] == Range(op.length, true) && 0 < op.length
  {
    hide UvmStep, Lawful, Step, SpaceUndisturbed;
    SpaceMoves(events, i, n - 1, fd, live);
    assert Lawful(Replay(events, n - 1), events[n - 1]);
    if n == q + 1 {
      CreatedRange(Replay(events, q), SpaceAt(events, q, fd), events[q], fd);
    } else {
      RangeKept(events, i, q, n - 1, fd, live);
      RangeKeptStep(Replay(events, n - 1), SpaceAt(events, n - 1, fd), events[n - 1], fd, events[q].op.base);
    }
  }

  lemma RangeKeptStep(k: State, space: UvmSpace, e: Event, fd: int, base: int)
    requires Lawful(k, e) && fd in k.spaces && k.spaces[fd] == space
    requires base in space.ranges && 0 < space.ranges[base].length && !FreesRange(e, fd, base)
    ensures Succeeded(e) && OnUvmSpace(e.op) && e.op.fd == fd ==>
              base in UvmStep(k, space, e.op).ranges && UvmStep(k, space, e.op).ranges[base] == space.ranges[base]
  {
    hide ClearRange;
    ClearKeepsRanges(space);
  }

  lemma CreatedRange(k: State, space: UvmSpace, e: Event, fd: int)
    requires Lawful(k, e) && Succeeded(e) && e.op.UvmCreateRange? && e.op.fd == fd && fd in k.spaces && k.spaces[fd] == space
    ensures e.op.base in UvmStep(k, space, e.op).ranges
    ensures UvmStep(k, space, e.op).ranges[e.op.base] == Range(e.op.length, true) && 0 < e.op.length
  {
  }

  lemma ClearKeepsRanges(space: UvmSpace)
    ensures forall b: int, n: nat :: ClearRange(space, b, n).ranges == space.ranges
  {
  }

  /** If no range at the mapping's base was freed before the mapping was made, an
      accepted ring commutes. */
  lemma {:induction false} RingCommutesWhenRangeNotRecycled(
      events: seq<Event>, identity: Identity, channel: Channel, memories: seq<MemoryRecord>,
      vmas: seq<Vma>, u: UserdBinding, ring: RingBinding)
    requires WellFormed(events)
    requires ResolveChannel(events, identity, channel, memories, vmas) == Ok(u)
    requires ResolveRing(events, identity, channel.handle, u, vmas) == Ok(ring)
    requires 0 < ring.gpuMapSeq <= |events| && events[ring.gpuMapSeq - 1].op.UvmMapExternal?
    requires var op := events[ring.gpuMapSeq - 1].op;
             forall j :: 0 <= j < ring.gpuMapSeq - 1 ==> !FreesRange(events[j], op.fd, op.base)
    ensures var owner := RingOwner(events, identity, channel.handle);
            && owner.Some? && |owner.value.userdHandles| > 0
            && ReportsRing(owner.value, u, ring)
            && RingCommutes(Replay(events, |events|), identity, events[ring.gpuMapSeq - 1].op.fd,
                            owner.value.gpfifoVa, owner.value.userdHandles[0], u, ring)
  {
    hide ResolveChannel, Birth, Replay, ResolveVaspace, ResolveUvm, ResolveGpuMapping, Lawful, SpaceUndisturbed,
         RingCommutes, HostFreedLater, FreesHost, Objection, ReportsRing;
    RingSquareExactly(events, identity, channel, memories, vmas, u, ring);
    var owned := ResolveVaspace(events, identity, channel.handle).value;
    var uvm := ResolveUvm(events, identity, owned).value;
    var gpu := ResolveGpuMapping(events, identity, owned, uvm, u).value;
    var i, r, c := UvmStage(events, identity, owned, uvm);
    var g := GpuStage(events, identity, owned, uvm, u, gpu);
    var op := gpu.mapping.op;
    InLog(events, gpu.range);
    UnrecycledHost(events, i, gpu.range.seqNo - 1, g, LiveFds(uvm));
    NotFreedLater(events, op.fd, g, op.base, owned.channel.op.params.value.gpfifoVa,
                  owned.channel.op.params.value.gpfifoEntries * 8);
  }

  /** The loop objects to a free of the base it compares with. */
  lemma NotFreedLater(events: seq<Event>, fd: int, g: nat, rangeBase: nat, base: nat, size: nat)
    requires Numbered(events)
    requires forall j :: 0 <= j < |events| ==> Objection(events[j], fd, g + 1, rangeBase, base, size).None?
    ensures !FreesHost(events, g, |events|, fd, rangeBase)
  {
    forall j | g < j < |events| ensures !FreesRange(events[j], fd, rangeBase) {
      assert Objection(events[j], fd, g + 1, rangeBase, base, size).None?;
    }
  }

  /** The range matched to the mapping is its host, unless it was freed between. */
  lemma {:induction false} UnrecycledHost(events: seq<Event>, i: nat, q: nat, g: nat, live: set<int>)
    requires WellFormed(events) && i < q < g < |events|
    requires events[g].op.UvmMapExternal? && SpaceUndisturbed(events, i, events[g].op.fd, live)
    requires Succeeded(events[q]) && events[q].op == UvmCreateRange(events[g].op.fd, events[g].op.base, events[g].op.length)
    requires forall j :: q < j < g ==> !FreesRange(events[j], events[g].op.fd, events[g].op.base)
    ensures HostFreedLater(events, g) <==> FreesHost(events, g, |events|, events[g].op.fd, events[g].op.base)
  {
    hide Lawful, SpaceUndisturbed, RangesApart;
    RangeKept(events, i, q, g, events[g].op.fd, live);
    RangesStayApart(events, i, g, events[g].op.fd, live);
    HostFreedIffThisHost(events, g, events[g].op.base);
  }
}
