/** `resolve_ring`: the join from an owned channel's GPFIFO GPU address through
    the UVM mapping and its Memory object to the existing CPU mapping. */
module GpfifoBinding {
  import opened Results
  import opened EventLog
  import opened Hardware
  import opened UserdMapping

  const CTXSHARE_CLASS: nat := 0x9067
  const VASPACE_CLASS: nat := 0x90f1
  const MM_NOTHING_TO_DO: int := 0x10006

  /** The comprehensions over the log, by what they select. */
  datatype Query =
    | Registrations(client: nat, vaspace: nat, uuid: string, after: nat)
    | Initializations(fd: int, before: nat)
    | MmInitializations(fd: int, after: nat)
    | ChannelRegistrations(client: nat, channel: nat, uuid: string, fd: int, after: nat)
    | Mappings(fd: int, client: nat, uuid: string, base: nat, size: nat)
    | Ranges(fd: int, after: nat, before: nat, base: nat, length: nat)

  predicate Names(attributes: seq<GpuAttribute>, uuid: string) {
    exists i :: 0 <= i < |attributes| && attributes[i].uuid == uuid
  }

  predicate Selects(q: Query, e: Event) {
    match q
    case Registrations(client, vaspace, uuid, after) =>
      Succeeded(e) && e.op.UvmRegisterVaspace? && e.op.client == client && e.op.vaspace == vaspace &&
      e.op.uuid == uuid && e.seqNo > after
    case Initializations(fd, before) =>
      Succeeded(e) && e.op.UvmInitialize? && e.op.fd == fd && e.seqNo < before
    case MmInitializations(fd, after) =>
      e.rc == 0 && e.op.UvmMmInitialize? && e.op.uvmFd == fd && e.seqNo > after
    case ChannelRegistrations(client, channel, uuid, fd, after) =>
      Succeeded(e) && e.op.UvmRegisterChannel? && e.op.client == client && e.op.channel == channel &&
      e.op.uuid == uuid && e.op.fd == fd && e.seqNo > after
    case Mappings(fd, client, uuid, base, size) =>
      Succeeded(e) && e.op.UvmMapExternal? && e.op.fd == fd && e.op.client == client &&
      e.op.base <= base && base + size <= e.op.base + e.op.length && Names(e.op.attributes, uuid)
    case Ranges(fd, after, before, base, length) =>
      Succeeded(e) && e.op.UvmCreateRange? && e.op.fd == fd && after < e.seqNo < before &&
      e.op.base == base && e.op.length == length
  }

  function Select(events: seq<Event>, n: nat, q: Query): (r: seq<Event>)
    requires n <= |events|
    ensures forall e :: e in r <==> e in events[..n] && Selects(q, e)
  {
    if n == 0 then []
    else if Selects(q, events[n - 1]) then Select(events, n - 1, q) + [events[n - 1]]
    else Select(events, n - 1, q)
  }

  /** `rows = [...]; require(len(rows) == 1, reason)`. */
  function TheOnly(events: seq<Event>, q: Query, reason: string): (r: Result<Event>)
    ensures r.Ok? ==> r.value in events && Selects(q, r.value) &&
                      forall e :: e in events && Selects(q, e) ==> e == r.value
  {
    var rows := Select(events, |events|, q);
    :- Need(|rows| == 1, reason);
    assert events[..|events|] == events;
    assert rows[0] in rows;
    Ok(rows[0])
  }

  /** The channel, its context share and that share's VA space. */
  datatype OwnedVaspace = OwnedVaspace(channel: Event, share: Event, vaspace: Event)

  /** A channel that names a context share instead of a VA space. */
  function SharingChannel(events: seq<Event>, client: nat, channel: nat): (r: Result<Event>)
    ensures r.Ok? ==>
              && Birth(events, client, channel) == Ok(r.value) && r.value.op.Alloc? && r.value.op.params.Some?
              && |r.value.op.params.value.userdHandles| > 0 && r.value.op.params.value.contextShare != 0
  {
    var ca :- Birth(events, client, channel);
    :- Need(ca.op.Alloc? && ca.op.params.Some? && |ca.op.params.value.userdHandles| > 0, "channel_payload_missing");
    :- Need(ca.op.params.value.vaspace == 0 && ca.op.params.value.contextShare != 0,
            "explicit_owned_context_share_required");
    Ok(ca)
  }

  function ContextShare(events: seq<Event>, identity: Identity, share: nat, before: nat): (r: Result<Event>)
    ensures r.Ok? ==>
              && Birth(events, identity.hClient, share) == Ok(r.value)
              && r.value.op.Alloc? && r.value.op.ctxshareVaspace != 0
  {
    var cs :- Birth(events, identity.hClient, share);
    :- Need(cs.op.class_ == CTXSHARE_CLASS && cs.op.parent == identity.group.handle && cs.seqNo < before &&
            cs.op.Alloc? && cs.op.ctxshareVaspace != 0, "ctxshare_vaspace_binding_missing");
    Ok(cs)
  }

  function ResolveVaspace(events: seq<Event>, identity: Identity, channel: nat): (r: Result<OwnedVaspace>)
    ensures r.Ok? ==>
              && Birth(events, identity.hClient, channel) == Ok(r.value.channel)
              && IsAllocation(r.value.vaspace.op)
              && Birth(events, identity.hClient, r.value.vaspace.op.handle) == Ok(r.value.vaspace)
              && r.value.channel.op.Alloc? && r.value.channel.op.params.Some?
              && 0 < r.value.channel.op.params.value.gpfifoEntries
              && |r.value.channel.op.params.value.userdHandles| > 0
  {
    var ca :- SharingChannel(events, identity.hClient, channel);
    var p := ca.op.params.value;
    var cs :- ContextShare(events, identity, p.contextShare, ca.seqNo);
    var va :- Birth(events, identity.hClient, cs.op.ctxshareVaspace);
    :- Need(va.op.class_ == VASPACE_CLASS && va.op.parent == identity.device.handle && va.seqNo < cs.seqNo,
            "vaspace_lifecycle_or_owner_mismatch");
    :- Need(0 < p.gpfifoEntries <= 4096 && p.gpfifoVa % 8 == 0 && PowerOfTwo(p.gpfifoEntries),
            "unsupported_ring_layout");
    Ok(OwnedVaspace(ca, cs, va))
  }

  /** The UVM descriptor the VA space and the channel are registered with. */
  datatype UvmBinding = UvmBinding(register: Event, init: Event, mm: Event, channel: Event)

  function LiveFds(b: UvmBinding): set<int>
    requires b.register.op.UvmRegisterVaspace? && b.mm.op.UvmMmInitialize?
  {
    if b.mm.status == 0 then {b.register.op.fd, b.mm.op.fd} else {b.register.op.fd}
  }

  predicate ClosedAfter(events: seq<Event>, seqNo: nat, fds: set<int>) {
    exists i :: 0 <= i < |events| && events[i].op.Close? && Succeeded(events[i]) &&
                events[i].seqNo > seqNo && events[i].op.fd in fds
  }

  predicate ChangesVaspace(e: Event, fd: int, uuid: string) {
    && Succeeded(e)
    && (e.op.UvmRegisterVaspace? || e.op.UvmUnregisterVaspace?)
    && e.op.fd == fd && e.op.uuid == uuid
  }

  predicate VaspaceChangedAfter(events: seq<Event>, seqNo: nat, fd: int, uuid: string) {
    exists i :: 0 <= i < |events| && events[i].seqNo > seqNo && ChangesVaspace(events[i], fd, uuid)
  }

  predicate UnregistersChannel(e: Event, client: nat, channel: nat) {
    Succeeded(e) && e.op.UvmUnregisterChannel? && e.op.client == client && e.op.channel == channel
  }

  predicate ChannelUnregisteredAfter(events: seq<Event>, seqNo: nat, client: nat, channel: nat) {
    exists i :: 0 <= i < |events| && events[i].seqNo > seqNo && UnregistersChannel(events[i], client, channel)
  }

  datatype Descriptor = Descriptor(register: Event, init: Event, mm: Event)

  /** The descriptor with its initialization, still open. */
  function ResolveDescriptor(events: seq<Event>, client: nat, uuid: string, vaspace: nat, after: nat)
    : (r: Result<Descriptor>)
    ensures r.Ok? ==>
              && r.value.register.op.UvmRegisterVaspace? && r.value.init.op.UvmInitialize?
              && r.value.mm.op.UvmMmInitialize?
  {
    var reg :- TheOnly(events, Registrations(client, vaspace, uuid, after),
                       "uvm_vaspace_registration_missing_or_ambiguous");
    var init :- TheOnly(events, Initializations(reg.op.fd, reg.seqNo), "uvm_owned_single_process_fd_required");
    :- Need(init.op.flags == 0, "uvm_owned_single_process_fd_required");
    var mm :- TheOnly(events, MmInitializations(reg.op.fd, init.seqNo), "uvm_mm_lifetime_binding_missing");
    :- Need(mm.status == 0 || mm.status == MM_NOTHING_TO_DO, "uvm_mm_lifetime_binding_missing");
    var liveFds := if mm.status == 0 then {reg.op.fd, mm.op.fd} else {reg.op.fd};
    :- Need(!ClosedAfter(events, init.seqNo, liveFds), "uvm_fd_closed_or_reused");
    Ok(Descriptor(reg, init, mm))
  }

  function ResolveUvm(events: seq<Event>, identity: Identity, owned: OwnedVaspace): (r: Result<UvmBinding>)
    requires owned.channel.op.Alloc? && IsAllocation(owned.vaspace.op)
    ensures r.Ok? ==>
              && r.value.register.op.UvmRegisterVaspace? && r.value.mm.op.UvmMmInitialize?
              && r.value.init.op.UvmInitialize? && r.value.channel.op.UvmRegisterChannel?
  {
    var client, uuid, ca, va := identity.hClient, identity.uuid, owned.channel, owned.vaspace;
    var uvm :- ResolveDescriptor(events, client, uuid, va.op.handle, va.seqNo);
    var reg, init := uvm.register, uvm.init;
    var cr :- TheOnly(events, ChannelRegistrations(client, ca.op.handle, uuid, reg.op.fd, ca.seqNo),
                      "channel_not_bound_to_uvm_vaspace");
    :- Need(reg.op.sig == init.op.sig && reg.op.rmFd == ca.op.fd && reg.op.rmSig == ca.op.sig &&
            cr.op.sig == init.op.sig && cr.op.rmFd == ca.op.fd && cr.op.rmSig == ca.op.sig,
            "uvm_rm_fd_binding_mismatch");
    :- Need(!VaspaceChangedAfter(events, reg.seqNo, reg.op.fd, uuid), "uvm_vaspace_changed");
    :- Need(!ChannelUnregisteredAfter(events, cr.seqNo, client, ca.op.handle), "uvm_channel_unregistered");
    Ok(UvmBinding(reg, init, uvm.mm, cr))
  }

  /** The external mapping over the ring, and the range event it is matched to. */
  datatype GpuMapping = GpuMapping(mapping: Event, range: Event)

  /** Why one later event on the UVM descriptor stops the analysis. */
  function Objection(e: Event, fd: int, mapSeq: nat, rangeBase: nat, base: nat, size: nat): Option<string> {
    if e.seqNo <= mapSeq || !Succeeded(e) then None
    else
      match e.op
      case UvmUnreviewed(f) => if f == fd then Some("unreviewed_uvm_operation_after_mapping") else None
      case UvmFree(f, b) => if f == fd && b == rangeBase then Some("uvm_range_freed") else None
      case UvmUnmapExternal(f, b, n, _) =>
        if f == fd && Overlaps(base, size, b, n) then Some("gpu_va_range_changed_after_mapping") else None
      case UvmOtherRange(f, b, n) =>
        if f == fd && Overlaps(base, size, b, n) then Some("gpu_va_range_changed_after_mapping") else None
      case UvmMapExternal(f, _, _, _, _, _, b, n, _, _) =>
        if f == fd && Overlaps(base, size, b, n) then Some("gpu_va_range_changed_after_mapping") else None
      case UvmCreateRange(f, b, n) =>
        if f == fd && Overlaps(base, size, b, n) then Some("gpu_va_range_changed_after_mapping") else None
      case _ => None
  }

  /** The loop that raises on the first objectionable event. */
  function Unchanged(events: seq<Event>, i: nat, fd: int, mapSeq: nat, rangeBase: nat, base: nat, size: nat)
    : (r: Requirement)
    requires i <= |events|
    ensures r.Met? <==> forall j :: i <= j < |events| ==> Objection(events[j], fd, mapSeq, rangeBase, base, size).None?
    decreases |events| - i
  {
    if i == |events| then Met
    else
      match Objection(events[i], fd, mapSeq, rangeBase, base, size)
      case Some(reason) => Unmet(reason)
      case None => Unchanged(events, i + 1, fd, mapSeq, rangeBase, base, size)
  }

  /** The external mapping over the ring, through the registered descriptors. */
  function ResolveMapping(events: seq<Event>, identity: Identity, ca: Event, uvm: UvmBinding): (r: Result<Event>)
    requires ca.op.Alloc? && ca.op.params.Some?
    requires uvm.register.op.UvmRegisterVaspace? && uvm.init.op.UvmInitialize?
    ensures r.Ok? ==> r.value.op.UvmMapExternal?
  {
    var p := ca.op.params.value;
    var gm :- TheOnly(events,
                      Mappings(uvm.register.op.fd, identity.hClient, identity.uuid, p.gpfifoVa, p.gpfifoEntries * 8),
                      "gpu_va_mapping_missing_or_ambiguous");
    :- Need(gm.seqNo > uvm.register.seqNo && gm.op.rmFd == ca.op.fd && gm.op.rmSig == ca.op.sig &&
            gm.op.sig == uvm.init.op.sig, "gpu_va_map_fd_mismatch");
    :- Need(|gm.op.attributes| == 1 && gm.op.attributes[0].uuid == identity.uuid &&
            gm.op.attributes[0].mappingType in {1, 2, 3}, "gpu_va_map_uuid_or_access");
    Ok(gm)
  }

  function ResolveGpuMapping(events: seq<Event>, identity: Identity, owned: OwnedVaspace, uvm: UvmBinding,
                             userd: UserdBinding): (r: Result<GpuMapping>)
    requires owned.channel.op.Alloc? && owned.channel.op.params.Some?
    requires |owned.channel.op.params.value.userdHandles| > 0
    requires uvm.register.op.UvmRegisterVaspace? && uvm.init.op.UvmInitialize?
    ensures r.Ok? ==> r.value.mapping.op.UvmMapExternal? && r.value.range.op.UvmCreateRange?
  {
    var p, fd := owned.channel.op.params.value, uvm.register.op.fd;
    var gm :- ResolveMapping(events, identity, owned.channel, uvm);
    :- Need(gm.op.memory == p.userdHandles[0], "ring_not_in_validated_userd_memory_object");
    var ma :- Birth(events, identity.hClient, gm.op.memory);
    :- Need(ma.seqNo == userd.memoryAllocSeq && ma.seqNo < gm.seqNo, "ring_memory_generation_changed");
    var range :- TheOnly(events, Ranges(fd, uvm.init.seqNo, gm.seqNo, gm.op.base, gm.op.length),
                         "external_range_lifetime_missing_or_ambiguous");
    :- Unchanged(events, 0, fd, gm.seqNo, range.op.base, p.gpfifoVa, p.gpfifoEntries * 8);
    Ok(GpuMapping(gm, range))
  }

  datatype RingBinding = RingBinding(
    cpuAddress: int, entries: nat, memoryOffset: int, memoryGeneration: nat,
    ctxshareAllocSeq: nat, vaspaceAllocSeq: nat, gpuMapSeq: nat, uvmRegisterSeq: nat, uvmChannelSeq: nat,
    mmStatus: int, memoryAllocSeq: nat, rmMapSeq: nat, mmapSeq: nat)

  /** Sequence numbers are positions in a numbered log. */
  function EventNumbered(events: seq<Event>, seqNo: nat): Option<Event> {
    if 0 < seqNo <= |events| && events[seqNo - 1].seqNo == seqNo then Some(events[seqNo - 1]) else None
  }

  /** Place the ring in the CPU mapping already validated for the USERD block. */
  function PlaceRing(events: seq<Event>, owned: OwnedVaspace, uvm: UvmBinding, gpu: GpuMapping,
                     userd: UserdBinding, vmas: seq<Vma>): Result<RingBinding>
    requires owned.channel.op.Alloc? && owned.channel.op.params.Some?
    requires gpu.mapping.op.UvmMapExternal?
  {
    var p := owned.channel.op.params.value;
    var size := p.gpfifoEntries * 8;
    var setup := EventNumbered(events, userd.rmMapSeq);
    var mapping := EventNumbered(events, userd.mmapSeq);
    :- Need(setup.Some? && setup.value.op.MapMemory? && mapping.Some? && mapping.value.op.Mmap?,
            "userd_mapping_events_missing");
    var offset := gpu.mapping.op.offset + p.gpfifoVa - gpu.mapping.op.base;
    :- Need(setup.value.op.offset <= offset && offset + size <= setup.value.op.offset + setup.value.op.length,
            "ring_outside_existing_cpu_mapping");
    var cpu := mapping.value.op.address + offset - setup.value.op.offset;
    :- Need(cpu == userd.userdCpuAddress + offset - userd.userdOffset && cpu % 8 == 0,
            "ring_memory_offset_mismatch");
    :- Need(|LiveVmas(vmas, mapping.value, cpu, size)| == 1, "ring_existing_readable_vma_missing");
    Ok(RingBinding(cpu, p.gpfifoEntries, offset, userd.memoryGeneration, owned.share.seqNo, owned.vaspace.seqNo,
                   gpu.mapping.seqNo, uvm.register.seqNo, uvm.channel.seqNo, uvm.mm.status,
                   userd.memoryAllocSeq, setup.value.seqNo, mapping.value.seqNo))
  }

  function ResolveRing(events: seq<Event>, identity: Identity, channel: nat,
                       userd: UserdBinding, vmas: seq<Vma>): Result<RingBinding>
  {
    var owned :- ResolveVaspace(events, identity, channel);
    var uvm :- ResolveUvm(events, identity, owned);
    var gpu :- ResolveGpuMapping(events, identity, owned, uvm, userd);
    PlaceRing(events, owned, uvm, gpu, userd, vmas)
  }
}
