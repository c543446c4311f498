/** Exactly when `resolve_ring` accepts, and with what: the demands written out over
    the log and the replayed machine, apart from the functions that check them. */
module RingAcceptance {
  import Hardware
  import opened Results
  import opened EventLog
  import opened Kernel
  import opened LiveObjects
  import opened UserdMapping
  import opened GpfifoBinding
  import opened ChannelAcceptance

  // ----- The channel's VA space

  predicate Sizes(n: nat) {
    n in {1, 2, 4, 8, 16, 32, 64, 128, 256, 512, 1024, 2048, 4096}
  }

  /** The live channel names a live context share of the owned group instead of a VA
      space, that share a live VA space of the owned device, each older than the one
      that names it; the ring has a supported size and alignment. */
  ghost predicate SharesSpace(k: State, identity: Identity, channel: nat, ca: Event, cs: Event, va: Event) {
    && Lives(k, identity.hClient, channel, ca) && ca.op.Alloc? && ca.op.params.Some?
    && var p := ca.op.params.value;
    && |p.userdHandles| > 0 && p.vaspace == 0 && p.contextShare != 0
    && Lives(k, identity.hClient, p.contextShare, cs) && cs.op.Alloc?
    && cs.op.class_ == 0x9067 && cs.op.parent == identity.group.handle && cs.seqNo < ca.seqNo
    && cs.op.ctxshareVaspace != 0
    && Lives(k, identity.hClient, cs.op.ctxshareVaspace, va)
    && va.op.class_ == 0x90f1 && va.op.parent == identity.device.handle && va.seqNo < cs.seqNo
    && Sizes(p.gpfifoEntries) && p.gpfifoVa % 8 == 0
  }

  lemma SizesExactly(n: nat)
    ensures Sizes(n) <==> 0 < n <= 4096 && Hardware.PowerOfTwo(n)
  {
    if 0 < n <= 4096 {
      Hardware.SmallPowers(n);
    }
  }

  lemma SharingExactly(events: seq<Event>, client: nat, channel: nat, ca: Event)
    requires Numbered(events)
    ensures SharingChannel(events, client, channel) == Ok(ca) <==>
              && Lives(Replay(events, |events|), client, channel, ca) && ca.op.Alloc? && ca.op.params.Some?
              && |ca.op.params.value.userdHandles| > 0
              && ca.op.params.value.vaspace == 0 && ca.op.params.value.contextShare != 0
  {
    hide Birth, Replay, Lives;
    BirthMeansLives(events, client, channel, ca);
  }

  lemma ShareExactly(events: seq<Event>, identity: Identity, share: nat, before: nat, cs: Event)
    requires Numbered(events)
    ensures ContextShare(events, identity, share, before) == Ok(cs) <==>
              && Lives(Replay(events, |events|), identity.hClient, share, cs) && cs.op.Alloc?
              && cs.op.class_ == 0x9067 && cs.op.parent == identity.group.handle && cs.seqNo < before
              && cs.op.ctxshareVaspace != 0
  {
    hide Birth, Replay, Lives;
    BirthMeansLives(events, identity.hClient, share, cs);
  }

  lemma VaspaceExactly(events: seq<Event>, identity: Identity, channel: nat, owned: OwnedVaspace)
    requires Numbered(events)
    ensures ResolveVaspace(events, identity, channel) == Ok(owned) <==>
              SharesSpace(Replay(events, |events|), identity, channel, owned.channel, owned.share, owned.vaspace)
  {
    hide Birth, Replay, Lives, Sizes, Hardware.PowerOfTwo, SharingChannel, ContextShare;
    SharingExactly(events, identity.hClient, channel, owned.channel);
    if owned.channel.op.Alloc? && owned.channel.op.params.Some? {
      var p := owned.channel.op.params.value;
      ShareExactly(events, identity, p.contextShare, owned.channel.seqNo, owned.share);
      SizesExactly(p.gpfifoEntries);
    }
    if owned.share.op.Alloc? {
      BirthMeansLives(events, identity.hClient, owned.share.op.ctxshareVaspace, owned.vaspace);
    }
  }

  // ----- The only event of a kind

  ghost predicate IsOnly(events: seq<Event>, q: Query, e: Event) {
    exists i: nat :: OnlyAt(events, |events|, q, i) && e == events[i]
  }

  ghost predicate OnlyAt(events: seq<Event>, n: nat, q: Query, i: nat)
    requires n <= |events|
  {
    && i < n && Picks(q, events[i])
    && forall j :: 0 <= j < n && Picks(q, events[j]) ==> j == i
  }

  predicate Fine(e: Event) {
    e.rc == 0 && e.status == 0
  }

  /** What each comprehension over the log picks. */
  predicate Picks(q: Query, e: Event) {
    match (q, e.op)
    case (Registrations(client, vaspace, uuid, after), UvmRegisterVaspace(_, _, c, v, _, _, u)) =>
      Fine(e) && c == client && v == vaspace && u == uuid && e.seqNo > after
    case (Initializations(fd, before), UvmInitialize(f, _, _)) => Fine(e) && f == fd && e.seqNo < before
    case (MmInitializations(fd, after), UvmMmInitialize(_, u)) => e.rc == 0 && u == fd && e.seqNo > after
    case (ChannelRegistrations(client, channel, uuid, fd, after), UvmRegisterChannel(f, _, c, h, _, _, u)) =>
      Fine(e) && c == client && h == channel && u == uuid && f == fd && e.seqNo > after
    case (Mappings(fd, client, uuid, base, size), UvmMapExternal(f, _, c, _, _, _, b, n, _, attributes)) =>
      Fine(e) && f == fd && c == client && b <= base && base + size <= b + n &&
      !(forall i :: 0 <= i < |attributes| ==> attributes[i].uuid != uuid)
    case (Ranges(fd, after, before, base, length), UvmCreateRange(f, b, n)) =>
      Fine(e) && f == fd && after < e.seqNo && e.seqNo < before && b == base && n == length
    case _ => false
  }

  lemma PicksExactly(q: Query, e: Event)
    ensures Picks(q, e) <==> Selects(q, e)
  {
  }

  lemma {:induction false} SelectNone(events: seq<Event>, n: nat, q: Query)
    requires n <= |events|
    ensures Select(events, n, q) == [] <==> forall i :: 0 <= i < n ==> !Picks(q, events[i])
  {
    hide Picks, Selects;
    if n > 0 {
      SelectNone(events, n - 1, q);
      PicksExactly(q, events[n - 1]);
    }
  }

  lemma {:induction false} SelectOne(events: seq<Event>, n: nat, q: Query, i: nat)
    requires n <= |events| && OnlyAt(events, n, q, i)
    ensures Select(events, n, q) == [events[i]]
  {
    hide Picks, Selects;
    PicksExactly(q, events[n - 1]);
    if i == n - 1 {
      SelectNone(events, n - 1, q);
    } else {
      SelectOne(events, n - 1, q, i);
    }
  }

  lemma {:induction false} FindOnly(events: seq<Event>, n: nat, q: Query) returns (i: nat)
    requires n <= |events| && |Select(events, n, q)| == 1
    ensures OnlyAt(events, n, q, i)
  {
    hide Picks, Selects;
    PicksExactly(q, events[n - 1]);
    if Selects(q, events[n - 1]) {
      i := n - 1;
      SelectNone(events, n - 1, q);
    } else {
      i := FindOnly(events, n - 1, q);
    }
  }

  lemma TheOnlyExactly(events: seq<Event>, q: Query, reason: string, e: Event)
    ensures TheOnly(events, q, reason) == Ok(e) <==> IsOnly(events, q, e)
  {
    hide Picks, Selects, Select;
    if |Select(events, |events|, q)| == 1 {
      var i := FindOnly(events, |events|, q);
      SelectOne(events, |events|, q, i);
      assert OnlyAt(events, |events|, q, i);
    }
    if i: nat :| OnlyAt(events, |events|, q, i) && e == events[i] {
      SelectOne(events, |events|, q, i);
    }
  }

  // ----- The descriptor

  /** The VA space is registered once, on a descriptor initialized once before, for one
      process, and tied once to the memory map; neither descriptor that must stay open
      was closed. */
  ghost predicate DescriptorFits(events: seq<Event>, client: nat, uuid: string, va: Event, reg: Event, init: Event, mm: Event) {
    && IsAllocation(va.op) && IsOnly(events, Registrations(client, va.op.handle, uuid, va.seqNo), reg)
    && reg.op.UvmRegisterVaspace? && IsOnly(events, Initializations(reg.op.fd, reg.seqNo), init)
    && init.op.UvmInitialize? && init.op.flags == 0 && IsOnly(events, MmInitializations(reg.op.fd, init.seqNo), mm)
    && mm.op.UvmMmInitialize? && mm.status in {0, 0x10006}
    && forall k :: 0 <= k < |events| && events[k].seqNo > init.seqNo ==>
         !ClosesOne(events[k], reg.op.fd, mm.op.fd, mm.status == 0)
  }

  predicate ClosesOne(e: Event, fd: int, second: int, both: bool) {
    Fine(e) && match e.op
               case Close(f) => f == fd || (both && f == second)
               case _ => false
  }

  lemma IsOnlyKind(events: seq<Event>, q: Query, e: Event)
    requires IsOnly(events, q, e)
    ensures Selects(q, e)
  {
    hide Picks;
    var i: nat :| OnlyAt(events, |events|, q, i) && e == events[i];
    PicksExactly(q, e);
  }

  lemma ClosesExactly(events: seq<Event>, seqNo: nat, fd: int, second: int, both: bool)
    ensures ClosedAfter(events, seqNo, if both then {fd, second} else {fd}) <==>
              !(forall k :: 0 <= k < |events| && events[k].seqNo > seqNo ==> !ClosesOne(events[k], fd, second, both))
  {
    var fds := if both then {fd, second} else {fd};
    forall k | 0 <= k < |events|
      ensures ClosesOne(events[k], fd, second, both) <==>
                events[k].op.Close? && Succeeded(events[k]) && events[k].op.fd in fds
    {
    }
  }

  lemma DescriptorExactly(events: seq<Event>, client: nat, uuid: string, va: Event, d: Descriptor)
    requires IsAllocation(va.op)
    ensures ResolveDescriptor(events, client, uuid, va.op.handle, va.seqNo) == Ok(d) <==>
              DescriptorFits(events, client, uuid, va, d.register, d.init, d.mm)
  {
    hide TheOnly, IsOnly, ClosedAfter, ClosesOne;
    TheOnlyExactly(events, Registrations(client, va.op.handle, uuid, va.seqNo),
                   "uvm_vaspace_registration_missing_or_ambiguous", d.register);
    if d.register.op.UvmRegisterVaspace? {
      var fd := d.register.op.fd;
      TheOnlyExactly(events, Initializations(fd, d.register.seqNo), "uvm_owned_single_process_fd_required", d.init);
      TheOnlyExactly(events, MmInitializations(fd, d.init.seqNo), "uvm_mm_lifetime_binding_missing", d.mm);
      if d.mm.op.UvmMmInitialize? {
        ClosesExactly(events, d.init.seqNo, fd, d.mm.op.fd, d.mm.status == 0);
      }
    }
  }

  // ----- The channel's registration

  /** The event registers the GPU's VA space on the descriptor anew, or takes it off. */
  predicate Reregisters(e: Event, fd: int, uuid: string) {
    Fine(e) && match e.op
               case UvmRegisterVaspace(f, _, _, _, _, _, u) => f == fd && u == uuid
               case UvmUnregisterVaspace(f, u) => f == fd && u == uuid
               case _ => false
  }

  predicate TakesChannel(e: Event, client: nat, channel: nat) {
    Fine(e) && match e.op
               case UvmUnregisterChannel(_, c, h) => c == client && h == channel
               case _ => false
  }

  /** Both registrations go through the channel's own RM descriptor, on the initialized
      one, and stand. */
  ghost predicate UvmFits(events: seq<Event>, identity: Identity, ca: Event, va: Event, uvm: UvmBinding) {
    && DescriptorFits(events, identity.hClient, identity.uuid, va, uvm.register, uvm.init, uvm.mm)
    && ca.op.Alloc?
    && IsOnly(events, ChannelRegistrations(identity.hClient, ca.op.handle, identity.uuid, uvm.register.op.fd, ca.seqNo),
              uvm.channel)
    && uvm.channel.op.UvmRegisterChannel?
    && uvm.register.op.sig == uvm.init.op.sig == uvm.channel.op.sig
    && uvm.register.op.rmFd == ca.op.fd == uvm.channel.op.rmFd
    && uvm.register.op.rmSig == ca.op.sig == uvm.channel.op.rmSig
    && (forall k :: 0 <= k < |events| && events[k].seqNo > uvm.register.seqNo ==>
          !Reregisters(events[k], uvm.register.op.fd, identity.uuid))
    && forall k :: 0 <= k < |events| && events[k].seqNo > uvm.channel.seqNo ==>
         !TakesChannel(events[k], identity.hClient, ca.op.handle)
  }

  lemma StandsExactly(events: seq<Event>, seqNo: nat, fd: int, uuid: string, client: nat, channel: nat)
    ensures VaspaceChangedAfter(events, seqNo, fd, uuid) <==>
              !(forall k :: 0 <= k < |events| && events[k].seqNo > seqNo ==> !Reregisters(events[k], fd, uuid))
    ensures ChannelUnregisteredAfter(events, seqNo, client, channel) <==>
              !(forall k :: 0 <= k < |events| && events[k].seqNo > seqNo ==> !TakesChannel(events[k], client, channel))
  {
    forall k | 0 <= k < |events|
      ensures Reregisters(events[k], fd, uuid) <==> ChangesVaspace(events[k], fd, uuid)
      ensures TakesChannel(events[k], client, channel) <==> UnregistersChannel(events[k], client, channel)
    {
    }
  }

  lemma UvmExactly(events: seq<Event>, identity: Identity, owned: OwnedVaspace, uvm: UvmBinding)
    requires owned.channel.op.Alloc? && IsAllocation(owned.vaspace.op)
    ensures ResolveUvm(events, identity, owned) == Ok(uvm) <==>
              UvmFits(events, identity, owned.channel, owned.vaspace, uvm)
  {
    hide TheOnly, IsOnly, ResolveDescriptor, DescriptorFits, VaspaceChangedAfter, ChannelUnregisteredAfter, Reregisters,
         TakesChannel;
    var ca, va := owned.channel, owned.vaspace;
    DescriptorExactly(events, identity.hClient, identity.uuid, va, Descriptor(uvm.register, uvm.init, uvm.mm));
    DescriptorKinds(events, identity, va, uvm);
    if uvm.register.op.UvmRegisterVaspace? {
      TheOnlyExactly(events,
                     ChannelRegistrations(identity.hClient, ca.op.handle, identity.uuid, uvm.register.op.fd, ca.seqNo),
                     "channel_not_bound_to_uvm_vaspace", uvm.channel);
      StandsExactly(events, uvm.register.seqNo, uvm.register.op.fd, identity.uuid, identity.hClient, ca.op.handle);
      StandsExactly(events, uvm.channel.seqNo, uvm.register.op.fd, identity.uuid, identity.hClient, ca.op.handle);
    }
  }

  lemma DescriptorKinds(events: seq<Event>, identity: Identity, va: Event, uvm: UvmBinding)
    ensures DescriptorFits(events, identity.hClient, identity.uuid, va, uvm.register, uvm.init, uvm.mm) ==>
              uvm.register.op.UvmRegisterVaspace? && uvm.init.op.UvmInitialize? && uvm.mm.op.UvmMmInitialize?
  {
  }

  // ----- The mapping

  /** A later event on the descriptor that the mapping of the ring may not have outlived. */
  predicate Upsets(e: Event, fd: int, hosted: nat, base: nat, size: nat) {
    Fine(e) && match e.op
               case UvmUnreviewed(f) => f == fd
               case UvmFree(f, b) => f == fd && b == hosted
               case UvmUnmapExternal(f, b, n, _) => f == fd && !Apart(base, size, b, n)
               case UvmOtherRange(f, b, n) => f == fd && !Apart(base, size, b, n)
               case UvmMapExternal(f, _, _, _, _, _, b, n, _, _) => f == fd && !Apart(base, size, b, n)
               case UvmCreateRange(f, b, n) => f == fd && !Apart(base, size, b, n)
               case _ => false
  }

  /** One external mapping holds the whole ring, for this GPU alone, readable or better,
      through the registered descriptors; it maps the live Memory object of the USERD
      block, and one range of just its size was created for it. */
  ghost predicate MappingFits(events: seq<Event>, identity: Identity, ca: Event, uvm: UvmBinding, userd: UserdBinding,
                              gpu: GpuMapping) {
    && ca.op.Alloc? && ca.op.params.Some? && |ca.op.params.value.userdHandles| > 0
    && uvm.register.op.UvmRegisterVaspace? && uvm.init.op.UvmInitialize?
    && var p, fd, gm := ca.op.params.value, uvm.register.op.fd, gpu.mapping;
    && IsOnly(events, Mappings(fd, identity.hClient, identity.uuid, p.gpfifoVa, p.gpfifoEntries * 8), gm)
    && gm.op.UvmMapExternal? && gm.seqNo > uvm.register.seqNo
    && gm.op.rmFd == ca.op.fd && gm.op.rmSig == ca.op.sig && gm.op.sig == uvm.init.op.sig
    && |gm.op.attributes| == 1 && gm.op.attributes[0].uuid == identity.uuid
    && 1 <= gm.op.attributes[0].mappingType <= 3
    && gm.op.memory == p.userdHandles[0]
    && (exists ma ::
          Lives(Replay(events, |events|), identity.hClient, gm.op.memory, ma) && ma.seqNo == userd.memoryAllocSeq < gm.seqNo)
    && IsOnly(events, Ranges(fd, uvm.init.seqNo, gm.seqNo, gm.op.base, gm.op.length), gpu.range)
    && gpu.range.op.UvmCreateRange?
    && forall k :: 0 <= k < |events| && events[k].seqNo > gm.seqNo ==>
         !Upsets(events[k], fd, gpu.range.op.base, p.gpfifoVa, p.gpfifoEntries * 8)
  }

  lemma UpsetsExactly(events: seq<Event>, fd: int, mapSeq: nat, hosted: nat, base: nat, size: nat)
    ensures Unchanged(events, 0, fd, mapSeq, hosted, base, size).Met? <==>
              forall k :: 0 <= k < |events| && events[k].seqNo > mapSeq ==> !Upsets(events[k], fd, hosted, base, size)
  {
    forall k | 0 <= k < |events|
      ensures Objection(events[k], fd, mapSeq, hosted, base, size).None? <==>
                !(events[k].seqNo > mapSeq && Upsets(events[k], fd, hosted, base, size))
    {
    }
  }

  lemma ResolveMappingExactly(events: seq<Event>, identity: Identity, ca: Event, uvm: UvmBinding, gm: Event)
    requires ca.op.Alloc? && ca.op.params.Some?
    requires uvm.register.op.UvmRegisterVaspace? && uvm.init.op.UvmInitialize?
    ensures var p := ca.op.params.value;
            ResolveMapping(events, identity, ca, uvm) == Ok(gm) <==>
              && IsOnly(events, Mappings(uvm.register.op.fd, identity.hClient, identity.uuid, p.gpfifoVa, p.gpfifoEntries * 8),
                        gm)
              && gm.op.UvmMapExternal? && gm.seqNo > uvm.register.seqNo
              && gm.op.rmFd == ca.op.fd && gm.op.rmSig == ca.op.sig && gm.op.sig == uvm.init.op.sig
              && |gm.op.attributes| == 1 && gm.op.attributes[0].uuid == identity.uuid
              && 1 <= gm.op.attributes[0].mappingType <= 3
  {
    hide TheOnly, IsOnly;
    var p := ca.op.params.value;
    TheOnlyExactly(events, Mappings(uvm.register.op.fd, identity.hClient, identity.uuid, p.gpfifoVa, p.gpfifoEntries * 8),
                   "gpu_va_mapping_missing_or_ambiguous", gm);
  }

  lemma MappingExactly(events: seq<Event>, identity: Identity, owned: OwnedVaspace, uvm: UvmBinding, userd: UserdBinding,
                       gpu: GpuMapping)
    requires Numbered(events) && owned.channel.op.Alloc? && owned.channel.op.params.Some?
    requires |owned.channel.op.params.value.userdHandles| > 0
    requires uvm.register.op.UvmRegisterVaspace? && uvm.init.op.UvmInitialize?
    ensures ResolveGpuMapping(events, identity, owned, uvm, userd) == Ok(gpu) <==>
              MappingFits(events, identity, owned.channel, uvm, userd, gpu)
  {
    hide TheOnly, IsOnly, ResolveMapping, Birth, Lives, Replay, Unchanged, Upsets;
    var p, fd, gm := owned.channel.op.params.value, uvm.register.op.fd, gpu.mapping;
    ResolveMappingExactly(events, identity, owned.channel, uvm, gm);
    if gm.op.UvmMapExternal? {
      BirthAs(events, identity.hClient, gm.op.memory, userd.memoryAllocSeq);
      TheOnlyExactly(events, Ranges(fd, uvm.init.seqNo, gm.seqNo, gm.op.base, gm.op.length),
                     "external_range_lifetime_missing_or_ambiguous", gpu.range);
      if gpu.range.op.UvmCreateRange? {
        UpsetsExactly(events, fd, gm.seqNo, gpu.range.op.base, p.gpfifoVa, p.gpfifoEntries * 8);
      }
    }
  }

  lemma BirthAs(events: seq<Event>, client: nat, handle: nat, seqNo: nat)
    requires Numbered(events)
    ensures var r := Birth(events, client, handle);
            r.Ok? && r.value.seqNo == seqNo <==>
              exists ma :: Lives(Replay(events, |events|), client, handle, ma) && ma.seqNo == seqNo
  {
    hide Birth, Lives, Replay;
    var r := Birth(events, client, handle);
    if r.Ok? {
      BirthMeansLives(events, client, handle, r.value);
    }
    if ma :| Lives(Replay(events, |events|), client, handle, ma) && ma.seqNo == seqNo {
      BirthMeansLives(events, client, handle, ma);
    }
  }

  // ----- The place on the CPU side

  /** The log's row number `seqNo`. */
  predicate RowIs(events: seq<Event>, seqNo: nat, e: Event) {
    1 <= seqNo <= |events| && events[seqNo - 1] == e
  }

  /** The ring lies inside the RM map of the USERD block, at the distance from it that the
      GPU mapping's offsets give, aligned, in one line of the memory map; and these are
      reported. */
  ghost predicate PlaceFits(events: seq<Event>, owned: OwnedVaspace, uvm: UvmBinding, gpu: GpuMapping,
                            userd: UserdBinding, vmas: seq<Vma>, ring: RingBinding, setup: Event, mm: Event) {
    && owned.channel.op.Alloc? && owned.channel.op.params.Some? && gpu.mapping.op.UvmMapExternal?
    && RowIs(events, userd.rmMapSeq, setup) && setup.op.MapMemory?
    && RowIs(events, userd.mmapSeq, mm) && mm.op.Mmap?
    && var p := owned.channel.op.params.value;
    && ring.memoryOffset == gpu.mapping.op.offset + p.gpfifoVa - gpu.mapping.op.base
    && setup.op.offset <= ring.memoryOffset
    && ring.memoryOffset + p.gpfifoEntries * 8 <= setup.op.offset + setup.op.length
    && ring.cpuAddress == mm.op.address + ring.memoryOffset - setup.op.offset
    && ring.cpuAddress - userd.userdCpuAddress == ring.memoryOffset - userd.userdOffset
    && ring.cpuAddress % 8 == 0
    && OneVma(vmas, mm, ring.cpuAddress, p.gpfifoEntries * 8)
    && ring.entries == p.gpfifoEntries && ring.memoryGeneration == userd.memoryGeneration
    && ring.ctxshareAllocSeq == owned.share.seqNo && ring.vaspaceAllocSeq == owned.vaspace.seqNo
    && ring.gpuMapSeq == gpu.mapping.seqNo && ring.uvmRegisterSeq == uvm.register.seqNo
    && ring.uvmChannelSeq == uvm.channel.seqNo && ring.mmStatus == uvm.mm.status
    && ring.memoryAllocSeq == userd.memoryAllocSeq && ring.rmMapSeq == userd.rmMapSeq && ring.mmapSeq == userd.mmapSeq
  }

  lemma PlaceExactly(events: seq<Event>, owned: OwnedVaspace, uvm: UvmBinding, gpu: GpuMapping, userd: UserdBinding,
                     vmas: seq<Vma>, ring: RingBinding)
    requires Numbered(events) && owned.channel.op.Alloc? && owned.channel.op.params.Some?
    requires gpu.mapping.op.UvmMapExternal?
    ensures PlaceRing(events, owned, uvm, gpu, userd, vmas) == Ok(ring) <==>
              exists setup, mm :: PlaceFits(events, owned, uvm, gpu, userd, vmas, ring, setup, mm)
  {
    hide LiveVmas, OneVma;
    var setup, mm := EventNumbered(events, userd.rmMapSeq), EventNumbered(events, userd.mmapSeq);
    if setup.Some? && mm.Some? && setup.value.op.MapMemory? && mm.value.op.Mmap? {
      PlaceAt(events, owned, uvm, gpu, userd, vmas, ring, setup.value, mm.value);
    }
    forall s, m | PlaceFits(events, owned, uvm, gpu, userd, vmas, ring, s, m)
      ensures setup == Some(s) && mm == Some(m)
    {
    }
  }

  lemma PlaceAt(events: seq<Event>, owned: OwnedVaspace, uvm: UvmBinding, gpu: GpuMapping, userd: UserdBinding,
                vmas: seq<Vma>, ring: RingBinding, setup: Event, mm: Event)
    requires Numbered(events) && owned.channel.op.Alloc? && owned.channel.op.params.Some?
    requires gpu.mapping.op.UvmMapExternal? && setup.op.MapMemory? && mm.op.Mmap?
    requires EventNumbered(events, userd.rmMapSeq) == Some(setup) && EventNumbered(events, userd.mmapSeq) == Some(mm)
    ensures PlaceRing(events, owned, uvm, gpu, userd, vmas) == Ok(ring) <==>
              PlaceFits(events, owned, uvm, gpu, userd, vmas, ring, setup, mm)
  {
    hide LiveVmas, OneVma;
    var p := owned.channel.op.params.value;
    var offset := gpu.mapping.op.offset + p.gpfifoVa - gpu.mapping.op.base;
    VmaExactly(vmas, mm, mm.op.address + offset - setup.op.offset, p.gpfifoEntries * 8);
  }

  // ----- Acceptance

  ghost predicate RingFits(events: seq<Event>, identity: Identity, channel: nat, userd: UserdBinding, vmas: seq<Vma>,
                           ring: RingBinding, owned: OwnedVaspace, uvm: UvmBinding, gpu: GpuMapping, setup: Event, mm: Event) {
    && SharesSpace(Replay(events, |events|), identity, channel, owned.channel, owned.share, owned.vaspace)
    && UvmFits(events, identity, owned.channel, owned.vaspace, uvm)
    && MappingFits(events, identity, owned.channel, uvm, userd, gpu)
    && PlaceFits(events, owned, uvm, gpu, userd, vmas, ring, setup, mm)
  }

  /** `resolve_ring` answers with a binding exactly if the channel's VA space is shared
      through live objects, the UVM registrations stand, the one mapping of the ring fits
      and is not upset, the ring has its place in the USERD's CPU mapping, and the binding
      reports just these. */
  lemma ResolveRingExactly(events: seq<Event>, identity: Identity, channel: nat, userd: UserdBinding, vmas: seq<Vma>,
                           ring: RingBinding)
    requires Numbered(events)
    ensures ResolveRing(events, identity, channel, userd, vmas) == Ok(ring) <==>
              exists owned, uvm, gpu, setup, mm ::
                RingFits(events, identity, channel, userd, vmas, ring, owned, uvm, gpu, setup, mm)
  {
    hide ResolveVaspace, ResolveUvm, ResolveGpuMapping, PlaceRing, SharesSpace, UvmFits, MappingFits, PlaceFits, Replay;
    if ResolveRing(events, identity, channel, userd, vmas) == Ok(ring) {
      var owned := ResolveVaspace(events, identity, channel).value;
      VaspaceExactly(events, identity, channel, owned);
      var uvm := ResolveUvm(events, identity, owned).value;
      UvmExactly(events, identity, owned, uvm);
      var gpu := ResolveGpuMapping(events, identity, owned, uvm, userd).value;
      MappingExactly(events, identity, owned, uvm, userd, gpu);
      PlaceExactly(events, owned, uvm, gpu, userd, vmas, ring);
      var setup, mm :| PlaceFits(events, owned, uvm, gpu, userd, vmas, ring, setup, mm);
      assert RingFits(events, identity, channel, userd, vmas, ring, owned, uvm, gpu, setup, mm);
    }
    if owned, uvm, gpu, setup, mm :| RingFits(events, identity, channel, userd, vmas, ring, owned, uvm, gpu, setup, mm) {
      VaspaceExactly(events, identity, channel, owned);
      UvmExactly(events, identity, owned, uvm);
      MappingExactly(events, identity, owned, uvm, userd, gpu);
      PlaceExactly(events, owned, uvm, gpu, userd, vmas, ring);
    }
  }
}
