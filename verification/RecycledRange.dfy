/** A concrete log that both analyzers accept although the ring is no longer
    mapped: the UVM range at the ring's base is freed, recreated with a lower
    base, and freed again by that lower base after the mapping. */
module RecycledRange {
  import opened Results
  import opened EventLog
  import opened Hardware
  import opened Kernel
  import opened LiveObjects
  import opened UserdMapping
  import opened MappingSoundness
  import opened GpfifoBinding
  import opened UvmLifetime
  import opened GpfifoSoundness
  import opened RingSquare

  const BASE: nat := 0x800000
  const CTL: FdSignature := FdSignature(1, 22, 3, Some("/dev/nvidiactl"))
  const GPU: FdSignature := FdSignature(1, 11, 2, Some("/dev/nvidia0"))
  const UVM: FdSignature := FdSignature(1, 55, 5, Some("/dev/nvidia-uvm"))
  const UUID: string := "a"
  const IDENTITY: Identity := Identity(1, 1, UUID, Owned(4, 4), Owned(2, 2), Owned(3, 3))
  const CHANNEL: Channel := Channel(6, 0xc56f, 6, 4, 4)
  const MEMORIES: seq<MemoryRecord> := [MemoryRecord(1, 5, 1, 5, 2, 2, 0x40)]
  const VMA: Vma := Vma(0x100000, 0x101000, "r--s", 0, 11, "/dev/nvidia0")
  const PARAMS: ChannelParams := ChannelParams([5], [512], BASE, 2, 0, 8)
  const LENGTH: nat := 19

  function Plain(handle: nat, parent: nat, class_: nat): Op {
    Alloc(4, CTL, 1, handle, parent, class_, 0, None, 0)
  }

  function OpAt(i: nat): Op {
    if i == 0 then Plain(1, 0, 0x41)
    else if i == 1 then Plain(2, 1, 0x80)
    else if i == 2 then Plain(3, 2, 0x2080)
    else if i == 3 then Plain(4, 2, 0xa06c)
    else if i == 4 then Plain(7, 2, 0x90f1)
    else if i == 5 then Alloc(4, CTL, 1, 8, 4, 0x9067, 0, None, 7)
    else if i == 6 then Plain(5, 2, 0x40)
    else if i == 7 then UvmInitialize(20, UVM, 0)
    else if i == 8 then UvmMmInitialize(21, 20)
    else if i == 9 then UvmRegisterVaspace(20, UVM, 1, 7, 4, CTL, UUID)
    else if i == 10 then MapMemory(1, 2, 5, 0, 4096, 0, 9, GPU)
    else if i == 11 then Mmap(9, GPU, 0x100000, 4096, 0, true, true, false)
    else if i == 12 then UvmCreateRange(20, BASE, 4096)
    else if i == 13 then UvmFree(20, BASE)
    else if i == 14 then UvmCreateRange(20, BASE - 4096, 8192)
    else if i == 15 then UvmMapExternal(20, UVM, 1, 5, 4, CTL, BASE, 4096, 0, [GpuAttribute(UUID, 1)])
    else if i == 16 then Alloc(4, CTL, 1, 6, 4, 0xc56f, 0, Some(PARAMS), 0)
    else if i == 17 then UvmRegisterChannel(20, UVM, 1, 6, 4, CTL, UUID)
    else UvmFree(20, BASE - 4096)
  }

  function EventAt(i: nat): Event {
    Event(i + 1, 10, 0, 0, OpAt(i))
  }

  function Log(): (events: seq<Event>)
    ensures |events| == LENGTH && forall i :: 0 <= i < LENGTH ==> events[i] == EventAt(i)
  {
    seq(LENGTH, i requires i >= 0 => EventAt(i))
  }

  // ----- Evaluating the searches

  lemma {:induction false} LastAllocationAt(events: seq<Event>, n: nat, client: nat, handle: nat, i: nat)
    requires i < n <= |events| && Allocates(events[i], client, handle)
    requires forall j :: i < j < n ==> !Allocates(events[j], client, handle)
    ensures LastAllocation(events, n, client, handle) == Some(i)
  {
    if n > i + 1 {
      LastAllocationAt(events, n - 1, client, handle, i);
    }
  }

  predicate AllocatesHere(i: nat, handle: nat) {
    IsAllocation(OpAt(i)) && OpAt(i).handle == handle && OpAt(i).client == 1
  }

  lemma NothingFreed(j: nat)
    ensures !OpAt(j).Free? && !OpAt(j).AllocMemory?
    ensures OpAt(j).Alloc? ==> OpAt(j).flags == 0 && OpAt(j).client == 1
  {
  }

  lemma BirthAt(handle: nat, i: nat)
    requires i < LENGTH && AllocatesHere(i, handle)
    requires forall j :: 0 <= j < LENGTH && j != i ==> !AllocatesHere(j, handle)
    ensures Birth(Log(), 1, handle) == Ok(EventAt(i))
  {
    hide OpAt;
    NothingFreed(i);
    forall j | i < j < LENGTH ensures !Allocates(EventAt(j), 1, handle) {
      NothingFreed(j);
      assert !AllocatesHere(j, handle);
    }
    LastAllocationAt(Log(), LENGTH, 1, handle, i);
    forall j | 0 <= j < LENGTH ensures !Frees(Log()[j], 1, handle) {
      NothingFreed(j);
    }
  }

  lemma {:induction false} SelectOne(events: seq<Event>, n: nat, q: Query, i: nat)
    requires n <= |events| && i < |events| && Selects(q, events[i])
    requires forall j :: 0 <= j < n && j != i ==> !Selects(q, events[j])
    ensures Select(events, n, q) == if i < n then [events[i]] else []
  {
    if n != 0 {
      SelectOne(events, n - 1, q, i);
    }
  }

  lemma OnlyAt(q: Query, i: nat, reason: string)
    requires i < LENGTH && Selects(q, EventAt(i))
    requires forall j :: 0 <= j < LENGTH && j != i ==> !Selects(q, EventAt(j))
    ensures TheOnly(Log(), q, reason) == Ok(EventAt(i))
  {
    SelectOne(Log(), LENGTH, q, i);
  }

  // ----- resolve_channel accepts

  const LAYOUT: Layout := Layout(EventAt(16), EventAt(6), 512, MEMORIES[0])
  const USERD: UserdBinding := UserdBinding(6, 5, 17, 7, 11, 12, 512, 4096, 2, 0x100200, BASE)

  lemma LayoutAccepted()
    ensures ChannelLayout(Log(), IDENTITY, CHANNEL, MEMORIES) == Ok(LAYOUT)
  {
    hide Birth, LastAllocation;
    BirthAt(6, 16);
    BirthAt(5, 6);
    BirthAt(1, 0);
    BirthAt(2, 1);
    BirthAt(3, 2);
    BirthAt(4, 3);
    assert OwnedRecords(MEMORIES, 1, 5) == MEMORIES by {
      assert MEMORIES[1..] == [];
    }
  }

  lemma {:induction false} FirstMmapAt(i: nat)
    requires i <= 11
    ensures FirstMmap(Log(), EventAt(10), i) == Some(EventAt(11))
    decreases 11 - i
  {
    if i < 11 {
      FirstMmapAt(i + 1);
    }
  }

  lemma CandidateFound()
    ensures CandidateOf(Log(), EventAt(10), IDENTITY, LAYOUT, [VMA]) ==
              Some(Candidate(EventAt(10), EventAt(11), 0x100200))
  {
    FirstMmapAt(0);
    assert !Invalidated(Log(), EventAt(11), 1, 5, LENGTH);
    assert LiveVmas([VMA], EventAt(11), 0x100200, USERD_BYTES) == [VMA] by {
      assert [VMA][1..] == [];
    }
  }

  lemma NoCandidate(i: nat)
    requires i < LENGTH && i != 10
    ensures CandidateOf(Log(), EventAt(i), IDENTITY, LAYOUT, [VMA]) == None
  {
    assert !MapsUserd(EventAt(i), IDENTITY, LAYOUT);
  }

  lemma {:induction false} OneCandidate(n: nat)
    requires n <= LENGTH
    ensures Candidates(Log(), n, IDENTITY, LAYOUT, [VMA]) ==
              if n <= 10 then [] else [Candidate(EventAt(10), EventAt(11), 0x100200)]
  {
    hide CandidateOf, OpAt;
    if n != 0 {
      OneCandidate(n - 1);
      if n - 1 == 10 {
        CandidateFound();
      } else {
        NoCandidate(n - 1);
      }
    }
  }

  lemma ChannelAccepted()
    ensures ResolveChannel(Log(), IDENTITY, CHANNEL, MEMORIES, [VMA]) == Ok(USERD)
  {
    hide ChannelLayout, Birth, Select;
    LayoutAccepted();
    OneCandidate(LENGTH);
  }

  // ----- resolve_ring accepts

  const OWNED: OwnedVaspace := OwnedVaspace(EventAt(16), EventAt(5), EventAt(4))
  const BOUND: UvmBinding := UvmBinding(EventAt(9), EventAt(7), EventAt(8), EventAt(17))
  const MAPPING: GpuMapping := GpuMapping(EventAt(15), EventAt(12))
  const RING: RingBinding := RingBinding(0x100000, 2, 0, 5, 6, 5, 16, 10, 18, 0, 7, 11, 12)

  lemma VaspaceAccepted()
    ensures ResolveVaspace(Log(), IDENTITY, 6) == Ok(OWNED)
  {
    hide Birth;
    BirthAt(6, 16);
    BirthAt(8, 5);
    BirthAt(7, 4);
    assert PowerOfTwo(2);
  }

  lemma TheRegistration()
    ensures TheOnly(Log(), Registrations(1, 7, UUID, 5), "uvm_vaspace_registration_missing_or_ambiguous") == Ok(EventAt(9))
  {
    hide TheOnly;
    OnlyAt(Registrations(1, 7, UUID, 5), 9, "uvm_vaspace_registration_missing_or_ambiguous");
  }

  lemma TheInitialization()
    ensures TheOnly(Log(), Initializations(20, 10), "uvm_owned_single_process_fd_required") == Ok(EventAt(7))
  {
    hide TheOnly;
    OnlyAt(Initializations(20, 10), 7, "uvm_owned_single_process_fd_required");
  }

  lemma TheMmInitialization()
    ensures TheOnly(Log(), MmInitializations(20, 8), "uvm_mm_lifetime_binding_missing") == Ok(EventAt(8))
  {
    hide TheOnly;
    OnlyAt(MmInitializations(20, 8), 8, "uvm_mm_lifetime_binding_missing");
  }

  lemma TheChannelRegistration()
    ensures TheOnly(Log(), ChannelRegistrations(1, 6, UUID, 20, 17), "channel_not_bound_to_uvm_vaspace") == Ok(EventAt(17))
  {
    hide TheOnly;
    OnlyAt(ChannelRegistrations(1, 6, UUID, 20, 17), 17, "channel_not_bound_to_uvm_vaspace");
  }

  lemma NothingUnregistered()
    ensures !ClosedAfter(Log(), 8, {20, 21})
    ensures !VaspaceChangedAfter(Log(), 10, 20, UUID)
    ensures !ChannelUnregisteredAfter(Log(), 18, 1, 6)
  {
  }

  lemma UvmEvents()
    ensures EventAt(9).op == UvmRegisterVaspace(20, UVM, 1, 7, 4, CTL, UUID)
    ensures EventAt(7).op == UvmInitialize(20, UVM, 0)
    ensures EventAt(8).op == UvmMmInitialize(21, 20)
    ensures EventAt(17).op == UvmRegisterChannel(20, UVM, 1, 6, 4, CTL, UUID)
    ensures EventAt(16).op == Alloc(4, CTL, 1, 6, 4, 0xc56f, 0, Some(PARAMS), 0)
    ensures EventAt(4).op == Plain(7, 2, 0x90f1)
  {
  }

  lemma UvmAccepted()
    ensures ResolveUvm(Log(), IDENTITY, OWNED) == Ok(BOUND)
  {
    hide TheOnly, ClosedAfter, VaspaceChangedAfter, ChannelUnregisteredAfter, Selects, Log, OpAt;
    UvmEvents();
    TheRegistration();
    TheInitialization();
    TheMmInitialization();
    TheChannelRegistration();
    NothingUnregistered();
  }

  lemma TheMapping()
    ensures TheOnly(Log(), Mappings(20, 1, UUID, BASE, 16), "gpu_va_mapping_missing_or_ambiguous") == Ok(EventAt(15))
  {
    hide TheOnly;
    assert Selects(Mappings(20, 1, UUID, BASE, 16), EventAt(15)) by {
      assert OpAt(15).attributes[0].uuid == UUID;
    }
    OnlyAt(Mappings(20, 1, UUID, BASE, 16), 15, "gpu_va_mapping_missing_or_ambiguous");
  }

  lemma TheRange()
    ensures TheOnly(Log(), Ranges(20, 8, 16, BASE, 4096), "external_range_lifetime_missing_or_ambiguous") == Ok(EventAt(12))
  {
    hide TheOnly;
    OnlyAt(Ranges(20, 8, 16, BASE, 4096), 12, "external_range_lifetime_missing_or_ambiguous");
  }

  lemma MappingAccepted()
    ensures ResolveGpuMapping(Log(), IDENTITY, OWNED, BOUND, USERD) == Ok(MAPPING)
  {
    hide TheOnly, Birth, Unchanged, Selects, Log, OpAt;
    TheMapping();
    TheRange();
    NothingObjected();
    MemoryBirth();
    MappingEvents();
  }

  lemma MemoryBirth()
    ensures Birth(Log(), 1, 5) == Ok(EventAt(6))
  {
    BirthAt(5, 6);
  }

  lemma MappingEvents()
    ensures EventAt(15).op == UvmMapExternal(20, UVM, 1, 5, 4, CTL, BASE, 4096, 0, [GpuAttribute(UUID, 1)])
    ensures EventAt(12).op == UvmCreateRange(20, BASE, 4096)
    ensures EventAt(16).op == Alloc(4, CTL, 1, 6, 4, 0xc56f, 0, Some(PARAMS), 0)
    ensures EventAt(9).op == UvmRegisterVaspace(20, UVM, 1, 7, 4, CTL, UUID)
    ensures EventAt(7).op == UvmInitialize(20, UVM, 0)
  {
  }

  lemma NothingObjected()
    ensures Unchanged(Log(), 0, 20, 16, BASE, BASE, 16) == Met
  {
    forall j | 0 <= j < LENGTH ensures Objection(EventAt(j), 20, 16, BASE, BASE, 16).None? {
    }
  }

  lemma RingAccepted()
    ensures ResolveRing(Log(), IDENTITY, 6, USERD, [VMA]) == Ok(RING)
  {
    hide ResolveVaspace, ResolveUvm, ResolveGpuMapping;
    VaspaceAccepted();
    UvmAccepted();
    MappingAccepted();
    RingPlaced();
  }

  lemma RingPlaced()
    ensures PlaceRing(Log(), OWNED, BOUND, MAPPING, USERD, [VMA]) == Ok(RING)
  {
    hide LiveVmas;
    assert LiveVmas([VMA], EventAt(11), 0x100000, 16) == [VMA] by {
      RingVma();
    }
  }

  lemma RingVma()
    ensures LiveVmas([VMA], EventAt(11), 0x100000, 16) == [VMA]
  {
    assert [VMA][1..] == [];
  }

  // ----- The machine over this log

  lemma {:induction false} NothingMappedYet(n: nat)
    requires n <= 11
    ensures Replay(Log(), n).cpu == map[]
  {
    hide OpAt;
    if n != 0 {
      NothingMappedYet(n - 1);
      KeepsCpu(Replay(Log(), n - 1), n - 1);
    }
  }

  lemma KeepsCpu(k: State, n: nat)
    requires n < 11
    ensures Step(k, EventAt(n)).cpu == k.cpu
  {
  }

  function RangesAt(n: nat): map<int, Range> {
    if n <= 12 then map[]
    else if n == 13 then map[BASE := Range(4096, true)]
    else if n == 14 then map[]
    else map[BASE - 4096 := Range(8192, true)]
  }

  lemma RangesStep(k: State, n: nat)
    requires 8 <= n < 18 && 20 in k.spaces && k.spaces[20].ranges == RangesAt(n)
    ensures var after := Step(k, EventAt(n)).spaces; 20 in after && after[20].ranges == RangesAt(n + 1)
  {
    hide Generation, GpuBytes;
    if n < 12 {
    } else if n < 15 {
    } else {
    }
  }

  lemma {:induction false} SpaceRanges(n: nat)
    requires 8 <= n <= 18
    ensures 20 in Replay(Log(), n).spaces && Replay(Log(), n).spaces[20].ranges == RangesAt(n)
  {
    hide OpAt;
    if n == 8 {
      NothingInitialized();
    } else {
      hide Step, RangesAt;
      SpaceRanges(n - 1);
      RangesStep(Replay(Log(), n - 1), n - 1);
    }
  }

  lemma NothingInitialized()
    ensures 20 in Replay(Log(), 8).spaces && Replay(Log(), 8).spaces[20].ranges == map[]
  {
    hide Replay;
    NoSpaceBefore(Log(), 7, 20);
    assert Replay(Log(), 8) == Step(Replay(Log(), 7), EventAt(7)) by {
      ReplayUnfolds(8);
    }
  }

  lemma ReplayUnfolds(n: nat)
    requires 0 < n <= LENGTH
    ensures Replay(Log(), n) == Step(Replay(Log(), n - 1), EventAt(n - 1))
  {
  }

  lemma LawfulAt(n: nat)
    requires n < LENGTH
    ensures Lawful(Replay(Log(), n), EventAt(n))
  {
    hide Replay;
    if n == 11 {
      NothingMappedYet(n);
    }
    if 8 <= n <= 18 {
      SpaceRanges(n);
    }
    if n == 15 {
      assert HostedBy(Replay(Log(), n).spaces[20], BASE - 4096, BASE, 4096);
    }
  }

  /** The square is false of this accepted, well-formed log. */
  lemma AcceptedRingMayBeUnmapped()
    ensures WellFormed(Log())
    ensures ResolveChannel(Log(), IDENTITY, CHANNEL, MEMORIES, [VMA]) == Ok(USERD)
    ensures ResolveRing(Log(), IDENTITY, CHANNEL.handle, USERD, [VMA]) == Ok(RING)
    ensures HostFreedLater(Log(), 15)
    ensures !RingCommutes(Replay(Log(), LENGTH), IDENTITY, 20, BASE, 5, USERD, RING)
  {
    hide Replay, Lawful, ResolveChannel, ResolveRing, RingCommutes, OpAt, HostFreedLater;
    forall i | 0 <= i < LENGTH ensures Lawful(Replay(Log(), i), Log()[i]) {
      LawfulAt(i);
    }
    ChannelAccepted();
    RingAccepted();
    HostFreed();
    RingSquareExactly(Log(), IDENTITY, CHANNEL, MEMORIES, [VMA], USERD, RING);
    Owner();
  }

  lemma HostFreed()
    ensures EventAt(15).op.UvmMapExternal? && EventAt(15).op.fd == 20
    ensures HostFreedLater(Log(), 15)
  {
    hide Replay;
    SpaceRanges(15);
    assert HostedBy(Replay(Log(), 15).spaces[20], BASE - 4096, BASE, 4096);
    assert FreesRange(Log()[18], 20, BASE - 4096);
    assert FreesHost(Log(), 15, LENGTH, 20, BASE - 4096);
  }

  lemma Owner()
    ensures RingOwner(Log(), IDENTITY, 6) == Some(PARAMS)
  {
    hide Birth;
    BirthAt(6, 16);
  }
}
