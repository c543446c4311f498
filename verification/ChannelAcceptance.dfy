/** Exactly when `resolve_channel` accepts, and with what: the demands written out
    over the log and the replayed machine, apart from the functions that check them. */
module ChannelAcceptance {
  import opened Results
  import opened EventLog
  import opened Kernel
  import opened LiveObjects
  import opened UserdMapping

  /** The machine holds the handle live, as allocated by this event of known encoding. */
  ghost predicate Lives(k: State, client: nat, handle: nat, e: Event) {
    && (client, handle) in k.objects && k.objects[(client, handle)] == e
    && (e.op.AllocMemory? || (e.op.Alloc? && e.op.flags == 0))
  }

  lemma BirthMeansLives(events: seq<Event>, client: nat, handle: nat, e: Event)
    requires Numbered(events)
    ensures Birth(events, client, handle) == Ok(e) <==> Lives(Replay(events, |events|), client, handle, e)
  {
    hide Birth, Replay;
    BirthIsLiveObject(events, client, handle, e);
  }

  ghost predicate SomeoneLives(k: State, client: nat, handle: nat) {
    exists e :: Lives(k, client, handle, e)
  }

  lemma BirthOkMeansLives(events: seq<Event>, client: nat, handle: nat)
    requires Numbered(events)
    ensures Birth(events, client, handle).Ok? <==> SomeoneLives(Replay(events, |events|), client, handle)
  {
    hide Birth, Replay, Lives;
    var r := Birth(events, client, handle);
    if r.Ok? {
      BirthMeansLives(events, client, handle, r.value);
    }
    if e :| Lives(Replay(events, |events|), client, handle, e) {
      BirthMeansLives(events, client, handle, e);
    }
  }

  // ----- The layout

  /** `i` is the one record of the Memory object. */
  predicate OnlyRecord(memories: seq<MemoryRecord>, client: nat, memory: nat, i: nat) {
    && i < |memories| && memories[i].client == client && memories[i].handle == memory
    && forall j :: 0 <= j < |memories| && memories[j].client == client && memories[j].handle == memory ==> j == i
  }

  /** The channel is a live object of the supported class in the owned group, with one
      USERD handle. */
  ghost predicate ChannelFits(k: State, identity: Identity, channel: Channel, ca: Event) {
    && channel.class_ == 0xc56f && channel.generation > 0
    && channel.parent == identity.group.handle && channel.parentGeneration == identity.group.generation
    && Lives(k, identity.hClient, channel.handle, ca)
    && ca.op.Alloc? && ca.op.class_ == 0xc56f && ca.op.parent == identity.group.handle && ca.op.params.Some?
    && var p := ca.op.params.value;
    && 0 < |p.userdHandles| == |p.userdOffsets| && p.userdHandles[0] != 0
    && (forall i :: 0 < i < |p.userdHandles| ==> p.userdHandles[i] == 0)
    && p.userdOffsets[0] % 512 == 0 && 0 < p.gpfifoEntries
  }

  /** The Memory object is a live child of the owned device, allocated before the channel,
      and has one record, which says the same. */
  ghost predicate MemoryFits(k: State, identity: Identity, memories: seq<MemoryRecord>, memory: nat, before: nat,
                             ma: Event, i: nat) {
    && OnlyRecord(memories, identity.hClient, memory, i)
    && memories[i].clientGeneration == identity.clientGeneration && memories[i].generation > 0
    && memories[i].parent == identity.device.handle && memories[i].parentGeneration == identity.device.generation
    && Lives(k, identity.hClient, memory, ma)
    && ma.op.class_ == memories[i].class_ && ma.op.parent == identity.device.handle && ma.seqNo < before
  }

  ghost predicate OwnersFit(k: State, identity: Identity) {
    && SomeoneLives(k, identity.hClient, identity.hClient)
    && SomeoneLives(k, identity.hClient, identity.device.handle)
    && SomeoneLives(k, identity.hClient, identity.subdevice.handle)
    && SomeoneLives(k, identity.hClient, identity.group.handle)
  }

  ghost predicate LayoutFits(k: State, identity: Identity, channel: Channel, memories: seq<MemoryRecord>,
                             ca: Event, ma: Event, i: nat) {
    && ChannelFits(k, identity, channel, ca)
    && MemoryFits(k, identity, memories, ca.op.params.value.userdHandles[0], ca.seqNo, ma, i)
    && OwnersFit(k, identity)
  }

  lemma {:induction false} NoRecord(memories: seq<MemoryRecord>, client: nat, memory: nat)
    ensures OwnedRecords(memories, client, memory) == [] <==>
              forall i :: 0 <= i < |memories| ==> !(memories[i].client == client && memories[i].handle == memory)
  {
    if memories != [] {
      NoRecord(memories[1..], client, memory);
      assert forall i :: 0 <= i < |memories[1..]| ==> memories[1..][i] == memories[i + 1];
    }
  }

  lemma {:induction false} TheRecord(memories: seq<MemoryRecord>, client: nat, memory: nat, i: nat)
    requires OnlyRecord(memories, client, memory, i)
    ensures OwnedRecords(memories, client, memory) == [memories[i]]
  {
    var rest := memories[1..];
    assert forall j :: 0 <= j < |rest| ==> rest[j] == memories[j + 1];
    if i == 0 {
      NoRecord(rest, client, memory);
    } else {
      TheRecord(rest, client, memory, i - 1);
    }
  }

  lemma {:induction false} FindRecord(memories: seq<MemoryRecord>, client: nat, memory: nat) returns (i: nat)
    requires |OwnedRecords(memories, client, memory)| == 1
    ensures OnlyRecord(memories, client, memory, i)
  {
    var rest := memories[1..];
    assert forall j :: 0 <= j < |rest| ==> rest[j] == memories[j + 1];
    if memories[0].client == client && memories[0].handle == memory {
      i := 0;
      NoRecord(rest, client, memory);
      forall j | 0 < j < |memories| ensures !(memories[j].client == client && memories[j].handle == memory) {
        assert rest[j - 1] == memories[j];
      }
    } else {
      var j := FindRecord(rest, client, memory);
      i := j + 1;
      forall j | 0 < j < |memories| && memories[j].client == client && memories[j].handle == memory ensures j == i {
        assert rest[j - 1] == memories[j];
      }
    }
  }

  ghost predicate LayoutIs(k: State, identity: Identity, channel: Channel, memories: seq<MemoryRecord>, layout: Layout) {
    exists i: nat ::
      && LayoutFits(k, identity, channel, memories, layout.channel, layout.memory, i)
      && layout.offset == layout.channel.op.params.value.userdOffsets[0] && layout.record == memories[i]
  }

  /** The layout checks pass, with this outcome, exactly for a layout that fits. */
  lemma LayoutExactly(events: seq<Event>, identity: Identity, channel: Channel, memories: seq<MemoryRecord>, layout: Layout)
    requires Numbered(events)
    ensures ChannelLayout(events, identity, channel, memories) == Ok(layout) <==>
              LayoutIs(Replay(events, |events|), identity, channel, memories, layout)
  {
    hide Birth, Replay, Lives, OwnedChannel, ResolveMemory, OwnerBirths, OnlyRecord, OwnersFit;
    ChannelExactly(events, identity, channel, layout.channel);
    OwnersExactly(events, identity);
    if layout.channel.op.Alloc? && layout.channel.op.params.Some? && |layout.channel.op.params.value.userdHandles| > 0 {
      MemoryExactly(events, identity, memories, layout.channel.op.params.value.userdHandles[0], layout.channel.seqNo,
                    layout.memory, layout.record);
    }
  }

  lemma ChannelExactly(events: seq<Event>, identity: Identity, channel: Channel, ca: Event)
    requires Numbered(events)
    ensures OwnedChannel(events, identity, channel) == Ok(ca) &&
            ca.op.params.value.userdOffsets[0] % 512 == 0 && 0 < ca.op.params.value.gpfifoEntries <==>
              ChannelFits(Replay(events, |events|), identity, channel, ca)
  {
    hide Birth, Replay, Lives;
    BirthMeansLives(events, identity.hClient, channel.handle, ca);
  }

  lemma MemoryExactly(events: seq<Event>, identity: Identity, memories: seq<MemoryRecord>, memory: nat, before: nat,
                      ma: Event, record: MemoryRecord)
    requires Numbered(events)
    ensures ResolveMemory(events, identity, memories, memory, before) == Ok(OwnedMemory(ma, record)) <==>
              exists i: nat ::
                MemoryFits(Replay(events, |events|), identity, memories, memory, before, ma, i) && record == memories[i]
  {
    hide Birth, Replay, Lives, OwnedRecords;
    BirthMeansLives(events, identity.hClient, memory, ma);
    if |OwnedRecords(memories, identity.hClient, memory)| == 1 {
      var i := FindRecord(memories, identity.hClient, memory);
      TheRecord(memories, identity.hClient, memory, i);
      forall j: nat | OnlyRecord(memories, identity.hClient, memory, j) ensures j == i {
      }
    } else {
      forall i: nat ensures !OnlyRecord(memories, identity.hClient, memory, i) {
        if OnlyRecord(memories, identity.hClient, memory, i) {
          TheRecord(memories, identity.hClient, memory, i);
        }
      }
    }
  }

  lemma OwnersExactly(events: seq<Event>, identity: Identity)
    requires Numbered(events)
    ensures OwnerBirths(events, identity).Ok? <==> OwnersFit(Replay(events, |events|), identity)
  {
    hide Birth, Replay, SomeoneLives;
    BirthOkMeansLives(events, identity.hClient, identity.hClient);
    BirthOkMeansLives(events, identity.hClient, identity.device.handle);
    BirthOkMeansLives(events, identity.hClient, identity.subdevice.handle);
    BirthOkMeansLives(events, identity.hClient, identity.group.handle);
  }

  // ----- The mapping

  predicate Apart(start: int, size: int, other: int, otherSize: int) {
    start + size <= other || other + otherSize <= start
  }

  /** A readable RM mapping of whole pages of the Memory object, newer than it, that
      holds the whole USERD block. */
  predicate MapsBlock(e: Event, identity: Identity, memory: nat, born: nat, offset: nat) {
    && e.rc == 0 && e.status == 0 && e.seqNo > born
    && match e.op
       case MapMemory(client, device, mem, start, length, flags, _, _) =>
         && client == identity.hClient && mem == memory
         && (device == identity.device.handle || device == identity.subdevice.handle)
         && start % 4096 == 0 && length % 4096 == 0 && (flags % 4 == 0 || flags % 4 == 1)
         && start <= offset && offset + 512 <= start + length
       case _ => false
  }

  /** A call that takes the descriptor's mmap context away from an earlier RM map. */
  predicate TakesContext(e: Event, fd: int) {
    match e.op
    case Close(f) => f == fd
    case MapMemory(_, _, _, _, _, _, f, _) => f == fd && e.rc == 0 && e.status == 0
    case AllocMemory(_, _, _, _, _, _, f) => f == fd && e.rc == 0 && e.status == 0
    case Mmap(f, _, _, _, _, _, _, _) => f == fd
    case _ => false
  }

  /** The mmap at `j` is the first to use what the RM map at `i` put behind its
      descriptor, and asks for just that, readable and shared. */
  predicate Uses(events: seq<Event>, i: nat, j: nat) {
    && i < j < |events| && events[i].op.MapMemory?
    && (forall k :: i < k < j ==> !TakesContext(events[k], events[i].op.mapFd))
    && events[j].rc == 0 && events[j].status == 0 && events[j].tid == events[i].tid
    && match events[j].op
       case Mmap(fd, sig, _, length, offset, readable, shared, _) =>
         && fd == events[i].op.mapFd && sig == events[i].op.mapSig
         && length == events[i].op.length && offset == 0 && readable && shared
       case _ => false
  }

  /** The call may have taken pages of the range, or of the Memory object's mappings. */
  predicate Takes(e: Event, client: nat, memory: nat, address: int, length: int) {
    && e.rc == 0 && e.status == 0
    && match e.op
       case UnmapMemory(c, m) => c == client && m == memory
       case Munmap(a, n) => !Apart(address, length, a, n)
       case Mmap(_, _, a, n, _, _, _, fixed) => fixed && !Apart(address, length, a, n)
       case Mremap(a, n, b, m) => !Apart(address, length, a, n) || !Apart(address, length, b, m)
       case _ => false
  }

  predicate Untaken(events: seq<Event>, j: nat, client: nat, memory: nat) {
    && j < |events| && events[j].op.Mmap?
    && forall k :: j < k < |events| ==>
         !Takes(events[k], client, memory, events[j].op.address, events[j].op.length)
  }

  /** The line of the memory map covers the bytes, readable and shared whatever stands in
      between, and shows the mmap's file at the matching place. */
  predicate Backs(v: Vma, mm: Event, cpu: int, bytes: nat) {
    && mm.op.Mmap? && v.start <= cpu && cpu + bytes <= v.end
    && v.perms != "" && v.perms[0] == 'r' && v.perms[|v.perms| - 1] == 's'
    && mm.op.sig.path.Some? && v.path == mm.op.sig.path.value && v.inode == mm.op.sig.ino
    && v.fileOffset + mm.op.address == v.start
  }

  predicate OnlyVma(vmas: seq<Vma>, mm: Event, cpu: int, bytes: nat, i: nat) {
    && i < |vmas| && Backs(vmas[i], mm, cpu, bytes)
    && forall j :: 0 <= j < |vmas| && Backs(vmas[j], mm, cpu, bytes) ==> j == i
  }

  ghost predicate OneVma(vmas: seq<Vma>, mm: Event, cpu: int, bytes: nat) {
    exists i: nat :: OnlyVma(vmas, mm, cpu, bytes, i)
  }

  /** Where the block at `offset` of the Memory object lies. */
  function AddressOf(setup: Event, mm: Event, offset: nat): int {
    if setup.op.MapMemory? && mm.op.Mmap? then mm.op.address + offset - setup.op.offset else 0
  }

  /** The RM map at `i` survives, through the mmap at `j`. */
  ghost predicate Survives(events: seq<Event>, identity: Identity, layout: Layout, vmas: seq<Vma>, i: nat, j: nat) {
    && IsAllocation(layout.memory.op) && Uses(events, i, j)
    && MapsBlock(events[i], identity, layout.memory.op.handle, layout.memory.seqNo, layout.offset)
    && Untaken(events, j, identity.hClient, layout.memory.op.handle)
    && OneVma(vmas, events[j], AddressOf(events[i], events[j], layout.offset), 512)
  }

  lemma {:induction false} NoMmapYet(events: seq<Event>, i: nat, n: nat)
    requires Numbered(events) && i < n <= |events| && events[i].op.MapMemory?
    requires forall k :: i < k < n ==> !TakesContext(events[k], events[i].op.mapFd)
    ensures FirstMmap(events, events[i], 0) == FirstMmap(events, events[i], n)
  {
    if n == i + 1 {
      Skipped(events, i, 0);
    } else {
      NoMmapYet(events, i, n - 1);
    }
  }

  lemma {:induction false} Skipped(events: seq<Event>, i: nat, n: nat)
    requires Numbered(events) && n <= i < |events| && events[i].op.MapMemory?
    ensures FirstMmap(events, events[i], n) == FirstMmap(events, events[i], i + 1)
    decreases i - n
  {
    if n < i {
      Skipped(events, i, n + 1);
    }
  }

  /** The context of the RM map at `i` is used at `j` or taken there, first. */
  lemma {:induction false} FirstTaker(events: seq<Event>, i: nat, n: nat) returns (j: nat)
    requires i < n <= |events| && events[i].op.MapMemory?
    requires exists k :: n <= k < |events| && TakesContext(events[k], events[i].op.mapFd)
    ensures n <= j < |events| && TakesContext(events[j], events[i].op.mapFd)
    ensures forall k :: n <= k < j ==> !TakesContext(events[k], events[i].op.mapFd)
    decreases |events| - n
  {
    if TakesContext(events[n], events[i].op.mapFd) {
      j := n;
    } else {
      j := FirstTaker(events, i, n + 1);
    }
  }

  /** The search for the mmap, and the comparison of its arguments, succeed exactly for
      the mmap that uses the RM map. */
  lemma MmapExactly(events: seq<Event>, i: nat, mm: Event)
    requires Numbered(events) && i < |events| && events[i].op.MapMemory?
    ensures FirstMmap(events, events[i], 0) == Some(mm) && mm.op.Mmap? && SameRequest(events[i], mm) <==>
              exists j: nat :: j < |events| && Uses(events, i, j) && mm == events[j]
  {
    if exists k :: i + 1 <= k < |events| && TakesContext(events[k], events[i].op.mapFd) {
      var j := FirstTaker(events, i, i + 1);
      NoMmapYet(events, i, j);
      forall m: nat | Uses(events, i, m) ensures m == j {
        assert TakesContext(events[m], events[i].op.mapFd);
      }
      assert FirstMmap(events, events[i], 0) == Some(mm) && mm.op.Mmap? && SameRequest(events[i], mm) <==>
             Uses(events, i, j) && mm == events[j];
    } else {
      NoMmapYet(events, i, |events|);
      forall m: nat ensures !Uses(events, i, m) {
        if Uses(events, i, m) {
          assert TakesContext(events[m], events[i].op.mapFd);
        }
      }
    }
  }

  lemma UntakenExactly(events: seq<Event>, j: nat, client: nat, memory: nat)
    requires Numbered(events) && j < |events| && events[j].op.Mmap?
    ensures Untaken(events, j, client, memory) <==> !Invalidated(events, events[j], client, memory, |events|)
  {
    var a, n := events[j].op.address, events[j].op.length;
    forall k | j < k < |events|
      ensures Takes(events[k], client, memory, a, n) <==>
                Succeeded(events[k]) && Disturbs(events[k], client, memory, a, n) && events[k].seqNo > events[j].seqNo
    {
    }
  }

  lemma BacksExactly(v: Vma, mm: Event, cpu: int, bytes: nat)
    requires mm.op.Mmap?
    ensures Backs(v, mm, cpu, bytes) <==> ShowsUserd(v, mm, cpu, bytes)
  {
  }

  lemma {:induction false} NoVma(vmas: seq<Vma>, mm: Event, cpu: int, bytes: nat)
    requires mm.op.Mmap?
    ensures LiveVmas(vmas, mm, cpu, bytes) == [] <==> forall i :: 0 <= i < |vmas| ==> !Backs(vmas[i], mm, cpu, bytes)
  {
    hide Backs, ShowsUserd;
    if vmas != [] {
      BacksExactly(vmas[0], mm, cpu, bytes);
      NoVma(vmas[1..], mm, cpu, bytes);
      assert forall i :: 0 <= i < |vmas[1..]| ==> vmas[1..][i] == vmas[i + 1];
    }
  }

  /** Counting the lines finds one exactly if one line backs the bytes. */
  lemma {:induction false} VmaExactly(vmas: seq<Vma>, mm: Event, cpu: int, bytes: nat)
    requires mm.op.Mmap?
    ensures |LiveVmas(vmas, mm, cpu, bytes)| == 1 <==> OneVma(vmas, mm, cpu, bytes)
  {
    hide Backs, ShowsUserd;
    if vmas != [] {
      var rest := vmas[1..];
      assert forall i :: 0 <= i < |rest| ==> rest[i] == vmas[i + 1];
      BacksExactly(vmas[0], mm, cpu, bytes);
      VmaExactly(rest, mm, cpu, bytes);
      NoVma(rest, mm, cpu, bytes);
      if Backs(vmas[0], mm, cpu, bytes) {
        FirstBacks(vmas, mm, cpu, bytes);
      } else {
        FirstFails(vmas, mm, cpu, bytes);
      }
    }
  }

  lemma FirstBacks(vmas: seq<Vma>, mm: Event, cpu: int, bytes: nat)
    requires vmas != [] && Backs(vmas[0], mm, cpu, bytes)
    ensures OneVma(vmas, mm, cpu, bytes) <==> forall i :: 0 <= i < |vmas[1..]| ==> !Backs(vmas[1..][i], mm, cpu, bytes)
  {
    hide Backs;
    if forall i :: 0 <= i < |vmas[1..]| ==> !Backs(vmas[1..][i], mm, cpu, bytes) {
      forall j | 0 < j < |vmas| ensures !Backs(vmas[j], mm, cpu, bytes) {
        assert vmas[j] == vmas[1..][j - 1];
      }
      assert OnlyVma(vmas, mm, cpu, bytes, 0);
    } else {
      var j :| 0 <= j < |vmas[1..]| && Backs(vmas[1..][j], mm, cpu, bytes);
      assert vmas[j + 1] == vmas[1..][j];
    }
  }

  lemma FirstFails(vmas: seq<Vma>, mm: Event, cpu: int, bytes: nat)
    requires vmas != [] && !Backs(vmas[0], mm, cpu, bytes)
    ensures OneVma(vmas, mm, cpu, bytes) <==> OneVma(vmas[1..], mm, cpu, bytes)
  {
    hide Backs;
    var rest := vmas[1..];
    assert forall i :: 0 <= i < |rest| ==> rest[i] == vmas[i + 1];
    if OneVma(vmas, mm, cpu, bytes) {
      var i: nat :| OnlyVma(vmas, mm, cpu, bytes, i);
      assert OnlyVma(rest, mm, cpu, bytes, i - 1);
    }
    if OneVma(rest, mm, cpu, bytes) {
      var i: nat :| OnlyVma(rest, mm, cpu, bytes, i);
      forall j | 0 <= j < |vmas| && Backs(vmas[j], mm, cpu, bytes) ensures j == i + 1 {
        assert rest[j - 1] == vmas[j];
      }
      assert OnlyVma(vmas, mm, cpu, bytes, i + 1);
    }
  }

  /** An RM map gives rise to a candidate exactly if it survives. */
  lemma CandidateExactly(events: seq<Event>, identity: Identity, layout: Layout, vmas: seq<Vma>, i: nat, c: Candidate)
    requires Numbered(events) && i < |events| && IsAllocation(layout.memory.op)
    ensures CandidateOf(events, events[i], identity, layout, vmas) == Some(c) <==>
              exists j: nat ::
                && Survives(events, identity, layout, vmas, i, j)
                && c == Candidate(events[i], events[j], AddressOf(events[i], events[j], layout.offset))
  {
    hide FirstMmap, SameRequest, Invalidated, Untaken, LiveVmas, OneVma, Uses;
    var setup := events[i];
    assert MapsUserd(setup, identity, layout) <==>
           MapsBlock(setup, identity, layout.memory.op.handle, layout.memory.seqNo, layout.offset);
    if MapsUserd(setup, identity, layout) {
      var found := FirstMmap(events, setup, 0);
      if found.Some? && SameRequest(setup, found.value) {
        MmapExactly(events, i, found.value);
        var j: nat :| j < |events| && Uses(events, i, j) && found.value == events[j];
        UsesIndex(events, i, j);
        UntakenExactly(events, j, identity.hClient, setup.op.memory);
        VmaExactly(vmas, found.value, AddressOf(setup, found.value, layout.offset), 512);
        OnlyUse(events, i, j);
      } else {
        forall j: nat ensures !Uses(events, i, j) {
          if Uses(events, i, j) {
            UsesIndex(events, i, j);
            MmapExactly(events, i, events[j]);
          }
        }
      }
    }
  }

  lemma UsesIndex(events: seq<Event>, i: nat, j: nat)
    requires Uses(events, i, j)
    ensures i < j < |events| && events[i].op.MapMemory? && events[j].op.Mmap?
  {
  }

  lemma OnlyUse(events: seq<Event>, i: nat, j: nat)
    requires Uses(events, i, j)
    ensures forall m: nat :: Uses(events, i, m) ==> m == j
  {
    forall m: nat | Uses(events, i, m) ensures m == j {
      assert TakesContext(events[m], events[i].op.mapFd) && TakesContext(events[j], events[i].op.mapFd);
    }
  }

  ghost predicate Survivor(events: seq<Event>, identity: Identity, layout: Layout, vmas: seq<Vma>, i: nat) {
    exists j: nat :: Survives(events, identity, layout, vmas, i, j)
  }

  lemma SurvivorExactly(events: seq<Event>, identity: Identity, layout: Layout, vmas: seq<Vma>, i: nat)
    requires Numbered(events) && i < |events| && IsAllocation(layout.memory.op)
    ensures CandidateOf(events, events[i], identity, layout, vmas).Some? <==> Survivor(events, identity, layout, vmas, i)
  {
    hide CandidateOf, Survives;
    var c := CandidateOf(events, events[i], identity, layout, vmas);
    if c.Some? {
      CandidateExactly(events, identity, layout, vmas, i, c.value);
    }
    if j: nat :| Survives(events, identity, layout, vmas, i, j) {
      SurvivesIndex(events, identity, layout, vmas, i, j);
      CandidateExactly(events, identity, layout, vmas, i,
                       Candidate(events[i], events[j], AddressOf(events[i], events[j], layout.offset)));
    }
  }

  lemma {:induction false} NoCandidates(events: seq<Event>, n: nat, identity: Identity, layout: Layout, vmas: seq<Vma>)
    requires Numbered(events) && n <= |events| && IsAllocation(layout.memory.op)
    ensures Candidates(events, n, identity, layout, vmas) == [] <==>
              forall i :: 0 <= i < n ==> !Survivor(events, identity, layout, vmas, i)
  {
    hide CandidateOf, Survivor;
    if n > 0 {
      NoCandidates(events, n - 1, identity, layout, vmas);
      SurvivorExactly(events, identity, layout, vmas, n - 1);
    }
  }

  /** `i` is the one survivor among the first `n` events. */
  ghost predicate OnlySurvivor(events: seq<Event>, n: nat, identity: Identity, layout: Layout, vmas: seq<Vma>, i: nat) {
    && i < n && Survivor(events, identity, layout, vmas, i)
    && forall m :: 0 <= m < n && Survivor(events, identity, layout, vmas, m) ==> m == i
  }

  lemma {:induction false} TheCandidate(events: seq<Event>, n: nat, identity: Identity, layout: Layout, vmas: seq<Vma>, i: nat)
    requires Numbered(events) && n <= |events| && IsAllocation(layout.memory.op)
    requires OnlySurvivor(events, n, identity, layout, vmas, i)
    ensures CandidateOf(events, events[i], identity, layout, vmas).Some?
    ensures Candidates(events, n, identity, layout, vmas) == [CandidateOf(events, events[i], identity, layout, vmas).value]
  {
    hide CandidateOf, Survivor;
    SurvivorExactly(events, identity, layout, vmas, n - 1);
    if i == n - 1 {
      NoCandidates(events, n - 1, identity, layout, vmas);
    } else {
      TheCandidate(events, n - 1, identity, layout, vmas, i);
    }
  }

  lemma {:induction false} FindSurvivor(events: seq<Event>, n: nat, identity: Identity, layout: Layout, vmas: seq<Vma>)
    returns (i: nat)
    requires Numbered(events) && n <= |events| && IsAllocation(layout.memory.op)
    requires |Candidates(events, n, identity, layout, vmas)| == 1
    ensures OnlySurvivor(events, n, identity, layout, vmas, i)
  {
    hide CandidateOf, Survivor;
    SurvivorExactly(events, identity, layout, vmas, n - 1);
    if CandidateOf(events, events[n - 1], identity, layout, vmas).Some? {
      i := n - 1;
      NoCandidates(events, n - 1, identity, layout, vmas);
    } else {
      i := FindSurvivor(events, n - 1, identity, layout, vmas);
    }
  }

  // ----- Acceptance

  /** Every field of the binding, from the evidence it reports. */
  predicate Reports(u: UserdBinding, channel: Channel, layout: Layout, setup: Event, mm: Event) {
    && u.channelGeneration == channel.generation && u.memoryGeneration == layout.record.generation
    && u.channelAllocSeq == layout.channel.seqNo && u.memoryAllocSeq == layout.memory.seqNo
    && u.rmMapSeq == setup.seqNo && u.mmapSeq == mm.seqNo && u.userdOffset == layout.offset
    && mm.op.Mmap? && u.mappingBytes == mm.op.length
    && layout.channel.op.Alloc? && layout.channel.op.params.Some?
    && u.gpfifoEntries == layout.channel.op.params.value.gpfifoEntries
    && u.gpfifoVa == layout.channel.op.params.value.gpfifoVa
    && setup.op.MapMemory? && u.userdCpuAddress == mm.op.address + layout.offset - setup.op.offset
  }

  /** The layout fits, one RM map survives, through this mmap, and these are reported. */
  ghost predicate Evidences(events: seq<Event>, identity: Identity, channel: Channel, memories: seq<MemoryRecord>,
                            vmas: seq<Vma>, u: UserdBinding, layout: Layout, i: nat, j: nat) {
    && LayoutIs(Replay(events, |events|), identity, channel, memories, layout)
    && OnlySurvivor(events, |events|, identity, layout, vmas, i)
    && Survives(events, identity, layout, vmas, i, j)
    && Reports(u, channel, layout, events[i], events[j])
  }

  /** `resolve_channel` answers with a binding exactly if its layout fits the replayed
      machine, exactly one RM map survives, and the binding reports just those. */
  lemma ResolveChannelExactly(events: seq<Event>, identity: Identity, channel: Channel, memories: seq<MemoryRecord>,
                              vmas: seq<Vma>, u: UserdBinding)
    requires Numbered(events)
    ensures ResolveChannel(events, identity, channel, memories, vmas) == Ok(u) <==>
              exists layout, i: nat, j: nat :: Evidences(events, identity, channel, memories, vmas, u, layout, i, j)
  {
    hide LayoutIs, CandidateOf, Candidates, Replay, Birth, OnlySurvivor, Survives, ChannelLayout, Reports;
    if ResolveChannel(events, identity, channel, memories, vmas) == Ok(u) {
      var layout := ChannelLayout(events, identity, channel, memories).value;
      LayoutExactly(events, identity, channel, memories, layout);
      var i := FindSurvivor(events, |events|, identity, layout, vmas);
      var j := ReportedBy(events, identity, channel, memories, vmas, u, layout, i);
      assert Evidences(events, identity, channel, memories, vmas, u, layout, i, j);
    }
    if layout, i: nat, j: nat :| Evidences(events, identity, channel, memories, vmas, u, layout, i, j) {
      LayoutExactly(events, identity, channel, memories, layout);
      EvidenceReported(events, identity, channel, memories, vmas, u, layout, i, j);
    }
  }

  lemma ReportedBy(events: seq<Event>, identity: Identity, channel: Channel, memories: seq<MemoryRecord>,
                   vmas: seq<Vma>, u: UserdBinding, layout: Layout, i: nat) returns (j: nat)
    requires Numbered(events) && ChannelLayout(events, identity, channel, memories) == Ok(layout)
    requires ResolveChannel(events, identity, channel, memories, vmas) == Ok(u)
    requires OnlySurvivor(events, |events|, identity, layout, vmas, i)
    ensures Survives(events, identity, layout, vmas, i, j) && Reports(u, channel, layout, events[i], events[j])
  {
    hide CandidateOf, Candidates, Birth, ChannelLayout, Survivor;
    TheCandidate(events, |events|, identity, layout, vmas, i);
    var c := CandidateOf(events, events[i], identity, layout, vmas).value;
    CandidateExactly(events, identity, layout, vmas, i, c);
    hide Survives;
    j :| Survives(events, identity, layout, vmas, i, j)
         && c == Candidate(events[i], events[j], AddressOf(events[i], events[j], layout.offset));
    SurvivesIndex(events, identity, layout, vmas, i, j);
  }

  lemma SurvivesIndex(events: seq<Event>, identity: Identity, layout: Layout, vmas: seq<Vma>, i: nat, j: nat)
    requires Survives(events, identity, layout, vmas, i, j)
    ensures i < j < |events| && events[i].op.MapMemory? && events[j].op.Mmap?
  {
  }

  lemma EvidenceReported(events: seq<Event>, identity: Identity, channel: Channel, memories: seq<MemoryRecord>,
                         vmas: seq<Vma>, u: UserdBinding, layout: Layout, i: nat, j: nat)
    requires Numbered(events) && ChannelLayout(events, identity, channel, memories) == Ok(layout)
    requires OnlySurvivor(events, |events|, identity, layout, vmas, i)
    requires Survives(events, identity, layout, vmas, i, j) && Reports(u, channel, layout, events[i], events[j])
    ensures ResolveChannel(events, identity, channel, memories, vmas) == Ok(u)
  {
    hide CandidateOf, Candidates, Birth, ChannelLayout, Survivor, Survives;
    SurvivesIndex(events, identity, layout, vmas, i, j);
    TheCandidate(events, |events|, identity, layout, vmas, i);
    var c := Candidate(events[i], events[j], AddressOf(events[i], events[j], layout.offset));
    CandidateExactly(events, identity, layout, vmas, i, c);
    assert u == BindingOf(channel, layout, c);
  }
}
